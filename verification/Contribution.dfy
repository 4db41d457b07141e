// Main results about the contribution protocol, over every run.
module Contribution {
  import opened Options
  import opened Jobs
  import opened Server
  import opened Queue
  import opened Upload
  import opened Pipeline
  import opened Protocol
  import opened ProtocolSafety

  ghost predicate Sane(setting: Setting) {
    setting.policy.retry.maxAttempts <= Upload.U32_MAX
  }

  // ----- every step keeps the invariant -----------------------------------------------

  lemma PlanStep(w: World, setting: Setting, id: string, sessionId: string, facts: Facts, now: int)
    requires Inv(w, setting) && id !in w.known
    ensures Inv(Next(w, setting, Plan(id, sessionId, facts, now)), setting)
  {
    var after := Enqueue(w.q, setting.policy.target, id, sessionId, facts, now);
    if after == w.q {
      KnownKeeps(w, setting, id);
    } else {
      PlanKeeps(w, setting, id, after.jobs[id]);
    }
  }

  lemma ClaimStep(w: World, setting: Setting, id: string, now: int)
    requires Inv(w, setting) && id !in w.builds
    ensures Inv(Next(w, setting, ClaimJob(id, now)), setting)
  {
    if id in w.q.jobs && w.q.jobs[id].state.LocalPending? {
      var refusal := Recheck(w.q.ConsentOf(w.q.jobs[id].consentId), setting.policy.target, now);
      if refusal.Some? {
        EndKeeps(w, setting, id, Rejected, RefusalCode(refusal.value), now);
      } else {
        TransitionKeeps(w, setting, id, Analyzing, NO_UPDATE, now);
      }
    }
  }

  lemma ConsentStep(w: World, setting: Setting, a: Action)
    requires Inv(w, setting) && (a.Grant? || a.Pause? || a.Revoke?)
    ensures Inv(Next(w, setting, a), setting)
  {
    match a {
      case Grant(record) => ConsentsKeep(w, setting, InsertConsent(w.q, record));
      case Pause(id, paused) => ConsentsKeep(w, setting, SetPaused(w.q, id, paused));
      case Revoke(id, now) => ConsentsKeep(w, setting, RevokeConsent(w.q, id, now));
    }
  }

  lemma JobStep(w: World, setting: Setting, a: Action)
    requires Inv(w, setting) && Allowed(w, setting, a)
    requires a.Move? || a.DropJob? || a.Withdraw? || a.Expire?
    ensures Inv(Next(w, setting, a), setting)
  {
    match a {
      case Move(id, target, now) => TransitionKeeps(w, setting, id, target, NO_UPDATE, now);
      case DropJob(id, reason, now) => EndKeeps(w, setting, id, Rejected, reason, now);
      case Withdraw(reason, now) => WithdrawKeeps(w, setting, reason, now);
      case Expire(id, now) => TransitionKeeps(w, setting, id, Deleted, Because("expired"), now);
    }
  }

  lemma CleanupStep(w: World, setting: Setting, a: Action)
    requires Inv(w, setting) && Allowed(w, setting, a)
    requires a.Purge? || a.LosePackage? || a.AskDeletion? || a.ConfirmDeletion?
    ensures Inv(Next(w, setting, a), setting)
  {
    match a {
      case Purge(id) => PurgeKeeps(w, setting, id);
      case LosePackage(id) => DropPackageKeeps(w, setting, id);
      case AskDeletion(requestId, scope) => DeletionsKeep(w, setting, InsertDeletion(w.q, requestId, scope));
      case ConfirmDeletion(requestId) => DeletionsKeep(w, setting, CompleteDeletion(w.q, requestId));
    }
  }

  lemma TransferStep(w: World, setting: Setting, a: Action)
    requires Inv(w, setting) && Allowed(w, setting, a) && Sane(setting)
    requires a.Collect? || a.StartUpload? || a.EndUpload?
    ensures Inv(Next(w, setting, a), setting)
  {
    match a {
      case Collect(order, now) => CollectKeeps(w, setting, order, now);
      case StartUpload(now) => StartKeeps(w, setting, now);
      case EndUpload(response, requestId, now) => EndKeepsAll(w, setting, response, requestId, now);
    }
  }

  lemma ServerStep(w: World, setting: Setting, a: Action)
    requires Inv(w, setting) && Allowed(w, setting, a)
    requires a.Arrive? || a.ServerDoes? || a.ServeDeletion?
    ensures Inv(Next(w, setting, a), setting)
  {
    match a {
      case Arrive(message, receiptId, now) => ArriveKeeps(w, setting, message, receiptId, now);
      case ServerDoes(op) => ServerDoesKeeps(w, setting, op);
      case ServeDeletion(requestId) => ServeKeeps(w, setting, requestId);
    }
  }

  lemma QueueStep(w: World, setting: Setting, a: Action)
    requires Inv(w, setting) && Allowed(w, setting, a)
    requires a.Plan? || a.ClaimJob? || a.Publish? || a.Move? || a.DropJob? || a.Withdraw? || a.Expire?
    ensures Inv(Next(w, setting, a), setting)
  {
    match a {
      case Plan(id, sessionId, facts, now) => PlanStep(w, setting, id, sessionId, facts, now);
      case ClaimJob(id, now) => ClaimStep(w, setting, id, now);
      case Publish(id, built, now) => PublishKeeps(w, setting, id, built, now);
      case _ => JobStep(w, setting, a);
    }
  }

  lemma NextKeeps(w: World, setting: Setting, a: Action)
    requires Inv(w, setting) && Allowed(w, setting, a) && Sane(setting)
    ensures Inv(Next(w, setting, a), setting)
  {
    match a {
      case Grant(_) | Pause(_, _) | Revoke(_, _) => ConsentStep(w, setting, a);
      case Purge(_) | LosePackage(_) | AskDeletion(_, _) | ConfirmDeletion(_) => CleanupStep(w, setting, a);
      case Collect(_, _) | StartUpload(_) | EndUpload(_, _, _) => TransferStep(w, setting, a);
      case Arrive(_, _, _) | ServerDoes(_) | ServeDeletion(_) => ServerStep(w, setting, a);
      case _ => QueueStep(w, setting, a);
    }
  }

  lemma AllowedFront(setting: Setting, w: World, actions: seq<Action>)
    requires AllowedRun(setting, w, actions) && actions != []
    ensures AllowedRun(setting, w, actions[..|actions| - 1])
    ensures Allowed(Run(setting, w, actions[..|actions| - 1]), setting, actions[|actions| - 1])
  {
    var before := actions[..|actions| - 1];
    forall k | 0 <= k < |before| ensures Allowed(Run(setting, w, before[..k]), setting, before[k]) {
      assert before[..k] == actions[..k] && Allowed(Run(setting, w, actions[..k]), setting, actions[k]);
    }
    assert Allowed(Run(setting, w, actions[..|before|]), setting, actions[|before|]);
  }

  lemma {:induction false} RunKeeps(setting: Setting, w: World, actions: seq<Action>)
    requires Inv(w, setting) && Sane(setting) && AllowedRun(setting, w, actions)
    ensures Inv(Run(setting, w, actions), setting)
  {
    if actions != [] {
      AllowedFront(setting, w, actions);
      RunKeeps(setting, w, actions[..|actions| - 1]);
      NextKeeps(Run(setting, w, actions[..|actions| - 1]), setting, actions[|actions| - 1]);
    }
  }

  lemma StartIsFine(setting: Setting)
    ensures Inv(START, setting)
  {
  }

  // ----- exactly once --------------------------------------------------------------------

  // Every transfer of a job carries the one key of that job, and no other job's
  // transfers carry it.
  ghost predicate OneKeyPerJob(marks: seq<Mark>) {
    forall i, k :: 0 <= i < |marks| && 0 <= k < |marks| && marks[i].Sent? && marks[k].Sent? ==>
      (marks[i].id == marks[k].id <==> marks[i].key == marks[k].key)
  }

  ghost predicate OneSamplePerKey(marks: seq<Mark>) {
    forall i, k :: 0 <= i < k < |marks| && marks[i].Created? && marks[k].Created? ==> marks[i].key != marks[k].key
  }

  // The server holds the accepted receipt `rid` under the key of job `j`, for
  // the sample of that job's package.
  ghost predicate ServerAccepted(w: World, setting: Setting, j: string, rid: string) {
    && j in w.builds && (setting.tenant.id, w.builds[j].key) in w.store.receipts
    && w.builds[j].archive.content.Package?
    && w.store.receipts[(setting.tenant.id, w.builds[j].key)]
        == StoredReceipt(rid, true, w.store.receipts[(setting.tenant.id, w.builds[j].key)].reason,
                         w.builds[j].archive.content.sampleId)
  }

  // Over every run: one key per job, at most one sample per key, a bounded
  // number of transfers per job, and every acknowledged job holds exactly the
  // receipt the server stored as accepted for it.
  lemma ExactlyOnce(setting: Setting, actions: seq<Action>, j: string)
    requires Sane(setting) && AllowedRun(setting, START, actions)
    ensures var w := Run(setting, START, actions);
      && OneKeyPerJob(w.marks) && OneSamplePerKey(w.marks)
      && SentCount(w.marks, j) <= AttemptLimit(setting)
      && (j in w.q.jobs && w.q.jobs[j].state.Acknowledged? ==> HasReceipt(w.q.receipts, j))
      && (forall rid :: (j, rid) in w.q.receipts && w.q.receipts[(j, rid)] ==> ServerAccepted(w, setting, j, rid))
  {
    var w := Run(setting, START, actions);
    StartIsFine(setting);
    RunKeeps(setting, START, actions);
    forall rid | (j, rid) in w.q.receipts && w.q.receipts[(j, rid)] ensures ServerAccepted(w, setting, j, rid) {
      assert ReceiptOk((j, rid), true, w.q.deletions, w.q.jobs, w.builds, w.store.receipts, setting);
    }
    if j in w.q.jobs {
      assert JobOk(w.q.jobs[j], j, w.marks, w.builds, w.transfer, w.q.receipts, setting);
    }
  }

  // ----- withdrawal wins -------------------------------------------------------------------

  // Job `j` is over: no active row, no package, no accepted receipt.
  ghost predicate RowsOver(q: Rows, j: string) {
    && (j in q.jobs ==> q.jobs[j].state.Deleted?) && j !in q.packages
    && (forall rid :: (j, rid) in q.receipts ==> !q.receipts[(j, rid)])
  }

  ghost predicate Over(w: World, j: string) {
    j in w.known && RowsOver(w.q, j)
  }

  ghost predicate EverAcked(marks: seq<Mark>, j: string) {
    exists k :: 0 <= k < |marks| && marks[k].Acked? && marks[k].id == j
  }

  lemma ActiveHasNoReceipt(w: World, setting: Setting, j: string)
    requires Inv(w, setting) && j in w.q.jobs && !w.q.jobs[j].state.IsTerminal()
    ensures forall r :: r in w.q.receipts ==> r.0 != j
  {
    forall r | r in w.q.receipts ensures r.0 != j {
      assert ReceiptOk(r, w.q.receipts[r], w.q.deletions, w.q.jobs, w.builds, w.store.receipts, setting);
    }
  }

  lemma WithdrawnIsOver(w: World, setting: Setting, reason: string, now: int, j: string)
    requires Inv(w, setting) && j in w.q.jobs && !w.q.jobs[j].state.IsTerminal()
    ensures Over(Next(w, setting, Withdraw(reason, now)), j)
  {
    ActiveHasNoReceipt(w, setting, j);
    var after := CancelAllJobs(w.q, reason, now);
    assert after.receipts == w.q.receipts && j !in after.packages;
  }

  lemma TransitionStaysOver(q: Rows, id: string, target: JobState, u: JobUpdate, now: int, j: string)
    requires RowsOver(q, j)
    ensures RowsOver(TryTransition(q, id, target, u, now), j)
    ensures TransitionJob(q, id, target, u, now).Some? ==> id != j
  {
  }

  lemma EndedStaysOver(q: Rows, id: string, reason: string, now: int, j: string)
    requires RowsOver(q, j)
    ensures RowsOver(CancelJob(q, id, reason, now), j) && RowsOver(FinishRejected(q, id, reason, now), j)
  {
    TransitionStaysOver(q, id, Deleted, Because(reason), now, j);
    TransitionStaysOver(q, id, Rejected, Because(reason), now, j);
  }

  lemma RescheduleStaysOver(q: Rows, id: string, next: int, reason: string, now: int, j: string)
    requires RowsOver(q, j)
    ensures RowsOver(Or(RescheduleJob(q, id, next, reason, now), q), j)
  {
  }

  lemma SendStaysOver(q: Rows, id: string, attempts: nat, now: int, j: string)
    requires RowsOver(q, j)
    ensures var moved := TransitionJob(q, id, Uploading, NO_UPDATE.(attempts := Some(attempts)), now);
      moved.Some? ==> RowsOver(moved.value, j) && id != j
  {
    TransitionStaysOver(q, id, Uploading, NO_UPDATE.(attempts := Some(attempts)), now, j);
  }

  // A job that is over is never sent again.
  lemma BeginStaysOver(q: Rows, policy: UploadPolicy, id: string, job: Job, now: int, j: string)
    requires RowsOver(q, j)
    ensures RowsOver(Begin(q, policy, id, job, now).0, j)
    ensures Begin(q, policy, id, job, now).1.Sending? ==> id != j
  {
    var refusal := Recheck(q.ConsentOf(job.consentId), policy.target, now);
    var (packages, seconds) := q.VolumeOn(now);
    if refusal.Some? {
      EndedStaysOver(q, id, RefusalCode(refusal.value), now, j);
    } else if packages >= policy.caps.maxPackagesPerDay || seconds >= policy.caps.maxSecondsPerDay {
      RescheduleStaysOver(q, id, (now / SECONDS_PER_DAY + 1) * SECONDS_PER_DAY, "daily_cap_reached", now, j);
    } else if id !in q.packages {
      EndedStaysOver(q, id, "package_missing_or_expired", now, j);
    } else {
      SendStaysOver(q, id, SmallerOf(job.attempts + 1, Upload.U32_MAX), now, j);
    }
  }

  lemma AcknowledgeStaysOver(q: Rows, t: Transfer, rid: string, now: int, j: string)
    requires RowsOver(q, j) && t.id != j
    ensures RowsOver(Acknowledge(q, t, rid, now), j)
  {
  }

  lemma LateStaysOver(q: Rows, id: string, rid: string, requestId: string, j: string)
    requires RowsOver(q, j)
    ensures RowsOver(KeepLateReceipt(q, id, rid, requestId), j)
  {
  }

  lemma AnsweredStaysOver(q: Rows, policy: UploadPolicy, t: Transfer, receipt: Receipt, requestId: string, now: int, j: string)
    requires RowsOver(q, j)
    ensures var (after, outcome) := Finish(q, policy, t, Answered(receipt), requestId, now);
      RowsOver(after, j) && (outcome.UploadAcknowledged? ==> t.id != j)
  {
    if !receipt.accepted {
      EndedStaysOver(q, t.id, receipt.reason, now, j);
    } else {
      TransitionStaysOver(q, t.id, Acknowledged, NO_UPDATE, now, j);
      LateStaysOver(q, t.id, receipt.receiptId, requestId, j);
      if t.id != j {
        AcknowledgeStaysOver(TryTransition(q, t.id, Acknowledged, NO_UPDATE, now), t, receipt.receiptId, now, j);
      }
    }
  }

  lemma RetriedStaysOver(q: Rows, policy: UploadPolicy, t: Transfer, reason: string, requestId: string, now: int, j: string)
    requires RowsOver(q, j)
    ensures var (after, outcome) := Finish(q, policy, t, Retriable(reason), requestId, now);
      RowsOver(after, j) && !outcome.UploadAcknowledged?
  {
    var delay := RetryDelay(t.job.attempts, true, policy.retry);
    if delay.None? {
      EndedStaysOver(q, t.id, reason, now, j);
    } else {
      TransitionStaysOver(q, t.id, Eligible, Because(reason).(nextAttemptAt := Some(now + delay.value)), now, j);
    }
  }

  // A job that is over is never acknowledged.
  lemma FinishStaysOver(q: Rows, policy: UploadPolicy, t: Transfer, response: Response, requestId: string, now: int, j: string)
    requires RowsOver(q, j)
    ensures RowsOver(Finish(q, policy, t, response, requestId, now).0, j)
    ensures Finish(q, policy, t, response, requestId, now).1.UploadAcknowledged? ==> t.id != j
  {
    match response {
      case Answered(receipt) => AnsweredStaysOver(q, policy, t, receipt, requestId, now, j);
      case Retriable(reason) => RetriedStaysOver(q, policy, t, reason, requestId, now, j);
      case Permanent(reason) => EndedStaysOver(q, t.id, reason, now, j);
      case Unauthorized => EndedStaysOver(q, t.id, "unauthorized", now, j);
    }
  }

  // One more mark, of another job or of no job.
  lemma OtherMarkOnly(marks: seq<Mark>, m: Mark, j: string)
    requires m.Sent? || m.Acked? ==> m.id != j
    ensures SentCount(marks + [m], j) == SentCount(marks, j)
    ensures EverAcked(marks + [m], j) ==> EverAcked(marks, j)
  {
    CountGrows(marks, m, j);
    if EverAcked(marks + [m], j) {
      var k :| 0 <= k < |marks + [m]| && (marks + [m])[k].Acked? && (marks + [m])[k].id == j;
      assert marks[k].Acked? && marks[k].id == j;
    }
  }

  // Job `j` stays over, is not sent and not acknowledged, from `w` to `v`.
  ghost predicate Untouched(w: World, v: World, j: string) {
    && Over(v, j) && SentCount(v.marks, j) == SentCount(w.marks, j) && (EverAcked(v.marks, j) ==> EverAcked(w.marks, j))
  }

  lemma StartStaysOver(w: World, setting: Setting, now: int, j: string)
    requires Over(w, j)
    ensures Untouched(w, StartOn(w, setting, now), j)
  {
    if w.ready != [] && w.transfer.None? {
      var (id, job) := w.ready[0];
      BeginStaysOver(w.q, setting.policy, id, job, now, j);
      var begun := Begin(w.q, setting.policy, id, job, now).1;
      if begun.Sending? {
        OtherMarkOnly(w.marks, Sent(id, begun.transfer.job.key), j);
      }
    }
  }

  lemma EndStaysOver(w: World, setting: Setting, response: Response, requestId: string, now: int, j: string)
    requires Over(w, j)
    ensures Untouched(w, EndOn(w, setting, response, requestId, now), j)
  {
    if w.transfer.Some? {
      var t := w.transfer.value;
      FinishStaysOver(w.q, setting.policy, t, response, requestId, now, j);
      var outcome := Finish(w.q, setting.policy, t, response, requestId, now).1;
      if outcome.UploadAcknowledged? {
        OtherMarkOnly(w.marks, Acked(t.id, outcome.receiptId), j);
      }
    }
  }

  lemma ArriveStaysOver(w: World, setting: Setting, m: Message, receiptId: string, now: int, j: string)
    requires Over(w, j)
    ensures Untouched(w, ArriveOn(w, setting, m, receiptId, now), j)
  {
    if m in w.wire && ArriveOn(w, setting, m, receiptId, now).marks != w.marks {
      OtherMarkOnly(w.marks, Created(m.key, m.archive.content.sampleId), j);
    }
  }

  lemma PublishStaysOver(w: World, setting: Setting, id: string, b: Built, now: int, j: string)
    requires Over(w, j)
    ensures Untouched(w, PublishTo(w, setting, id, b, now), j)
  {
    var consentId := if id in w.q.jobs then w.q.jobs[id].consentId else "";
    var refusal := Recheck(w.q.ConsentOf(consentId), setting.policy.target, now);
    if refusal.Some? {
      EndedStaysOver(w.q, id, RefusalCode(refusal.value), now, j);
    }
  }

  lemma ClaimStaysOver(w: World, setting: Setting, id: string, now: int, j: string)
    requires Over(w, j)
    ensures Untouched(w, Next(w, setting, ClaimJob(id, now)), j)
  {
    if id in w.q.jobs {
      var refusal := Recheck(w.q.ConsentOf(w.q.jobs[id].consentId), setting.policy.target, now);
      if refusal.Some? {
        EndedStaysOver(w.q, id, RefusalCode(refusal.value), now, j);
      } else {
        TransitionStaysOver(w.q, id, Analyzing, NO_UPDATE, now, j);
      }
    }
  }

  // Identifiers are never reused.
  lemma PlanStaysOver(w: World, setting: Setting, id: string, sessionId: string, facts: Facts, now: int, j: string)
    requires Over(w, j) && id !in w.known
    ensures Untouched(w, Next(w, setting, Plan(id, sessionId, facts, now)), j)
  {
  }

  lemma NextStaysOver(w: World, setting: Setting, a: Action, j: string)
    requires Over(w, j) && Allowed(w, setting, a)
    ensures Untouched(w, Next(w, setting, a), j)
  {
    match a {
      case Plan(id, sessionId, facts, now) => PlanStaysOver(w, setting, id, sessionId, facts, now, j);
      case ClaimJob(id, now) => ClaimStaysOver(w, setting, id, now, j);
      case Move(id, target, now) => TransitionStaysOver(w.q, id, target, NO_UPDATE, now, j);
      case DropJob(id, reason, now) => EndedStaysOver(w.q, id, reason, now, j);
      case Publish(id, built, now) => PublishStaysOver(w, setting, id, built, now, j);
      case StartUpload(now) => StartStaysOver(w, setting, now, j);
      case EndUpload(response, requestId, now) => EndStaysOver(w, setting, response, requestId, now, j);
      case Arrive(m, receiptId, now) => ArriveStaysOver(w, setting, m, receiptId, now, j);
      case Expire(id, now) => TransitionStaysOver(w.q, id, Deleted, Because("expired"), now, j);
      case Withdraw(reason, now) => WithdrawStaysOver(w, setting, reason, now, j);
      case Purge(_) | LosePackage(_) => RowsStayOver(w, setting, a, j);
      case _ => OtherStaysOver(w, setting, a, j);
    }
  }

  lemma WithdrawStaysOver(w: World, setting: Setting, reason: string, now: int, j: string)
    requires Over(w, j)
    ensures Untouched(w, Next(w, setting, Withdraw(reason, now)), j)
  {
    assert RowsOver(CancelAllJobs(w.q, reason, now), j);
  }

  lemma RowsStayOver(w: World, setting: Setting, a: Action, j: string)
    requires Over(w, j) && (a.Purge? || a.LosePackage?)
    ensures Untouched(w, Next(w, setting, a), j)
  {
    assert RowsOver(Next(w, setting, a).q, j);
  }

  // What changes no job, package or receipt of the queue.
  lemma OtherStaysOver(w: World, setting: Setting, a: Action, j: string)
    requires Over(w, j)
    requires a.Grant? || a.Pause? || a.Revoke? || a.Collect?
      || a.AskDeletion? || a.ConfirmDeletion? || a.ServeDeletion? || a.ServerDoes?
    ensures Untouched(w, Next(w, setting, a), j)
  {
    OtherLeavesRows(w, setting, a);
  }

  lemma OtherLeavesRows(w: World, setting: Setting, a: Action)
    requires a.Grant? || a.Pause? || a.Revoke? || a.Collect?
      || a.AskDeletion? || a.ConfirmDeletion? || a.ServeDeletion? || a.ServerDoes?
    ensures var after := Next(w, setting, a);
      && after.q.jobs == w.q.jobs && after.q.packages == w.q.packages && after.q.receipts == w.q.receipts
      && after.known == w.known && after.marks == w.marks
  {
  }

  lemma {:induction false} RunStaysOver(setting: Setting, w: World, actions: seq<Action>, j: string)
    requires Over(w, j) && AllowedRun(setting, w, actions)
    ensures Untouched(w, Run(setting, w, actions), j)
  {
    if actions != [] {
      AllowedFront(setting, w, actions);
      RunStaysOver(setting, w, actions[..|actions| - 1], j);
      NextStaysOver(Run(setting, w, actions[..|actions| - 1]), setting, actions[|actions| - 1], j);
    }
  }

  // Withdraw at any point of any run: no job active then is ever active or
  // acknowledged again, its package is gone, no transfer of it starts, and any
  // receipt that still arrives is kept as not accepted with its deletion asked for.
  lemma WithdrawalWins(
    setting: Setting, before: seq<Action>, reason: string, now: int, later: seq<Action>, j: string)
    requires Sane(setting) && AllowedRun(setting, START, before)
    requires var w := Run(setting, START, before); j in w.q.jobs && !w.q.jobs[j].state.IsTerminal()
    requires AllowedRun(setting, Next(Run(setting, START, before), setting, Withdraw(reason, now)), later)
    ensures var w := Run(setting, START, before);
      var v := Run(setting, Next(w, setting, Withdraw(reason, now)), later);
      && (j in v.q.jobs ==> v.q.jobs[j].state.Deleted?) && j !in v.q.packages
      && SentCount(v.marks, j) == SentCount(w.marks, j) && (EverAcked(v.marks, j) ==> EverAcked(w.marks, j))
      && forall rid :: (j, rid) in v.q.receipts ==> !v.q.receipts[(j, rid)] && DeletionAsked(v.q.deletions, rid)
  {
    var w := Run(setting, START, before);
    StartIsFine(setting);
    RunKeeps(setting, START, before);
    var withdrawn := Next(w, setting, Withdraw(reason, now));
    NextKeeps(w, setting, Withdraw(reason, now));
    WithdrawnIsOver(w, setting, reason, now, j);
    RunStaysOver(setting, withdrawn, later, j);
    RunKeeps(setting, withdrawn, later);
    var v := Run(setting, withdrawn, later);
    forall rid | (j, rid) in v.q.receipts ensures !v.q.receipts[(j, rid)] && DeletionAsked(v.q.deletions, rid) {
      assert ReceiptOk((j, rid), v.q.receipts[(j, rid)], v.q.deletions, v.q.jobs, v.builds, v.store.receipts, setting);
    }
  }

  // An accepted reply that reaches a withdrawn transfer is recorded as late.
  lemma LateReplyIsRecorded(w: World, setting: Setting, receipt: Receipt, requestId: string, now: int)
    requires w.transfer.Some? && Over(w, w.transfer.value.id) && receipt.accepted && requestId !in w.q.deletions
    ensures var id, q := w.transfer.value.id, EndOn(w, setting, Answered(receipt), requestId, now).q;
      && q == KeepLateReceipt(w.q, id, receipt.receiptId, requestId)
      && (id, receipt.receiptId) in q.receipts && !q.receipts[(id, receipt.receiptId)]
      && requestId in q.deletions && q.deletions[requestId] == DeletionRequest(OF_RECEIPT + receipt.receiptId, false)
  {
    TransitionStaysOver(w.q, w.transfer.value.id, Acknowledged, NO_UPDATE, now, w.transfer.value.id);
  }
}
