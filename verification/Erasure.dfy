// What a confirmed deletion request means: the sample is gone for good, and so
// is everything built from it.
module Erasure {
  import opened Options
  import opened Jobs
  import opened Lineage
  import opened Server
  import opened Queue
  import opened Upload
  import opened Pipeline
  import opened Protocol
  import opened ProtocolSafety
  import opened Contribution
  import Retention

  // ----- the server's side ----------------------------------------------------------

  // The sample was deleted and did not come back.
  ghost predicate Gone(s: Store, x: string) {
    x in s.tombstones && x !in s.samples
  }

  // No delivery derived from the sample can still be fetched.
  ghost predicate NothingDelivered(s: Store, x: string) {
    forall d :: d in s.deliveries && Reaches(s.edges, x, d) ==> s.deliveries[d].revoked
  }

  // An accepted receipt names a sample node, and a live sample of its own tenant.
  ghost predicate ReceiptsOwn(s: Store) {
    forall k :: k in s.receipts && s.receipts[k].accepted ==>
      var x := s.receipts[k].sampleId;
      x in s.nodes && s.nodes[x].kind.SampleNode? && (x in s.samples ==> s.samples[x].tenant == k.0)
  }

  ghost predicate Sound(s: Store) {
    Retention.Consistent(s) && ReceiptsOwn(s)
  }

  lemma GoneDeliversNothing(s: Store, x: string)
    requires Retention.Consistent(s) && Gone(s, x) && x in s.nodes && s.nodes[x].kind.SampleNode?
    ensures NothingDelivered(s, x)
  {
  }

  lemma AdmissionKeepsOwn(s: Store, key: Key, sampleId: string, sample: Sample, receiptId: string)
    requires ReceiptsOwn(s) && sample.tenant == key.0
    ensures ReceiptsOwn(AdmitSample(s, key, sampleId, sample, receiptId).0)
  {
  }

  lemma UploadKeepsOwn(
    s: Store, tenant: Tenant, key: string, declared: string, archive: Archive, receiptId: string, at: int)
    requires ReceiptsOwn(s)
    ensures ReceiptsOwn(Admit(s, tenant, key, declared, archive, receiptId, at).0)
  {
    if ValidKey(key) && (tenant.id, key) !in s.receipts && RefusalOf(s, tenant, declared, archive, at).None? {
      var sample := Sample(tenant.id, archive.content.consentId, archive.size, at + SAMPLE_RETENTION_SECONDS);
      AdmissionKeepsOwn(s, (tenant.id, key), archive.content.sampleId, sample, receiptId);
    }
  }

  lemma TrainingKeepsOwn(s: Store, tenant: string, names: Retention.Build, delivered: bool, at: int)
    requires ReceiptsOwn(s) && Retention.FreshNames(s, names)
    ensures ReceiptsOwn(Retention.TrainOn(s, tenant, names, delivered, at))
  {
  }

  lemma EndingKeepsOwn(s: Store, after: Store)
    requires ReceiptsOwn(s) && Retention.OnlyEnds(s, after)
    ensures ReceiptsOwn(after)
  {
  }

  lemma OperationKeepsSound(s: Store, op: Retention.Op)
    requires Sound(s) && Retention.Allowed(s, op)
    ensures Sound(Retention.Do(s, op))
  {
    Retention.DoKeepsConsistent(s, op);
    match op {
      case Upload(tenant, key, declared, archive, receiptId, at) =>
        UploadKeepsOwn(s, tenant, key, declared, archive, receiptId, at);
      case Train(owner, names, delivered, at) => TrainingKeepsOwn(s, owner, names, delivered, at);
      case _ =>
        Retention.OthersOnlyEnd(s, op);
        EndingKeepsOwn(s, Retention.Do(s, op));
    }
  }

  // ----- what a request asks for -------------------------------------------------------

  // The samples a request names.
  function SamplesNamed(s: Store, tenant: string, scope: string): set<string> {
    if scope == EVERYTHING then {}
    else if OF_RECEIPT <= scope then Retention.SamplesOfReceipt(s, tenant, scope[|OF_RECEIPT|..])
    else if OF_SAMPLE <= scope then {scope[|OF_SAMPLE|..]}
    else {}
  }

  ghost predicate Erased(s: Store, tenant: string, scope: string) {
    forall x :: x in SamplesNamed(s, tenant, scope) ==> Gone(s, x)
  }

  // A receipt with this identifier was never given, nor asked to be deleted.
  ghost predicate FreshReceipt(w: World, receiptId: string) {
    && (forall k :: k in w.store.receipts ==> w.store.receipts[k].receiptId != receiptId)
    && (forall id :: id in w.q.deletions ==> w.q.deletions[id].scope != OF_RECEIPT + receiptId)
  }

  // The server's random identifiers never repeat, and deletions by sample name
  // the tenant's own samples.
  ghost predicate ServerAllowed(w: World, setting: Setting, a: Action) {
    match a
    case Arrive(_, receiptId, _) => FreshReceipt(w, receiptId)
    case ServerDoes(op) => Retention.Allowed(w.store, op) && (op.Upload? ==> FreshReceipt(w, op.receiptId))
    case ServeDeletion(id) =>
      id in w.q.deletions && OF_SAMPLE <= w.q.deletions[id].scope ==>
        Retention.Allowed(w.store, OpOf(w.store, setting.tenant.id, w.q.deletions[id].scope))
    case _ => true
  }

  // Completed requests were carried out, and what was carried out stays done.
  ghost predicate Carried(deletions: map<string, DeletionRequest>, served: set<string>, s: Store, tenant: string) {
    && served <= deletions.Keys
    && (forall id :: id in deletions && deletions[id].completed ==> id in served)
    && (forall id :: id in served ==> Erased(s, tenant, deletions[id].scope))
  }

  ghost predicate ErasureInv(w: World, setting: Setting) {
    Sound(w.store) && Carried(w.q.deletions, w.served, w.store, setting.tenant.id)
  }

  // What an action has the server do.
  function ServerOp(w: World, setting: Setting, a: Action): Option<Retention.Op> {
    match a
    case Arrive(m, receiptId, now) =>
      if m in w.wire then Some(Retention.Upload(setting.tenant, m.key, m.declared, m.archive, receiptId, now)) else None
    case ServeDeletion(id) =>
      if id in w.q.deletions && Recognized(w.q.deletions[id].scope) then
        Some(OpOf(w.store, setting.tenant.id, w.q.deletions[id].scope))
      else None
    case ServerDoes(op) => Some(op)
    case _ => None
  }

  predicate ClientOnly(a: Action) {
    !a.Arrive? && !a.ServeDeletion? && !a.ServerDoes?
  }

  lemma ClientLeavesServer(w: World, setting: Setting, a: Action)
    requires ClientOnly(a)
    ensures Next(w, setting, a).store == w.store && Next(w, setting, a).served == w.served
  {
  }

  lemma StoreFollows(w: World, setting: Setting, a: Action)
    ensures var op := ServerOp(w, setting, a);
      Next(w, setting, a).store == if op.Some? then Retention.Do(w.store, op.value) else w.store
  {
    if ClientOnly(a) {
      ClientLeavesServer(w, setting, a);
    }
  }

  // ----- steps of the server -------------------------------------------------------------

  // No operation gives out a receipt for a request already made.
  ghost predicate NamesNothingNew(w: World, tenant: string, after: Store) {
    forall id :: id in w.q.deletions ==>
      SamplesNamed(after, tenant, w.q.deletions[id].scope) <= SamplesNamed(w.store, tenant, w.q.deletions[id].scope)
  }

  lemma StoreStepKeeps(w: World, setting: Setting, op: Retention.Op)
    requires ErasureInv(w, setting) && Retention.Allowed(w.store, op)
    requires NamesNothingNew(w, setting.tenant.id, Retention.Do(w.store, op))
    ensures ErasureInv(w.(store := Retention.Do(w.store, op)), setting)
  {
    var after := Retention.Do(w.store, op);
    OperationKeepsSound(w.store, op);
    forall id | id in w.served ensures Erased(after, setting.tenant.id, w.q.deletions[id].scope) {
      forall x | x in SamplesNamed(after, setting.tenant.id, w.q.deletions[id].scope) ensures Gone(after, x) {
        assert Gone(w.store, x);
        Retention.DoKeepsTombstones(w.store, op, x);
      }
    }
  }

  lemma SameReceiptsNameNothingNew(w: World, tenant: string, after: Store)
    requires after.receipts == w.store.receipts
    ensures NamesNothingNew(w, tenant, after)
  {
  }

  lemma FreshNamesNothingNew(w: World, tenant: string, after: Store, receiptId: string)
    requires FreshReceipt(w, receiptId)
    requires forall k :: k in after.receipts ==>
      (k in w.store.receipts && after.receipts[k] == w.store.receipts[k]) || after.receipts[k].receiptId == receiptId
    ensures NamesNothingNew(w, tenant, after)
  {
    forall id, x | id in w.q.deletions && x in SamplesNamed(after, tenant, w.q.deletions[id].scope)
      ensures x in SamplesNamed(w.store, tenant, w.q.deletions[id].scope)
    {
      var scope := w.q.deletions[id].scope;
      if scope != EVERYTHING && OF_RECEIPT <= scope {
        assert scope == OF_RECEIPT + scope[|OF_RECEIPT|..];
      }
    }
  }

  lemma AdmitGivesOne(s: Store, tenant: Tenant, m: Message, receiptId: string, now: int)
    ensures var after := Admit(s, tenant, m.key, m.declared, m.archive, receiptId, now).0;
      forall k :: k in after.receipts ==>
        (k in s.receipts && after.receipts[k] == s.receipts[k]) || after.receipts[k].receiptId == receiptId
  {
  }

  lemma OperationNamesNothingNew(w: World, setting: Setting, op: Retention.Op)
    requires op.Upload? ==> FreshReceipt(w, op.receiptId)
    ensures NamesNothingNew(w, setting.tenant.id, Retention.Do(w.store, op))
  {
    match op {
      case Upload(tenant, key, declared, archive, receiptId, at) =>
        AdmitGivesOne(w.store, tenant, Message(key, declared, archive), receiptId, at);
        FreshNamesNothingNew(w, setting.tenant.id, Retention.Do(w.store, op), receiptId);
      case _ => SameReceiptsNameNothingNew(w, setting.tenant.id, Retention.Do(w.store, op));
    }
  }

  lemma ArriveErases(w: World, setting: Setting, m: Message, receiptId: string, now: int)
    requires ErasureInv(w, setting) && FreshReceipt(w, receiptId)
    ensures ErasureInv(ArriveOn(w, setting, m, receiptId, now), setting)
  {
    var op := Retention.Upload(setting.tenant, m.key, m.declared, m.archive, receiptId, now);
    OperationNamesNothingNew(w, setting, op);
    StoreStepKeeps(w, setting, op);
  }

  // Carrying out a request leaves nothing of what it names.
  lemma ServedIsErased(s: Store, tenant: string, scope: string)
    requires Sound(s) && Recognized(scope)
    requires OF_SAMPLE <= scope ==> Retention.Allowed(s, OpOf(s, tenant, scope))
    ensures Retention.Allowed(s, OpOf(s, tenant, scope))
    ensures Erased(Retention.Do(s, OpOf(s, tenant, scope)), tenant, scope)
  {
    var op := OpOf(s, tenant, scope);
    var after := Retention.Do(s, op);
    assert after.receipts == s.receipts;
    assert SamplesNamed(after, tenant, scope) == SamplesNamed(s, tenant, scope);
    if scope != EVERYTHING && OF_RECEIPT <= scope {
      forall x | x in op.ids && x in s.samples ensures s.samples[x].tenant == tenant {
        var k :| k in s.receipts && k.0 == tenant && s.receipts[k].accepted && s.receipts[k].sampleId == x;
      }
    }
  }

  lemma ServeErases(w: World, setting: Setting, id: string)
    requires ErasureInv(w, setting) && ServerAllowed(w, setting, ServeDeletion(id))
    ensures ErasureInv(ServeOn(w, setting, id), setting)
  {
    if id in w.q.deletions && Recognized(w.q.deletions[id].scope) {
      var op := OpOf(w.store, setting.tenant.id, w.q.deletions[id].scope);
      ServedIsErased(w.store, setting.tenant.id, w.q.deletions[id].scope);
      OperationNamesNothingNew(w, setting, op);
      StoreStepKeeps(w, setting, op);
    }
  }

  // ----- steps of the client ----------------------------------------------------------------

  // Requests are only added, open, and only completed once carried out.
  ghost predicate RequestsFollow(
    before: map<string, DeletionRequest>, after: map<string, DeletionRequest>, served: set<string>)
  {
    && (forall id :: id in before ==>
          (id in after && after[id].scope == before[id].scope
           && (after[id].completed ==> (before[id].completed || id in served))))
    && (forall id :: id in after && id !in before ==> !after[id].completed)
  }

  lemma ClientStepKeeps(w: World, setting: Setting, v: World)
    requires ErasureInv(w, setting) && v.store == w.store && v.served == w.served
    requires RequestsFollow(w.q.deletions, v.q.deletions, w.served)
    ensures ErasureInv(v, setting)
  {
  }

  lemma TransitionLeavesRequests(q: Rows, id: string, target: JobState, u: JobUpdate, now: int)
    ensures TryTransition(q, id, target, u, now).deletions == q.deletions
    ensures var moved := TransitionJob(q, id, target, u, now); moved.Some? ==> moved.value.deletions == q.deletions
  {
  }

  lemma EndingLeavesRequests(q: Rows, id: string, reason: string, now: int)
    ensures CancelJob(q, id, reason, now).deletions == q.deletions
    ensures FinishRejected(q, id, reason, now).deletions == q.deletions
  {
    TransitionLeavesRequests(q, id, Deleted, Because(reason), now);
    TransitionLeavesRequests(q, id, Rejected, Because(reason), now);
  }

  lemma BeginLeavesRequests(q: Rows, policy: UploadPolicy, id: string, job: Job, now: int)
    ensures Begin(q, policy, id, job, now).0.deletions == q.deletions
  {
    var refusal := Recheck(q.ConsentOf(job.consentId), policy.target, now);
    if refusal.Some? {
      EndingLeavesRequests(q, id, RefusalCode(refusal.value), now);
    } else if id !in q.packages {
      EndingLeavesRequests(q, id, "package_missing_or_expired", now);
    } else {
      TransitionLeavesRequests(
        q, id, Uploading, NO_UPDATE.(attempts := Some(SmallerOf(job.attempts + 1, Upload.U32_MAX))), now);
    }
  }

  lemma AnsweredFollows(q: Rows, policy: UploadPolicy, t: Transfer, receipt: Receipt, requestId: string, now: int)
    requires requestId !in q.deletions
    ensures RequestsFollow(q.deletions, Finish(q, policy, t, Answered(receipt), requestId, now).0.deletions, {})
  {
    if !receipt.accepted {
      EndingLeavesRequests(q, t.id, receipt.reason, now);
    } else {
      var after := Finish(q, policy, t, Answered(receipt), requestId, now).0;
      TransitionLeavesRequests(q, t.id, Acknowledged, NO_UPDATE, now);
      if TransitionJob(q, t.id, Acknowledged, NO_UPDATE, now).Some? {
        assert after.deletions == q.deletions;
      } else {
        assert after.deletions == q.deletions[requestId := DeletionRequest(OF_RECEIPT + receipt.receiptId, false)];
      }
    }
  }

  lemma RetriedLeavesRequests(q: Rows, policy: UploadPolicy, t: Transfer, reason: string, requestId: string, now: int)
    ensures Finish(q, policy, t, Retriable(reason), requestId, now).0.deletions == q.deletions
  {
    var delay := RetryDelay(t.job.attempts, true, policy.retry);
    if delay.None? {
      EndingLeavesRequests(q, t.id, reason, now);
    } else {
      TransitionLeavesRequests(
        q, t.id, Eligible, Because(reason).(nextAttemptAt := Some(now + delay.value)), now);
    }
  }

  // Only a late receipt adds a request.
  lemma FinishFollows(q: Rows, policy: UploadPolicy, t: Transfer, response: Response, requestId: string, now: int)
    requires requestId !in q.deletions
    ensures RequestsFollow(q.deletions, Finish(q, policy, t, response, requestId, now).0.deletions, {})
  {
    match response {
      case Answered(receipt) => AnsweredFollows(q, policy, t, receipt, requestId, now);
      case Retriable(reason) => RetriedLeavesRequests(q, policy, t, reason, requestId, now);
      case Permanent(reason) => EndingLeavesRequests(q, t.id, reason, now);
      case Unauthorized => EndingLeavesRequests(q, t.id, "unauthorized", now);
    }
  }

  lemma StartErases(w: World, setting: Setting, now: int)
    requires ErasureInv(w, setting)
    ensures ErasureInv(StartOn(w, setting, now), setting)
  {
    var after := StartOn(w, setting, now);
    if w.ready != [] && w.transfer.None? {
      BeginLeavesRequests(w.q, setting.policy, w.ready[0].0, w.ready[0].1, now);
    }
    assert after.q.deletions == w.q.deletions;
    ClientStepKeeps(w, setting, after);
  }

  lemma EndErases(w: World, setting: Setting, response: Response, requestId: string, now: int)
    requires ErasureInv(w, setting) && requestId !in w.q.deletions
    ensures ErasureInv(EndOn(w, setting, response, requestId, now), setting)
  {
    if w.transfer.Some? {
      FinishFollows(w.q, setting.policy, w.transfer.value, response, requestId, now);
    }
    ClientStepKeeps(w, setting, EndOn(w, setting, response, requestId, now));
  }

  lemma PublishErases(w: World, setting: Setting, id: string, b: Built, now: int)
    requires ErasureInv(w, setting)
    ensures ErasureInv(PublishTo(w, setting, id, b, now), setting)
  {
    ClientStepKeeps(w, setting, PublishTo(w, setting, id, b, now));
  }

  lemma AskErases(w: World, setting: Setting, requestId: string, scope: string)
    requires ErasureInv(w, setting)
    ensures ErasureInv(w.(q := InsertDeletion(w.q, requestId, scope)), setting)
  {
    ClientStepKeeps(w, setting, w.(q := InsertDeletion(w.q, requestId, scope)));
  }

  lemma ConfirmErases(w: World, setting: Setting, requestId: string)
    requires ErasureInv(w, setting) && requestId in w.served
    ensures ErasureInv(w.(q := CompleteDeletion(w.q, requestId)), setting)
  {
    ClientStepKeeps(w, setting, w.(q := CompleteDeletion(w.q, requestId)));
  }

  predicate OnJobs(a: Action) {
    a.Plan? || a.ClaimJob? || a.Move? || a.DropJob? || a.Withdraw? || a.Expire?
  }

  predicate OnOthers(a: Action) {
    a.Grant? || a.Pause? || a.Revoke? || a.Collect? || a.Purge? || a.LosePackage?
  }

  lemma ClaimLeavesRequests(q: Rows, target: Target, id: string, now: int)
    ensures Claim(q, target, id, now).deletions == q.deletions
  {
    if id in q.jobs {
      var refusal := Recheck(q.ConsentOf(q.jobs[id].consentId), target, now);
      if refusal.Some? {
        EndingLeavesRequests(q, id, RefusalCode(refusal.value), now);
      } else {
        TransitionLeavesRequests(q, id, Analyzing, NO_UPDATE, now);
      }
    }
  }

  lemma EnqueueLeavesRequests(q: Rows, target: Target, id: string, sessionId: string, facts: Facts, now: int)
    ensures Enqueue(q, target, id, sessionId, facts, now).deletions == q.deletions
  {
  }

  lemma JobsLeaveRequests(w: World, setting: Setting, a: Action)
    requires OnJobs(a)
    ensures Next(w, setting, a).q.deletions == w.q.deletions
  {
    match a {
      case Plan(id, sessionId, facts, now) =>
        EnqueueLeavesRequests(w.q, setting.policy.target, id, sessionId, facts, now);
      case ClaimJob(id, now) => ClaimLeavesRequests(w.q, setting.policy.target, id, now);
      case Move(id, target, now) => TransitionLeavesRequests(w.q, id, target, NO_UPDATE, now);
      case DropJob(id, reason, now) => EndingLeavesRequests(w.q, id, reason, now);
      case Withdraw(_, _) =>
      case Expire(id, now) => TransitionLeavesRequests(w.q, id, Deleted, Because("expired"), now);
    }
  }

  lemma OthersLeaveRequests(w: World, setting: Setting, a: Action)
    requires OnOthers(a)
    ensures Next(w, setting, a).q.deletions == w.q.deletions
  {
  }

  lemma QueueErases(w: World, setting: Setting, a: Action)
    requires ErasureInv(w, setting) && (OnJobs(a) || OnOthers(a))
    ensures ErasureInv(Next(w, setting, a), setting)
  {
    ClientLeavesServer(w, setting, a);
    if OnJobs(a) {
      JobsLeaveRequests(w, setting, a);
    } else {
      OthersLeaveRequests(w, setting, a);
    }
    ClientStepKeeps(w, setting, Next(w, setting, a));
  }

  // ----- every step and every run ---------------------------------------------------------------

  lemma NextErases(w: World, setting: Setting, a: Action)
    requires ErasureInv(w, setting) && Allowed(w, setting, a) && ServerAllowed(w, setting, a)
    ensures ErasureInv(Next(w, setting, a), setting)
  {
    match a {
      case StartUpload(now) => StartErases(w, setting, now);
      case EndUpload(response, requestId, now) => EndErases(w, setting, response, requestId, now);
      case Publish(id, built, now) => PublishErases(w, setting, id, built, now);
      case AskDeletion(requestId, scope) => AskErases(w, setting, requestId, scope);
      case ConfirmDeletion(requestId) => ConfirmErases(w, setting, requestId);
      case ServeDeletion(id) => ServeErases(w, setting, id);
      case Arrive(m, receiptId, now) => ArriveErases(w, setting, m, receiptId, now);
      case ServerDoes(op) =>
        OperationNamesNothingNew(w, setting, op);
        StoreStepKeeps(w, setting, op);
      case _ => QueueErases(w, setting, a);
    }
  }

  ghost predicate ServerAllowedRun(setting: Setting, w: World, actions: seq<Action>) {
    forall k :: 0 <= k < |actions| ==> ServerAllowed(Run(setting, w, actions[..k]), setting, actions[k])
  }

  lemma ServerAllowedFront(setting: Setting, w: World, actions: seq<Action>)
    requires ServerAllowedRun(setting, w, actions) && actions != []
    ensures ServerAllowedRun(setting, w, actions[..|actions| - 1])
    ensures ServerAllowed(Run(setting, w, actions[..|actions| - 1]), setting, actions[|actions| - 1])
  {
    var before := actions[..|actions| - 1];
    forall k | 0 <= k < |before| ensures ServerAllowed(Run(setting, w, before[..k]), setting, before[k]) {
      assert before[..k] == actions[..k] && ServerAllowed(Run(setting, w, actions[..k]), setting, actions[k]);
    }
    assert ServerAllowed(Run(setting, w, actions[..|before|]), setting, actions[|before|]);
  }

  lemma {:induction false} RunErases(setting: Setting, w: World, actions: seq<Action>)
    requires ErasureInv(w, setting) && AllowedRun(setting, w, actions) && ServerAllowedRun(setting, w, actions)
    ensures ErasureInv(Run(setting, w, actions), setting)
  {
    if actions != [] {
      AllowedFront(setting, w, actions);
      ServerAllowedFront(setting, w, actions);
      RunErases(setting, w, actions[..|actions| - 1]);
      NextErases(Run(setting, w, actions[..|actions| - 1]), setting, actions[|actions| - 1]);
    }
  }

  lemma NextKeepsGone(w: World, setting: Setting, a: Action, x: string)
    requires Gone(w.store, x)
    ensures Gone(Next(w, setting, a).store, x)
  {
    StoreFollows(w, setting, a);
    var op := ServerOp(w, setting, a);
    if op.Some? {
      Retention.DoKeepsTombstones(w.store, op.value, x);
    }
  }

  lemma {:induction false} RunKeepsGone(setting: Setting, w: World, actions: seq<Action>, x: string)
    requires Gone(w.store, x)
    ensures Gone(Run(setting, w, actions).store, x)
  {
    if actions != [] {
      RunKeepsGone(setting, w, actions[..|actions| - 1], x);
      NextKeepsGone(Run(setting, w, actions[..|actions| - 1]), setting, actions[|actions| - 1], x);
    }
  }

  lemma StartIsErased(setting: Setting)
    ensures ErasureInv(START, setting)
  {
  }

  // Over every run: once a deletion request is confirmed, each sample it names is
  // gone, now and on every later run, and while that run is an allowed one no
  // delivery derived from the sample can be fetched.
  lemma ConfirmedIsErased(
    setting: Setting, before: seq<Action>, later: seq<Action>, id: string, x: string)
    requires AllowedRun(setting, START, before) && ServerAllowedRun(setting, START, before)
    requires var w := Run(setting, START, before);
      && id in w.q.deletions && w.q.deletions[id].completed
      && OF_RECEIPT <= w.q.deletions[id].scope && x in SamplesNamed(w.store, setting.tenant.id, w.q.deletions[id].scope)
    ensures var w := Run(setting, START, before);
      var v := Run(setting, w, later);
      && Gone(w.store, x) && NothingDelivered(w.store, x) && Gone(v.store, x)
      && (AllowedRun(setting, w, later) && ServerAllowedRun(setting, w, later) ==> NothingDelivered(v.store, x))
  {
    var w := Run(setting, START, before);
    StartIsErased(setting);
    RunErases(setting, START, before);
    NamedIsNode(w.store, setting.tenant.id, w.q.deletions[id].scope, x);
    GoneDeliversNothing(w.store, x);
    RunKeepsGone(setting, w, later, x);
    if AllowedRun(setting, w, later) && ServerAllowedRun(setting, w, later) {
      RunErases(setting, w, later);
      LaterDeliversNothing(setting, w, later, x);
    }
  }

  lemma NamedIsNode(s: Store, tenant: string, scope: string, x: string)
    requires ReceiptsOwn(s) && OF_RECEIPT <= scope && x in SamplesNamed(s, tenant, scope)
    ensures x in s.nodes && s.nodes[x].kind.SampleNode?
  {
  }

  lemma OperationKeepsNode(s: Store, op: Retention.Op, x: string)
    requires x in s.nodes && s.nodes[x].kind.SampleNode? && (op.Train? ==> Retention.FreshNames(s, op.names))
    ensures x in Retention.Do(s, op).nodes && Retention.Do(s, op).nodes[x].kind.SampleNode?
  {
    match op {
      case Upload(tenant, key, declared, archive, receiptId, at) =>
        UploadKeepsNode(s, tenant, key, declared, archive, receiptId, at, x);
      case Train(owner, names, delivered, at) => Retention.OldNodesStay(s, owner, names, delivered, at);
      case _ => Retention.OthersOnlyEnd(s, op);
    }
  }

  lemma UploadKeepsNode(
    s: Store, tenant: Tenant, key: string, declared: string, archive: Archive, receiptId: string, at: int, x: string)
    requires x in s.nodes && s.nodes[x].kind.SampleNode?
    ensures var after := Admit(s, tenant, key, declared, archive, receiptId, at).0;
      x in after.nodes && after.nodes[x].kind.SampleNode?
  {
  }

  lemma NextKeepsNode(w: World, setting: Setting, a: Action, x: string)
    requires ServerAllowed(w, setting, a) && x in w.store.nodes && w.store.nodes[x].kind.SampleNode?
    ensures var after := Next(w, setting, a).store; x in after.nodes && after.nodes[x].kind.SampleNode?
  {
    StoreFollows(w, setting, a);
    var op := ServerOp(w, setting, a);
    if op.Some? {
      OperationKeepsNode(w.store, op.value, x);
    }
  }

  lemma {:induction false} RunKeepsNode(setting: Setting, w: World, actions: seq<Action>, x: string)
    requires AllowedRun(setting, w, actions) && ServerAllowedRun(setting, w, actions)
    requires x in w.store.nodes && w.store.nodes[x].kind.SampleNode?
    ensures var after := Run(setting, w, actions).store; x in after.nodes && after.nodes[x].kind.SampleNode?
  {
    if actions != [] {
      AllowedFront(setting, w, actions);
      ServerAllowedFront(setting, w, actions);
      RunKeepsNode(setting, w, actions[..|actions| - 1], x);
      NextKeepsNode(Run(setting, w, actions[..|actions| - 1]), setting, actions[|actions| - 1], x);
    }
  }

  lemma LaterDeliversNothing(setting: Setting, w: World, later: seq<Action>, x: string)
    requires AllowedRun(setting, w, later) && ServerAllowedRun(setting, w, later) && Gone(w.store, x)
    requires x in w.store.nodes && w.store.nodes[x].kind.SampleNode? && ErasureInv(Run(setting, w, later), setting)
    ensures NothingDelivered(Run(setting, w, later).store, x)
  {
    RunKeepsGone(setting, w, later, x);
    RunKeepsNode(setting, w, later, x);
    GoneDeliversNothing(Run(setting, w, later).store, x);
  }

  // ----- from withdrawal to erasure -------------------------------------------------------------------

  // The deletion of everything received under the receipt was asked for, and
  // once that request is confirmed the sample is gone and nothing built from it
  // is delivered.
  ghost predicate AskedAndErased(w: World, setting: Setting, rid: string) {
    exists id ::
      && id in w.q.deletions && w.q.deletions[id].scope == OF_RECEIPT + rid
      && (w.q.deletions[id].completed ==>
            forall x :: x in Retention.SamplesOfReceipt(w.store, setting.tenant.id, rid) ==>
              Gone(w.store, x) && NothingDelivered(w.store, x))
  }

  // Withdraw at any point of any run: every receipt that still arrives for a job
  // active then has its deletion asked for, and when that is confirmed nothing is
  // left of the sample.
  lemma WithdrawalErases(
    setting: Setting, before: seq<Action>, reason: string, now: int, later: seq<Action>, j: string, rid: string)
    requires Sane(setting) && AllowedRun(setting, START, before) && ServerAllowedRun(setting, START, before)
    requires var w := Run(setting, START, before); j in w.q.jobs && !w.q.jobs[j].state.IsTerminal()
    requires var v := Next(Run(setting, START, before), setting, Withdraw(reason, now));
      && AllowedRun(setting, v, later) && ServerAllowedRun(setting, v, later)
      && (j, rid) in Run(setting, v, later).q.receipts
    ensures AskedAndErased(
      Run(setting, Next(Run(setting, START, before), setting, Withdraw(reason, now)), later), setting, rid)
  {
    WithdrawalWins(setting, before, reason, now, later, j);
    var v := Next(Run(setting, START, before), setting, Withdraw(reason, now));
    StartIsErased(setting);
    RunErases(setting, START, before);
    QueueErases(Run(setting, START, before), setting, Withdraw(reason, now));
    RunErases(setting, v, later);
    AskedIsErased(Run(setting, v, later), setting, rid);
  }

  lemma ScopeNamesReceipt(rid: string)
    ensures var scope := OF_RECEIPT + rid;
      OF_RECEIPT <= scope && scope[|OF_RECEIPT|..] == rid && scope != EVERYTHING
  {
    assert (OF_RECEIPT + rid)[0] == 'r';
  }

  lemma AskedIsErased(w: World, setting: Setting, rid: string)
    requires ErasureInv(w, setting) && DeletionAsked(w.q.deletions, rid)
    ensures AskedAndErased(w, setting, rid)
  {
    var id :| id in w.q.deletions && w.q.deletions[id].scope == OF_RECEIPT + rid;
    var scope := w.q.deletions[id].scope;
    ScopeNamesReceipt(rid);
    if w.q.deletions[id].completed {
      forall x | x in Retention.SamplesOfReceipt(w.store, setting.tenant.id, rid)
        ensures Gone(w.store, x) && NothingDelivered(w.store, x)
      {
        assert x in SamplesNamed(w.store, setting.tenant.id, scope);
        NamedIsNode(w.store, setting.tenant.id, scope, x);
        GoneDeliversNothing(w.store, x);
      }
    }
  }
}
