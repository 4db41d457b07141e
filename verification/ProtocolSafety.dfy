// Exactly-once contribution and withdrawal, over every run of the protocol.
module ProtocolSafety {
  import opened Options
  import opened Jobs
  import opened Server
  import opened Queue
  import opened Upload
  import opened Pipeline
  import opened Protocol
  import Retention

  type Answers = map<Key, StoredReceipt>

  // ----- the invariant, part by part ------------------------------------------------------

  // The server accepted the package of job `j` under its key, as receipt `rid`.
  ghost predicate Stands(builds: map<string, Built>, answers: Answers, setting: Setting, j: string, rid: string) {
    && j in builds && builds[j].archive.content.Package?
    && (setting.tenant.id, builds[j].key) in answers
    && var stored := answers[(setting.tenant.id, builds[j].key)];
      stored.accepted && stored.receiptId == rid && stored.sampleId == builds[j].archive.content.sampleId
  }

  ghost predicate HasReceipt(receipts: map<(string, string), bool>, j: string) {
    exists rid :: (j, rid) in receipts && receipts[(j, rid)]
  }

  ghost predicate JobOk(
    job: Job, j: string, marks: seq<Mark>, builds: map<string, Built>, transfer: Option<Transfer>,
    receipts: map<(string, string), bool>, setting: Setting)
  {
    && job.attempts == SentCount(marks, j)
    && (job.state in {Eligible, Uploading, Acknowledged} ==> j in builds)
    && (j in builds ==> job.key == builds[j].key && job.state !in {LocalPending, Analyzing, Building})
    && (job.state.Eligible? ==> MaySend(setting, job.attempts))
    && (job.state.Uploading? ==> transfer.Some? && transfer.value.id == j)
    && (job.state.Acknowledged? ==> HasReceipt(receipts, j))
  }

  ghost predicate JobsOk(
    jobs: map<string, Job>, known: set<string>, marks: seq<Mark>, builds: map<string, Built>,
    transfer: Option<Transfer>, receipts: map<(string, string), bool>, setting: Setting)
  {
    forall j :: j in jobs ==> j in known && JobOk(jobs[j], j, marks, builds, transfer, receipts, setting)
  }

  ghost predicate CountsOk(known: set<string>, marks: seq<Mark>, setting: Setting) {
    forall j :: SentCount(marks, j) <= AttemptLimit(setting) && (j !in known ==> SentCount(marks, j) == 0)
  }

  ghost predicate BuildsOk(builds: map<string, Built>, known: set<string>) {
    && builds.Keys <= known
    && (forall j :: j in builds ==> builds[j].archive.content.Package?)
    && (forall i, j :: i in builds && j in builds && builds[i].key == builds[j].key ==> i == j)
  }

  ghost predicate PackagesOk(packages: map<string, Archive>, builds: map<string, Built>) {
    forall j :: j in packages ==> j in builds && packages[j] == builds[j].archive
  }

  ghost predicate WireOk(wire: set<Message>, builds: map<string, Built>) {
    forall m :: m in wire ==> exists j :: j in builds && m == MessageOf(builds[j])
  }

  ghost predicate SendsOk(marks: seq<Mark>, builds: map<string, Built>) {
    forall k :: 0 <= k < |marks| && marks[k].Sent? ==> marks[k].id in builds && marks[k].key == builds[marks[k].id].key
  }

  ghost predicate ReadyOk(
    ready: seq<(string, Job)>, builds: map<string, Built>, marks: seq<Mark>, transfer: Option<Transfer>)
  {
    && (forall k :: 0 <= k < |ready| ==> ready[k].0 in builds && ready[k].1.attempts == SentCount(marks, ready[k].0))
    && (forall i, k :: 0 <= i < k < |ready| ==> ready[i].0 != ready[k].0)
    && (transfer.Some? ==> forall k :: 0 <= k < |ready| ==> ready[k].0 != transfer.value.id)
  }

  ghost predicate TransferOk(
    transfer: Option<Transfer>, builds: map<string, Built>, marks: seq<Mark>, jobs: map<string, Job>)
  {
    transfer.Some? ==>
      var t := transfer.value;
      && t.id in builds && t.job.key == builds[t.id].key && t.archive == builds[t.id].archive
      && t.job.attempts == SentCount(marks, t.id)
      && (t.id in jobs ==> jobs[t.id].state in {Uploading, Deleted})
  }

  ghost predicate ReplyOk(
    reply: Option<Receipt>, transfer: Option<Transfer>, builds: map<string, Built>, answers: Answers, setting: Setting)
  {
    reply.Some? ==>
      transfer.Some? && (reply.value.accepted ==> Stands(builds, answers, setting, transfer.value.id, reply.value.receiptId))
  }

  // What the server holds under our keys came from our packages.
  ghost predicate AnswersOk(builds: map<string, Built>, answers: Answers, setting: Setting) {
    forall j :: j in builds && (setting.tenant.id, builds[j].key) in answers ==>
      var stored := answers[(setting.tenant.id, builds[j].key)];
      stored.accepted ==> Stands(builds, answers, setting, j, stored.receiptId)
  }

  ghost predicate CreationsOk(marks: seq<Mark>, answers: Answers, setting: Setting) {
    && (forall k :: 0 <= k < |marks| && marks[k].Created? ==> (setting.tenant.id, marks[k].key) in answers)
    && (forall i, k :: 0 <= i < k < |marks| && marks[i].Created? && marks[k].Created? ==> marks[i].key != marks[k].key)
  }

  ghost predicate DeletionAsked(deletions: map<string, DeletionRequest>, rid: string) {
    exists request :: request in deletions && deletions[request].scope == OF_RECEIPT + rid
  }

  ghost predicate ReceiptOk(
    r: (string, string), accepted: bool, deletions: map<string, DeletionRequest>, jobs: map<string, Job>,
    builds: map<string, Built>, answers: Answers, setting: Setting)
  {
    && (accepted ==> Stands(builds, answers, setting, r.0, r.1) && (r.0 in jobs ==> jobs[r.0].state in {Acknowledged, Deleted}))
    && (!accepted ==> DeletionAsked(deletions, r.1) && (r.0 in jobs ==> jobs[r.0].state.Deleted?))
  }

  ghost predicate ReceiptsOk(
    receipts: map<(string, string), bool>, known: set<string>, deletions: map<string, DeletionRequest>,
    jobs: map<string, Job>, builds: map<string, Built>, answers: Answers, setting: Setting)
  {
    forall r :: r in receipts ==> r.0 in known && ReceiptOk(r, receipts[r], deletions, jobs, builds, answers, setting)
  }

  ghost predicate Inv(w: World, setting: Setting) {
    && JobsOk(w.q.jobs, w.known, w.marks, w.builds, w.transfer, w.q.receipts, setting)
    && CountsOk(w.known, w.marks, setting)
    && BuildsOk(w.builds, w.known) && PackagesOk(w.q.packages, w.builds)
    && WireOk(w.wire, w.builds) && SendsOk(w.marks, w.builds)
    && ReadyOk(w.ready, w.builds, w.marks, w.transfer)
    && TransferOk(w.transfer, w.builds, w.marks, w.q.jobs)
    && ReplyOk(w.reply, w.transfer, w.builds, w.store.receipts, setting)
    && AnswersOk(w.builds, w.store.receipts, setting) && CreationsOk(w.marks, w.store.receipts, setting)
    && ReceiptsOk(w.q.receipts, w.known, w.q.deletions, w.q.jobs, w.builds, w.store.receipts, setting)
  }

  // ----- steps that change one row --------------------------------------------------------

  // Only the row and the package of `id` may differ.
  ghost predicate OneRow(q: Rows, after: Rows, id: string) {
    && after == q.(jobs := after.jobs, packages := after.packages)
    && after.jobs.Keys == q.jobs.Keys
    && (forall j :: j in q.jobs && j != id ==> after.jobs[j] == q.jobs[j])
    && (after.packages == q.packages || after.packages == q.packages - {id})
  }

  // The row keeps its key and attempts and stays, moves within the pipeline
  // before its package exists, or ends.
  ghost predicate QuietMove(
    before: Job, after: Job, id: string, builds: map<string, Built>, transfer: Option<Transfer>)
  {
    && after.key == before.key && after.attempts == before.attempts
    && (|| after.state == before.state
        || (MayTransition(before.state, after.state)
            && (|| after.state.Deleted?
                || (after.state.Rejected? && !(transfer.Some? && transfer.value.id == id))
                || (id !in builds && after.state in {LocalPending, Analyzing, Building}))))
  }

  lemma RowKeepsJobs(w: World, setting: Setting, after: Rows, id: string)
    requires Inv(w, setting) && OneRow(w.q, after, id)
    requires id in w.q.jobs ==> QuietMove(w.q.jobs[id], after.jobs[id], id, w.builds, w.transfer)
    ensures JobsOk(after.jobs, w.known, w.marks, w.builds, w.transfer, after.receipts, setting)
    ensures TransferOk(w.transfer, w.builds, w.marks, after.jobs)
  {
  }

  lemma RowKeepsReceipts(w: World, setting: Setting, after: Rows, id: string)
    requires Inv(w, setting) && OneRow(w.q, after, id)
    requires id in w.q.jobs ==> QuietMove(w.q.jobs[id], after.jobs[id], id, w.builds, w.transfer)
    ensures ReceiptsOk(after.receipts, w.known, after.deletions, after.jobs, w.builds, w.store.receipts, setting)
  {
    forall r | r in after.receipts
      ensures r.0 in w.known && ReceiptOk(r, after.receipts[r], after.deletions, after.jobs, w.builds, w.store.receipts, setting)
    {
      assert ReceiptOk(r, w.q.receipts[r], w.q.deletions, w.q.jobs, w.builds, w.store.receipts, setting);
      assert r.0 != id ==> (r.0 in w.q.jobs ==> after.jobs[r.0] == w.q.jobs[r.0]);
    }
  }

  lemma RowKeeps(w: World, setting: Setting, after: Rows, id: string)
    requires Inv(w, setting) && OneRow(w.q, after, id)
    requires id in w.q.jobs ==> QuietMove(w.q.jobs[id], after.jobs[id], id, w.builds, w.transfer)
    ensures Inv(w.(q := after), setting)
  {
    RowKeepsJobs(w, setting, after, id);
    RowKeepsReceipts(w, setting, after, id);
  }

  // The targets a quiet transition may have.
  ghost predicate QuietTarget(w: World, id: string, target: JobState) {
    || target.Deleted?
    || (target.Rejected? && !(w.transfer.Some? && w.transfer.value.id == id))
    || (target in {LocalPending, Analyzing, Building} && id !in w.builds)
  }

  lemma TransitionIsQuiet(w: World, id: string, target: JobState, u: JobUpdate, now: int)
    requires u.key.None? && u.attempts.None? && QuietTarget(w, id, target)
    ensures var after := TryTransition(w.q, id, target, u, now);
      && OneRow(w.q, after, id)
      && (id in w.q.jobs ==> QuietMove(w.q.jobs[id], after.jobs[id], id, w.builds, w.transfer))
  {
  }

  lemma TransitionKeeps(w: World, setting: Setting, id: string, target: JobState, u: JobUpdate, now: int)
    requires Inv(w, setting) && u.key.None? && u.attempts.None? && QuietTarget(w, id, target)
    ensures Inv(w.(q := TryTransition(w.q, id, target, u, now)), setting)
  {
    TransitionIsQuiet(w, id, target, u, now);
    RowKeeps(w, setting, TryTransition(w.q, id, target, u, now), id);
  }

  lemma DropPackageKeeps(w: World, setting: Setting, id: string)
    requires Inv(w, setting)
    ensures Inv(w.(q := DropPackage(w.q, id)), setting)
  {
    RowKeeps(w, setting, DropPackage(w.q, id), id);
  }

  // Ending a job drops its package.
  lemma EndKeeps(w: World, setting: Setting, id: string, target: JobState, reason: string, now: int)
    requires Inv(w, setting) && (target.Deleted? || target.Rejected?) && QuietTarget(w, id, target)
    ensures Inv(w.(q := DropPackage(TryTransition(w.q, id, target, Because(reason), now), id)), setting)
  {
    TransitionKeeps(w, setting, id, target, Because(reason), now);
    DropPackageKeeps(w.(q := TryTransition(w.q, id, target, Because(reason), now)), setting, id);
  }

  // ----- steps of the queue ------------------------------------------------------------------

  lemma ConsentsKeep(w: World, setting: Setting, after: Rows)
    requires Inv(w, setting) && after == w.q.(consents := after.consents)
    ensures Inv(w.(q := after), setting)
  {
  }

  lemma DeletionsKeep(w: World, setting: Setting, after: Rows)
    requires Inv(w, setting) && after == w.q.(deletions := after.deletions)
    requires forall request :: request in w.q.deletions ==>
      request in after.deletions && after.deletions[request].scope == w.q.deletions[request].scope
    ensures Inv(w.(q := after), setting)
  {
    forall r | r in w.q.receipts
      ensures ReceiptOk(r, w.q.receipts[r], after.deletions, w.q.jobs, w.builds, w.store.receipts, setting)
    {
      AskedStays(w.q.deletions, after.deletions, r.1);
    }
  }

  lemma AskedStays(before: map<string, DeletionRequest>, after: map<string, DeletionRequest>, rid: string)
    requires forall request :: request in before ==> request in after && after[request].scope == before[request].scope
    ensures DeletionAsked(before, rid) ==> DeletionAsked(after, rid)
  {
    if request :| request in before && before[request].scope == OF_RECEIPT + rid {
      assert after[request].scope == OF_RECEIPT + rid;
    }
  }

  // Receipts allow jobs to be new, to stay, to be deleted or to be gone.
  lemma ReceiptsFollow(w: World, setting: Setting, jobs: map<string, Job>)
    requires ReceiptsOk(w.q.receipts, w.known, w.q.deletions, w.q.jobs, w.builds, w.store.receipts, setting)
    requires forall j :: j in jobs && j in w.known ==>
      j in w.q.jobs && (jobs[j].state == w.q.jobs[j].state || jobs[j].state.Deleted?)
    ensures ReceiptsOk(w.q.receipts, w.known, w.q.deletions, jobs, w.builds, w.store.receipts, setting)
  {
    forall r | r in w.q.receipts
      ensures ReceiptOk(r, w.q.receipts[r], w.q.deletions, jobs, w.builds, w.store.receipts, setting)
    {
      assert ReceiptOk(r, w.q.receipts[r], w.q.deletions, w.q.jobs, w.builds, w.store.receipts, setting);
    }
  }

  lemma PlanKeeps(w: World, setting: Setting, id: string, job: Job)
    requires Inv(w, setting) && id !in w.known && job.state.LocalPending? && job.attempts == 0
    ensures Inv(w.(q := w.q.(jobs := w.q.jobs[id := job]), known := w.known + {id}), setting)
  {
    KnownKeeps(w, setting, id);
    PlannedJobs(w, setting, id, job);
    ReceiptsFollow(w, setting, w.q.jobs[id := job]);
  }

  lemma PlannedJobs(w: World, setting: Setting, id: string, job: Job)
    requires Inv(w, setting) && id !in w.known && job.state.LocalPending? && job.attempts == 0
    ensures JobsOk(w.q.jobs[id := job], w.known + {id}, w.marks, w.builds, w.transfer, w.q.receipts, setting)
    ensures TransferOk(w.transfer, w.builds, w.marks, w.q.jobs[id := job])
  {
    assert id !in w.builds;
  }

  lemma KnownKeeps(w: World, setting: Setting, id: string)
    requires Inv(w, setting)
    ensures Inv(w.(known := w.known + {id}), setting)
  {
    assert CountsOk(w.known + {id}, w.marks, setting);
  }

  lemma PurgeKeeps(w: World, setting: Setting, id: string)
    requires Inv(w, setting)
    ensures Inv(w.(q := PurgeJob(w.q, id)), setting)
  {
    FewerJobs(w, setting, PurgeJob(w.q, id).jobs);
  }

  lemma FewerJobs(w: World, setting: Setting, jobs: map<string, Job>)
    requires Inv(w, setting) && forall j :: j in jobs ==> j in w.q.jobs && jobs[j] == w.q.jobs[j]
    ensures JobsOk(jobs, w.known, w.marks, w.builds, w.transfer, w.q.receipts, setting)
    ensures TransferOk(w.transfer, w.builds, w.marks, jobs)
    ensures ReceiptsOk(w.q.receipts, w.known, w.q.deletions, jobs, w.builds, w.store.receipts, setting)
  {
    ReceiptsFollow(w, setting, jobs);
  }

  lemma WithdrawKeeps(w: World, setting: Setting, reason: string, now: int)
    requires Inv(w, setting)
    ensures Inv(w.(q := CancelAllJobs(w.q, reason, now)), setting)
  {
    var after := CancelAllJobs(w.q, reason, now);
    WithdrawnJobs(w, setting, reason, now);
    assert PackagesOk(after.packages, w.builds);
    ReceiptsFollow(w, setting, after.jobs);
  }

  lemma WithdrawnJobs(w: World, setting: Setting, reason: string, now: int)
    requires Inv(w, setting)
    ensures var jobs := CancelAllJobs(w.q, reason, now).jobs;
      && JobsOk(jobs, w.known, w.marks, w.builds, w.transfer, w.q.receipts, setting)
      && TransferOk(w.transfer, w.builds, w.marks, jobs)
  {
  }

  // ----- publishing a package --------------------------------------------------------------------

  lemma PublishedKeeps(w: World, setting: Setting, id: string, b: Built, job: Job)
    requires Inv(w, setting) && id in w.q.jobs && w.q.jobs[id].state.Building?
    requires id !in w.builds && b.archive.content.Package? && KeyUnused(w, setting, b.key)
    requires job.state.Eligible? && job.key == b.key && job.attempts == w.q.jobs[id].attempts
    ensures Inv(w.(q := w.q.(jobs := w.q.jobs[id := job], packages := w.q.packages[id := b.archive]),
                   builds := w.builds[id := b]), setting)
  {
    var builds := w.builds[id := b];
    PublishedJobs(w, setting, id, b, job);
    PublishedWire(w, setting, id, b);
    PublishedAnswers(w, setting, id, b, job);
    assert BuildsOk(builds, w.known) && PackagesOk(w.q.packages[id := b.archive], builds);
  }

  lemma PublishedAnswers(w: World, setting: Setting, id: string, b: Built, job: Job)
    requires Inv(w, setting) && id in w.q.jobs && w.q.jobs[id].state.Building?
    requires id !in w.builds && KeyUnused(w, setting, b.key)
    ensures var builds := w.builds[id := b];
      && AnswersOk(builds, w.store.receipts, setting)
      && ReplyOk(w.reply, w.transfer, builds, w.store.receipts, setting)
      && ReceiptsOk(w.q.receipts, w.known, w.q.deletions, w.q.jobs[id := job], builds, w.store.receipts, setting)
  {
    var jobs, builds := w.q.jobs[id := job], w.builds[id := b];
    forall r | r in w.q.receipts
      ensures ReceiptOk(r, w.q.receipts[r], w.q.deletions, jobs, builds, w.store.receipts, setting)
    {
      assert ReceiptOk(r, w.q.receipts[r], w.q.deletions, w.q.jobs, w.builds, w.store.receipts, setting);
      assert r.0 != id;
    }
  }

  lemma PublishedJobs(w: World, setting: Setting, id: string, b: Built, job: Job)
    requires Inv(w, setting) && id in w.q.jobs && w.q.jobs[id].state.Building? && id !in w.builds
    requires job.state.Eligible? && job.key == b.key && job.attempts == w.q.jobs[id].attempts
    ensures JobsOk(w.q.jobs[id := job], w.known, w.marks, w.builds[id := b], w.transfer, w.q.receipts, setting)
    ensures TransferOk(w.transfer, w.builds[id := b], w.marks, w.q.jobs[id := job])
    ensures ReadyOk(w.ready, w.builds[id := b], w.marks, w.transfer)
  {
    assert JobOk(w.q.jobs[id], id, w.marks, w.builds, w.transfer, w.q.receipts, setting);
    NeverSent(w.marks, w.builds, id);
  }

  // A job without a package was never sent.
  lemma {:induction false} NeverSent(marks: seq<Mark>, builds: map<string, Built>, id: string)
    requires SendsOk(marks, builds) && id !in builds
    ensures SentCount(marks, id) == 0
  {
    if marks != [] {
      var before := marks[..|marks| - 1];
      assert SendsOk(before, builds);
      NeverSent(before, builds, id);
      assert marks[|marks| - 1].Sent? ==> marks[|marks| - 1].id in builds;
    }
  }

  lemma PublishedWire(w: World, setting: Setting, id: string, b: Built)
    requires WireOk(w.wire, w.builds) && SendsOk(w.marks, w.builds) && id !in w.builds
    ensures WireOk(w.wire, w.builds[id := b]) && SendsOk(w.marks, w.builds[id := b])
  {
    var builds := w.builds[id := b];
    forall m | m in w.wire ensures exists j :: j in builds && m == MessageOf(builds[j]) {
      var j :| j in w.builds && m == MessageOf(w.builds[j]);
      assert builds[j] == w.builds[j];
    }
  }

  lemma PublishKeeps(w: World, setting: Setting, id: string, b: Built, now: int)
    requires Inv(w, setting) && Allowed(w, setting, Publish(id, b, now))
    ensures Inv(PublishTo(w, setting, id, b, now), setting)
  {
    var consentId := if id in w.q.jobs then w.q.jobs[id].consentId else "";
    var refusal := Recheck(w.q.ConsentOf(consentId), setting.policy.target, now);
    NotPublished(w, setting, id, w.q);
    if refusal.Some? {
      PublishRefused(w, setting, id, b, now);
    } else if id in w.q.jobs && MayTransition(w.q.jobs[id].state, Eligible) {
      PublishSucceeds(w, setting, id, b, now);
    } else {
      PublishConflicts(w, setting, id, b, now);
    }
  }

  lemma PublishRefused(w: World, setting: Setting, id: string, b: Built, now: int)
    requires Inv(w, setting) && id !in w.builds
    requires Recheck(w.q.ConsentOf(if id in w.q.jobs then w.q.jobs[id].consentId else ""), setting.policy.target, now).Some?
    ensures Inv(PublishTo(w, setting, id, b, now), setting)
  {
    var code := RefusalCode(
      Recheck(w.q.ConsentOf(if id in w.q.jobs then w.q.jobs[id].consentId else ""), setting.policy.target, now).value);
    EndKeeps(w, setting, id, Rejected, code, now);
    NotPublished(w, setting, id, Discard(w.q, id, code, now));
  }

  lemma PublishConflicts(w: World, setting: Setting, id: string, b: Built, now: int)
    requires id !in w.q.packages && !(id in w.q.jobs && MayTransition(w.q.jobs[id].state, Eligible))
    requires Recheck(w.q.ConsentOf(if id in w.q.jobs then w.q.jobs[id].consentId else ""), setting.policy.target, now).None?
    ensures PublishTo(w, setting, id, b, now) == w
  {
    assert w.q.packages[id := b.archive] - {id} == w.q.packages;
  }

  lemma PublishSucceeds(w: World, setting: Setting, id: string, b: Built, now: int)
    requires Inv(w, setting) && Allowed(w, setting, Publish(id, b, now)) && id !in w.q.packages
    requires id in w.q.jobs && MayTransition(w.q.jobs[id].state, Eligible)
    requires Recheck(w.q.ConsentOf(w.q.jobs[id].consentId), setting.policy.target, now).None?
    ensures Inv(PublishTo(w, setting, id, b, now), setting)
  {
    assert JobOk(w.q.jobs[id], id, w.marks, w.builds, w.transfer, w.q.receipts, setting);
    PublishedKeeps(w, setting, id, b, Updated(w.q.jobs[id], Eligible, EligibleUpdate(b), now));
  }

  // Without its package in the queue, nothing was published.
  lemma NotPublished(w: World, setting: Setting, id: string, after: Rows)
    requires Inv(w, setting) && id !in w.builds && after.packages.Keys <= w.q.packages.Keys
    ensures id !in after.packages
  {
  }

  // ----- uploading -----------------------------------------------------------------------------

  lemma CollectKeeps(w: World, setting: Setting, order: seq<string>, now: int)
    requires Inv(w, setting) && Allowed(w, setting, Collect(order, now))
    ensures Inv(Next(w, setting, Collect(order, now)), setting)
  {
    var ready := Next(w, setting, Collect(order, now)).ready;
    forall k | 0 <= k < |ready|
      ensures ready[k].0 in w.builds && ready[k].1.attempts == SentCount(w.marks, ready[k].0)
    {
      assert JobOk(w.q.jobs[order[k]], order[k], w.marks, w.builds, w.transfer, w.q.receipts, setting);
    }
  }

  lemma ReadyTail(w: World, setting: Setting)
    requires Inv(w, setting) && w.ready != []
    ensures Inv(w.(ready := w.ready[1..]), setting) && Inv(w.(ready := []), setting)
  {
    assert ReadyOk(w.ready[1..], w.builds, w.marks, w.transfer);
  }

  // A planned upload that does not start only ends or reschedules its job.
  lemma NotStartedKeeps(w: World, setting: Setting, id: string, job: Job, now: int)
    requires Inv(w, setting) && w.transfer.None? && !Begin(w.q, setting.policy, id, job, now).1.Sending?
    ensures Inv(w.(q := Begin(w.q, setting.policy, id, job, now).0), setting)
  {
    var refusal := Recheck(w.q.ConsentOf(job.consentId), setting.policy.target, now);
    var after := Begin(w.q, setting.policy, id, job, now).0;
    if refusal.Some? {
      EndKeeps(w, setting, id, Deleted, RefusalCode(refusal.value), now);
    } else if after != w.q {
      var (packages, seconds) := w.q.VolumeOn(now);
      if packages >= setting.policy.caps.maxPackagesPerDay || seconds >= setting.policy.caps.maxSecondsPerDay {
        RowKeeps(w, setting, after, id);
      } else {
        EndKeeps(w, setting, id, Rejected, "package_missing_or_expired", now);
      }
    }
  }

  lemma CountAfterSending(w: World, setting: Setting, id: string)
    requires Inv(w, setting) && id in w.q.jobs && w.q.jobs[id].state.Eligible?
    ensures var marks := w.marks + [Sent(id, w.builds[id].key)];
      && CountsOk(w.known, marks, setting) && SendsOk(marks, w.builds) && CreationsOk(marks, w.store.receipts, setting)
  {
    var m := Sent(id, w.builds[id].key);
    assert JobOk(w.q.jobs[id], id, w.marks, w.builds, w.transfer, w.q.receipts, setting);
    OneMoreSend(w.known, w.marks, setting, m);
    OtherMark(w.marks, m, w.store.receipts, setting);
    assert SendsOk(w.marks + [m], w.builds);
  }

  lemma OneMoreSend(known: set<string>, marks: seq<Mark>, setting: Setting, m: Mark)
    requires CountsOk(known, marks, setting) && m.Sent? && m.id in known && MaySend(setting, SentCount(marks, m.id))
    ensures CountsOk(known, marks + [m], setting)
  {
    forall j ensures SentCount(marks + [m], j) == SentCount(marks, j) + (if j == m.id then 1 else 0) {
      CountGrows(marks, m, j);
    }
  }

  lemma OtherMark(marks: seq<Mark>, m: Mark, answers: Answers, setting: Setting)
    requires CreationsOk(marks, answers, setting) && !m.Created?
    ensures CreationsOk(marks + [m], answers, setting)
  {
  }

  lemma SendingKeeps(w: World, setting: Setting, t: Transfer, job: Job)
    requires Inv(w, setting) && w.transfer.None? && w.ready != [] && w.ready[0].0 == t.id
    requires t.id in w.q.jobs && w.q.jobs[t.id].state.Eligible? && t.id in w.q.packages && t.archive == w.q.packages[t.id]
    requires t.job == job && job.state.Uploading? && job.key == w.q.jobs[t.id].key
    requires job.attempts == w.q.jobs[t.id].attempts + 1
    ensures Inv(
      w.(q := w.q.(jobs := w.q.jobs[t.id := job]), ready := w.ready[1..], transfer := Some(t), reply := None,
         wire := w.wire + {Message(job.key, t.archive.digest, t.archive)}, marks := w.marks + [Sent(t.id, job.key)]), setting)
  {
    var jobs, marks, m := w.q.jobs[t.id := job], w.marks + [Sent(t.id, job.key)], Sent(t.id, job.key);
    assert JobOk(w.q.jobs[t.id], t.id, w.marks, w.builds, w.transfer, w.q.receipts, setting);
    CountAfterSending(w, setting, t.id);
    SendingJobs(w, setting, t, job);
    SendingReady(w, setting, t, job);
    ReceiptsWhileSending(w, setting, t.id, job);
    assert Message(job.key, t.archive.digest, t.archive) == MessageOf(w.builds[t.id]);
  }

  lemma SendingJobs(w: World, setting: Setting, t: Transfer, job: Job)
    requires Inv(w, setting) && w.transfer.None? && t.id in w.q.jobs && w.q.jobs[t.id].state.Eligible?
    requires job.state.Uploading? && job.key == w.q.jobs[t.id].key && job.attempts == w.q.jobs[t.id].attempts + 1
    ensures JobsOk(w.q.jobs[t.id := job], w.known, w.marks + [Sent(t.id, job.key)], w.builds, Some(t), w.q.receipts, setting)
  {
    var m := Sent(t.id, job.key);
    forall j | j in w.q.jobs[t.id := job]
      ensures j in w.known && JobOk(w.q.jobs[t.id := job][j], j, w.marks + [m], w.builds, Some(t), w.q.receipts, setting)
    {
      CountGrows(w.marks, m, j);
      if j != t.id {
        JobWhileSending(w.q.jobs[j], j, w.marks, m, w.builds, t, w.q.receipts, setting);
      } else {
        assert JobOk(w.q.jobs[j], j, w.marks, w.builds, w.transfer, w.q.receipts, setting);
      }
    }
  }

  lemma JobWhileSending(
    job: Job, j: string, marks: seq<Mark>, m: Mark, builds: map<string, Built>, t: Transfer,
    receipts: map<(string, string), bool>, setting: Setting)
    requires JobOk(job, j, marks, builds, None, receipts, setting) && SentCount(marks + [m], j) == SentCount(marks, j)
    ensures JobOk(job, j, marks + [m], builds, Some(t), receipts, setting)
  {
  }

  lemma SendingReady(w: World, setting: Setting, t: Transfer, job: Job)
    requires Inv(w, setting) && w.ready != [] && w.ready[0].0 == t.id && t.id in w.q.jobs
    requires t.job == job && job.attempts == w.q.jobs[t.id].attempts + 1
    requires t.id in w.builds && job.key == w.builds[t.id].key && t.archive == w.builds[t.id].archive
    ensures ReadyOk(w.ready[1..], w.builds, w.marks + [Sent(t.id, job.key)], Some(t))
    ensures job.state.Uploading? ==> TransferOk(Some(t), w.builds, w.marks + [Sent(t.id, job.key)], w.q.jobs[t.id := job])
  {
    var rest, m := w.ready[1..], Sent(t.id, job.key);
    CountGrows(w.marks, m, t.id);
    forall k | 0 <= k < |rest|
      ensures rest[k].0 in w.builds && rest[k].1.attempts == SentCount(w.marks + [m], rest[k].0) && rest[k].0 != t.id
    {
      assert rest[k] == w.ready[k + 1] && w.ready[0].0 != w.ready[k + 1].0;
      CountGrows(w.marks, m, rest[k].0);
    }
  }

  lemma ReceiptsWhileSending(w: World, setting: Setting, id: string, job: Job)
    requires Inv(w, setting) && id in w.q.jobs && w.q.jobs[id].state.Eligible?
    ensures ReceiptsOk(w.q.receipts, w.known, w.q.deletions, w.q.jobs[id := job], w.builds, w.store.receipts, setting)
  {
    forall r | r in w.q.receipts
      ensures ReceiptOk(r, w.q.receipts[r], w.q.deletions, w.q.jobs[id := job], w.builds, w.store.receipts, setting)
    {
      assert ReceiptOk(r, w.q.receipts[r], w.q.deletions, w.q.jobs, w.builds, w.store.receipts, setting);
    }
  }

  lemma StartKeeps(w: World, setting: Setting, now: int)
    requires Inv(w, setting) && setting.policy.retry.maxAttempts <= U32_MAX
    ensures Inv(StartOn(w, setting, now), setting)
  {
    if w.ready != [] && w.transfer.None? {
      var (id, job) := w.ready[0];
      var (after, begun) := Begin(w.q, setting.policy, id, job, now);
      if begun.Sending? {
        StartSends(w, setting, now);
      } else {
        NotStartedKeeps(w, setting, id, job, now);
        ReadyTail(w.(q := after), setting);
      }
    }
  }

  lemma StartSends(w: World, setting: Setting, now: int)
    requires Inv(w, setting) && setting.policy.retry.maxAttempts <= U32_MAX
    requires w.ready != [] && w.transfer.None?
    requires Begin(w.q, setting.policy, w.ready[0].0, w.ready[0].1, now).1.Sending?
    ensures Inv(StartOn(w, setting, now), setting)
  {
    var (id, job) := w.ready[0];
    var t := Begin(w.q, setting.policy, id, job, now).1.transfer;
    assert JobOk(w.q.jobs[id], id, w.marks, w.builds, w.transfer, w.q.receipts, setting);
    assert job.attempts == SentCount(w.marks, id) < U32_MAX;
    SendingKeeps(w, setting, t, t.job);
  }

  // ----- the server answers --------------------------------------------------------------------

  // Server steps keep every answer; new ones are under other keys.
  lemma ServerKeeps(w: World, setting: Setting, store: Store)
    requires Inv(w, setting)
    requires forall k :: k in w.store.receipts ==> k in store.receipts && store.receipts[k] == w.store.receipts[k]
    requires forall j :: j in w.builds && (setting.tenant.id, w.builds[j].key) in store.receipts ==>
      (setting.tenant.id, w.builds[j].key) in w.store.receipts
    ensures Inv(w.(store := store), setting)
  {
    assert AnswersOk(w.builds, store.receipts, setting);
    forall r | r in w.q.receipts
      ensures ReceiptOk(r, w.q.receipts[r], w.q.deletions, w.q.jobs, w.builds, store.receipts, setting)
    {
      assert ReceiptOk(r, w.q.receipts[r], w.q.deletions, w.q.jobs, w.builds, w.store.receipts, setting);
    }
  }

  lemma ServerDoesKeeps(w: World, setting: Setting, op: Retention.Op)
    requires Inv(w, setting) && Allowed(w, setting, ServerDoes(op))
    ensures Inv(w.(store := Retention.Do(w.store, op)), setting)
  {
    var store := Retention.Do(w.store, op);
    forall k | k in w.store.receipts ensures k in store.receipts && store.receipts[k] == w.store.receipts[k] {
      Retention.DoKeepsReceipts(w.store, op, k);
    }
    forall j | j in w.builds && (setting.tenant.id, w.builds[j].key) in store.receipts
      ensures (setting.tenant.id, w.builds[j].key) in w.store.receipts
    {
      if (setting.tenant.id, w.builds[j].key) !in w.store.receipts {
        NewAnswersAreUploads(w.store, op, (setting.tenant.id, w.builds[j].key));
        assert false;
      }
    }
    ServerKeeps(w, setting, store);
  }

  lemma ServeKeeps(w: World, setting: Setting, requestId: string)
    requires Inv(w, setting)
    ensures Inv(ServeOn(w, setting, requestId), setting)
  {
    if requestId in w.q.deletions && Recognized(w.q.deletions[requestId].scope) {
      var op := OpOf(w.store, setting.tenant.id, w.q.deletions[requestId].scope);
      ServerDoesKeeps(w, setting, op);
      ServedKeeps(w.(store := Retention.Do(w.store, op)), setting, w.served + {requestId});
    }
  }

  // What was served concerns the server alone.
  lemma ServedKeeps(w: World, setting: Setting, served: set<string>)
    requires Inv(w, setting)
    ensures Inv(w.(served := served), setting)
  {
  }

  lemma NewAnswersAreUploads(s: Store, op: Retention.Op, key: Key)
    requires key in Retention.Do(s, op).receipts && key !in s.receipts
    ensures op.Upload? && key == (op.tenant.id, op.key)
  {
  }

  // What one admission of our own message does to the server's answers.
  lemma AdmitAnswers(s: Store, tenant: Tenant, m: Message, receiptId: string, now: int)
    ensures var (after, receipt) := Admit(s, tenant, m.key, m.declared, m.archive, receiptId, now);
      && (forall k :: k in s.receipts ==> k in after.receipts && after.receipts[k] == s.receipts[k])
      && (forall k :: k in after.receipts && k !in s.receipts ==> k == (tenant.id, m.key))
      && (receipt.Some? && receipt.value.accepted ==>
            && (tenant.id, m.key) in after.receipts && after.receipts[(tenant.id, m.key)].accepted
            && after.receipts[(tenant.id, m.key)].receiptId == receipt.value.receiptId)
      && ((tenant.id, m.key) in after.receipts && (tenant.id, m.key) !in s.receipts
          && after.receipts[(tenant.id, m.key)].accepted ==>
            m.archive.content.Package? && after.receipts[(tenant.id, m.key)].sampleId == m.archive.content.sampleId)
      && (receipt.Some? && receipt.value.accepted && !receipt.value.duplicate ==> (tenant.id, m.key) !in s.receipts)
  {
  }

  lemma ArriveKeeps(w: World, setting: Setting, m: Message, receiptId: string, now: int)
    requires Inv(w, setting)
    ensures Inv(ArriveOn(w, setting, m, receiptId, now), setting)
  {
    if m in w.wire {
      var (store, receipt) := Admit(w.store, setting.tenant, m.key, m.declared, m.archive, receiptId, now);
      var j :| j in w.builds && m == MessageOf(w.builds[j]);
      AdmitAnswers(w.store, setting.tenant, m, receiptId, now);
      ArrivedAnswers(w, setting, j, store.receipts);
      var after := ArriveOn(w, setting, m, receiptId, now);
      if after.marks != w.marks {
        CreatedKeeps(w, setting, Created(m.key, m.archive.content.sampleId), store.receipts);
      }
      assert ReplyOk(after.reply, w.transfer, w.builds, store.receipts, setting) by {
        if w.transfer.Some? && w.transfer.value.job.key == m.key {
          assert w.transfer.value.id == j;
        }
      }
      assert after.marks == w.marks || after.marks == w.marks + [Created(m.key, m.archive.content.sampleId)];
    }
  }

  // The server's new answer, under the key of job `j`, is about its package.
  lemma ArrivedAnswers(w: World, setting: Setting, j: string, answers: Answers)
    requires Inv(w, setting) && j in w.builds
    requires forall k :: k in w.store.receipts ==> k in answers && answers[k] == w.store.receipts[k]
    requires forall k :: k in answers && k !in w.store.receipts ==> k == (setting.tenant.id, w.builds[j].key)
    requires var key := (setting.tenant.id, w.builds[j].key);
      key in answers && key !in w.store.receipts && answers[key].accepted ==>
        answers[key].sampleId == w.builds[j].archive.content.sampleId
    ensures AnswersOk(w.builds, answers, setting)
    ensures ReplyOk(w.reply, w.transfer, w.builds, answers, setting)
    ensures ReceiptsOk(w.q.receipts, w.known, w.q.deletions, w.q.jobs, w.builds, answers, setting)
    ensures CreationsOk(w.marks, answers, setting)
  {
    forall r | r in w.q.receipts
      ensures ReceiptOk(r, w.q.receipts[r], w.q.deletions, w.q.jobs, w.builds, answers, setting)
    {
      assert ReceiptOk(r, w.q.receipts[r], w.q.deletions, w.q.jobs, w.builds, w.store.receipts, setting);
    }
  }

  // A sample is created under a key only when the key has no answer yet.
  lemma CreatedKeeps(w: World, setting: Setting, m: Mark, answers: Answers)
    requires Inv(w, setting) && m.Created?
    requires forall k :: k in w.store.receipts ==> k in answers
    requires (setting.tenant.id, m.key) in answers && (setting.tenant.id, m.key) !in w.store.receipts
    ensures CreationsOk(w.marks + [m], answers, setting)
    ensures JobsOk(w.q.jobs, w.known, w.marks + [m], w.builds, w.transfer, w.q.receipts, setting)
    ensures CountsOk(w.known, w.marks + [m], setting) && SendsOk(w.marks + [m], w.builds)
    ensures ReadyOk(w.ready, w.builds, w.marks + [m], w.transfer)
    ensures TransferOk(w.transfer, w.builds, w.marks + [m], w.q.jobs)
  {
    SameCounts(w, setting, m);
  }

  // A mark that is no send leaves every count alone.
  lemma SameCounts(w: World, setting: Setting, m: Mark)
    requires Inv(w, setting) && !m.Sent?
    ensures JobsOk(w.q.jobs, w.known, w.marks + [m], w.builds, w.transfer, w.q.receipts, setting)
    ensures CountsOk(w.known, w.marks + [m], setting) && SendsOk(w.marks + [m], w.builds)
    ensures ReadyOk(w.ready, w.builds, w.marks + [m], w.transfer)
    ensures TransferOk(w.transfer, w.builds, w.marks + [m], w.q.jobs)
  {
    forall j ensures SentCount(w.marks + [m], j) == SentCount(w.marks, j) {
      CountGrows(w.marks, m, j);
    }
  }

  // ----- the end of a transfer -------------------------------------------------------------------

  // The row of the finished transfer leaves `Uploading`, for a retry only while
  // attempts remain.
  ghost predicate Leaves(before: Job, after: Job, setting: Setting) {
    && after.key == before.key && after.attempts == before.attempts
    && (if before.state.Uploading? then
          after.state.Rejected? || after.state.Deleted? || (after.state.Eligible? && MaySend(setting, after.attempts))
        else after.state == before.state)
  }

  lemma EndRowKeeps(w: World, setting: Setting, after: Rows)
    requires Inv(w, setting) && w.transfer.Some? && OneRow(w.q, after, w.transfer.value.id)
    requires var id := w.transfer.value.id; id in w.q.jobs ==> Leaves(w.q.jobs[id], after.jobs[id], setting)
    ensures Inv(w.(q := after, transfer := None, reply := None), setting)
  {
    var id := w.transfer.value.id;
    EndJobs(w, setting, after);
    forall r | r in w.q.receipts
      ensures ReceiptOk(r, w.q.receipts[r], w.q.deletions, after.jobs, w.builds, w.store.receipts, setting)
    {
      assert ReceiptOk(r, w.q.receipts[r], w.q.deletions, w.q.jobs, w.builds, w.store.receipts, setting);
      assert r.0 != id ==> (r.0 in w.q.jobs ==> after.jobs[r.0] == w.q.jobs[r.0]);
    }
  }

  lemma EndJobs(w: World, setting: Setting, after: Rows)
    requires Inv(w, setting) && w.transfer.Some? && OneRow(w.q, after, w.transfer.value.id)
    requires var id := w.transfer.value.id; id in w.q.jobs ==> Leaves(w.q.jobs[id], after.jobs[id], setting)
    ensures JobsOk(after.jobs, w.known, w.marks, w.builds, None, w.q.receipts, setting)
  {
    forall j | j in after.jobs
      ensures j in w.known && JobOk(after.jobs[j], j, w.marks, w.builds, None, w.q.receipts, setting)
    {
      assert JobOk(w.q.jobs[j], j, w.marks, w.builds, w.transfer, w.q.receipts, setting);
      assert j != w.transfer.value.id ==> after.jobs[j] == w.q.jobs[j];
    }
  }

  lemma EndRejectedKeeps(w: World, setting: Setting, reason: string, now: int)
    requires Inv(w, setting) && w.transfer.Some?
    ensures Inv(w.(q := FinishRejected(w.q, w.transfer.value.id, reason, now), transfer := None, reply := None), setting)
  {
    EndRowKeeps(w, setting, FinishRejected(w.q, w.transfer.value.id, reason, now));
  }

  lemma EndRetryKeeps(w: World, setting: Setting, u: JobUpdate, now: int)
    requires Inv(w, setting) && w.transfer.Some? && u.key.None? && u.attempts.None?
    requires RetryDelay(w.transfer.value.job.attempts, true, setting.policy.retry).Some?
    ensures Inv(w.(q := TryTransition(w.q, w.transfer.value.id, Eligible, u, now), transfer := None, reply := None), setting)
  {
    var id := w.transfer.value.id;
    if id in w.q.jobs {
      assert JobOk(w.q.jobs[id], id, w.marks, w.builds, w.transfer, w.q.receipts, setting);
    }
    RetryLeaves(w.q, setting, id, u, now);
    EndRowKeeps(w, setting, TryTransition(w.q, id, Eligible, u, now));
  }

  lemma RetryLeaves(q: Rows, setting: Setting, id: string, u: JobUpdate, now: int)
    requires u.key.None? && u.attempts.None?
    requires id in q.jobs ==> q.jobs[id].state in {Uploading, Deleted}
    requires id in q.jobs && q.jobs[id].state.Uploading? ==> MaySend(setting, q.jobs[id].attempts)
    ensures OneRow(q, TryTransition(q, id, Eligible, u, now), id)
    ensures id in q.jobs ==> Leaves(q.jobs[id], TryTransition(q, id, Eligible, u, now).jobs[id], setting)
  {
  }

  // A late receipt is kept as not accepted, and its deletion asked for.
  lemma LateKeeps(w: World, setting: Setting, rid: string, requestId: string)
    requires Inv(w, setting) && w.transfer.Some? && requestId !in w.q.deletions
    requires w.transfer.value.id in w.q.jobs ==> w.q.jobs[w.transfer.value.id].state.Deleted?
    ensures Inv(w.(q := KeepLateReceipt(w.q, w.transfer.value.id, rid, requestId), transfer := None, reply := None), setting)
  {
    var id := w.transfer.value.id;
    EndRowKeeps(w, setting, w.q);
    var v := w.(transfer := None, reply := None);
    var asked := InsertDeletion(v.q, requestId, OF_RECEIPT + rid);
    DeletionsKeep(v, setting, asked);
    assert asked.deletions[requestId].scope == OF_RECEIPT + rid;
    assert DeletionAsked(asked.deletions, rid);
    FalseReceiptKeeps(v.(q := asked), setting, id, rid);
    assert KeepLateReceipt(w.q, id, rid, requestId) == InsertReceipt(asked, id, rid, false);
  }

  ghost predicate MoreReceipts(receipts: map<(string, string), bool>, more: map<(string, string), bool>) {
    forall r :: r in receipts ==> r in more && more[r] == receipts[r]
  }

  lemma JobsFollowReceipts(w: World, setting: Setting, transfer: Option<Transfer>, more: map<(string, string), bool>)
    requires JobsOk(w.q.jobs, w.known, w.marks, w.builds, transfer, w.q.receipts, setting)
    requires MoreReceipts(w.q.receipts, more)
    ensures JobsOk(w.q.jobs, w.known, w.marks, w.builds, transfer, more, setting)
  {
    forall j | HasReceipt(w.q.receipts, j) ensures HasReceipt(more, j) {
      var r :| (j, r) in w.q.receipts && w.q.receipts[(j, r)];
      assert (j, r) in more && more[(j, r)];
    }
  }

  lemma FalseReceiptKeeps(w: World, setting: Setting, id: string, rid: string)
    requires Inv(w, setting) && id in w.known && DeletionAsked(w.q.deletions, rid)
    requires id in w.q.jobs ==> w.q.jobs[id].state.Deleted?
    ensures Inv(w.(q := InsertReceipt(w.q, id, rid, false)), setting)
  {
    var after := InsertReceipt(w.q, id, rid, false);
    assert after == w.q.(receipts := after.receipts) && MoreReceipts(w.q.receipts, after.receipts);
    JobsFollowReceipts(w, setting, w.transfer, after.receipts);
    FalseReceiptFits(w, setting, id, rid);
  }

  lemma FalseReceiptFits(w: World, setting: Setting, id: string, rid: string)
    requires Inv(w, setting) && id in w.known && DeletionAsked(w.q.deletions, rid)
    requires id in w.q.jobs ==> w.q.jobs[id].state.Deleted?
    ensures ReceiptsOk(
      InsertReceipt(w.q, id, rid, false).receipts, w.known, w.q.deletions, w.q.jobs, w.builds, w.store.receipts, setting)
  {
  }

  // An acknowledgement changes the row's state, adds the receipt, and drops the
  // package.
  ghost predicate AckRow(q: Rows, after: Rows, id: string) {
    && after.jobs.Keys == q.jobs.Keys && id in q.jobs
    && after.jobs[id].key == q.jobs[id].key && after.jobs[id].attempts == q.jobs[id].attempts
    && after.jobs[id].state.Acknowledged?
    && (forall j :: j in q.jobs && j != id ==> after.jobs[j] == q.jobs[j])
  }

  ghost predicate AckShape(q: Rows, after: Rows, id: string, rid: string) {
    && AckRow(q, after, id)
    && after.packages == q.packages - {id} && after.deletions == q.deletions
    && after.receipts == InsertReceipt(q, id, rid, true).receipts
  }

  lemma AckHasShape(q: Rows, t: Transfer, rid: string, now: int)
    requires t.id in q.jobs && q.jobs[t.id].state.Uploading?
    ensures AckShape(q, Acknowledge(TryTransition(q, t.id, Acknowledged, NO_UPDATE, now), t, rid, now), t.id, rid)
  {
    var moved := TryTransition(q, t.id, Acknowledged, NO_UPDATE, now);
    assert moved == q.(jobs := moved.jobs) && AckRow(q, moved, t.id);
    AcknowledgeShape(moved, t, rid, now);
  }

  lemma AcknowledgeShape(q: Rows, t: Transfer, rid: string, now: int)
    ensures var after := Acknowledge(q, t, rid, now);
      && after.jobs == q.jobs && after.packages == q.packages - {t.id} && after.deletions == q.deletions
      && after.receipts == InsertReceipt(q, t.id, rid, true).receipts
  {
  }

  lemma AckKeeps(w: World, setting: Setting, after: Rows, rid: string)
    requires Inv(w, setting) && w.transfer.Some?
    requires var id := w.transfer.value.id;
      && AckShape(w.q, after, id, rid) && w.q.jobs[id].state.Uploading?
      && Stands(w.builds, w.store.receipts, setting, id, rid)
    ensures var id := w.transfer.value.id;
      Inv(w.(q := after, transfer := None, reply := None, marks := w.marks + [Acked(id, rid)]), setting)
  {
    var m := Acked(w.transfer.value.id, rid);
    AckReceipt(w, setting, after, rid);
    AckReceipts(w, setting, after, rid);
    AckJobs(w, setting, after);
    AckMarks(w, setting, after, m);
    SameCounts(w, setting, m);
    OtherMark(w.marks, m, w.store.receipts, setting);
  }

  // No earlier receipt of the uploading job says otherwise.
  lemma AckReceipt(w: World, setting: Setting, after: Rows, rid: string)
    requires Inv(w, setting) && w.transfer.Some?
    requires AckShape(w.q, after, w.transfer.value.id, rid) && w.q.jobs[w.transfer.value.id].state.Uploading?
    ensures (w.transfer.value.id, rid) in after.receipts && after.receipts[(w.transfer.value.id, rid)]
    ensures MoreReceipts(w.q.receipts, after.receipts) && HasReceipt(after.receipts, w.transfer.value.id)
    ensures forall r :: r in w.q.receipts ==> r.0 != w.transfer.value.id
  {
    UploadingHasNoReceipt(w, setting, w.transfer.value.id);
    FirstReceipt(w.q, w.transfer.value.id, rid);
  }

  lemma UploadingHasNoReceipt(w: World, setting: Setting, id: string)
    requires ReceiptsOk(w.q.receipts, w.known, w.q.deletions, w.q.jobs, w.builds, w.store.receipts, setting)
    requires id in w.q.jobs && w.q.jobs[id].state.Uploading?
    ensures forall r :: r in w.q.receipts ==> r.0 != id
  {
    forall r | r in w.q.receipts ensures r.0 != id {
      assert ReceiptOk(r, w.q.receipts[r], w.q.deletions, w.q.jobs, w.builds, w.store.receipts, setting);
    }
  }

  lemma FirstReceipt(q: Rows, id: string, rid: string)
    requires forall r :: r in q.receipts ==> r.0 != id
    ensures var more := InsertReceipt(q, id, rid, true).receipts;
      (id, rid) in more && more[(id, rid)] && MoreReceipts(q.receipts, more) && HasReceipt(more, id)
  {
    var more := InsertReceipt(q, id, rid, true).receipts;
    assert (id, rid) in more && more[(id, rid)];
  }

  lemma AckReceipts(w: World, setting: Setting, after: Rows, rid: string)
    requires Inv(w, setting) && w.transfer.Some? && AckShape(w.q, after, w.transfer.value.id, rid)
    requires Stands(w.builds, w.store.receipts, setting, w.transfer.value.id, rid)
    requires (w.transfer.value.id, rid) in after.receipts && after.receipts[(w.transfer.value.id, rid)]
    requires forall r :: r in w.q.receipts ==> r.0 != w.transfer.value.id
    ensures ReceiptsOk(after.receipts, w.known, w.q.deletions, after.jobs, w.builds, w.store.receipts, setting)
  {
    forall r | r in after.receipts
      ensures r.0 in w.known
      ensures ReceiptOk(r, after.receipts[r], w.q.deletions, after.jobs, w.builds, w.store.receipts, setting)
    {
      if r in w.q.receipts {
        assert ReceiptOk(r, w.q.receipts[r], w.q.deletions, w.q.jobs, w.builds, w.store.receipts, setting);
        assert r.0 in w.q.jobs ==> after.jobs[r.0] == w.q.jobs[r.0];
      }
    }
  }

  lemma AckJobs(w: World, setting: Setting, after: Rows)
    requires JobsOk(w.q.jobs, w.known, w.marks, w.builds, w.transfer, w.q.receipts, setting)
    requires w.transfer.Some? && AckRow(w.q, after, w.transfer.value.id) && w.transfer.value.id in w.builds
    requires MoreReceipts(w.q.receipts, after.receipts) && HasReceipt(after.receipts, w.transfer.value.id)
    ensures JobsOk(after.jobs, w.known, w.marks, w.builds, None, after.receipts, setting)
  {
    JobsFollowReceipts(w, setting, w.transfer, after.receipts);
    forall j | j in after.jobs
      ensures j in w.known && JobOk(after.jobs[j], j, w.marks, w.builds, None, after.receipts, setting)
    {
      if j == w.transfer.value.id {
        assert JobOk(w.q.jobs[j], j, w.marks, w.builds, w.transfer, w.q.receipts, setting);
      } else {
        JobWithoutTransfer(w.q.jobs[j], j, w.marks, w.builds, w.transfer, after.receipts, setting);
      }
    }
  }

  lemma JobWithoutTransfer(
    job: Job, j: string, marks: seq<Mark>, builds: map<string, Built>, transfer: Option<Transfer>,
    receipts: map<(string, string), bool>, setting: Setting)
    requires JobOk(job, j, marks, builds, transfer, receipts, setting) && transfer.Some? && transfer.value.id != j
    ensures JobOk(job, j, marks, builds, None, receipts, setting)
  {
  }

  lemma AckMarks(w: World, setting: Setting, after: Rows, m: Mark)
    requires JobsOk(after.jobs, w.known, w.marks, w.builds, None, after.receipts, setting) && !m.Sent?
    ensures JobsOk(after.jobs, w.known, w.marks + [m], w.builds, None, after.receipts, setting)
  {
    forall j ensures SentCount(w.marks + [m], j) == SentCount(w.marks, j) {
      CountGrows(w.marks, m, j);
    }
  }

  lemma EndKeepsAll(w: World, setting: Setting, response: Response, requestId: string, now: int)
    requires Inv(w, setting) && Allowed(w, setting, EndUpload(response, requestId, now))
    ensures Inv(EndOn(w, setting, response, requestId, now), setting)
  {
    if w.transfer.Some? {
      match response {
        case Answered(receipt) => EndAnswered(w, setting, receipt, requestId, now);
        case Retriable(reason) => EndRetriable(w, setting, reason, requestId, now);
        case Permanent(reason) => EndRejectedKeeps(w, setting, reason, now);
        case Unauthorized => EndRejectedKeeps(w, setting, "unauthorized", now);
      }
    }
  }

  lemma EndRetriable(w: World, setting: Setting, reason: string, requestId: string, now: int)
    requires Inv(w, setting) && w.transfer.Some?
    ensures Inv(EndOn(w, setting, Retriable(reason), requestId, now), setting)
  {
    var delay := RetryDelay(w.transfer.value.job.attempts, true, setting.policy.retry);
    if delay.None? {
      EndRejectedKeeps(w, setting, reason, now);
    } else {
      var u := Because(reason).(nextAttemptAt := Some(now + delay.value));
      EndRetryKeeps(w, setting, u, now);
      RetryIsTransition(w, setting, reason, requestId, now, u);
    }
  }

  lemma RetryIsTransition(w: World, setting: Setting, reason: string, requestId: string, now: int, u: JobUpdate)
    requires w.transfer.Some?
    requires var delay := RetryDelay(w.transfer.value.job.attempts, true, setting.policy.retry);
      delay.Some? && u == Because(reason).(nextAttemptAt := Some(now + delay.value))
    ensures EndOn(w, setting, Retriable(reason), requestId, now)
      == w.(q := TryTransition(w.q, w.transfer.value.id, Eligible, u, now), transfer := None, reply := None)
  {
  }

  lemma EndAnswered(w: World, setting: Setting, receipt: Receipt, requestId: string, now: int)
    requires Inv(w, setting) && w.transfer.Some? && w.reply == Some(receipt) && requestId !in w.q.deletions
    ensures Inv(EndOn(w, setting, Answered(receipt), requestId, now), setting)
  {
    var t := w.transfer.value;
    if !receipt.accepted {
      EndRejectedKeeps(w, setting, receipt.reason, now);
    } else if t.id in w.q.jobs && w.q.jobs[t.id].state.Uploading? {
      EndAcked(w, setting, receipt, requestId, now);
    } else {
      EndLate(w, setting, receipt, requestId, now);
    }
  }

  lemma EndAcked(w: World, setting: Setting, receipt: Receipt, requestId: string, now: int)
    requires Inv(w, setting) && w.transfer.Some? && w.reply == Some(receipt) && receipt.accepted
    requires w.transfer.value.id in w.q.jobs && w.q.jobs[w.transfer.value.id].state.Uploading?
    ensures Inv(EndOn(w, setting, Answered(receipt), requestId, now), setting)
  {
    AckHasShape(w.q, w.transfer.value, receipt.receiptId, now);
    var moved := TryTransition(w.q, w.transfer.value.id, Acknowledged, NO_UPDATE, now);
    AckKeeps(w, setting, Acknowledge(moved, w.transfer.value, receipt.receiptId, now), receipt.receiptId);
  }

  lemma EndLate(w: World, setting: Setting, receipt: Receipt, requestId: string, now: int)
    requires Inv(w, setting) && w.transfer.Some? && receipt.accepted && requestId !in w.q.deletions
    requires !(w.transfer.value.id in w.q.jobs && w.q.jobs[w.transfer.value.id].state.Uploading?)
    ensures Inv(EndOn(w, setting, Answered(receipt), requestId, now), setting)
    ensures EndOn(w, setting, Answered(receipt), requestId, now).q
      == KeepLateReceipt(w.q, w.transfer.value.id, receipt.receiptId, requestId)
  {
    LateKeeps(w, setting, receipt.receiptId, requestId);
  }
}
