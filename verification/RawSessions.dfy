// Recordings kept for contribution: queued with a job, gone with it.
module RawSessions {
  import opened Options
  import opened Jobs
  import opened Queue
  import opened Upload
  import opened Pipeline

  const JOB_HISTORY_SECONDS: nat := 90 * 24 * 3600

  // ----- queueing a finished dictation ----------------------------------------------------

  datatype EnqueueOutcome = Enqueued(id: string) | Refused(refusal: Refusal) | StoreFailed

  // The recording is stored before its job and, if the job cannot be, removed.
  ghost function EnqueueOn(
    q: Rows, raws: Raws, target: Target, id: string, sessionId: string, facts: Facts, now: int)
    : (Rows, Raws, EnqueueOutcome)
  {
    var consent := CurrentConsent(q);
    var refusal := CheckSession(consent, facts, target, now);
    if refusal.Some? then (q, raws, Refused(refusal.value))
    else if sessionId in raws then (q, raws, StoreFailed)
    else
      var job := NewJob(sessionId, consent.value.id, facts.startedAt, now);
      match InsertJob(q, id, job)
      case Some(after) => (after, raws[sessionId := job.expiresAt], Enqueued(id))
      case None => (q, raws - {sessionId}, StoreFailed)
  }

  lemma CurrentIsUnique(q: Rows, active: set<string>, consent: Option<Consent>)
    requires OneActive(q) && active == set c | c in q.consents && q.consents[c].revokedAt.None?
    requires if consent.None? then active == {} else exists c :: c in active && consent.value == q.consents[c]
    ensures consent == CurrentConsent(q)
  {
    if consent.Some? {
      var c :| c in active && consent.value == q.consents[c];
      assert forall d :: d in active ==> d == c;
      var other :| other in q.consents && q.consents[other].revokedAt.None?
        && CurrentConsent(q) == Some(q.consents[other]);
      assert other in active;
    } else {
      assert forall c :: c in q.consents && q.consents[c].revokedAt.None? ==> c in active;
    }
  }

  method EnqueueSession(
    queue: EncryptedStore, sessions: SessionStore, target: Target, id: string, sessionId: string, facts: Facts, now: int)
    returns (outcome: EnqueueOutcome)
    requires OneActive(queue.rows)
    modifies queue, sessions
    ensures (queue.rows, sessions.raws, outcome)
      == EnqueueOn(old(queue.rows), old(sessions.raws), target, id, sessionId, facts, now)
  {
    var active := set c | c in queue.rows.consents && queue.rows.consents[c].revokedAt.None?;
    var consent: Option<Consent> := None;
    if active != {} {
      var c :| c in active;
      consent := Some(queue.rows.consents[c]);
    }
    CurrentIsUnique(queue.rows, active, consent);
    var refusal := CheckSession(consent, facts, target, now);
    if refusal.Some? {
      return Refused(refusal.value);
    }
    if sessionId in sessions.raws {
      return StoreFailed;
    }
    var job := NewJob(sessionId, consent.value.id, facts.startedAt, now);
    sessions.raws := sessions.raws[sessionId := job.expiresAt];
    var inserted := InsertJob(queue.rows, id, job);
    if inserted.None? {
      sessions.raws := sessions.raws - {sessionId};
      assert sessions.raws == old(sessions.raws) - {sessionId};
      return StoreFailed;
    }
    queue.rows := inserted.value;
    outcome := Enqueued(id);
  }

  // ----- withdrawing everything --------------------------------------------------------------

  function SessionsOf(q: Rows, ids: set<string>): set<string> {
    set id | id in ids && id in q.jobs :: q.jobs[id].sessionId
  }

  method CancelEverything(queue: EncryptedStore, sessions: SessionStore, reason: string, now: int)
    modifies queue, sessions
    ensures queue.rows == CancelAllJobs(old(queue.rows), reason, now)
    ensures sessions.raws == old(sessions.raws) - SessionsOf(old(queue.rows), Cancellable(old(queue.rows)))
  {
    ghost var before := queue.rows;
    var cancelled := queue.CancelAll(reason, now);
    sessions.raws := sessions.raws - SessionsOf(queue.rows, cancelled);
    assert SessionsOf(queue.rows, cancelled) == SessionsOf(before, cancelled);
  }

  // ----- cleaning up -----------------------------------------------------------------------------

  predicate Purged(job: Job, now: int) {
    job.state.IsTerminal() && now - job.updatedAt > JOB_HISTORY_SECONDS
  }

  function Aged(job: Job, now: int): Job {
    if !job.state.IsTerminal() && job.expiresAt <= now then Updated(job, Deleted, Because("expired"), now) else job
  }

  // Expired recordings go, jobs expire with them, and old history is forgotten;
  // `lost` are the packages that expired.
  function CleanUpRows(q: Rows, lost: set<string>, now: int): Rows {
    q.(packages := q.packages - lost,
       jobs := map id | id in q.jobs && !Purged(q.jobs[id], now) :: Aged(q.jobs[id], now))
  }

  function Unexpired(raws: Raws, now: int): Raws {
    map s | s in raws && raws[s] > now :: raws[s]
  }

  // `before` with the jobs `done` looked at.
  ghost predicate PartlyAged(before: Rows, q: Rows, done: set<string>, now: int) {
    && q == before.(jobs := q.jobs)
    && (forall id :: id in q.jobs <==> id in before.jobs && !(id in done && Purged(before.jobs[id], now)))
    && (forall id :: id in q.jobs ==> q.jobs[id] == if id in done then Aged(before.jobs[id], now) else before.jobs[id])
  }

  lemma AllAged(before: Rows, q: Rows, now: int)
    requires PartlyAged(before, q, before.jobs.Keys, now)
    ensures q == CleanUpRows(before, {}, now)
  {
    assert q.jobs == CleanUpRows(before, {}, now).jobs;
    assert before.packages - {} == before.packages;
  }

  method CleanUp(queue: EncryptedStore, sessions: SessionStore, lost: set<string>, now: int)
    modifies queue, sessions
    ensures queue.rows == CleanUpRows(old(queue.rows), lost, now)
    ensures sessions.raws == Unexpired(old(sessions.raws), now)
  {
    sessions.raws := Unexpired(sessions.raws, now);
    queue.rows := queue.rows.(packages := queue.rows.packages - lost);
    AgeAll(queue, now);
  }

  method AgeAll(queue: EncryptedStore, now: int)
    modifies queue
    ensures queue.rows == CleanUpRows(old(queue.rows), {}, now)
  {
    ghost var before, done := queue.rows, {};
    var open := queue.rows.jobs.Keys;
    while open != {}
      invariant open !! done && open + done == before.jobs.Keys
      invariant PartlyAged(before, queue.rows, done, now)
      decreases |open|
    {
      var id :| id in open;
      AgeRow(queue, before, done, id, now);
      open, done := open - {id}, done + {id};
    }
    AllAged(before, queue.rows, now);
  }

  lemma AgeOne(before: Rows, q: Rows, done: set<string>, id: string, now: int)
    requires PartlyAged(before, q, done, now) && id in before.jobs && id !in done
    ensures id in q.jobs && q.jobs[id] == before.jobs[id]
    ensures PartlyAged(
      before, q.(jobs := if Purged(q.jobs[id], now) then q.jobs - {id} else q.jobs[id := Aged(q.jobs[id], now)]),
      done + {id}, now)
  {
  }

  method AgeRow(queue: EncryptedStore, ghost before: Rows, ghost done: set<string>, id: string, now: int)
    requires PartlyAged(before, queue.rows, done, now) && id in before.jobs && id !in done
    modifies queue
    ensures PartlyAged(before, queue.rows, done + {id}, now)
  {
    AgeOne(before, queue.rows, done, id, now);
    var job := queue.rows.jobs[id];
    if Purged(job, now) {
      queue.rows := PurgeJob(queue.rows, id);
    } else if !job.state.IsTerminal() && job.expiresAt <= now {
      var moved := queue.Transition(id, Deleted, Because("expired"), now);
    }
  }

  // ----- the client, step by step ------------------------------------------------------------------

  datatype Client = Client(q: Rows, raws: Raws)

  const NO_CLIENT := Client(NO_ROWS, map[])

  datatype ClientStep =
    | Granted(record: Consent)
    | PauseSet(consentId: string, paused: bool)
    | ConsentEnded(consentId: string, now: int)
    | Finished(id: string, sessionId: string, facts: Facts, now: int)
    | Processed(id: string, course: Course, now: int)
    | Uploaded(listing: seq<string>, weather: Weather, now: int)
    | CancelledAll(reason: string, now: int)
    | CleanedUp(lost: set<string>, now: int)

  ghost function After(c: Client, policy: UploadPolicy, step: ClientStep): Client {
    match step
    case Granted(record) => c.(q := InsertConsent(c.q, record))
    case PauseSet(consentId, paused) => c.(q := SetPaused(c.q, consentId, paused))
    case ConsentEnded(consentId, now) => c.(q := RevokeConsent(c.q, consentId, now))
    case Finished(id, sessionId, facts, now) =>
      var (q, raws, _) := EnqueueOn(c.q, c.raws, policy.target, id, sessionId, facts, now);
      Client(q, raws)
    case Processed(id, course, now) =>
      if id in c.q.jobs && c.q.jobs[id].state.LocalPending? then
        var (q, raws, _) := Process(c.q, c.raws, policy.target, id, course, now);
        Client(q, raws)
      else c
    case Uploaded(listing, weather, now) =>
      var plan := Due(c.q, listing, now);
      c.(q := Round(c.q, policy, plan, weather, now, |plan|).0)
    case CancelledAll(reason, now) =>
      Client(CancelAllJobs(c.q, reason, now), c.raws - SessionsOf(c.q, Cancellable(c.q)))
    case CleanedUp(lost, now) => Client(CleanUpRows(c.q, lost, now), Unexpired(c.raws, now))
  }

  ghost function ClientRun(policy: UploadPolicy, steps: seq<ClientStep>): Client {
    if steps == [] then NO_CLIENT
    else After(ClientRun(policy, steps[..|steps| - 1]), policy, steps[|steps| - 1])
  }

  // ----- recordings belong to jobs in the pipeline -----------------------------------------------------

  predicate InPipeline(state: JobState) {
    state.LocalPending? || state.Analyzing? || state.Building?
  }

  ghost predicate Belongs(jobs: map<string, Job>, session: string, expiresAt: int, id: string) {
    id in jobs && jobs[id].sessionId == session && jobs[id].expiresAt == expiresAt && InPipeline(jobs[id].state)
  }

  ghost predicate RawsBelong(jobs: map<string, Job>, raws: Raws) {
    forall s :: s in raws ==> exists id :: Belongs(jobs, s, raws[s], id)
  }

  ghost predicate SessionsUnique(jobs: map<string, Job>) {
    forall i, j :: i in jobs && j in jobs && jobs[i].sessionId == jobs[j].sessionId ==> i == j
  }

  ghost predicate Tidy(c: Client) {
    RawsBelong(c.q.jobs, c.raws) && SessionsUnique(c.q.jobs)
  }

  // A recording stays only with its job unchanged, and no job is added.
  ghost predicate Follows(c: Client, after: Client) {
    && (forall id :: id in after.q.jobs ==> id in c.q.jobs && after.q.jobs[id].sessionId == c.q.jobs[id].sessionId)
    && (forall s :: s in after.raws ==> s in c.raws && after.raws[s] == c.raws[s])
    && (forall s, id :: s in after.raws && Belongs(c.q.jobs, s, c.raws[s], id) ==> Belongs(after.q.jobs, s, c.raws[s], id))
  }

  lemma FollowsKeeps(c: Client, after: Client)
    requires Tidy(c) && Follows(c, after)
    ensures Tidy(after)
  {
    forall s | s in after.raws ensures exists id :: Belongs(after.q.jobs, s, after.raws[s], id) {
      var id :| Belongs(c.q.jobs, s, c.raws[s], id);
      assert Belongs(after.q.jobs, s, after.raws[s], id);
    }
  }

  lemma EnqueueKeeps(c: Client, target: Target, id: string, sessionId: string, facts: Facts, now: int)
    requires Tidy(c)
    ensures var (q, raws, _) := EnqueueOn(c.q, c.raws, target, id, sessionId, facts, now); Tidy(Client(q, raws))
  {
    var (q, raws, outcome) := EnqueueOn(c.q, c.raws, target, id, sessionId, facts, now);
    if outcome.Enqueued? {
      forall s | s in raws ensures exists j :: Belongs(q.jobs, s, raws[s], j) {
        if s == sessionId {
          assert Belongs(q.jobs, s, raws[s], id);
        } else {
          var j :| Belongs(c.q.jobs, s, c.raws[s], j);
          assert Belongs(q.jobs, s, raws[s], j);
        }
      }
    }
  }

  // A stored recording's session has a job, so the store refuses neither
  // before nor after: queueing does to the rows what it does without recordings.
  lemma EnqueueAgrees(c: Client, target: Target, id: string, sessionId: string, facts: Facts, now: int)
    requires Tidy(c)
    ensures EnqueueOn(c.q, c.raws, target, id, sessionId, facts, now).0 == Enqueue(c.q, target, id, sessionId, facts, now)
  {
    if sessionId in c.raws {
      var j :| Belongs(c.q.jobs, sessionId, c.raws[sessionId], j);
    }
  }

  // ----- one row at a time ---------------------------------------------------------------------------------

  // Only the row of `id` may differ, and of it not the session nor the expiry.
  predicate SameElse(before: map<string, Job>, after: map<string, Job>, id: string) {
    || after == before
    || (id in before && id in after && after == before[id := after[id]]
        && after[id].sessionId == before[id].sessionId && after[id].expiresAt == before[id].expiresAt)
  }

  lemma SameElseAgain(before: map<string, Job>, middle: map<string, Job>, after: map<string, Job>, id: string)
    requires SameElse(before, middle, id) && SameElse(middle, after, id)
    ensures SameElse(before, after, id)
  {
    if after != middle && middle != before {
      assert before[id := middle[id]][id := after[id]] == before[id := after[id]];
    }
  }

  lemma MoveSameElse(q: Rows, id: string, target: JobState, u: JobUpdate, now: int)
    ensures SameElse(q.jobs, TryTransition(q, id, target, u, now).jobs, id)
  {
  }

  lemma EndSameElse(q: Rows, id: string, reason: string, now: int)
    ensures SameElse(q.jobs, CancelJob(q, id, reason, now).jobs, id)
    ensures SameElse(q.jobs, FinishRejected(q, id, reason, now).jobs, id)
  {
    MoveSameElse(q, id, Deleted, Because(reason), now);
    MoveSameElse(q, id, Rejected, Because(reason), now);
  }

  lemma BeginSameElse(q: Rows, policy: UploadPolicy, id: string, job: Job, now: int)
    ensures var (after, begun) := Begin(q, policy, id, job, now);
      SameElse(q.jobs, after.jobs, id) && (begun.Sending? ==> begun.transfer.id == id)
  {
    var refusal := Recheck(q.ConsentOf(job.consentId), policy.target, now);
    var (packages, seconds) := q.VolumeOn(now);
    if refusal.Some? {
      EndSameElse(q, id, RefusalCode(refusal.value), now);
    } else if packages >= policy.caps.maxPackagesPerDay || seconds >= policy.caps.maxSecondsPerDay {
    } else if id !in q.packages {
      EndSameElse(q, id, "package_missing_or_expired", now);
    } else {
      MoveSameElse(q, id, Uploading, NO_UPDATE.(attempts := Some(SmallerOf(job.attempts + 1, Upload.U32_MAX))), now);
    }
  }

  lemma ReceiptKeepsJobs(q: Rows, t: Transfer, receiptId: string, requestId: string, now: int)
    ensures Acknowledge(q, t, receiptId, now).jobs == q.jobs
    ensures KeepLateReceipt(q, t.id, receiptId, requestId).jobs == q.jobs
  {
  }

  lemma AnsweredSameElse(
    q: Rows, policy: UploadPolicy, t: Transfer, receipt: Server.Receipt, requestId: string, now: int)
    ensures SameElse(q.jobs, Finish(q, policy, t, Answered(receipt), requestId, now).0.jobs, t.id)
  {
    if !receipt.accepted {
      EndSameElse(q, t.id, receipt.reason, now);
    } else {
      var moved := TryTransition(q, t.id, Acknowledged, NO_UPDATE, now);
      MoveSameElse(q, t.id, Acknowledged, NO_UPDATE, now);
      ReceiptKeepsJobs(moved, t, receipt.receiptId, requestId, now);
    }
  }

  lemma RetriedSameElse(q: Rows, policy: UploadPolicy, t: Transfer, reason: string, requestId: string, now: int)
    ensures SameElse(q.jobs, Finish(q, policy, t, Retriable(reason), requestId, now).0.jobs, t.id)
  {
    var delay := RetryDelay(t.job.attempts, true, policy.retry);
    if delay.None? {
      EndSameElse(q, t.id, reason, now);
    } else {
      MoveSameElse(q, t.id, Eligible, Because(reason).(nextAttemptAt := Some(now + delay.value)), now);
    }
  }

  lemma FinishSameElse(q: Rows, policy: UploadPolicy, t: Transfer, response: Response, requestId: string, now: int)
    ensures SameElse(q.jobs, Finish(q, policy, t, response, requestId, now).0.jobs, t.id)
  {
    match response {
      case Answered(receipt) => AnsweredSameElse(q, policy, t, receipt, requestId, now);
      case Retriable(reason) => RetriedSameElse(q, policy, t, reason, requestId, now);
      case Permanent(reason) => EndSameElse(q, t.id, reason, now);
      case Unauthorized => EndSameElse(q, t.id, "unauthorized", now);
    }
  }

  lemma WholeSameElse(
    q: Rows, policy: UploadPolicy, id: string, job: Job, response: Response, requestId: string, now: int)
    ensures SameElse(q.jobs, Whole(q, policy, id, job, response, requestId, now).0.jobs, id)
  {
    BeginSameElse(q, policy, id, job, now);
    var (begun, outcome) := Begin(q, policy, id, job, now);
    if outcome.Sending? {
      FinishSameElse(begun, policy, outcome.transfer, response, requestId, now);
      var after := Finish(begun, policy, outcome.transfer, response, requestId, now).0;
      SameElseAgain(q.jobs, begun.jobs, after.jobs, id);
    }
  }

  predicate Planned(plan: seq<(string, Job)>, id: string) {
    exists p :: p in plan && p.0 == id
  }

  // A round touches no job that is not planned.
  ghost predicate OnlyPlanned(before: map<string, Job>, plan: seq<(string, Job)>, after: map<string, Job>) {
    && after.Keys == before.Keys
    && (forall j :: j in before ==> after[j].sessionId == before[j].sessionId)
    && (forall j :: j in before && !Planned(plan, j) ==> after[j] == before[j])
  }

  lemma PlannedAgain(
    before: map<string, Job>, plan: seq<(string, Job)>, middle: map<string, Job>, after: map<string, Job>, id: string)
    requires OnlyPlanned(before, plan, middle) && SameElse(middle, after, id) && Planned(plan, id)
    ensures OnlyPlanned(before, plan, after)
  {
  }

  lemma {:induction false} RoundOnlyPlanned(
    q: Rows, policy: UploadPolicy, plan: seq<(string, Job)>, weather: Weather, now: int, n: nat)
    requires n <= |plan|
    ensures OnlyPlanned(q.jobs, plan, Round(q, policy, plan, weather, now, n).0.jobs)
  {
    if n > 0 {
      RoundOnlyPlanned(q, policy, plan, weather, now, n - 1);
      var (before, going) := Round(q, policy, plan, weather, now, n - 1);
      var (id, job) := plan[n - 1];
      if going {
        var after := Whole(before, policy, id, job, weather.response(id), weather.requestId(id), now).0;
        WholeSameElse(before, policy, id, job, weather.response(id), weather.requestId(id), now);
        assert plan[n - 1] in plan && Planned(plan, id);
        PlannedAgain(q.jobs, plan, before.jobs, after.jobs, id);
      }
    }
  }

  // ----- every step -------------------------------------------------------------------------------------------

  lemma UploadFollows(c: Client, policy: UploadPolicy, listing: seq<string>, weather: Weather, now: int)
    ensures Follows(c, After(c, policy, Uploaded(listing, weather, now)))
  {
    var plan := Due(c.q, listing, now);
    var after := Round(c.q, policy, plan, weather, now, |plan|).0;
    RoundOnlyPlanned(c.q, policy, plan, weather, now, |plan|);
    forall s, id | s in c.raws && Belongs(c.q.jobs, s, c.raws[s], id) ensures Belongs(after.jobs, s, c.raws[s], id) {
      assert !Planned(plan, id);
    }
  }

  // Processing one job moves its row only, and keeps its recording only while
  // it is in the pipeline.
  predicate Processes(q: Rows, raws: Raws, id: string, after: Rows, left: Raws) {
    && id in q.jobs && id in after.jobs && SameElse(q.jobs, after.jobs, id)
    && (left == raws - {q.jobs[id].sessionId} || (left == raws && InPipeline(after.jobs[id].state)))
  }

  lemma ProcessOneRow(q: Rows, raws: Raws, target: Target, id: string, course: Course, now: int)
    requires id in q.jobs && q.jobs[id].state.LocalPending?
    ensures var (after, left, _) := Process(q, raws, target, id, course, now);
      Processes(q, raws, id, after, left)
  {
    var refusal := Recheck(q.ConsentOf(q.jobs[id].consentId), target, now);
    if !course.preemptedAtStart {
      if refusal.Some? {
        EndSameElse(q, id, RefusalCode(refusal.value), now);
      } else {
        Moves(q, id, Analyzing, now);
        ClaimedOneRow(q, raws, target, id, course, now);
      }
    }
  }

  lemma ClaimedOneRow(q: Rows, raws: Raws, target: Target, id: string, course: Course, now: int)
    requires id in q.jobs && q.jobs[id].state.LocalPending? && !course.preemptedAtStart
    requires Recheck(q.ConsentOf(q.jobs[id].consentId), target, now).None?
    ensures var (after, left, _) := Process(q, raws, target, id, course, now);
      Processes(q, raws, id, after, left)
  {
    var after := Process(q, raws, target, id, course, now).0;
    var claimed := TryTransition(q, id, Analyzing, NO_UPDATE, now);
    Moves(q, id, Analyzing, now);
    MoveSameElse(q, id, Analyzing, NO_UPDATE, now);
    if q.jobs[id].sessionId !in raws || !course.readable {
      EndSameElse(claimed, id, "raw_session_missing_or_expired", now);
    } else if course.preemptedAfterAnalysis {
      Moves(claimed, id, LocalPending, now);
      MoveSameElse(claimed, id, LocalPending, NO_UPDATE, now);
    } else {
      Moves(claimed, id, Building, now);
      MoveSameElse(claimed, id, Building, NO_UPDATE, now);
      BuiltOneRow(TryTransition(claimed, id, Building, NO_UPDATE, now), target, id, q.jobs[id].consentId, course, now);
      SameElseAgain(claimed.jobs, TryTransition(claimed, id, Building, NO_UPDATE, now).jobs, after.jobs, id);
    }
    SameElseAgain(q.jobs, claimed.jobs, after.jobs, id);
  }

  // What becomes of a job that is built.
  lemma BuiltOneRow(q: Rows, target: Target, id: string, consentId: string, course: Course, now: int)
    requires id in q.jobs && q.jobs[id].state.Building? && Recheck(q.ConsentOf(consentId), target, now).None?
    ensures SameElse(q.jobs, TryTransition(q, id, LocalPending, NO_UPDATE, now).jobs, id)
    ensures TryTransition(q, id, LocalPending, NO_UPDATE, now).jobs[id].state.LocalPending?
    ensures course.rejection.Some? ==> SameElse(q.jobs, Discard(q, id, course.rejection.value, now).jobs, id)
    ensures SameElse(q.jobs, FinishBuilding(q, target, id, consentId, course.built, now).jobs, id)
    ensures id in q.packages ==> FinishBuilding(q, target, id, consentId, course.built, now) == q
  {
    Moves(q, id, LocalPending, now);
    MoveSameElse(q, id, LocalPending, NO_UPDATE, now);
    if course.rejection.Some? {
      EndSameElse(q, id, course.rejection.value, now);
    }
    var stored := q.(packages := q.packages[id := course.built.archive]);
    MoveSameElse(stored, id, Eligible, EligibleUpdate(course.built), now);
  }

  lemma ProcessFollows(c: Client, policy: UploadPolicy, id: string, course: Course, now: int)
    requires Tidy(c) && id in c.q.jobs && c.q.jobs[id].state.LocalPending?
    ensures Follows(c, After(c, policy, Processed(id, course, now)))
  {
    ProcessOneRow(c.q, c.raws, policy.target, id, course, now);
    OneRowFollows(c, After(c, policy, Processed(id, course, now)), id);
  }

  lemma OneRowFollows(c: Client, after: Client, id: string)
    requires Tidy(c) && Processes(c.q, c.raws, id, after.q, after.raws) && InPipeline(c.q.jobs[id].state)
    ensures Follows(c, after)
  {
    forall s, j | s in after.raws && Belongs(c.q.jobs, s, c.raws[s], j) ensures Belongs(after.q.jobs, s, c.raws[s], j) {
      if j != id {
        assert after.q.jobs[j] == c.q.jobs[j];
      }
    }
  }

  lemma CancelFollows(c: Client, policy: UploadPolicy, reason: string, now: int)
    ensures Follows(c, After(c, policy, CancelledAll(reason, now)))
  {
    forall s, id | s in c.raws && Belongs(c.q.jobs, s, c.raws[s], id) ensures s in SessionsOf(c.q, Cancellable(c.q)) {
      assert id in Cancellable(c.q);
    }
  }

  lemma CleanUpFollows(c: Client, policy: UploadPolicy, lost: set<string>, now: int)
    ensures Follows(c, After(c, policy, CleanedUp(lost, now)))
  {
  }

  lemma StepKeepsTidy(c: Client, policy: UploadPolicy, step: ClientStep)
    requires Tidy(c)
    ensures Tidy(After(c, policy, step))
  {
    match step {
      case Finished(id, sessionId, facts, now) => EnqueueKeeps(c, policy.target, id, sessionId, facts, now);
      case Processed(id, course, now) =>
        if id in c.q.jobs && c.q.jobs[id].state.LocalPending? {
          ProcessFollows(c, policy, id, course, now);
          FollowsKeeps(c, After(c, policy, step));
        }
      case Uploaded(listing, weather, now) =>
        UploadFollows(c, policy, listing, weather, now);
        FollowsKeeps(c, After(c, policy, step));
      case CancelledAll(reason, now) =>
        CancelFollows(c, policy, reason, now);
        FollowsKeeps(c, After(c, policy, step));
      case CleanedUp(lost, now) =>
        CleanUpFollows(c, policy, lost, now);
        FollowsKeeps(c, After(c, policy, step));
      case _ =>
    }
  }

  // ----- whole runs -----------------------------------------------------------------------------------------------

  lemma {:induction false} RunIsTidy(policy: UploadPolicy, steps: seq<ClientStep>)
    ensures Tidy(ClientRun(policy, steps))
  {
    if steps != [] {
      RunIsTidy(policy, steps[..|steps| - 1]);
      StepKeepsTidy(ClientRun(policy, steps[..|steps| - 1]), policy, steps[|steps| - 1]);
    }
  }

  // Over every run a recording is kept only while the one job of its session
  // waits, is analyzed or is built, and it expires with that job.
  lemma RecordingsStayInPipeline(policy: UploadPolicy, steps: seq<ClientStep>, id: string)
    requires id in ClientRun(policy, steps).q.jobs
    ensures var c := ClientRun(policy, steps);
      c.q.jobs[id].sessionId in c.raws ==>
        InPipeline(c.q.jobs[id].state) && c.raws[c.q.jobs[id].sessionId] == c.q.jobs[id].expiresAt
  {
    RunIsTidy(policy, steps);
    var c := ClientRun(policy, steps);
    if c.q.jobs[id].sessionId in c.raws {
      var j :| Belongs(c.q.jobs, c.q.jobs[id].sessionId, c.raws[c.q.jobs[id].sessionId], j);
      assert j == id;
    }
  }

  // Withdrawing everything, at any point of any run, leaves no recording.
  lemma WithdrawalLeavesNoRecording(policy: UploadPolicy, steps: seq<ClientStep>, reason: string, now: int)
    ensures After(ClientRun(policy, steps), policy, CancelledAll(reason, now)).raws == map[]
  {
    RunIsTidy(policy, steps);
    var c := ClientRun(policy, steps);
    forall s | s in c.raws ensures s in SessionsOf(c.q, Cancellable(c.q)) {
      var id :| Belongs(c.q.jobs, s, c.raws[s], id);
      assert id in Cancellable(c.q);
    }
  }
}
