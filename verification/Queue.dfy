// The client's job queue: consents, jobs, packages, receipts and deletion
// requests. A job moves only along an edge of the state table, one row at a time.
module Queue {
  import opened Options
  import opened Jobs
  import opened Server

  const SECONDS_PER_DAY: nat := 86_400

  datatype Job = Job(
    sessionId: string, state: JobState, reason: string, consentId: string, sampleId: string, key: string,
    contentHash: string, durationMs: nat, attempts: nat, nextAttemptAt: int, expiresAt: int, updatedAt: int)

  // What a move may change besides the state.
  datatype JobUpdate = JobUpdate(
    reason: Option<string>, sampleId: Option<string>, key: Option<string>, contentHash: Option<string>,
    durationMs: Option<nat>, attempts: Option<nat>, nextAttemptAt: Option<int>)

  const NO_UPDATE := JobUpdate(None, None, None, None, None, None, None)

  function Or<T>(value: Option<T>, otherwise: T): T {
    if value.Some? then value.value else otherwise
  }

  function Updated(job: Job, target: JobState, u: JobUpdate, now: int): Job {
    job.(state := target, updatedAt := now, reason := Or(u.reason, job.reason), sampleId := Or(u.sampleId, job.sampleId),
         key := Or(u.key, job.key), contentHash := Or(u.contentHash, job.contentHash),
         durationMs := Or(u.durationMs, job.durationMs), attempts := Or(u.attempts, job.attempts),
         nextAttemptAt := Or(u.nextAttemptAt, job.nextAttemptAt))
  }

  const EVERYTHING := "everything"
  const OF_RECEIPT := "receipt:"
  const OF_SAMPLE := "sample:"

  datatype DeletionRequest = DeletionRequest(scope: string, completed: bool)

  // Packages and receipts belong to job identifiers.
  datatype Rows = Rows(
    consents: map<string, Consent>, jobs: map<string, Job>, packages: map<string, Archive>,
    receipts: map<(string, string), bool>, deletions: map<string, DeletionRequest>, hashes: set<string>,
    volume: map<int, (nat, nat)>)
  {
    function ConsentOf(id: string): Option<Consent> {
      if id in consents then Some(consents[id]) else None
    }

    function VolumeOn(now: int): (nat, nat) {
      var day := now / SECONDS_PER_DAY;
      if day in volume then volume[day] else (0, 0)
    }
  }

  const NO_ROWS := Rows(map[], map[], map[], map[], map[], {}, map[])

  // ----- consents ------------------------------------------------------------------------

  // A new grant, under a random identifier, revokes every earlier active one.
  function InsertConsent(q: Rows, record: Consent): Rows {
    q.(consents :=
      (map id | id in q.consents ::
        if q.consents[id].revokedAt.None? then q.consents[id].(revokedAt := Some(record.grantedAt)) else q.consents[id])
      [record.id := record])
  }

  function SetPaused(q: Rows, id: string, paused: bool): Rows {
    if id in q.consents && q.consents[id].revokedAt.None? then
      q.(consents := q.consents[id := q.consents[id].(paused := paused)])
    else q
  }

  function RevokeConsent(q: Rows, id: string, now: int): Rows {
    if id in q.consents && q.consents[id].revokedAt.None? then
      q.(consents := q.consents[id := q.consents[id].(revokedAt := Some(now))])
    else q
  }

  // ----- jobs -----------------------------------------------------------------------------

  // The row moved to `target`, or `None` where no edge leads there.
  function TransitionJob(q: Rows, id: string, target: JobState, u: JobUpdate, now: int): Option<Rows> {
    if id in q.jobs && MayTransition(q.jobs[id].state, target) then
      Some(q.(jobs := q.jobs[id := Updated(q.jobs[id], target, u, now)]))
    else None
  }

  // For callers that ignore a conflict.
  function TryTransition(q: Rows, id: string, target: JobState, u: JobUpdate, now: int): Rows {
    Or(TransitionJob(q, id, target, u, now), q)
  }

  function RescheduleJob(q: Rows, id: string, next: int, reason: string, now: int): Option<Rows> {
    if id in q.jobs && q.jobs[id].state.Eligible? then
      Some(q.(jobs := q.jobs[id := q.jobs[id].(nextAttemptAt := next, reason := reason, updatedAt := now)]))
    else None
  }

  function Cancellable(q: Rows): set<string> {
    set id | id in q.jobs && !q.jobs[id].state.IsTerminal()
  }

  // Every active job is deleted and its package with it, in one transaction.
  function CancelAllJobs(q: Rows, reason: string, now: int): Rows {
    q.(jobs := map id | id in q.jobs ::
         if q.jobs[id].state.IsTerminal() then q.jobs[id]
         else q.jobs[id].(state := Deleted, reason := reason, updatedAt := now),
       packages := q.packages - Cancellable(q))
  }

  // One job per session.
  function InsertJob(q: Rows, id: string, job: Job): Option<Rows> {
    if id in q.jobs || exists other | other in q.jobs :: q.jobs[other].sessionId == job.sessionId then None
    else Some(q.(jobs := q.jobs[id := job]))
  }

  function PurgeJob(q: Rows, id: string): Rows {
    if id in q.jobs && q.jobs[id].state.IsTerminal() then q.(jobs := q.jobs - {id}) else q
  }

  function DropPackage(q: Rows, id: string): Rows {
    q.(packages := q.packages - {id})
  }

  // ----- receipts, deletion requests, volume -------------------------------------------------

  // The first receipt row of an identifier stays.
  function InsertReceipt(q: Rows, id: string, receiptId: string, accepted: bool): Rows {
    if (id, receiptId) in q.receipts then q else q.(receipts := q.receipts[(id, receiptId) := accepted])
  }

  function InsertDeletion(q: Rows, requestId: string, scope: string): Rows {
    if requestId in q.deletions then q
    else q.(deletions := q.deletions[requestId := DeletionRequest(scope, false)])
  }

  function CompleteDeletion(q: Rows, requestId: string): Rows {
    if requestId in q.deletions then
      q.(deletions := q.deletions[requestId := q.deletions[requestId].(completed := true)])
    else q
  }

  function AddVolume(q: Rows, now: int, packages: nat, seconds: nat): Rows {
    var (p, s) := q.VolumeOn(now);
    q.(volume := q.volume[now / SECONDS_PER_DAY := (p + packages, s + seconds)])
  }

  class EncryptedStore {
    var rows: Rows

    constructor ()
      ensures rows == NO_ROWS
    {
      rows := NO_ROWS;
    }

    method Transition(id: string, target: JobState, update: JobUpdate, now: int) returns (moved: Option<Job>)
      modifies this
      ensures rows == TryTransition(old(rows), id, target, update, now)
      ensures moved == match TransitionJob(old(rows), id, target, update, now)
        case Some(after) => Some(after.jobs[id])
        case None => None
    {
      // The guard of the update: the states that may move to the target.
      if id !in rows.jobs || rows.jobs[id].state !in Predecessors(target) {
        PredecessorsAreExact(if id in rows.jobs then rows.jobs[id].state else Deleted, target);
        return None;
      }
      PredecessorsAreExact(rows.jobs[id].state, target);
      var job := Updated(rows.jobs[id], target, update, now);
      rows := rows.(jobs := rows.jobs[id := job]);
      moved := Some(job);
    }

    // The jobs it ended are named, for their recordings have to go too.
    method CancelAll(reason: string, now: int) returns (cancelled: set<string>)
      modifies this
      ensures rows == CancelAllJobs(old(rows), reason, now) && cancelled == Cancellable(old(rows))
    {
      cancelled := set id | id in rows.jobs && !rows.jobs[id].state.IsTerminal();
      ghost var before := rows;
      var open := cancelled;
      while open != {}
        invariant open <= cancelled == Cancellable(before)
        invariant PartlyCancelled(before, rows, cancelled - open, reason, now)
        decreases |open|
      {
        var id :| id in open;
        CancelRow(before, cancelled - open, id, reason, now);
        assert cancelled - (open - {id}) == (cancelled - open) + {id};
        open := open - {id};
      }
      assert cancelled - open == cancelled;
      AllCancelled(before, rows, reason, now);
    }

    method CancelRow(ghost before: Rows, ghost done: set<string>, id: string, reason: string, now: int)
      requires PartlyCancelled(before, rows, done, reason, now) && id in before.jobs && id !in done
      modifies this
      ensures PartlyCancelled(before, rows, done + {id}, reason, now)
    {
      CancelOne(before, rows, done, id, reason, now);
      rows := rows.(jobs := rows.jobs[id := rows.jobs[id].(state := Deleted, reason := reason, updatedAt := now)],
                    packages := rows.packages - {id});
    }

    method Grant(record: Consent)
      modifies this
      ensures rows == InsertConsent(old(rows), record)
    {
      var earlier := map id | id in rows.consents ::
        if rows.consents[id].revokedAt.None? then rows.consents[id].(revokedAt := Some(record.grantedAt))
        else rows.consents[id];
      rows := rows.(consents := earlier[record.id := record]);
    }
  }

  // `before` with the jobs `done` cancelled.
  ghost predicate PartlyCancelled(before: Rows, q: Rows, done: set<string>, reason: string, now: int) {
    && q == before.(jobs := q.jobs, packages := before.packages - done)
    && q.jobs.Keys == before.jobs.Keys
    && (forall id :: id in before.jobs && id !in done ==> q.jobs[id] == before.jobs[id])
    && (forall id :: id in before.jobs && id in done ==>
          q.jobs[id] == before.jobs[id].(state := Deleted, reason := reason, updatedAt := now))
  }

  lemma CancelOne(before: Rows, q: Rows, done: set<string>, id: string, reason: string, now: int)
    requires PartlyCancelled(before, q, done, reason, now) && id in before.jobs && id !in done
    ensures PartlyCancelled(
      before, q.(jobs := q.jobs[id := q.jobs[id].(state := Deleted, reason := reason, updatedAt := now)],
                 packages := q.packages - {id}),
      done + {id}, reason, now)
  {
    assert (before.packages - done) - {id} == before.packages - (done + {id});
  }

  lemma AllCancelled(before: Rows, q: Rows, reason: string, now: int)
    requires PartlyCancelled(before, q, Cancellable(before), reason, now)
    ensures q == CancelAllJobs(before, reason, now)
  {
    assert q.jobs == CancelAllJobs(before, reason, now).jobs;
  }

  // At most one grant is ever active.
  ghost predicate OneActive(q: Rows) {
    forall i, j :: i in q.consents && j in q.consents && q.consents[i].revokedAt.None? && q.consents[j].revokedAt.None?
      ==> i == j
  }

  lemma GrantKeepsOneActive(q: Rows, record: Consent)
    ensures OneActive(InsertConsent(q, record))
  {
  }

  lemma ConsentStepsKeepOneActive(q: Rows, id: string, paused: bool, now: int)
    requires OneActive(q)
    ensures OneActive(SetPaused(q, id, paused)) && OneActive(RevokeConsent(q, id, now))
  {
  }

  // After a new grant or a revocation, no job under the ended consent passes the recheck.
  lemma EndedConsentRefuses(q: Rows, record: Consent, id: string, target: Target, at: int, now: int)
    requires id in q.consents && id != record.id
    ensures Recheck(InsertConsent(q, record).ConsentOf(id), target, at).Some?
    ensures Recheck(RevokeConsent(q, id, now).ConsentOf(id), target, at).Some?
  {
  }
}
