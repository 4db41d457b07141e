// From a finished dictation to an upload-ready package.
module Pipeline {
  import opened Options
  import opened Jobs
  import opened Server
  import opened Queue
  import opened Upload

  const RAW_SESSION_SECONDS: nat := 24 * 3600

  // The unrevoked consent; grants keep it unique.
  ghost function CurrentConsent(q: Rows): Option<Consent> {
    if id :| id in q.consents && q.consents[id].revokedAt.None? then Some(q.consents[id]) else None
  }

  function NewJob(sessionId: string, consentId: string, startedAt: int, now: int): Job {
    Job(sessionId, LocalPending, "", consentId, "", "", "", 0, 0, 0, SmallerOf(startedAt, now) + RAW_SESSION_SECONDS, now)
  }

  // A finished session becomes a pending job unless the consent check refuses it.
  ghost function Enqueue(q: Rows, target: Target, id: string, sessionId: string, facts: Facts, now: int): Rows {
    var consent := CurrentConsent(q);
    if CheckSession(consent, facts, target, now).Some? then q
    else Or(InsertJob(q, id, NewJob(sessionId, consent.value.id, facts.startedAt, now)), q)
  }

  // The job ends rejected and its package with it, at once.
  function Discard(q: Rows, id: string, reason: string, now: int): Rows {
    FinishRejected(q, id, reason, now)
  }

  // Claims a pending job, unless its consent no longer holds.
  function Claim(q: Rows, target: Target, id: string, now: int): Rows {
    if id !in q.jobs || !q.jobs[id].state.LocalPending? then q
    else
      var refusal := Recheck(q.ConsentOf(q.jobs[id].consentId), target, now);
      if refusal.Some? then Discard(q, id, RefusalCode(refusal.value), now)
      else TryTransition(q, id, Analyzing, NO_UPDATE, now)
  }

  // The built package, under a random idempotency key.
  datatype Built = Built(archive: Archive, key: string, contentHash: string, durationMs: nat)

  function EligibleUpdate(b: Built): JobUpdate {
    NO_UPDATE.(reason := Some(""), key := Some(b.key), contentHash := Some(b.contentHash), durationMs := Some(b.durationMs),
               sampleId := Some(if b.archive.content.Package? then b.archive.content.sampleId else ""))
  }

  // Consent is rechecked before anything upload-ready is written; if the job
  // was withdrawn meanwhile, nothing stays behind.
  function FinishBuilding(q: Rows, target: Target, id: string, consentId: string, b: Built, now: int): Rows {
    var refusal := Recheck(q.ConsentOf(consentId), target, now);
    if refusal.Some? then Discard(q, id, RefusalCode(refusal.value), now)
    else if id in q.packages then q
    else
      var stored := q.(packages := q.packages[id := b.archive]);
      match TransitionJob(stored, id, Eligible, EligibleUpdate(b), now)
      case Some(after) => after
      case None => DropPackage(stored, id)
  }

  // Recordings kept for the sessions still in the pipeline, and when they expire.
  type Raws = map<string, int>

  // What happens around one job: interruptions, an unreadable recording, what
  // the dataset or the package is refused for.
  datatype Course = Course(
    preemptedAtStart: bool, readable: bool, preemptedAfterAnalysis: bool, preemptedAfterBuild: bool,
    rejection: Option<string>, built: Built)

  datatype Step = Preempted | Dropped | Conflicted | Ready

  // One pending job from claim to package, with nothing in between. Its
  // recording goes when the job is dropped or its package exists.
  function Process(q: Rows, raws: Raws, target: Target, id: string, course: Course, now: int): (Rows, Raws, Step)
    requires id in q.jobs && q.jobs[id].state.LocalPending?
  {
    var consentId := q.jobs[id].consentId;
    var refusal := Recheck(q.ConsentOf(consentId), target, now);
    var session := q.jobs[id].sessionId;
    if course.preemptedAtStart then (q, raws, Preempted)
    else if refusal.Some? then (Discard(q, id, RefusalCode(refusal.value), now), raws - {session}, Dropped)
    else
      var claimed := TryTransition(q, id, Analyzing, NO_UPDATE, now);
      if session !in raws || !course.readable then
        (Discard(claimed, id, "raw_session_missing_or_expired", now), raws - {session}, Dropped)
      else if course.preemptedAfterAnalysis then (TryTransition(claimed, id, LocalPending, NO_UPDATE, now), raws, Preempted)
      else
        var building := TryTransition(claimed, id, Building, NO_UPDATE, now);
        if course.preemptedAfterBuild then (TryTransition(building, id, LocalPending, NO_UPDATE, now), raws, Preempted)
        else if course.rejection.Some? then (Discard(building, id, course.rejection.value, now), raws - {session}, Dropped)
        else
          var after := FinishBuilding(building, target, id, consentId, course.built, now);
          if id in q.packages then (after, raws, Conflicted) else (after, raws - {session}, Ready)
  }

  class SessionStore {
    var raws: Raws

    constructor ()
      ensures raws == map[]
    {
      raws := map[];
    }
  }

  method RejectJob(queue: EncryptedStore, sessions: SessionStore, id: string, session: string, reason: string, now: int)
    modifies queue, sessions
    ensures queue.rows == Discard(old(queue.rows), id, reason, now)
    ensures sessions.raws == old(sessions.raws) - {session}
  {
    sessions.raws := sessions.raws - {session};
    RejectUpload(queue, id, reason, now);
  }

  method ProcessJob(queue: EncryptedStore, sessions: SessionStore, target: Target, id: string, course: Course, now: int)
    returns (step: Step)
    requires id in queue.rows.jobs && queue.rows.jobs[id].state.LocalPending?
    modifies queue, sessions
    ensures (queue.rows, sessions.raws, step) == Process(old(queue.rows), old(sessions.raws), target, id, course, now)
  {
    if course.preemptedAtStart {
      return Preempted;
    }
    var consentId, session := queue.rows.jobs[id].consentId, queue.rows.jobs[id].sessionId;
    var refusal := Recheck(queue.rows.ConsentOf(consentId), target, now);
    if refusal.Some? {
      RejectJob(queue, sessions, id, session, RefusalCode(refusal.value), now);
      return Dropped;
    }
    var job := queue.Transition(id, Analyzing, NO_UPDATE, now);
    if session !in sessions.raws || !course.readable {
      RejectJob(queue, sessions, id, session, "raw_session_missing_or_expired", now);
      return Dropped;
    }
    if course.preemptedAfterAnalysis {
      job := queue.Transition(id, LocalPending, NO_UPDATE, now);
      return Preempted;
    }
    job := queue.Transition(id, Building, NO_UPDATE, now);
    if course.preemptedAfterBuild {
      job := queue.Transition(id, LocalPending, NO_UPDATE, now);
      return Preempted;
    }
    if course.rejection.Some? {
      RejectJob(queue, sessions, id, session, course.rejection.value, now);
      return Dropped;
    }
    step := PublishPackage(queue, sessions, target, id, consentId, session, course.built, now);
  }

  method PublishPackage(
    queue: EncryptedStore, sessions: SessionStore, target: Target, id: string, consentId: string, session: string,
    b: Built, now: int)
    returns (step: Step)
    modifies queue, sessions
    ensures queue.rows == FinishBuilding(old(queue.rows), target, id, consentId, b, now)
    ensures step ==
      if Recheck(old(queue.rows).ConsentOf(consentId), target, now).Some? then Dropped
      else if id in old(queue.rows).packages then Conflicted
      else if TransitionJob(old(queue.rows), id, Eligible, EligibleUpdate(b), now).Some? then Ready
      else Conflicted
    ensures sessions.raws ==
      if id in old(queue.rows).packages && !step.Dropped? then old(sessions.raws) else old(sessions.raws) - {session}
  {
    var refusal := Recheck(queue.rows.ConsentOf(consentId), target, now);
    if refusal.Some? {
      RejectJob(queue, sessions, id, session, RefusalCode(refusal.value), now);
      return Dropped;
    }
    if id in queue.rows.packages {
      return Conflicted;
    }
    queue.rows := queue.rows.(packages := queue.rows.packages[id := b.archive]);
    var moved := queue.Transition(id, Eligible, EligibleUpdate(b), now);
    sessions.raws := sessions.raws - {session};
    if moved.None? {
      // The job ended meanwhile: its package may not stay.
      queue.rows := queue.rows.(packages := queue.rows.packages - {id});
      return Conflicted;
    }
    step := Ready;
  }

  // An allowed move changes the one row, and of it only what the update names.
  lemma Moves(q: Rows, id: string, target: JobState, now: int)
    requires id in q.jobs && MayTransition(q.jobs[id].state, target)
    ensures var after := TryTransition(q, id, target, NO_UPDATE, now);
      && after == q.(jobs := after.jobs) && after.jobs.Keys == q.jobs.Keys
      && after.jobs[id] == q.jobs[id].(state := target, updatedAt := now)
  {
  }

  ghost predicate Ends(q: Rows, id: string, built: Built, after: Rows, step: Step) {
    && id in q.jobs && id in after.jobs
    && match step
      case Preempted => after.jobs[id].state.LocalPending? && after.packages == q.packages
      case Dropped => after.jobs[id].state.Rejected? && id !in after.packages
      case Ready =>
        && after.jobs[id].state.Eligible? && after.packages == q.packages[id := built.archive]
        && after.jobs[id].key == built.key && after.jobs[id].attempts == q.jobs[id].attempts
      case Conflicted => false
  }

  lemma Discards(q: Rows, id: string, reason: string, now: int)
    requires id in q.jobs && MayTransition(q.jobs[id].state, Rejected)
    ensures var after := Discard(q, id, reason, now);
      id in after.jobs && after.jobs[id].state.Rejected? && id !in after.packages
  {
  }

  lemma BuildingEnds(q: Rows, target: Target, id: string, b: Built, now: int)
    requires id in q.jobs && q.jobs[id].state.Building? && id !in q.packages
    requires Recheck(q.ConsentOf(q.jobs[id].consentId), target, now).None?
    ensures Ends(q, id, b, FinishBuilding(q, target, id, q.jobs[id].consentId, b, now), Ready)
  {
  }

  // Uninterrupted and with consent, a pending job always ends where it started
  // with its recording, dropped without a package, or eligible with exactly the
  // built one; except where it started, the recording is gone.
  lemma ProcessEnds(q: Rows, raws: Raws, target: Target, id: string, course: Course, now: int)
    requires id in q.jobs && q.jobs[id].state.LocalPending? && id !in q.packages
    requires Recheck(q.ConsentOf(q.jobs[id].consentId), target, now).None?
    ensures var (after, left, step) := Process(q, raws, target, id, course, now);
      && Ends(q, id, course.built, after, step)
      && left == if after.jobs[id].state.LocalPending? then raws else raws - {q.jobs[id].sessionId}
  {
    Moves(q, id, Analyzing, now);
    var claimed := TryTransition(q, id, Analyzing, NO_UPDATE, now);
    if course.preemptedAtStart {
    } else if q.jobs[id].sessionId !in raws || !course.readable {
      Discards(claimed, id, "raw_session_missing_or_expired", now);
    } else {
      Moves(claimed, id, LocalPending, now);
      Moves(claimed, id, Building, now);
      var building := TryTransition(claimed, id, Building, NO_UPDATE, now);
      Moves(building, id, LocalPending, now);
      if course.rejection.Some? {
        Discards(building, id, course.rejection.value, now);
      }
      BuildingEnds(building, target, id, course.built, now);
    }
  }

  lemma WithoutConsentDropped(q: Rows, raws: Raws, target: Target, id: string, course: Course, now: int)
    requires id in q.jobs && q.jobs[id].state.LocalPending? && !course.preemptedAtStart
    requires Recheck(q.ConsentOf(q.jobs[id].consentId), target, now).Some?
    ensures var (after, left, _) := Process(q, raws, target, id, course, now);
      Ends(q, id, course.built, after, Dropped) && left == raws - {q.jobs[id].sessionId}
  {
    Discards(q, id, RefusalCode(Recheck(q.ConsentOf(q.jobs[id].consentId), target, now).value), now);
  }
}
