// Uploading eligible packages: one transfer, before and after the network.
module Upload {
  import opened Options
  import opened Jobs
  import opened Server
  import opened Queue

  const U32_MAX: nat := 0xFFFF_FFFF

  datatype VolumeCaps = VolumeCaps(maxPackagesPerDay: nat, maxSecondsPerDay: nat)

  datatype UploadPolicy = UploadPolicy(target: Target, caps: VolumeCaps, retry: RetrySettings)

  datatype Outcome =
    | UploadAcknowledged(receiptId: string)
    | RejectedByServer(reason: string)
    | Retrying(reason: string, nextAttemptAt: int)
    | GaveUp(reason: string)
    | Cancelled(reason: string)
    | Deferred(reason: string)
    | LateReceipt(receiptId: string)

  // What the network returned.
  datatype Response = Answered(receipt: Receipt) | Retriable(reason: string) | Permanent(reason: string) | Unauthorized

  // An upload about to be sent: the claimed job and its archive.
  datatype Transfer = Transfer(id: string, job: Job, archive: Archive)

  datatype Begun = Sending(transfer: Transfer) | Ended(outcome: Outcome) | Conflict

  function Because(reason: string): JobUpdate {
    NO_UPDATE.(reason := Some(reason))
  }

  function RefusalCode(refusal: Refusal): string {
    match refusal
    case NoConsent => "no_consent"
    case ConsentPaused => "consent_paused"
    case ConsentExpiredOrRevoked => "consent_expired_or_revoked"
    case ConsentVersionOutdated => "consent_version_outdated"
    case PurposeNotGranted => "purpose_not_granted"
    case SessionBeforeConsent => "session_before_consent"
    case SessionOptedOut => "session_opted_out"
    case LanguageNotValidated => "language_not_validated"
    case UploadGatesUnmet => "upload_gates_unmet"
    case UploadDisabled => "upload_disabled"
  }

  function CancelJob(q: Rows, id: string, reason: string, now: int): Rows {
    DropPackage(TryTransition(q, id, Deleted, Because(reason), now), id)
  }

  function FinishRejected(q: Rows, id: string, reason: string, now: int): Rows {
    DropPackage(TryTransition(q, id, Rejected, Because(reason), now), id)
  }

  // When the job has left the transfer meanwhile, the receipt counts as not accepted, and its
  // deletion on the server is requested.
  function KeepLateReceipt(q: Rows, id: string, receiptId: string, requestId: string): Rows {
    InsertDeletion(InsertReceipt(q, id, receiptId, false), requestId, OF_RECEIPT + receiptId)
  }

  // Up to the transfer. `job` is the row as read when the upload was planned.
  function Begin(q: Rows, policy: UploadPolicy, id: string, job: Job, now: int): (Rows, Begun) {
    var refusal := Recheck(q.ConsentOf(job.consentId), policy.target, now);
    var (packages, seconds) := q.VolumeOn(now);
    if refusal.Some? then
      (CancelJob(q, id, RefusalCode(refusal.value), now), Ended(Cancelled(RefusalCode(refusal.value))))
    else if packages >= policy.caps.maxPackagesPerDay || seconds >= policy.caps.maxSecondsPerDay then
      var tomorrow := (now / SECONDS_PER_DAY + 1) * SECONDS_PER_DAY;
      match RescheduleJob(q, id, tomorrow, "daily_cap_reached", now)
      case Some(after) => (after, Ended(Deferred("daily_cap_reached")))
      case None => (q, Conflict)
    else if id !in q.packages then
      (FinishRejected(q, id, "package_missing_or_expired", now), Ended(GaveUp("package_missing_or_expired")))
    else
      var attempts := SmallerOf(job.attempts + 1, U32_MAX);
      match TransitionJob(q, id, Uploading, NO_UPDATE.(attempts := Some(attempts)), now)
      case Some(after) => (after, Sending(Transfer(id, after.jobs[id], q.packages[id])))
      case None => (q, Conflict)
  }

  function Acknowledge(q: Rows, t: Transfer, receiptId: string, now: int): Rows {
    var received := InsertReceipt(q, t.id, receiptId, true);
    var counted := AddVolume(received.(hashes := received.hashes + {t.job.contentHash}), now, 1, (t.job.durationMs + 999) / 1000);
    DropPackage(counted, t.id)
  }

  // After the transfer. `requestId` is random.
  function Finish(q: Rows, policy: UploadPolicy, t: Transfer, response: Response, requestId: string, now: int)
    : (Rows, Outcome)
  {
    match response
    case Answered(receipt) =>
      if !receipt.accepted then (FinishRejected(q, t.id, receipt.reason, now), RejectedByServer(receipt.reason))
      else
        (match TransitionJob(q, t.id, Acknowledged, NO_UPDATE, now)
         case Some(after) => (Acknowledge(after, t, receipt.receiptId, now), UploadAcknowledged(receipt.receiptId))
         // The row no longer uploads: the acceptance is late.
         case None => (KeepLateReceipt(q, t.id, receipt.receiptId, requestId), LateReceipt(receipt.receiptId)))
    case Retriable(reason) =>
      var delay := RetryDelay(t.job.attempts, true, policy.retry);
      if delay.None? then (FinishRejected(q, t.id, reason, now), GaveUp(reason))
      else
        (match TransitionJob(q, t.id, Eligible, Because(reason).(nextAttemptAt := Some(now + delay.value)), now)
         case Some(after) => (after, Retrying(reason, now + delay.value))
         case None => (q, Cancelled("withdrawn_during_transfer")))
    case Permanent(reason) => (FinishRejected(q, t.id, reason, now), GaveUp(reason))
    case Unauthorized => (FinishRejected(q, t.id, "unauthorized", now), GaveUp("unauthorized"))
  }

  // One upload without interference; `false` is a conflict.
  function Whole(q: Rows, policy: UploadPolicy, id: string, job: Job, response: Response, requestId: string, now: int)
    : (Rows, bool)
  {
    var (begun, outcome) := Begin(q, policy, id, job, now);
    match outcome
    case Sending(t) => (Finish(begun, policy, t, response, requestId, now).0, true)
    case Ended(_) => (begun, true)
    case Conflict => (begun, false)
  }

  // The jobs whose next attempt is due, in the order the rows are listed.
  function Due(q: Rows, listing: seq<string>, now: int): (plan: seq<(string, Job)>)
    ensures forall p :: p in plan <==>
      p.0 in listing && p.0 in q.jobs && q.jobs[p.0] == p.1 && p.1.state.Eligible? && p.1.nextAttemptAt <= now
  {
    if listing == [] then []
    else
      var before, id := Due(q, listing[..|listing| - 1], now), listing[|listing| - 1];
      assert forall x :: x in listing <==> x in listing[..|listing| - 1] || x == id;
      if id in q.jobs && q.jobs[id].state.Eligible? && q.jobs[id].nextAttemptAt <= now then before + [(id, q.jobs[id])]
      else before
  }

  // What the surroundings give each job of a round: the network's response to
  // its transfer, and a random name for a deletion request.
  datatype Weather = Weather(response: string -> Response, requestId: string -> string)

  // A round over the planned jobs. A conflict ends it.
  function Round(q: Rows, policy: UploadPolicy, plan: seq<(string, Job)>, weather: Weather, now: int, n: nat): (Rows, bool)
    requires n <= |plan|
  {
    if n == 0 then (q, true)
    else
      var (before, going) := Round(q, policy, plan, weather, now, n - 1);
      var (id, job) := plan[n - 1];
      if going then Whole(before, policy, id, job, weather.response(id), weather.requestId(id), now) else (before, false)
  }

  // ----- the upload worker, over the store -------------------------------------------------

  method CancelUpload(queue: EncryptedStore, id: string, reason: string, now: int)
    modifies queue
    ensures queue.rows == CancelJob(old(queue.rows), id, reason, now)
  {
    var moved := queue.Transition(id, Deleted, Because(reason), now);
    queue.rows := queue.rows.(packages := queue.rows.packages - {id});
  }

  method RejectUpload(queue: EncryptedStore, id: string, reason: string, now: int)
    modifies queue
    ensures queue.rows == FinishRejected(old(queue.rows), id, reason, now)
  {
    var moved := queue.Transition(id, Rejected, Because(reason), now);
    queue.rows := queue.rows.(packages := queue.rows.packages - {id});
  }

  method BeginUpload(queue: EncryptedStore, policy: UploadPolicy, id: string, job: Job, now: int) returns (begun: Begun)
    modifies queue
    ensures (queue.rows, begun) == Begin(old(queue.rows), policy, id, job, now)
  {
    var refusal := Recheck(queue.rows.ConsentOf(job.consentId), policy.target, now);
    if refusal.Some? {
      CancelUpload(queue, id, RefusalCode(refusal.value), now);
      return Ended(Cancelled(RefusalCode(refusal.value)));
    }
    var (packages, seconds) := queue.rows.VolumeOn(now);
    if packages >= policy.caps.maxPackagesPerDay || seconds >= policy.caps.maxSecondsPerDay {
      var tomorrow := (now / SECONDS_PER_DAY + 1) * SECONDS_PER_DAY;
      var rescheduled := RescheduleJob(queue.rows, id, tomorrow, "daily_cap_reached", now);
      if rescheduled.None? {
        return Conflict;
      }
      queue.rows := rescheduled.value;
      return Ended(Deferred("daily_cap_reached"));
    }
    if id !in queue.rows.packages {
      RejectUpload(queue, id, "package_missing_or_expired", now);
      return Ended(GaveUp("package_missing_or_expired"));
    }
    var archive := queue.rows.packages[id];
    var attempts := SmallerOf(job.attempts + 1, U32_MAX);
    var claimed := queue.Transition(id, Uploading, NO_UPDATE.(attempts := Some(attempts)), now);
    begun := if claimed.Some? then Sending(Transfer(id, claimed.value, archive)) else Conflict;
  }

  method FinishUpload(queue: EncryptedStore, policy: UploadPolicy, t: Transfer, response: Response, requestId: string, now: int)
    returns (outcome: Outcome)
    modifies queue
    ensures (queue.rows, outcome) == Finish(old(queue.rows), policy, t, response, requestId, now)
  {
    match response {
      case Answered(receipt) =>
        if !receipt.accepted {
          RejectUpload(queue, t.id, receipt.reason, now);
          return RejectedByServer(receipt.reason);
        }
        var moved := queue.Transition(t.id, Acknowledged, NO_UPDATE, now);
        if moved.None? {
          queue.rows := KeepLateReceipt(queue.rows, t.id, receipt.receiptId, requestId);
          return LateReceipt(receipt.receiptId);
        }
        queue.rows := Acknowledge(queue.rows, t, receipt.receiptId, now);
        return UploadAcknowledged(receipt.receiptId);
      case Retriable(reason) =>
        var delay := RetryDelay(t.job.attempts, true, policy.retry);
        if delay.None? {
          RejectUpload(queue, t.id, reason, now);
          return GaveUp(reason);
        }
        var next := now + delay.value;
        var moved := queue.Transition(t.id, Eligible, Because(reason).(nextAttemptAt := Some(next)), now);
        return if moved.Some? then Retrying(reason, next) else Cancelled("withdrawn_during_transfer");
      case Permanent(reason) =>
        RejectUpload(queue, t.id, reason, now);
        return GaveUp(reason);
      case Unauthorized =>
        RejectUpload(queue, t.id, "unauthorized", now);
        return GaveUp("unauthorized");
    }
  }

  // Every job due when the round begins is uploaded, as it stood then.
  method UploadReady(queue: EncryptedStore, policy: UploadPolicy, listing: seq<string>, weather: Weather, now: int)
    returns (completed: bool)
    modifies queue
    ensures var plan := Due(old(queue.rows), listing, now);
      (queue.rows, completed) == Round(old(queue.rows), policy, plan, weather, now, |plan|)
  {
    var plan := Due(queue.rows, listing, now);
    for n := 0 to |plan|
      invariant (queue.rows, true) == Round(old(queue.rows), policy, plan, weather, now, n)
    {
      var (id, job) := plan[n];
      var going := UploadJob(queue, policy, id, job, weather.response(id), weather.requestId(id), now);
      if !going {
        RoundEnds(old(queue.rows), policy, plan, weather, now, n + 1, |plan|);
        return false;
      }
    }
    completed := true;
  }

  method UploadJob(
    queue: EncryptedStore, policy: UploadPolicy, id: string, job: Job, response: Response, requestId: string, now: int)
    returns (going: bool)
    modifies queue
    ensures (queue.rows, going) == Whole(old(queue.rows), policy, id, job, response, requestId, now)
  {
    var begun := BeginUpload(queue, policy, id, job, now);
    if begun.Sending? {
      var outcome := FinishUpload(queue, policy, begun.transfer, response, requestId, now);
    }
    going := !begun.Conflict?;
  }

  // ----- deletion requests ---------------------------------------------------------------------

  predicate Recognized(scope: string) {
    scope == EVERYTHING || OF_RECEIPT <= scope || OF_SAMPLE <= scope
  }

  // Requests still open, in the order the rows are listed. Others are skipped.
  function Open(q: Rows, listing: seq<string>): (ids: seq<string>)
    ensures forall id :: id in ids <==>
      id in listing && id in q.deletions && !q.deletions[id].completed && Recognized(q.deletions[id].scope)
  {
    if listing == [] then []
    else
      var before, id := Open(q, listing[..|listing| - 1]), listing[|listing| - 1];
      assert forall x :: x in listing <==> x in listing[..|listing| - 1] || x == id;
      if id in q.deletions && !q.deletions[id].completed && Recognized(q.deletions[id].scope) then before + [id] else before
  }

  // `q` with the requests `done` completed.
  ghost predicate Confirmed(q: Rows, done: seq<string>, after: Rows) {
    && after == q.(deletions := after.deletions) && after.deletions.Keys == q.deletions.Keys
    && forall id :: id in q.deletions ==>
      after.deletions[id] == (if id in done then q.deletions[id].(completed := true) else q.deletions[id])
  }

  // The requests the server reported done.
  function Reported(ids: seq<string>, reported: string -> bool): seq<string> {
    if ids == [] then []
    else
      var before, last := Reported(ids[..|ids| - 1], reported), ids[|ids| - 1];
      if reported(last) then before + [last] else before
  }

  // A request is completed exactly when it was open and the server reported it
  // done; otherwise it is sent again in the next round.
  method SendDeletionRequests(queue: EncryptedStore, listing: seq<string>, reported: string -> bool)
    returns (completed: nat)
    modifies queue
    ensures var done := Reported(Open(old(queue.rows), listing), reported);
      Confirmed(old(queue.rows), done, queue.rows) && completed == |done|
  {
    var ids := Open(queue.rows, listing);
    completed := 0;
    for n := 0 to |ids|
      invariant Confirmed(old(queue.rows), Reported(ids[..n], reported), queue.rows)
      invariant completed == |Reported(ids[..n], reported)|
    {
      assert ids[..n + 1][..n] == ids[..n];
      if reported(ids[n]) {
        queue.rows := CompleteDeletion(queue.rows, ids[n]);
        completed := completed + 1;
      }
    }
    assert ids[..|ids|] == ids;
  }

  lemma {:induction false} RoundEnds(
    q: Rows, policy: UploadPolicy, plan: seq<(string, Job)>, weather: Weather, now: int, k: nat, n: nat)
    requires k <= n <= |plan| && !Round(q, policy, plan, weather, now, k).1
    ensures Round(q, policy, plan, weather, now, n) == Round(q, policy, plan, weather, now, k)
  {
    if k < n {
      RoundEnds(q, policy, plan, weather, now, k, n - 1);
    }
  }
}
