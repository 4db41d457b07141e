// The contribution protocol: client queue, network and server together.
//
// Requests may be lost, delayed or repeated, responses may be lost, and
// withdrawal, expiry and every server operation may come at any point.
module Protocol {
  import opened Options
  import opened Jobs
  import opened Server
  import opened Queue
  import opened Upload
  import opened Pipeline
  import Retention

  datatype Setting = Setting(policy: UploadPolicy, tenant: Tenant)

  datatype Message = Message(key: string, declared: string, archive: Archive)

  // What happened, for the record.
  datatype Mark = Sent(id: string, key: string) | Created(key: string, sampleId: string) | Acked(id: string, receiptId: string)

  // The queue and the server; the upload worker's plan, its transfer and the
  // reply received so far; the network; and the history: job identifiers and
  // packages ever, deletion requests the server has carried out, and what
  // happened.
  datatype World = World(
    q: Rows, store: Store, ready: seq<(string, Job)>, transfer: Option<Transfer>, reply: Option<Receipt>,
    wire: set<Message>, known: set<string>, builds: map<string, Built>, served: set<string>, marks: seq<Mark>)

  const START := World(NO_ROWS, EMPTY_STORE, [], None, None, {}, {}, map[], {}, [])

  datatype Action =
    | Grant(record: Consent)
    | Pause(id: string, paused: bool)
    | Revoke(id: string, now: int)
    | Plan(id: string, sessionId: string, facts: Facts, now: int)
    | ClaimJob(id: string, now: int)
    | Move(id: string, target: JobState, now: int)
    | DropJob(id: string, reason: string, now: int)
    | Publish(id: string, built: Built, now: int)
    | Collect(order: seq<string>, now: int)
    | StartUpload(now: int)
    | Arrive(message: Message, receiptId: string, now: int)
    | EndUpload(response: Response, requestId: string, now: int)
    | Withdraw(reason: string, now: int)
    | Expire(id: string, now: int)
    | Purge(id: string)
    | LosePackage(id: string)
    | AskDeletion(requestId: string, scope: string)
    | ServeDeletion(requestId: string)
    | ConfirmDeletion(requestId: string)
    | ServerDoes(op: Retention.Op)

  function MessageOf(b: Built): Message {
    Message(b.key, b.archive.digest, b.archive)
  }

  function RowOf(q: Rows, id: string): (string, Job)
    requires id in q.jobs
  {
    (id, q.jobs[id])
  }

  function ExpireJob(q: Rows, id: string, now: int): Rows {
    if id in q.jobs && !q.jobs[id].state.IsTerminal() then TryTransition(q, id, Deleted, Because("expired"), now) else q
  }

  function RowsOf(q: Rows, order: seq<string>): seq<(string, Job)> {
    seq(|order|, k requires 0 <= k < |order| =>
      if order[k] in q.jobs then RowOf(q, order[k]) else (order[k], NewJob("", "", 0, 0)))
  }

  ghost function PublishTo(w: World, setting: Setting, id: string, b: Built, now: int): World {
    var consentId := if id in w.q.jobs then w.q.jobs[id].consentId else "";
    var after := FinishBuilding(w.q, setting.policy.target, id, consentId, b, now);
    var published := id in after.jobs && after.jobs[id].state.Eligible? && id in after.packages;
    w.(q := after, builds := if published then w.builds[id := b] else w.builds)
  }

  // What a deletion request has the server do.
  function OpOf(store: Store, tenant: string, scope: string): Retention.Op
    requires Recognized(scope)
  {
    if scope == EVERYTHING then Retention.DeleteAll(tenant)
    else if OF_RECEIPT <= scope then
      Retention.Delete(tenant, Retention.SamplesOfReceipt(store, tenant, scope[|OF_RECEIPT|..]))
    else Retention.Delete(tenant, {scope[|OF_SAMPLE|..]})
  }

  // A request reaches the server; it may do so again after it was completed.
  ghost function ServeOn(w: World, setting: Setting, requestId: string): World {
    if requestId !in w.q.deletions || !Recognized(w.q.deletions[requestId].scope) then w
    else
      w.(store := Retention.Do(w.store, OpOf(w.store, setting.tenant.id, w.q.deletions[requestId].scope)),
         served := w.served + {requestId})
  }

  function StartOn(w: World, setting: Setting, now: int): World {
    if w.ready == [] || w.transfer.Some? then w
    else
      var (id, job) := w.ready[0];
      var (after, begun) := Begin(w.q, setting.policy, id, job, now);
      match begun
      case Sending(t) =>
        w.(q := after, ready := w.ready[1..], transfer := Some(t), reply := None,
           wire := w.wire + {Message(t.job.key, t.archive.digest, t.archive)}, marks := w.marks + [Sent(id, t.job.key)])
      case Ended(_) => w.(q := after, ready := w.ready[1..])
      // A conflict ends the round.
      case Conflict => w.(q := after, ready := [])
  }

  ghost function ArriveOn(w: World, setting: Setting, m: Message, receiptId: string, now: int): World {
    if m !in w.wire then w
    else
      var (after, receipt) := Admit(w.store, setting.tenant, m.key, m.declared, m.archive, receiptId, now);
      var created := receipt.Some? && receipt.value.accepted && !receipt.value.duplicate;
      w.(store := after,
         reply := if w.transfer.Some? && w.transfer.value.job.key == m.key && receipt.Some? then receipt else w.reply,
         marks := if created then w.marks + [Created(m.key, m.archive.content.sampleId)] else w.marks)
  }

  function EndOn(w: World, setting: Setting, response: Response, requestId: string, now: int): World {
    if w.transfer.None? then w
    else
      var t := w.transfer.value;
      var (after, outcome) := Finish(w.q, setting.policy, t, response, requestId, now);
      w.(q := after, transfer := None, reply := None,
         marks := if outcome.UploadAcknowledged? then w.marks + [Acked(t.id, outcome.receiptId)] else w.marks)
  }

  ghost function Next(w: World, setting: Setting, a: Action): World {
    match a
    case Grant(record) => w.(q := InsertConsent(w.q, record))
    case Pause(id, paused) => w.(q := SetPaused(w.q, id, paused))
    case Revoke(id, now) => w.(q := RevokeConsent(w.q, id, now))
    case Plan(id, sessionId, facts, now) =>
      w.(q := Enqueue(w.q, setting.policy.target, id, sessionId, facts, now), known := w.known + {id})
    case ClaimJob(id, now) => w.(q := Claim(w.q, setting.policy.target, id, now))
    case Move(id, target, now) => w.(q := TryTransition(w.q, id, target, NO_UPDATE, now))
    case DropJob(id, reason, now) => w.(q := Discard(w.q, id, reason, now))
    case Publish(id, built, now) => PublishTo(w, setting, id, built, now)
    case Collect(order, _) => w.(ready := RowsOf(w.q, order))
    case StartUpload(now) => StartOn(w, setting, now)
    case Arrive(message, receiptId, now) => ArriveOn(w, setting, message, receiptId, now)
    case EndUpload(response, requestId, now) => EndOn(w, setting, response, requestId, now)
    case Withdraw(reason, now) => w.(q := CancelAllJobs(w.q, reason, now))
    case Expire(id, now) => w.(q := ExpireJob(w.q, id, now))
    case Purge(id) => w.(q := PurgeJob(w.q, id))
    case LosePackage(id) => w.(q := DropPackage(w.q, id))
    case AskDeletion(requestId, scope) => w.(q := InsertDeletion(w.q, requestId, scope))
    case ServeDeletion(requestId) => ServeOn(w, setting, requestId)
    case ConfirmDeletion(requestId) => w.(q := CompleteDeletion(w.q, requestId))
    case ServerDoes(op) => w.(store := Retention.Do(w.store, op))
  }

  ghost predicate KeyUnused(w: World, setting: Setting, key: string) {
    (forall j :: j in w.builds ==> w.builds[j].key != key) && (setting.tenant.id, key) !in w.store.receipts
  }

  // One worker processes a job until its package is published, one worker
  // uploads, random identifiers never repeat, a reply is what the server said,
  // and a deletion is confirmed only after the server carried it out.
  ghost predicate Allowed(w: World, setting: Setting, a: Action) {
    match a
    case Plan(id, _, _, _) => id !in w.known
    case ClaimJob(id, _) => id !in w.builds
    case Move(id, target, _) => id !in w.builds && target in {Building, LocalPending}
    case DropJob(id, _, _) => id !in w.builds
    case Publish(id, built, _) =>
      id in w.known && id !in w.builds && built.archive.content.Package? && KeyUnused(w, setting, built.key)
    case Collect(order, now) =>
      && w.transfer.None?
      && (forall k :: 0 <= k < |order| ==>
            order[k] in w.q.jobs && w.q.jobs[order[k]].state.Eligible? && w.q.jobs[order[k]].nextAttemptAt <= now)
      && (forall i, k :: 0 <= i < k < |order| ==> order[i] != order[k])
    case EndUpload(response, requestId, _) =>
      (response.Answered? ==> w.reply == Some(response.receipt)) && requestId !in w.q.deletions
    case AskDeletion(requestId, _) => requestId !in w.q.deletions
    case ConfirmDeletion(requestId) => requestId in w.served
    case ServerDoes(op) =>
      op.Upload? && op.tenant.id == setting.tenant.id ==> forall j :: j in w.builds ==> w.builds[j].key != op.key
    case _ => true
  }

  ghost function Run(setting: Setting, w: World, actions: seq<Action>): World {
    if actions == [] then w else Next(Run(setting, w, actions[..|actions| - 1]), setting, actions[|actions| - 1])
  }

  ghost predicate AllowedRun(setting: Setting, w: World, actions: seq<Action>) {
    forall k :: 0 <= k < |actions| ==> Allowed(Run(setting, w, actions[..k]), setting, actions[k])
  }

  function SentCount(marks: seq<Mark>, id: string): nat {
    if marks == [] then 0
    else
      var last := marks[|marks| - 1];
      SentCount(marks[..|marks| - 1], id) + (if last.Sent? && last.id == id then 1 else 0)
  }

  lemma CountGrows(marks: seq<Mark>, m: Mark, id: string)
    ensures SentCount(marks + [m], id) == SentCount(marks, id) + (if m.Sent? && m.id == id then 1 else 0)
  {
    assert (marks + [m])[..|marks|] == marks;
  }

  // Never more attempts than the setting allows, but always one.
  function AttemptLimit(setting: Setting): nat {
    if setting.policy.retry.maxAttempts == 0 then 1 else setting.policy.retry.maxAttempts
  }

  predicate MaySend(setting: Setting, attempts: nat) {
    attempts == 0 || attempts < setting.policy.retry.maxAttempts
  }
}
