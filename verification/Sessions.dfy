// The life of every dictation session, over all runs of the controller.
module Sessions {
  import opened Options
  import opened Captions
  import opened Control

  // ----- what may happen to one session, in order -------------------------------------

  datatype Life =
    | Unseen
    | Open(epoch: nat, heard: set<string>)
    | Said(text: string)
    | Stopped(text: string)
    | Remembered
    | Closed
    | Broken

  // Only a text heard for the session's own epoch may be said, once; only a
  // stopped session may be offered for training, with the text that was said;
  // a stopped session is never cancelled and a closed one never stopped.
  function Advance(life: Life, h: Happening, id: string): Life {
    match h
    case Requested(_, _) => life
    case Replied(epoch, segments) =>
      if life.Open? && life.epoch == epoch then Open(epoch, life.heard + {DisplayText(segments)}) else life
    case Began(x, epoch) =>
      if x != id then life else if life.Unseen? then Open(epoch, {}) else Broken
    case Captioned(x, _) =>
      if x != id || life.Open? then life else Broken
    case Spoke(x, text) =>
      if x != id then life else if life.Open? && text != "" && text in life.heard then Said(text) else Broken
    case Offered(x, segments, _) =>
      if x != id then life else if life.Stopped? && DisplayText(segments) == life.text then Remembered else Broken
    case Announced(kind, x) =>
      if x != id then life
      else
        match kind
        case SessionStarted => if life.Open? then life else Broken
        case SessionStopped => if life.Open? then Stopped("") else if life.Said? then Stopped(life.text) else Broken
        case SessionCancelled => if life.Open? || life.Closed? then Closed else Broken
        case SessionFailed => if life.Open? || life.Unseen? then Closed else Broken
  }

  function LifeOf(trace: seq<Happening>, id: string): Life {
    if trace == [] then Unseen else Advance(LifeOf(trace[..|trace| - 1], id), trace[|trace| - 1], id)
  }

  ghost predicate Unbroken(trace: seq<Happening>) {
    forall id :: !LifeOf(trace, id).Broken?
  }

  ghost predicate OnlyOpen(trace: seq<Happening>, current: Option<string>) {
    forall id :: LifeOf(trace, id).Open? ==> current == Some(id)
  }

  // Sessions began with strictly rising epochs, none above the counter.
  ghost predicate EpochsRise(trace: seq<Happening>, epoch: nat) {
    && (forall i :: 0 <= i < |trace| && trace[i].Began? ==> trace[i].epoch <= epoch)
    && (forall i, j :: 0 <= i < j < |trace| && trace[i].Began? && trace[j].Began? ==> trace[i].epoch < trace[j].epoch)
  }

  // ----- what an orderly trace guarantees -----------------------------------------------

  lemma LifeGrows(trace: seq<Happening>, h: Happening, id: string)
    ensures LifeOf(trace + [h], id) == Advance(LifeOf(trace, id), h, id)
  {
    assert (trace + [h])[..|trace|] == trace;
  }

  // Where a life stands: it only ever moves up, and everything but `Open` and
  // `Closed` moves strictly.
  function Stage(life: Life): nat {
    match life
    case Unseen => 0
    case Open(_, _) => 1
    case Closed => 2
    case Said(_) => 3
    case Stopped(_) => 4
    case Remembered => 5
    case Broken => 6
  }

  lemma AdvanceRises(life: Life, h: Happening, id: string)
    ensures Stage(life) <= Stage(Advance(life, h, id))
  {
  }

  lemma {:induction false} StageRises(trace: seq<Happening>, k: nat, id: string)
    requires k <= |trace|
    ensures Stage(LifeOf(trace[..k], id)) <= Stage(LifeOf(trace, id))
  {
    if k == |trace| {
      assert trace[..k] == trace;
    } else {
      var before := trace[..|trace| - 1];
      StageRises(before, k, id);
      AdvanceRises(LifeOf(before, id), trace[|trace| - 1], id);
      assert before[..k] == trace[..k];
    }
  }

  lemma {:induction false} ClosedStays(trace: seq<Happening>, k: nat, id: string)
    requires k <= |trace| && LifeOf(trace[..k], id).Closed?
    ensures LifeOf(trace, id).Closed? || LifeOf(trace, id).Broken?
  {
    if k == |trace| {
      assert trace[..k] == trace;
    } else {
      var before := trace[..|trace| - 1];
      assert before[..k] == trace[..k];
      ClosedStays(before, k, id);
    }
  }

  lemma PrefixUnbroken(trace: seq<Happening>, k: nat, id: string)
    requires Unbroken(trace) && k <= |trace|
    ensures !LifeOf(trace[..k], id).Broken?
  {
    StageRises(trace, k, id);
  }

  // The life just before and just after entry `k`.
  lemma LifeAround(trace: seq<Happening>, k: nat, id: string)
    requires Unbroken(trace) && k < |trace|
    ensures LifeOf(trace[..k + 1], id) == Advance(LifeOf(trace[..k], id), trace[k], id)
    ensures !LifeOf(trace[..k + 1], id).Broken?
  {
    assert trace[..k + 1][..k] == trace[..k];
    PrefixUnbroken(trace, k + 1, id);
  }

  lemma LifeBetween(trace: seq<Happening>, j: nat, k: nat, id: string)
    requires j <= k <= |trace|
    ensures Stage(LifeOf(trace[..j], id)) <= Stage(LifeOf(trace[..k], id))
  {
    assert trace[..k][..j] == trace[..j];
    StageRises(trace[..k], j, id);
  }

  // Text is spoken at most once per session.
  lemma SpokenOnce(trace: seq<Happening>, j: nat, k: nat)
    requires Unbroken(trace) && j < k < |trace|
    requires trace[j].Spoke? && trace[k].Spoke?
    ensures trace[j].sessionId != trace[k].sessionId
  {
    if trace[j].sessionId == trace[k].sessionId {
      var id := trace[k].sessionId;
      LifeAround(trace, j, id);
      LifeBetween(trace, j + 1, k, id);
      LifeAround(trace, k, id);
      assert false;
    }
  }

  // An accepted cancellation or failure is final: nothing is spoken, stopped or
  // offered for the session afterwards.
  lemma NothingAfterTeardown(trace: seq<Happening>, j: nat, k: nat)
    requires Unbroken(trace) && j < k < |trace|
    requires trace[j].Announced? && trace[j].kind in {SessionCancelled, SessionFailed}
    requires trace[k].Spoke? || trace[k].Offered? || trace[k] == Announced(SessionStopped, trace[j].sessionId)
    ensures trace[k].sessionId != trace[j].sessionId
  {
    if trace[j].sessionId == trace[k].sessionId {
      var id := trace[k].sessionId;
      LifeAround(trace, j, id);
      ClosedBetween(trace, j + 1, k, id);
      LifeAround(trace, k, id);
      assert false;
    }
  }

  lemma ClosedBetween(trace: seq<Happening>, j: nat, k: nat, id: string)
    requires Unbroken(trace) && j <= k <= |trace| && LifeOf(trace[..j], id).Closed?
    ensures LifeOf(trace[..k], id).Closed?
  {
    assert trace[..k][..j] == trace[..j];
    ClosedStays(trace[..k], j, id);
    PrefixUnbroken(trace, k, id);
  }

  // No session is reported both as stopped and as cancelled or failed.
  lemma NeverStoppedAndCancelled(trace: seq<Happening>, j: nat, k: nat, id: string)
    requires Unbroken(trace) && j < |trace| && k < |trace|
    ensures !(trace[j] == Announced(SessionStopped, id)
              && (trace[k] == Announced(SessionCancelled, id) || trace[k] == Announced(SessionFailed, id)))
  {
    if j < k && trace[j] == Announced(SessionStopped, id) {
      LifeAround(trace, j, id);
      LifeBetween(trace, j + 1, k, id);
      LifeAround(trace, k, id);
    } else if k < j && trace[k] in {Announced(SessionCancelled, id), Announced(SessionFailed, id)} {
      if trace[j] == Announced(SessionStopped, id) {
        NothingAfterTeardown(trace, k, j);
      }
    }
  }

  // An open life comes from the beginning of the session, and each text it
  // heard from an answer bearing its epoch.
  lemma {:induction false} OpenHasOrigin(trace: seq<Happening>, id: string) returns (began: nat)
    requires LifeOf(trace, id).Open?
    ensures began < |trace| && trace[began] == Began(id, LifeOf(trace, id).epoch)
    ensures forall text :: text in LifeOf(trace, id).heard ==> HeardAfter(trace, began, LifeOf(trace, id).epoch, text)
  {
    var n := |trace| - 1;
    var before, h := trace[..n], trace[n];
    if h == Began(id, LifeOf(trace, id).epoch) && LifeOf(before, id).Unseen? {
      began := n;
    } else {
      began := OpenHasOrigin(before, id);
      var epoch := LifeOf(trace, id).epoch;
      forall text | text in LifeOf(trace, id).heard ensures HeardAfter(trace, began, epoch, text) {
        if text in LifeOf(before, id).heard {
          assert HeardAfter(before, began, epoch, text);
          var j :| began < j < |before| && IsAnswer(before[j], epoch, text);
          assert IsAnswer(trace[j], epoch, text);
        } else {
          assert IsAnswer(trace[n], epoch, text);
        }
      }
    }
  }

  ghost predicate IsAnswer(h: Happening, epoch: nat, text: string) {
    h.Replied? && h.epoch == epoch && DisplayText(h.segments) == text
  }

  ghost predicate HeardAfter(trace: seq<Happening>, began: nat, epoch: nat, text: string) {
    exists j :: began < j < |trace| && IsAnswer(trace[j], epoch, text)
  }

  // What is spoken is not empty, and was answered under the session's own epoch
  // after the session began.
  lemma SpokenWasHeard(trace: seq<Happening>, k: nat) returns (began: nat, answered: nat)
    requires Unbroken(trace) && k < |trace| && trace[k].Spoke?
    ensures trace[k].text != ""
    ensures began < answered < k && trace[began].Began? && trace[began].sessionId == trace[k].sessionId
    ensures IsAnswer(trace[answered], trace[began].epoch, trace[k].text)
  {
    var before, id := trace[..k], trace[k].sessionId;
    LifeAround(trace, k, id);
    began := OpenHasOrigin(before, id);
    assert HeardAfter(before, began, LifeOf(before, id).epoch, trace[k].text);
    answered :| began < answered < |before| && IsAnswer(before[answered], LifeOf(before, id).epoch, trace[k].text);
  }

  lemma {:induction false} StoppedHasOrigin(trace: seq<Happening>, id: string) returns (stopped: nat)
    requires LifeOf(trace, id).Stopped?
    ensures stopped < |trace| && trace[stopped] == Announced(SessionStopped, id)
    ensures LifeOf(trace, id).text != "" ==> Spoke(id, LifeOf(trace, id).text) in trace[..stopped]
  {
    var n := |trace| - 1;
    var before := trace[..n];
    if trace[n] == Announced(SessionStopped, id) {
      stopped := n;
      if LifeOf(before, id).Said? {
        SaidHasOrigin(before, id);
      }
    } else {
      stopped := StoppedHasOrigin(before, id);
      assert before[..stopped] == trace[..stopped];
    }
  }

  lemma {:induction false} SaidHasOrigin(trace: seq<Happening>, id: string)
    requires LifeOf(trace, id).Said?
    ensures Spoke(id, LifeOf(trace, id).text) in trace
  {
    var n := |trace| - 1;
    if trace[n] != Spoke(id, LifeOf(trace, id).text) {
      SaidHasOrigin(trace[..n], id);
    }
  }

  // Only a stopped session is offered for training, and what is offered is what
  // was delivered: empty, or spoken before.
  lemma OfferedWasDelivered(trace: seq<Happening>, k: nat) returns (stopped: nat)
    requires Unbroken(trace) && k < |trace| && trace[k].Offered?
    ensures stopped < k && trace[stopped] == Announced(SessionStopped, trace[k].sessionId)
    ensures DisplayText(trace[k].segments) != "" ==>
      Spoke(trace[k].sessionId, DisplayText(trace[k].segments)) in trace[..stopped]
  {
    var before, id := trace[..k], trace[k].sessionId;
    LifeAround(trace, k, id);
    stopped := StoppedHasOrigin(before, id);
    assert before[..stopped] == trace[..stopped];
  }
}
