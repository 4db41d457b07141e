// Invariants of the controller between commands, and its whole runs.
module ControlRuns {
  import opened Options
  import opened TimeMap
  import opened Recording
  import opened Captions
  import opened Control
  import opened Sessions

  // ----- the state and the queue, at every turn of the event loop ------------------------

  // The active slot holds the machine's session, open and on the current epoch.
  ghost predicate Live(c: Controls) {
    && c.active.Some? && c.preempting
    && c.machine.sessionId == Some(c.active.value.sessionId)
    && c.active.value.epoch == c.epoch
    && LifeOf(c.trace, c.active.value.sessionId).Open?
    && LifeOf(c.trace, c.active.value.sessionId).epoch == c.epoch
  }

  predicate Vacant(c: Controls) {
    c.active.None? && !c.preempting
  }

  // The text to deliver is what the kept segments say: nothing, or heard.
  ghost predicate Ready(a: Active, heard: set<string>) {
    && a.finalText.Some?
    && a.finalText.value == DisplayText(a.finalSegments)
    && (a.finalText.value == "" || a.finalText.value in heard)
  }

  ghost predicate Waiting(a: Active) {
    a.finalText.None? && a.finalSegments == []
  }

  ghost predicate Pending(c: Controls, queue: seq<Event>) {
    match c.machine.state
    case Idle => queue == [] && Vacant(c)
    case Starting =>
      && !c.machine.pendingStop
      && (|| (queue == [CaptureStarted] && Live(c) && c.active.value.capturing && Waiting(c.active.value))
          || (queue == [Failed] && c.active.None? && c.machine.sessionId.Some?
              && LifeOf(c.trace, c.machine.sessionId.value).Unseen?))
    case RecordingHeld | RecordingLocked =>
      queue == [] && Live(c) && c.active.value.capturing && Waiting(c.active.value)
    case Finalizing =>
      && Live(c) && !c.active.value.capturing
      && (|| (queue == [] && Waiting(c.active.value) && Requested(c.epoch, c.active.value.pcm) in c.trace)
          || (queue in [[Finalized], [Failed, Finalized]]
              && Ready(c.active.value, LifeOf(c.trace, c.active.value.sessionId).heard))
          || queue == [Failed])
    case Delivering =>
      && queue == [Delivered] && c.active.Some? && c.active.value.finalText.Some?
      && c.active.value.finalText.value == DisplayText(c.active.value.finalSegments)
      && var life := LifeOf(c.trace, c.active.value.sessionId);
        if c.active.value.finalText.value == "" then life.Open? else life == Said(c.active.value.finalText.value)
    case Cancelled => queue == [Reset] && Vacant(c)
    case Error =>
      && (queue == [] || queue == [Finalized]) && Vacant(c) && c.errorSince.Some?
      && c.machine.sessionId.Some? && LifeOf(c.trace, c.machine.sessionId.value).Closed?
  }

  function CurrentId(c: Controls): Option<string> {
    if c.active.Some? then Some(c.active.value.sessionId) else None
  }

  ghost predicate OrderlyTrace(trace: seq<Happening>, current: Option<string>, epoch: nat) {
    Unbroken(trace) && OnlyOpen(trace, current) && EpochsRise(trace, epoch)
  }

  ghost predicate Orderly(c: Controls) {
    Sound(c.machine) && OrderlyTrace(c.trace, CurrentId(c), c.epoch)
  }

  // What holds between commands.
  ghost predicate Settled(c: Controls) {
    Orderly(c) && Pending(c, [])
  }

  // The random name of a new session was never used before.
  ghost predicate Fresh(c: Controls, s: Surroundings) {
    s.freshId != "" && LifeOf(c.trace, s.freshId).Unseen?
  }

  // ----- adding one happening to an orderly trace ------------------------------------------

  predicate Concerns(h: Happening, id: string) {
    (h.Captioned? || h.Announced? || h.Spoke? || h.Offered?) && h.sessionId == id
  }

  // After `h` only the life of `id` may differ.
  ghost predicate OneLife(trace: seq<Happening>, after: seq<Happening>, id: string) {
    forall x :: x != id ==> LifeOf(after, x) == LifeOf(trace, x)
  }

  lemma LogMovesOne(trace: seq<Happening>, h: Happening, id: string)
    requires Concerns(h, id)
    ensures OneLife(trace, trace + [h], id) && LifeOf(trace + [h], id) == Advance(LifeOf(trace, id), h, id)
  {
    LifeGrows(trace, h, id);
    forall x | x != id ensures LifeOf(trace + [h], x) == LifeOf(trace, x) {
      LifeGrows(trace, h, x);
    }
  }

  lemma LivesKeep(trace: seq<Happening>, after: seq<Happening>, id: string)
    requires Unbroken(trace) && OnlyOpen(trace, Some(id)) && OneLife(trace, after, id) && !LifeOf(after, id).Broken?
    ensures Unbroken(after) && OnlyOpen(after, Some(id)) && (!LifeOf(after, id).Open? ==> OnlyOpen(after, None))
  {
  }

  // `h` concerns session `id` and leaves its life whole.
  lemma LogKeeps(trace: seq<Happening>, epoch: nat, h: Happening, id: string)
    requires OrderlyTrace(trace, Some(id), epoch) && Concerns(h, id) && !Advance(LifeOf(trace, id), h, id).Broken?
    ensures OrderlyTrace(trace + [h], Some(id), epoch)
    ensures LifeOf(trace + [h], id) == Advance(LifeOf(trace, id), h, id)
    ensures !LifeOf(trace + [h], id).Open? ==> OrderlyTrace(trace + [h], None, epoch)
  {
    LogMovesOne(trace, h, id);
    LivesKeep(trace, trace + [h], id);
    assert EpochsRise(trace + [h], epoch);
  }

  lemma BeginKeeps(trace: seq<Happening>, epoch: nat, id: string)
    requires OrderlyTrace(trace, None, epoch) && LifeOf(trace, id).Unseen?
    ensures OrderlyTrace(trace + [Began(id, epoch + 1)], Some(id), epoch + 1)
    ensures LifeOf(trace + [Began(id, epoch + 1)], id) == Open(epoch + 1, {})
  {
    var h := Began(id, epoch + 1);
    forall x ensures LifeOf(trace + [h], x) == Advance(LifeOf(trace, x), h, x) {
      LifeGrows(trace, h, x);
    }
  }

  // Requests and answers touch no life but an open one, which only hears more.
  lemma HearKeeps(trace: seq<Happening>, epoch: nat, h: Happening, current: Option<string>)
    requires OrderlyTrace(trace, current, epoch) && (h.Requested? || h.Replied?)
    ensures OrderlyTrace(trace + [h], current, epoch)
    ensures forall x :: LifeOf(trace + [h], x) == Advance(LifeOf(trace, x), h, x)
  {
    forall x ensures LifeOf(trace + [h], x) == Advance(LifeOf(trace, x), h, x) {
      LifeGrows(trace, h, x);
    }
  }

  // ----- performing lists of effects ----------------------------------------------------------

  lemma PerformAlone(c: Controls, e: Effect, s: Surroundings)
    ensures Perform(c, [e], s) == PerformOne(c, e, s)
  {
    assert [e][1..] == [] && PerformOne(c, e, s).1 + [] == PerformOne(c, e, s).1;
  }

  lemma PerformTwo(c: Controls, e: Effect, f: Effect, s: Surroundings)
    ensures var (c1, f1) := PerformOne(c, e, s);
      var (c2, f2) := PerformOne(c1, f, s);
      Perform(c, [e, f], s) == (c2, f1 + f2)
  {
    var (c1, f1) := PerformOne(c, e, s);
    assert [e, f][1..] == [f] && [f][1..] == [];
    PerformAlone(c1, f, s);
  }

  lemma PerformThree(c: Controls, e: Effect, f: Effect, g: Effect, s: Surroundings)
    ensures var (c1, f1) := PerformOne(c, e, s);
      var (c2, f2) := PerformOne(c1, f, s);
      var (c3, f3) := PerformOne(c2, g, s);
      Perform(c, [e, f, g], s) == (c3, f1 + (f2 + f3))
  {
    assert [e, f, g][1..] == [f, g];
    PerformTwo(PerformOne(c, e, s).0, f, g, s);
  }

  lemma PerformFour(c: Controls, e: Effect, f: Effect, g: Effect, h: Effect, s: Surroundings)
    ensures var (c1, f1) := PerformOne(c, e, s);
      var (c2, f2) := PerformOne(c1, f, s);
      var (c3, f3) := PerformOne(c2, g, s);
      var (c4, f4) := PerformOne(c3, h, s);
      Perform(c, [e, f, g, h], s) == (c4, f1 + (f2 + (f3 + f4)))
  {
    assert [e, f, g, h][1..] == [f, g, h];
    PerformThree(PerformOne(c, e, s).0, f, g, h, s);
  }

  // Tearing down publishes one event, frees the slot and keeps nothing.
  function TornDown(c: Controls, kind: Kind, s: Surroundings): Controls {
    var id := if c.active.Some? then Some(c.active.value.sessionId) else c.machine.sessionId;
    var shown := c.(
      active := None, preempting := false,
      errorSince := if c.machine.state.Error? then Some(s.now) else c.errorSince,
      shownSession := if id.Some? then id else c.shownSession);
    if id.Some? then shown.Log(Announced(kind, id.value)) else shown
  }

  lemma TeardownIs(c: Controls, kind: Kind, s: Surroundings)
    requires c.machine.state.Cancelled? || c.machine.state.Error?
    requires KindOf(c.machine) == Some(kind)
    ensures Perform(c, TEARDOWN, s) ==
      (TornDown(c, kind, s), if c.machine.state.Cancelled? then [Reset] else [])
  {
    PerformFour(c, StopCapture, DiscardSession, AnnounceState, ReleaseResources, s);
    var c2 := Discarded(c, s);
    var (c3, reset) := AnnounceOn(c2, s);
    assert [] + ([] + (reset + [])) == reset;
  }

  lemma Discarded(c: Controls, s: Surroundings) returns (d: Controls)
    requires c.machine.state.Cancelled? || c.machine.state.Error?
    ensures d == DiscardOn(StopCaptureOn(c, s).0) && StopCaptureOn(c, s).1 == []
    ensures d == c.(active := d.active) && CurrentId(d) == CurrentId(c)
  {
    d := DiscardOn(StopCaptureOn(c, s).0);
  }

  // ----- each event keeps the loop invariant -----------------------------------------------------

  lemma AsCurrent(trace: seq<Happening>, current: Option<string>, epoch: nat, id: string)
    requires OrderlyTrace(trace, current, epoch) && (current.None? || current == Some(id))
    ensures OrderlyTrace(trace, Some(id), epoch)
  {
  }

  lemma TeardownTrace(trace: seq<Happening>, epoch: nat, kind: Kind, id: string)
    requires OrderlyTrace(trace, Some(id), epoch)
    requires var life := LifeOf(trace, id);
      || (life.Open? && kind in {SessionCancelled, SessionFailed})
      || (life.Closed? && kind.SessionCancelled?) || (life.Unseen? && kind.SessionFailed?)
    ensures var after := trace + [Announced(kind, id)];
      OrderlyTrace(after, None, epoch) && LifeOf(after, id).Closed?
  {
    LogKeeps(trace, epoch, Announced(kind, id), id);
  }

  lemma {:induction false} TeardownKeeps(c: Controls, event: Event, s: Surroundings)
    requires Orderly(c) && (event.Cancel? || event.Failed?)
    requires c.machine.state !in {Idle, Cancelled, Delivering}
    requires c.machine.sessionId.Some? && (c.active.Some? ==> CurrentId(c) == c.machine.sessionId)
    requires var life := LifeOf(c.trace, c.machine.sessionId.value);
      life.Open? || (event.Cancel? && life.Closed?) || (event.Failed? && life.Unseen?)
    requires c.active.None? ==> !LifeOf(c.trace, c.machine.sessionId.value).Open?
    ensures var (after, follow) := Step(c, event, s);
      Orderly(after) && Pending(after, follow) && (event.Failed? ==> after.machine.state.Error? && follow == [])
  {
    var id, m := c.machine.sessionId.value, Handled(c.machine, event, None, s.now).0;
    var kind := if event.Cancel? then SessionCancelled else SessionFailed;
    HandleKeepsSound(c.machine, event, None, s.now);
    TeardownStep(c, event, kind, s);
    AsCurrent(c.trace, CurrentId(c), c.epoch, id);
    TeardownTrace(c.trace, c.epoch, kind, id);
    TornDownKeeps(c.(machine := m), kind, s);
  }

  lemma TeardownStep(c: Controls, event: Event, kind: Kind, s: Surroundings)
    requires c.machine.state !in {Idle, Cancelled}
    requires (event.Cancel? && kind.SessionCancelled?) || (event.Failed? && kind.SessionFailed?)
    ensures var m := Handled(c.machine, event, None, s.now).0;
      && m.state == (if event.Cancel? then Cancelled else Error) && m.sessionId == c.machine.sessionId
      && Step(c, event, s) == (TornDown(c.(machine := m), kind, s), if event.Cancel? then [Reset] else [])
  {
    TeardownIs(c.(machine := Handled(c.machine, event, None, s.now).0), kind, s);
  }

  lemma TornDownKeeps(c: Controls, kind: Kind, s: Surroundings)
    requires Sound(c.machine) && (c.machine.state.Cancelled? || c.machine.state.Error?)
    requires c.machine.sessionId.Some? && (c.active.Some? ==> CurrentId(c) == c.machine.sessionId)
    requires var trace := c.trace + [Announced(kind, c.machine.sessionId.value)];
      OrderlyTrace(trace, None, c.epoch) && LifeOf(trace, c.machine.sessionId.value).Closed?
    ensures Orderly(TornDown(c, kind, s))
    ensures Pending(TornDown(c, kind, s), if c.machine.state.Cancelled? then [Reset] else [])
  {
  }

  // Starting a session, if the microphone opens or if it does not.
  function Started(c: Controls, m: Machine, s: Surroundings): (Controls, seq<Event>) {
    var begun := c.(machine := m, epoch := c.epoch + 1, preempting := true, shownSession := Some(s.freshId));
    if s.opens then
      (begun.(active := Some(Active(s.freshId, c.epoch + 1, true, [], EMPTY, None, [])),
              trace := c.trace + [Began(s.freshId, c.epoch + 1)]),
       [CaptureStarted])
    else
      (begun, [Failed])
  }

  lemma StartIs(c: Controls, m: Machine, s: Surroundings)
    requires m.state.Starting? && KindOf(m).None? && m.sessionId == Some(s.freshId) && c.active.None?
    ensures Perform(c.(machine := m), [StartCapture, AnnounceState], s) == Started(c, m, s)
  {
    PerformTwo(c.(machine := m), StartCapture, AnnounceState, s);
    var follow := StartCaptureOn(c.(machine := m), s).1;
    assert follow + [] == follow;
  }

  lemma StartStep(c: Controls, event: Event, s: Surroundings)
    requires c.machine.state.Idle? && c.active.None? && (event.HoldDown? || event.Toggle?) && s.freshId != ""
    ensures var m := Handled(c.machine, event, Some(s.freshId), s.now).0;
      && m.state.Starting? && !m.pendingStop && m.sessionId == Some(s.freshId)
      && Step(c, event, s) == Started(c, m, s)
  {
    StartIs(c, Handled(c.machine, event, Some(s.freshId), s.now).0, s);
  }

  lemma OpenedKeeps(c: Controls, m: Machine, s: Surroundings)
    requires OrderlyTrace(c.trace, None, c.epoch) && LifeOf(c.trace, s.freshId).Unseen? && s.opens
    requires Sound(m) && m.state.Starting? && !m.pendingStop && m.sessionId == Some(s.freshId)
    ensures Orderly(Started(c, m, s).0) && Pending(Started(c, m, s).0, [CaptureStarted])
  {
    BeginKeeps(c.trace, c.epoch, s.freshId);
    OpenedOrderly(c, m, s, c.trace + [Began(s.freshId, c.epoch + 1)]);
    OpenedPending(c, m, s);
  }

  lemma OpenedOrderly(c: Controls, m: Machine, s: Surroundings, trace: seq<Happening>)
    requires s.opens && Sound(m) && OrderlyTrace(trace, Some(s.freshId), c.epoch + 1)
    requires trace == c.trace + [Began(s.freshId, c.epoch + 1)]
    ensures Orderly(Started(c, m, s).0)
  {
    var begun := Started(c, m, s).0;
    assert begun.trace == trace && begun.machine == m && CurrentId(begun) == Some(s.freshId);
  }

  lemma OpenedPending(c: Controls, m: Machine, s: Surroundings)
    requires s.opens && m.state.Starting? && !m.pendingStop && m.sessionId == Some(s.freshId)
    requires LifeOf(c.trace + [Began(s.freshId, c.epoch + 1)], s.freshId) == Open(c.epoch + 1, {})
    ensures Pending(Started(c, m, s).0, [CaptureStarted])
  {
    var begun := Started(c, m, s).0;
    assert Live(begun) && Waiting(begun.active.value);
  }

  lemma NotOpenedKeeps(c: Controls, m: Machine, s: Surroundings)
    requires OrderlyTrace(c.trace, None, c.epoch) && LifeOf(c.trace, s.freshId).Unseen? && !s.opens && c.active.None?
    requires Sound(m) && m.state.Starting? && !m.pendingStop && m.sessionId == Some(s.freshId)
    ensures Orderly(Started(c, m, s).0) && Pending(Started(c, m, s).0, [Failed])
  {
    var begun := Started(c, m, s).0;
    assert EpochsRise(begun.trace, begun.epoch);
  }

  lemma {:induction false} StartKeeps(c: Controls, event: Event, s: Surroundings)
    requires Settled(c) && Fresh(c, s) && c.machine.state.Idle? && (event.HoldDown? || event.Toggle?)
    ensures var (after, follow) := Step(c, event, s);
      Orderly(after) && Pending(after, follow)
  {
    HandleKeepsSound(c.machine, event, Some(s.freshId), s.now);
    StartStep(c, event, s);
    var m := Handled(c.machine, event, Some(s.freshId), s.now).0;
    if s.opens {
      OpenedKeeps(c, m, s);
    } else {
      NotOpenedKeeps(c, m, s);
    }
  }

  lemma CaptureStartedKeeps(c: Controls, s: Surroundings)
    requires Orderly(c) && c.machine.state.Starting? && Pending(c, [CaptureStarted])
    ensures var (after, follow) := Step(c, CaptureStarted, s);
      Orderly(after) && Pending(after, follow)
  {
    HandleKeepsSound(c.machine, CaptureStarted, None, s.now);
    CaptureStartedStep(c, s);
    LogKeeps(c.trace, c.epoch, Announced(SessionStarted, c.active.value.sessionId), c.active.value.sessionId);
  }

  lemma CaptureStartedStep(c: Controls, s: Surroundings)
    requires c.machine.state.Starting? && !c.machine.pendingStop && c.active.Some?
    ensures var m := Handled(c.machine, CaptureStarted, None, s.now).0;
      && m.state.IsRecording() && m.sessionId == c.machine.sessionId
      && Step(c, CaptureStarted, s) ==
        (c.(machine := m, shownSession := Some(c.active.value.sessionId),
            trace := c.trace + [Announced(SessionStarted, c.active.value.sessionId)]), [])
  {
    PerformAlone(c.(machine := Handled(c.machine, CaptureStarted, None, s.now).0), AnnounceState, s);
  }

  predicate EndsRecording(m: Machine, event: Event) {
    || (m.state.RecordingHeld? && event.HoldUp?)
    || (m.state.IsRecording() && (event.Toggle? || event.Stop? || event.DurationLimit?))
  }

  // Ending a recording: the microphone's audio goes to recognition, unless
  // there is none or it is silent.
  function AfterRecording(c: Controls, m: Machine, s: Surroundings): (Controls, seq<Event>)
    requires c.active.Some?
  {
    var a := c.active.value.(capturing := false, pcm := if s.recorded.Some? then s.recorded.value else []);
    var c' := c.(machine := m, shownSession := Some(a.sessionId));
    if s.recorded.None? then (c'.(active := Some(a.(finalText := Some("")))), [Failed, Finalized])
    else if a.pcm == [] || s.silent then (c'.(active := Some(a.(finalText := Some("")))), [Finalized])
    else (c'.(active := Some(a)).Log(Requested(a.epoch, a.pcm)), [])
  }

  lemma FinalizeIs(c: Controls, m: Machine, s: Surroundings)
    requires c.active.Some? && c.active.value.capturing && m.state.Finalizing? && KindOf(m).None?
    ensures Perform(c.(machine := m), [StopCapture, FinalizeTranscript, AnnounceState], s) == AfterRecording(c, m, s)
  {
    var c0 := c.(machine := m);
    PerformThree(c0, StopCapture, FinalizeTranscript, AnnounceState, s);
    var (c1, failed) := StopCaptureOn(c0, s);
    var (c2, ended) := FinalizeOn(c1, s);
    assert failed + (ended + []) == if s.recorded.None? then [Failed, Finalized] else ended;
  }

  lemma FinalizeKeeps(c: Controls, event: Event, s: Surroundings)
    requires Settled(c) && EndsRecording(c.machine, event)
    ensures var (after, follow) := Step(c, event, s);
      Orderly(after) && Pending(after, follow) && after.machine.state.Finalizing?
  {
    HandleKeepsSound(c.machine, event, NameFor(event, s), s.now);
    FinalizeStep(c, event, s);
    FinalizingKeeps(c, Handled(c.machine, event, NameFor(event, s), s.now).0, s);
  }

  lemma FinalizeStep(c: Controls, event: Event, s: Surroundings)
    requires EndsRecording(c.machine, event) && c.active.Some? && c.active.value.capturing
    ensures var m := Handled(c.machine, event, NameFor(event, s), s.now).0;
      && m.state.Finalizing? && m.sessionId == c.machine.sessionId
      && Step(c, event, s) == AfterRecording(c, m, s)
  {
    FinalizeIs(c, Handled(c.machine, event, NameFor(event, s), s.now).0, s);
  }

  lemma FinalizingKeeps(c: Controls, m: Machine, s: Surroundings)
    requires Settled(c) && c.machine.state.IsRecording()
    requires Sound(m) && m.state.Finalizing? && m.sessionId == c.machine.sessionId
    ensures var (after, follow) := AfterRecording(c, m, s);
      Orderly(after) && Pending(after, follow)
  {
    var (after, follow) := AfterRecording(c, m, s);
    if follow == [] {
      var h := Requested(c.epoch, after.active.value.pcm);
      HearKeeps(c.trace, c.epoch, h, CurrentId(c));
      assert h in after.trace;
    } else {
      assert DisplayText([]) == "";
    }
  }

  lemma FinalizedKeeps(c: Controls, s: Surroundings)
    requires Orderly(c) && c.machine.state.Finalizing? && Pending(c, [Finalized])
    ensures var (after, follow) := Step(c, Finalized, s);
      Orderly(after) && Pending(after, follow)
  {
    var m := Handled(c.machine, Finalized, None, s.now).0;
    HandleKeepsSound(c.machine, Finalized, None, s.now);
    PerformAlone(c.(machine := m), DeliverText, s);
    var a := c.active.value;
    if a.finalText.value != "" {
      LogKeeps(c.trace, c.epoch, Spoke(a.sessionId, a.finalText.value), a.sessionId);
    }
  }

  lemma DeliveredKeeps(c: Controls, s: Surroundings)
    requires Orderly(c) && c.machine.state.Delivering? && Pending(c, [Delivered])
    ensures var (after, follow) := Step(c, Delivered, s);
      Orderly(after) && Pending(after, follow)
  {
    var m, a := Handled(c.machine, Delivered, None, s.now).0, c.active.value;
    HandleKeepsSound(c.machine, Delivered, None, s.now);
    DeliveredIs(c, m, s);
    StopThenOffer(c.trace, c.epoch, a);
  }

  lemma StopThenOffer(trace: seq<Happening>, epoch: nat, a: Active)
    requires OrderlyTrace(trace, Some(a.sessionId), epoch)
    requires var life := LifeOf(trace, a.sessionId);
      life == Said(DisplayText(a.finalSegments)) || (life.Open? && DisplayText(a.finalSegments) == "")
    ensures OrderlyTrace(
      (trace + [Announced(SessionStopped, a.sessionId)]) + [Offered(a.sessionId, a.finalSegments, a.pcm)], None, epoch)
  {
    var stopped, offered := Announced(SessionStopped, a.sessionId), Offered(a.sessionId, a.finalSegments, a.pcm);
    LogKeeps(trace, epoch, stopped, a.sessionId);
    LogKeeps(trace + [stopped], epoch, offered, a.sessionId);
  }

  lemma DeliveredIs(c: Controls, m: Machine, s: Surroundings)
    requires c.active.Some? && c.active.value.finalText.Some?
    requires m.state.Idle? && KindOf(m) == Some(SessionStopped)
    ensures var a := c.active.value;
      Perform(c.(machine := m), [AnnounceState, ReleaseResources], s) ==
        (c.(machine := m, active := None, preempting := false, shownSession := Some(a.sessionId),
            trace := (c.trace + [Announced(SessionStopped, a.sessionId)]) + [Offered(a.sessionId, a.finalSegments, a.pcm)]),
         [])
  {
    PerformTwo(c.(machine := m), AnnounceState, ReleaseResources, s);
  }

  lemma ResetKeeps(c: Controls, s: Surroundings)
    requires Orderly(c) && Vacant(c) && (c.machine.state.Cancelled? || c.machine.state.Error?)
    ensures var (after, follow) := Step(c, Reset, s);
      Orderly(after) && Pending(after, follow) && after.machine.state.Idle?
  {
    var m := Handled(c.machine, Reset, None, s.now).0;
    HandleKeepsSound(c.machine, Reset, None, s.now);
    PerformAlone(c.(machine := m), AnnounceState, s);
  }

  lemma LockKeeps(c: Controls, s: Surroundings)
    requires Settled(c) && c.machine.state.RecordingHeld?
    ensures var (after, follow) := Step(c, Lock, s);
      Orderly(after) && Pending(after, follow)
  {
    var m := Handled(c.machine, Lock, None, s.now).0;
    HandleKeepsSound(c.machine, Lock, None, s.now);
    PerformAlone(c.(machine := m), AnnounceState, s);
  }

  // ----- from one event to the whole queue ---------------------------------------------------------

  // Events that arrive between commands.
  predicate External(event: Event) {
    event in {HoldDown, HoldUp, Toggle, Lock, Stop, Cancel, DurationLimit, Reset}
  }

  lemma CommandKeeps(c: Controls, event: Event, s: Surroundings)
    requires Settled(c) && External(event) && (event.HoldDown? || event.Toggle? ==> Fresh(c, s))
    ensures var (after, follow) := Step(c, event, s);
      Orderly(after) && Pending(after, follow)
  {
    if c.machine.state.Idle? && (event.HoldDown? || event.Toggle?) {
      StartKeeps(c, event, s);
    } else if EndsRecording(c.machine, event) {
      FinalizeKeeps(c, event, s);
    } else if event.Cancel? && !c.machine.state.Idle? {
      TeardownKeeps(c, event, s);
    } else if event.Lock? && c.machine.state.RecordingHeld? {
      LockKeeps(c, s);
    } else if event.Reset? && c.machine.state.Error? {
      ResetKeeps(c, s);
    } else {
      NothingToDo(c, event, s);
    }
  }

  lemma NothingToDo(c: Controls, event: Event, s: Surroundings)
    requires Settled(c) && External(event)
    requires !(c.machine.state.Idle? && (event.HoldDown? || event.Toggle?)) && !EndsRecording(c.machine, event)
    requires !(event.Cancel? && !c.machine.state.Idle?) && !(event.Lock? && c.machine.state.RecordingHeld?)
    requires !(event.Reset? && c.machine.state.Error?)
    ensures Step(c, event, s) == (c, [])
  {
  }

  lemma QueuedKeeps(c: Controls, queue: seq<Event>, s: Surroundings)
    requires Orderly(c) && Pending(c, queue) && queue != []
    ensures var (after, follow) := Step(c, queue[0], s);
      Orderly(after) && Pending(after, queue[1..] + follow)
  {
    var (after, follow) := Step(c, queue[0], s);
    assert |queue| == 1 ==> queue[1..] + follow == follow;
    match c.machine.state {
      case Starting =>
        if queue[0].CaptureStarted? {
          CaptureStartedKeeps(c, s);
        } else {
          TeardownKeeps(c, Failed, s);
        }
      case Finalizing =>
        if queue[0].Finalized? {
          FinalizedKeeps(c, s);
        } else {
          TeardownKeeps(c, Failed, s);
          assert queue[1..] + follow == queue[1..];
        }
      case Delivering => DeliveredKeeps(c, s);
      case Cancelled => ResetKeeps(c, s);
      case _ =>
    }
  }

  lemma {:induction false} DrainSettles(c: Controls, queue: seq<Event>, s: Surroundings)
    requires Orderly(c) && Pending(c, queue)
    ensures Settled(Drain(c, queue, s))
    decreases Weight(queue)
  {
    if queue != [] {
      QueuedKeeps(c, queue, s);
      QueueShrinks(c, queue, s);
      var (after, follow) := Step(c, queue[0], s);
      DrainSettles(after, queue[1..] + follow, s);
    }
  }

  lemma ApplySettles(c: Controls, event: Event, s: Surroundings)
    requires Settled(c) && External(event) && (event.HoldDown? || event.Toggle? ==> Fresh(c, s))
    ensures Settled(Apply(c, event, s))
  {
    CommandKeeps(c, event, s);
    var (after, follow) := Step(c, event, s);
    assert [event][1..] + follow == follow;
    QueueShrinks(c, [event], s);
    DrainSettles(after, follow, s);
  }

  // ----- every other input -------------------------------------------------------------------------

  lemma {:induction false} CaptionsKeep(c: Controls, id: string, updates: seq<SegmentUpdate>)
    requires Settled(c) && c.active.Some? && c.active.value.sessionId == id && c.machine.state.IsRecording()
    ensures var after := CaptionAll(c, id, updates);
      Settled(after) && after == c.(trace := after.trace) && LifeOf(after.trace, id) == LifeOf(c.trace, id)
  {
    if updates != [] {
      var n := |updates| - 1;
      CaptionsKeep(c, id, updates[..n]);
      LogKeeps(CaptionAll(c, id, updates[..n]).trace, c.epoch, Captioned(id, updates[n]), id);
    }
  }

  lemma PartialSettles(
    c: Controls, settings: LiveSettings, epoch: nat, result: Option<seq<RecognizedSegment>>, audioEnd: u64)
    requires Settled(c)
    ensures Settled(OnPartial(c, settings, epoch, result, audioEnd))
  {
    if c.active.Some? && c.machine.state.IsRecording() && result.Some? {
      var (live, updates) := Pass(settings, c.active.value.live, result.value, audioEnd);
      CaptionsKeep(c.(active := Some(c.active.value.(live := live))), c.active.value.sessionId, updates);
    }
  }

  // A late, repeated or reordered answer is recorded and otherwise ignored; the
  // awaited one delivers or fails the session.
  lemma FinalSettles(c: Controls, epoch: nat, result: Option<seq<RecognizedSegment>>, s: Surroundings)
    requires Settled(c)
    ensures Settled(OnFinal(c, epoch, result, s))
  {
    var heard := if result.Some? then c.Log(Replied(epoch, result.value)) else c;
    if result.Some? {
      HearKeeps(c.trace, c.epoch, Replied(epoch, result.value), CurrentId(c));
      ReplyKeeps(c, epoch, result.value);
    }
    if c.active.Some? && c.active.value.epoch == epoch && c.machine.state.Finalizing? {
      if result.Some? {
        var a := c.active.value.(finalText := Some(DisplayText(result.value)), finalSegments := result.value);
        DrainSettles(heard.(active := Some(a)), [Finalized], s);
      } else {
        DrainSettles(c, [Failed], s);
      }
    }
  }

  lemma ReplyKeeps(c: Controls, epoch: nat, segments: seq<RecognizedSegment>)
    requires Settled(c)
    requires OrderlyTrace(c.trace + [Replied(epoch, segments)], CurrentId(c), c.epoch)
    ensures Settled(c.Log(Replied(epoch, segments)))
  {
    var h := Replied(epoch, segments);
    forall x ensures LifeOf(c.trace + [h], x) == Advance(LifeOf(c.trace, x), h, x) {
      LifeGrows(c.trace, h, x);
    }
    assert forall x :: x in c.trace ==> x in c.trace + [h];
  }

  lemma LimitSettles(c: Controls, limits: Limits, s: Surroundings)
    requires Settled(c)
    ensures Settled(CheckLimit(c, limits, s))
  {
    var (m, reply) := TickMachine(c.machine, limits, s.now);
    if reply.Accepted? && WarnDurationLimit !in reply.effects {
      LimitIsStep(c, limits, s);
      FinalizeKeeps(c, DurationLimit, s);
      FollowUpsSettle(Step(c, DurationLimit, s).0, Step(c, DurationLimit, s).1, s);
    } else {
      assert CheckLimit(c, limits, s) == c.(machine := m);
      WarningOnly(c, limits, s);
    }
  }

  lemma WarningOnly(c: Controls, limits: Limits, s: Surroundings)
    requires Settled(c)
    requires var reply := TickMachine(c.machine, limits, s.now).1;
      !reply.Accepted? || WarnDurationLimit in reply.effects
    ensures Settled(c.(machine := TickMachine(c.machine, limits, s.now).0))
  {
    var m := TickMachine(c.machine, limits, s.now).0;
    TickKeepsSound(c.machine, limits, s.now);
    assert m == c.machine.(warned := m.warned);
  }

  lemma LimitIsStep(c: Controls, limits: Limits, s: Surroundings)
    requires var reply := TickMachine(c.machine, limits, s.now).1;
      reply.Accepted? && WarnDurationLimit !in reply.effects
    ensures EndsRecording(c.machine, DurationLimit)
    ensures CheckLimit(c, limits, s) == ApplyEach(Step(c, DurationLimit, s).0, Step(c, DurationLimit, s).1, s)
  {
  }

  lemma FollowUpsSettle(c: Controls, follow: seq<Event>, s: Surroundings)
    requires Orderly(c) && c.machine.state.Finalizing? && Pending(c, follow)
    ensures Settled(ApplyEach(c, follow, s))
  {
    if follow == [Failed, Finalized] {
      FailureSettles(c, s);
      assert follow[1..] == [Finalized];
    } else if follow != [] {
      DrainSettles(c, follow, s);
    }
  }

  lemma FailureSettles(c: Controls, s: Surroundings)
    requires Orderly(c) && c.machine.state.Finalizing? && Pending(c, [Failed, Finalized])
    ensures Settled(Apply(Apply(c, Failed, s), Finalized, s))
  {
    TeardownKeeps(c, Failed, s);
    var failed := Step(c, Failed, s).0;
    assert [Failed][1..] + [] == [];
    assert Apply(c, Failed, s) == failed;
    DrainSettles(failed, [Finalized], s);
  }

  lemma StreamSettles(c: Controls, broken: bool, s: Surroundings)
    requires Settled(c)
    ensures Settled(CheckStream(c, broken, s))
  {
    ApplySettles(c, Cancel, s);
  }

  // A visible error ends: a tick late enough after it finds the machine idle.
  lemma ErrorClears(c: Controls, limits: Limits, broken: bool, s: Surroundings)
    requires Settled(c) && c.machine.state.Error?
    ensures c.errorSince.Some?
    ensures Tick(c, limits, broken, s).machine.state.Idle? <==>
      SaturatingSub(s.now, c.errorSince.value) >= ERROR_DISPLAY_MS
  {
    assert CheckStream(CheckLimit(c, limits, s), broken, s) == c;
    var cleared := c.(errorSince := None);
    ResetKeeps(cleared, s);
    var (after, follow) := Step(cleared, Reset, s);
    assert [Reset][1..] + follow == [];
    assert Apply(cleared, Reset, s) == after;
  }

  lemma ErrorSettles(c: Controls, s: Surroundings)
    requires Settled(c)
    ensures Settled(CheckError(c, s))
  {
    if c.errorSince.Some? && SaturatingSub(s.now, c.errorSince.value) >= ERROR_DISPLAY_MS {
      var cleared := c.(errorSince := None);
      if c.machine.state.Error? {
        ResetKeeps(cleared, s);
        var (after, follow) := Step(cleared, Reset, s);
        assert [Reset][1..] + follow == [];
        assert Apply(cleared, Reset, s) == after;
      } else {
        assert [Reset][1..] + [] == [];
        NothingToDo(cleared, Reset, s);
        assert Apply(cleared, Reset, s) == cleared;
      }
    }
  }

  // ----- whole runs ------------------------------------------------------------------------------------

  // Commands are external events, and random session names never repeat.
  ghost predicate Allowed(c: Controls, turn: Turn) {
    Fresh(c, turn.s) && (turn.input.Command? ==> External(turn.input.event))
  }

  ghost predicate AllowedRun(setup: Setup, turns: seq<Turn>) {
    forall k :: 0 <= k < |turns| ==> Allowed(Run(setup, turns[..k]), turns[k])
  }

  lemma AskSettles(c: Controls, request: Request, s: Surroundings)
    requires Settled(c) && Fresh(c, s)
    ensures Settled(Ask(c, request, s).0)
  {
    ApplySettles(c, Toggle, s);
    ApplySettles(c, Stop, s);
    ApplySettles(c, Cancel, s);
  }

  lemma TickSettles(c: Controls, limits: Limits, broken: bool, s: Surroundings)
    requires Settled(c)
    ensures Settled(Tick(c, limits, broken, s))
  {
    LimitSettles(c, limits, s);
    StreamSettles(CheckLimit(c, limits, s), broken, s);
    ErrorSettles(CheckStream(CheckLimit(c, limits, s), broken, s), s);
  }

  lemma TakeSettles(c: Controls, setup: Setup, turn: Turn)
    requires Settled(c) && Allowed(c, turn)
    ensures Settled(Take(c, setup, turn))
  {
    match turn.input {
      case Command(event) => ApplySettles(c, event, turn.s);
      case Partial(epoch, result, audioEnd) => PartialSettles(c, setup.live, epoch, result, audioEnd);
      case Final(epoch, result) => FinalSettles(c, epoch, result, turn.s);
      case Api(request) => AskSettles(c, request, turn.s);
      case Tock(broken) => TickSettles(c, setup.limits, broken, turn.s);
    }
  }

  lemma {:induction false} RunsSettle(setup: Setup, turns: seq<Turn>)
    requires AllowedRun(setup, turns)
    ensures Settled(Run(setup, turns))
  {
    if turns != [] {
      var before := turns[..|turns| - 1];
      forall k | 0 <= k < |before| ensures Allowed(Run(setup, before[..k]), before[k]) {
        assert before[..k] == turns[..k] && Allowed(Run(setup, turns[..k]), turns[k]);
      }
      RunsSettle(setup, before);
      assert Allowed(Run(setup, turns[..|before|]), turns[|before|]);
      TakeSettles(Run(setup, before), setup, turns[|before|]);
    }
  }

  ghost predicate Rests(c: Controls) {
    && c.machine.state in {Idle, RecordingHeld, RecordingLocked, Finalizing, Error}
    && (c.active.Some? <==> c.machine.state in {RecordingHeld, RecordingLocked, Finalizing})
    && (c.preempting <==> c.active.Some?)
    && (c.machine.state.Error? ==> c.errorSince.Some?)
    && (c.machine.state.Finalizing? ==> Requested(c.active.value.epoch, c.active.value.pcm) in c.trace)
  }

  lemma SettledRests(c: Controls)
    requires Settled(c)
    ensures Rests(c)
  {
  }

  // Between commands of any run the machine rests in one of five states, the
  // active slot and the preemption flag are set exactly in the middle three, an
  // error is always timed, and a finalizing session has asked for its answer.
  lemma RestingStates(setup: Setup, turns: seq<Turn>)
    requires AllowedRun(setup, turns)
    ensures Rests(Run(setup, turns))
  {
    RunsSettle(setup, turns);
    SettledRests(Run(setup, turns));
  }

  // `trace[k]` says an answer that came under the epoch of its own session,
  // after that session began.
  ghost predicate SaysItsAnswer(trace: seq<Happening>, k: nat)
    requires k < |trace| && trace[k].Spoke?
  {
    && trace[k].text != ""
    && exists i, j :: 0 <= i < j < k && trace[i].Began? && trace[i].sessionId == trace[k].sessionId
        && IsAnswer(trace[j], trace[i].epoch, trace[k].text)
  }

  // What is offered for training at `k` was stopped, and said unless empty.
  ghost predicate OffersDelivered(trace: seq<Happening>, k: nat)
    requires k < |trace| && trace[k].Offered?
  {
    var id, text := trace[k].sessionId, DisplayText(trace[k].segments);
    Announced(SessionStopped, id) in trace[..k] && (text != "" ==> Spoke(id, text) in trace[..k])
  }

  // Over every run: text is delivered at most once per session, only from the
  // answer to that session, never after it was cancelled or failed; only
  // delivered sessions are offered for training; no session is reported both
  // stopped and cancelled; and no two sessions share an epoch.
  lemma RunsAreSafe(setup: Setup, turns: seq<Turn>)
    requires AllowedRun(setup, turns)
    ensures var trace := Run(setup, turns).trace;
      && (forall j, k :: 0 <= j < k < |trace| && trace[j].Spoke? && trace[k].Spoke? ==>
            trace[j].sessionId != trace[k].sessionId)
      && (forall k :: 0 <= k < |trace| && trace[k].Spoke? ==> SaysItsAnswer(trace, k))
      && (forall k :: 0 <= k < |trace| && trace[k].Offered? ==> OffersDelivered(trace, k))
      && (forall j, k :: 0 <= j < k < |trace| && trace[j].Began? && trace[k].Began? ==> trace[j].epoch != trace[k].epoch)
  {
    RunsSettle(setup, turns);
    var trace := Run(setup, turns).trace;
    forall j, k | 0 <= j < k < |trace| && trace[j].Spoke? && trace[k].Spoke?
      ensures trace[j].sessionId != trace[k].sessionId
    {
      SpokenOnce(trace, j, k);
    }
    forall k | 0 <= k < |trace| && trace[k].Spoke? ensures SaysItsAnswer(trace, k) {
      var i, j := SpokenWasHeard(trace, k);
    }
    forall k | 0 <= k < |trace| && trace[k].Offered? ensures OffersDelivered(trace, k) {
      var i := OfferedWasDelivered(trace, k);
      assert trace[..k][i] == trace[i];
      assert trace[..i] <= trace[..k];
    }
  }

  lemma CancellationIsFinal(setup: Setup, turns: seq<Turn>, j: nat, k: nat, id: string)
    requires AllowedRun(setup, turns) && j < |Run(setup, turns).trace| && k < |Run(setup, turns).trace|
    requires var h := Run(setup, turns).trace[j];
      h == Announced(SessionCancelled, id) || h == Announced(SessionFailed, id)
    ensures var h := Run(setup, turns).trace[k];
      && h != Announced(SessionStopped, id)
      && (j < k && (h.Spoke? || h.Offered?) ==> h.sessionId != id)
  {
    RunsSettle(setup, turns);
    var trace := Run(setup, turns).trace;
    NeverStoppedAndCancelled(trace, k, j, id);
    if j < k && (trace[k].Spoke? || trace[k].Offered?) {
      NothingAfterTeardown(trace, j, k);
    }
  }

  // ----- the control API -----------------------------------------------------------------------------------

  // A start is granted exactly when the machine is idle and the microphone
  // opens; while an error is shown it is refused as unavailable.
  lemma StartAnswer(c: Controls, s: Surroundings)
    requires Settled(c) && Fresh(c, s)
    ensures Ask(c, StartSession, s).1 ==
      if c.machine.state.IsActive() then Conflict
      else if c.machine.state.Idle? && s.opens then Granted(s.freshId)
      else Unavailable
  {
    if c.machine.state.Idle? {
      StartedOrFailed(c, s);
    } else if c.machine.state.Error? {
      NothingToDo(c, Toggle, s);
      assert [Toggle][1..] + [] == [];
    }
  }

  lemma StartedOrFailed(c: Controls, s: Surroundings)
    requires Settled(c) && Fresh(c, s) && c.machine.state.Idle?
    ensures var after := Apply(c, Toggle, s);
      if s.opens then CurrentId(after) == Some(s.freshId) else after.active.None?
  {
    StartKeeps(c, Toggle, s);
    StartStep(c, Toggle, s);
    var (after, follow) := Step(c, Toggle, s);
    assert [Toggle][1..] + follow == follow;
    if s.opens {
      OpenedDrains(after, s);
    } else {
      NotOpenedDrains(after, s);
    }
  }

  lemma OpenedDrains(c: Controls, s: Surroundings)
    requires c.machine.state.Starting? && !c.machine.pendingStop && c.active.Some?
    ensures CurrentId(Drain(c, [CaptureStarted], s)) == CurrentId(c)
  {
    CaptureStartedStep(c, s);
    assert [CaptureStarted][1..] + [] == [];
  }

  lemma NotOpenedDrains(c: Controls, s: Surroundings)
    requires c.machine.state.Starting?
    ensures Drain(c, [Failed], s).active.None?
  {
    TeardownStep(c, Failed, SessionFailed, s);
    assert [Failed][1..] + [] == [];
  }

  // Cancelling frees the session at once; repeating the request is granted and
  // changes nothing more.
  lemma CancelTwice(c: Controls, id: string, s: Surroundings)
    requires Settled(c) && CurrentId(c) == Some(id)
    ensures var (after, answer) := Ask(c, CancelSession(id), s);
      && answer == Granted(id) && after.machine.state.Idle? && Vacant(after)
      && Ask(after, CancelSession(id), s) == (after, Granted(id))
  {
    TeardownStep(c, Cancel, SessionCancelled, s);
    var torn := Step(c, Cancel, s).0;
    CancelDrains(c, s);
    ResetIs(torn, s);
  }

  lemma CancelDrains(c: Controls, s: Surroundings)
    requires var (torn, follow) := Step(c, Cancel, s);
      follow == [Reset] && torn.machine.state.Cancelled? && torn.active.None?
    ensures Apply(c, Cancel, s) == Step(Step(c, Cancel, s).0, Reset, s).0
  {
    var torn := Step(c, Cancel, s).0;
    assert [Cancel][1..] + [Reset] == [Reset];
    ResetIs(torn, s);
    assert [Reset][1..] + [] == [];
  }

  // A reset with nothing active only changes the machine.
  lemma ResetIs(c: Controls, s: Surroundings)
    requires c.machine.state.Cancelled? && c.active.None?
    ensures var m := Handled(c.machine, Reset, None, s.now).0;
      m.state.Idle? && Step(c, Reset, s) == (c.(machine := m), [])
  {
    PerformAlone(c.(machine := Handled(c.machine, Reset, None, s.now).0), AnnounceState, s);
  }
}
