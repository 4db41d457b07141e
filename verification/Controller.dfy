// Serialized recording control.
//
// The machine decides, the controller performs its effects and feeds the
// follow-up events back through a queue. Speech recognition answers carry the
// epoch of the session that asked, and may be late, repeated or reordered.
module Control {
  import opened Options
  import opened TimeMap
  import opened Samples
  import opened Recording
  import opened Captions

  const ERROR_DISPLAY_MS: u64 := 2500

  // No answer ever carries this epoch.
  const STALE: nat := U64_MAX

  datatype Active = Active(
    sessionId: string, epoch: nat, capturing: bool, pcm: seq<i16>, live: LiveState,
    finalText: Option<string>, finalSegments: seq<RecognizedSegment>)

  datatype Kind = SessionStarted | SessionStopped | SessionCancelled | SessionFailed

  // Everything the controller did, and every answer it was given, in order.
  datatype Happening =
    | Began(sessionId: string, epoch: nat)
    | Requested(epoch: nat, pcm: seq<i16>)
    | Replied(epoch: nat, segments: seq<RecognizedSegment>)
    | Captioned(sessionId: string, update: SegmentUpdate)
    | Announced(kind: Kind, sessionId: string)
    | Spoke(sessionId: string, text: string)
    | Offered(sessionId: string, segments: seq<RecognizedSegment>, pcm: seq<i16>)

  datatype Controls = Controls(
    machine: Machine, active: Option<Active>, epoch: nat, errorSince: Option<u64>,
    preempting: bool, shownSession: Option<string>, trace: seq<Happening>)
  {
    function Log(h: Happening): Controls { this.(trace := trace + [h]) }
  }

  const QUIET := Controls(INITIAL, None, 0, None, false, None, [])

  // What the surroundings answer while one command is carried out: the clock,
  // a random session name, whether the microphone opens, the audio it hands
  // back on stopping (or none on failure), and whether that audio is silent.
  datatype Surroundings = Surroundings(
    now: u64, freshId: string, opens: bool, recorded: Option<seq<i16>>, silent: bool)

  // ----- performing one effect ------------------------------------------------------

  function StartCaptureOn(c: Controls, s: Surroundings): (Controls, seq<Event>) {
    var id := if c.machine.sessionId.Some? then c.machine.sessionId.value else "";
    var counted := c.(epoch := c.epoch + 1, preempting := true);
    if s.opens then
      (counted.(active := Some(Active(id, c.epoch + 1, true, [], EMPTY, None, []))).Log(Began(id, c.epoch + 1)),
       [CaptureStarted])
    else
      (counted, [Failed])
  }

  function StopCaptureOn(c: Controls, s: Surroundings): (Controls, seq<Event>) {
    if c.active.None? || !c.active.value.capturing then (c, [])
    else
      match s.recorded
      case Some(pcm) => (c.(active := Some(c.active.value.(capturing := false, pcm := pcm))), [])
      case None =>
        (c.(active := Some(c.active.value.(capturing := false, pcm := []))),
         if c.machine.state.Finalizing? then [Failed] else [])
  }

  function FinalizeOn(c: Controls, s: Surroundings): (Controls, seq<Event>) {
    match c.active
    case None => (c, [Failed])
    case Some(a) =>
      // Silence never becomes text.
      if a.pcm == [] || s.silent then (c.(active := Some(a.(finalText := Some("")))), [Finalized])
      else (c.Log(Requested(a.epoch, a.pcm)), [])
  }

  function DeliverOn(c: Controls): Controls {
    match c.active
    case None => c
    case Some(a) =>
      var text := if a.finalText.Some? then a.finalText.value else "";
      if text == "" then c else c.Log(Spoke(a.sessionId, text))
  }

  function DiscardOn(c: Controls): Controls {
    if c.active.None? then c
    else c.(active := Some(c.active.value.(pcm := [], finalText := None, finalSegments := [], epoch := STALE)))
  }

  function ReleaseOn(c: Controls): Controls {
    var released := c.(active := None, preempting := false);
    match c.active
    case Some(a) =>
      if c.machine.state.Idle? && a.finalText.Some? then released.Log(Offered(a.sessionId, a.finalSegments, a.pcm))
      else released
    case None => released
  }

  // What a machine that has just moved makes known of its session.
  function KindOf(m: Machine): Option<Kind> {
    if m.history == [] then None
    else
      match m.history[|m.history| - 1].event
      case CaptureStarted => Some(SessionStarted)
      case Delivered => Some(SessionStopped)
      case Cancel => Some(SessionCancelled)
      case Failed => Some(SessionFailed)
      case _ => None
  }

  function AnnounceOn(c: Controls, s: Surroundings): (Controls, seq<Event>) {
    var id := if c.active.Some? then Some(c.active.value.sessionId) else c.machine.sessionId;
    var kind := KindOf(c.machine);
    var shown := c.(
      errorSince := if c.machine.state.Error? then Some(s.now) else c.errorSince,
      shownSession := if id.Some? then id else c.shownSession);
    (if kind.Some? && id.Some? then shown.Log(Announced(kind.value, id.value)) else shown,
     if c.machine.state.Cancelled? then [Reset] else [])
  }

  function PerformOne(c: Controls, effect: Effect, s: Surroundings): (Controls, seq<Event>) {
    match effect
    case StartCapture => StartCaptureOn(c, s)
    case StopCapture => StopCaptureOn(c, s)
    case FinalizeTranscript => FinalizeOn(c, s)
    case DeliverText => (DeliverOn(c), [Delivered])
    case DiscardSession => (DiscardOn(c), [])
    case AnnounceState => AnnounceOn(c, s)
    case WarnDurationLimit => (c, [])
    case ReleaseResources => (ReleaseOn(c), [])
  }

  function Perform(c: Controls, effects: seq<Effect>, s: Surroundings): (Controls, seq<Event>)
    decreases |effects|
  {
    if effects == [] then (c, [])
    else
      var (after, first) := PerformOne(c, effects[0], s);
      var (end, rest) := Perform(after, effects[1..], s);
      (end, first + rest)
  }

  // ----- the event queue ------------------------------------------------------------

  function NameFor(event: Event, s: Surroundings): Option<string> {
    if event.HoldDown? || event.Toggle? then Some(s.freshId) else None
  }

  // One event of the queue: what it changes, and the events it causes.
  function Step(c: Controls, event: Event, s: Surroundings): (Controls, seq<Event>) {
    var (m, reply) := Handled(c.machine, event, NameFor(event, s), s.now);
    if reply.Accepted? then Perform(c.(machine := m), reply.effects, s) else (c.(machine := m), [])
  }

  // What an event can still cause, itself included.
  function EventWeight(event: Event): nat {
    match event
    case HoldDown | Toggle => 5
    case CaptureStarted | HoldUp | Stop | DurationLimit => 4
    case Finalized | Cancel => 2
    case Lock | Delivered | Failed | Reset => 1
  }

  function Weight(queue: seq<Event>): nat {
    if queue == [] then 0 else EventWeight(queue[0]) + Weight(queue[1..])
  }

  // What performing an effect in a state can cause.
  function EffectWeight(effect: Effect, state: State): nat {
    match effect
    case StartCapture => 4
    case StopCapture => if state.Finalizing? then 1 else 0
    case FinalizeTranscript => 2
    case DeliverText => 1
    case AnnounceState => if state.Cancelled? then 1 else 0
    case _ => 0
  }

  function EffectsWeight(effects: seq<Effect>, state: State): nat {
    if effects == [] then 0 else EffectWeight(effects[0], state) + EffectsWeight(effects[1..], state)
  }

  lemma {:induction false} WeightOfConcat(a: seq<Event>, b: seq<Event>)
    ensures Weight(a + b) == Weight(a) + Weight(b)
  {
    if a == [] {
      assert a + b == b;
    } else {
      WeightOfConcat(a[1..], b);
      assert (a + b)[1..] == a[1..] + b;
    }
  }

  lemma OneEffectWeight(c: Controls, effect: Effect, s: Surroundings)
    ensures var (after, follow) := PerformOne(c, effect, s);
      after.machine == c.machine && Weight(follow) <= EffectWeight(effect, c.machine.state)
  {
  }

  lemma {:induction false} PerformWeight(c: Controls, effects: seq<Effect>, s: Surroundings)
    ensures var (after, follow) := Perform(c, effects, s);
      after.machine == c.machine && Weight(follow) <= EffectsWeight(effects, c.machine.state)
    decreases |effects|
  {
    if effects != [] {
      var (after, first) := PerformOne(c, effects[0], s);
      OneEffectWeight(c, effects[0], s);
      PerformWeight(after, effects[1..], s);
      WeightOfConcat(first, Perform(after, effects[1..], s).1);
    }
  }

  lemma EffectsAreLighter(m: Machine, event: Event, sessionId: Option<string>, now: u64)
    ensures var (after, reply) := Handled(m, event, sessionId, now);
      EffectsWeight(EffectsOf(reply), after.state) < EventWeight(event)
  {
    ReplyWeights();
  }

  lemma ReplyWeights()
    ensures EffectsWeight([], Starting) == EffectsWeight([AnnounceState], RecordingHeld) == 0
    ensures EffectsWeight([AnnounceState], RecordingLocked) == EffectsWeight([AnnounceState], Idle) == 0
    ensures EffectsWeight([StartCapture, AnnounceState], Starting) == 4
    ensures EffectsWeight([StopCapture, FinalizeTranscript, AnnounceState], Finalizing) == 3
    ensures EffectsWeight([DeliverText], Delivering) == 1
    ensures EffectsWeight([DiscardSession], Cancelled) == 0
    ensures EffectsWeight([AnnounceState, ReleaseResources], Idle) == 0
    ensures EffectsWeight(TEARDOWN, Cancelled) == 1 && EffectsWeight(TEARDOWN, Error) == 0
  {
    EffectsWeightOf([StartCapture, AnnounceState], Starting);
    EffectsWeightOf([StopCapture, FinalizeTranscript, AnnounceState], Finalizing);
    EffectsWeightOf(TEARDOWN, Cancelled);
    EffectsWeightOf(TEARDOWN, Error);
    EffectsWeightOf([AnnounceState, ReleaseResources], Idle);
  }

  lemma EffectsWeightOf(effects: seq<Effect>, state: State)
    requires 2 <= |effects| <= 4
    ensures EffectsWeight(effects, state) ==
      EffectWeight(effects[0], state) + EffectWeight(effects[1], state)
      + (if |effects| > 2 then EffectWeight(effects[2], state) else 0)
      + (if |effects| > 3 then EffectWeight(effects[3], state) else 0)
  {
    assert EffectsWeight(effects[1..], state) == EffectWeight(effects[1], state) + EffectsWeight(effects[2..], state) by {
      assert effects[1..][1..] == effects[2..];
    }
    if |effects| > 2 {
      assert effects[2..][1..] == effects[3..];
      assert EffectsWeight(effects[2..], state) == EffectWeight(effects[2], state) + EffectsWeight(effects[3..], state);
      assert |effects| == 4 ==> effects[3..][1..] == [];
    }
  }

  // Every event causes strictly less than itself: the queue drains.
  lemma StepIsLighter(c: Controls, event: Event, s: Surroundings)
    ensures Weight(Step(c, event, s).1) < EventWeight(event)
  {
    var (m, reply) := Handled(c.machine, event, NameFor(event, s), s.now);
    EffectsAreLighter(c.machine, event, NameFor(event, s), s.now);
    PerformWeight(c.(machine := m), EffectsOf(reply), s);
  }

  lemma QueueShrinks(c: Controls, queue: seq<Event>, s: Surroundings)
    requires queue != []
    ensures Weight(queue[1..] + Step(c, queue[0], s).1) < Weight(queue)
  {
    StepIsLighter(c, queue[0], s);
    WeightOfConcat(queue[1..], Step(c, queue[0], s).1);
  }

  function Drain(c: Controls, queue: seq<Event>, s: Surroundings): Controls
    decreases Weight(queue)
  {
    if queue == [] then c
    else
      var (after, follow) := Step(c, queue[0], s);
      QueueShrinks(c, queue, s);
      Drain(after, queue[1..] + follow, s)
  }

  function Apply(c: Controls, event: Event, s: Surroundings): Controls {
    Drain(c, [event], s)
  }

  // ----- the other inputs -------------------------------------------------------------

  function CaptionAll(c: Controls, sessionId: string, updates: seq<SegmentUpdate>): Controls {
    if updates == [] then c
    else CaptionAll(c, sessionId, updates[..|updates| - 1]).Log(Captioned(sessionId, updates[|updates| - 1]))
  }

  function OnPartial(
    c: Controls, settings: LiveSettings, epoch: nat, result: Option<seq<RecognizedSegment>>, audioEnd: u64): Controls
  {
    if c.active.None? || c.active.value.epoch != epoch || !c.machine.state.IsRecording() || result.None? then c
    else
      var (live, updates) := Pass(settings, c.active.value.live, result.value, audioEnd);
      CaptionAll(c.(active := Some(c.active.value.(live := live))), c.active.value.sessionId, updates)
  }

  // The recognized segments are those left after the hallucination filter.
  function OnFinal(c: Controls, epoch: nat, result: Option<seq<RecognizedSegment>>, s: Surroundings): Controls {
    var heard := if result.Some? then c.Log(Replied(epoch, result.value)) else c;
    if c.active.None? || c.active.value.epoch != epoch || !c.machine.state.Finalizing? then heard
    else
      match result
      case Some(segments) =>
        var answered := c.active.value.(finalText := Some(DisplayText(segments)), finalSegments := segments);
        Apply(heard.(active := Some(answered)), Finalized, s)
      case None => Apply(heard, Failed, s)
  }

  function ApplyEach(c: Controls, events: seq<Event>, s: Surroundings): Controls
    decreases |events|
  {
    if events == [] then c else ApplyEach(Apply(c, events[0], s), events[1..], s)
  }

  // The periodic tick: the duration limit, a failed microphone stream, and the
  // end of the time an error stays visible.
  function CheckLimit(c: Controls, limits: Limits, s: Surroundings): Controls {
    var (m, reply) := TickMachine(c.machine, limits, s.now);
    var ticked := c.(machine := m);
    if !reply.Accepted? || WarnDurationLimit in reply.effects then ticked
    else
      var (after, follow) := Perform(ticked, reply.effects, s);
      ApplyEach(after, follow, s)
  }

  function CheckStream(c: Controls, broken: bool, s: Surroundings): Controls {
    if c.active.Some? && c.active.value.capturing && broken && c.machine.state.IsRecording()
    then Apply(c, Cancel, s) else c
  }

  function CheckError(c: Controls, s: Surroundings): Controls {
    if c.errorSince.Some? && SaturatingSub(s.now, c.errorSince.value) >= ERROR_DISPLAY_MS
    then Apply(c.(errorSince := None), Reset, s) else c
  }

  function Tick(c: Controls, limits: Limits, broken: bool, s: Surroundings): Controls {
    CheckError(CheckStream(CheckLimit(c, limits, s), broken, s), s)
  }

  // ----- the control API ----------------------------------------------------------------

  datatype Request = StartSession | StopSession(id: string) | CancelSession(id: string)

  datatype Answer = Granted(id: string) | Conflict | Unavailable | NotFound

  function Ask(c: Controls, request: Request, s: Surroundings): (Controls, Answer) {
    match request
    case StartSession =>
      if c.machine.state.IsActive() then (c, Conflict)
      else
        var after := Apply(c, Toggle, s);
        (after, if after.active.Some? then Granted(after.active.value.sessionId) else Unavailable)
    case _ =>
      if c.active.None? || c.active.value.sessionId != request.id then
        // The last session shown may be asked to end again.
        (c, if c.shownSession == Some(request.id) then Granted(request.id) else NotFound)
      else
        (Apply(c, if request.StopSession? then Stop else Cancel, s), Granted(request.id))
  }

  // ----- whole runs ------------------------------------------------------------------------

  // Everything that reaches the controller: shortcuts, buttons and lifecycle
  // signals as events, recognition answers, API requests, and ticks.
  datatype Input =
    | Command(event: Event)
    | Partial(epoch: nat, result: Option<seq<RecognizedSegment>>, audioEnd: u64)
    | Final(epoch: nat, result: Option<seq<RecognizedSegment>>)
    | Api(request: Request)
    | Tock(broken: bool)

  datatype Turn = Turn(input: Input, s: Surroundings)

  datatype Setup = Setup(limits: Limits, live: LiveSettings)

  function Take(c: Controls, setup: Setup, turn: Turn): Controls {
    match turn.input
    case Command(event) => Apply(c, event, turn.s)
    case Partial(epoch, result, audioEnd) => OnPartial(c, setup.live, epoch, result, audioEnd)
    case Final(epoch, result) => OnFinal(c, epoch, result, turn.s)
    case Api(request) => Ask(c, request, turn.s).0
    case Tock(broken) => Tick(c, setup.limits, broken, turn.s)
  }

  function Run(setup: Setup, turns: seq<Turn>): Controls {
    if turns == [] then QUIET
    else Take(Run(setup, turns[..|turns| - 1]), setup, turns[|turns| - 1])
  }

  // ----- the controller --------------------------------------------------------------------

  class Controller {
    const limits: Limits
    const liveSettings: LiveSettings
    const machine: RecordingStateMachine
    var active: Option<Active>
    var epoch: nat
    var errorSince: Option<u64>
    var preempting: bool
    var shownSession: Option<string>
    var trace: seq<Happening>

    function View(): Controls
      reads this, machine
    {
      Controls(machine.Value(), active, epoch, errorSince, preempting, shownSession, trace)
    }

    constructor (limits: Limits, liveSettings: LiveSettings)
      ensures View() == QUIET && fresh(machine) && machine.limits == this.limits
      ensures this.limits == limits && this.liveSettings == liveSettings
    {
      this.limits, this.liveSettings := limits, liveSettings;
      machine := new RecordingStateMachine(limits);
      active, epoch, errorSince, preempting, shownSession, trace := None, 0, None, false, None, [];
    }

    method ApplyEvent(event: Event, s: Surroundings)
      modifies this, machine
      ensures View() == Apply(old(View()), event, s)
    {
      var queue := [event];
      while queue != []
        invariant Drain(View(), queue, s) == Apply(old(View()), event, s)
        decreases Weight(queue)
      {
        QueueShrinks(View(), queue, s);
        var next := queue[0];
        var follow := HandleNext(next, s);
        queue := queue[1..] + follow;
      }
    }

    method HandleNext(event: Event, s: Surroundings) returns (follow: seq<Event>)
      modifies this, machine
      ensures (View(), follow) == Step(old(View()), event, s)
    {
      var reply := machine.Handle(event, NameFor(event, s), s.now);
      if !reply.Accepted? {
        return [];
      }
      follow := PerformAll(reply.effects, s);
    }

    method PerformAll(effects: seq<Effect>, s: Surroundings) returns (follow: seq<Event>)
      modifies this
      ensures (View(), follow) == Perform(old(View()), effects, s)
    {
      follow := [];
      assert effects[0..] == effects && follow + Perform(View(), effects, s).1 == Perform(View(), effects, s).1;
      for k := 0 to |effects|
        invariant machine.Value() == old(machine.Value())
        invariant var (end, rest) := Perform(View(), effects[k..], s);
          Perform(old(View()), effects, s) == (end, follow + rest)
      {
        Associative(follow, PerformOne(View(), effects[k], s).1,
                    Perform(PerformOne(View(), effects[k], s).0, effects[k + 1..], s).1);
        assert effects[k..][1..] == effects[k + 1..];
        var more := PerformEffect(effects[k], s);
        follow := follow + more;
      }
      assert effects[|effects|..] == [] && follow + [] == follow;
    }

    method PerformEffect(effect: Effect, s: Surroundings) returns (follow: seq<Event>)
      modifies this
      ensures (View(), follow) == PerformOne(old(View()), effect, s)
      ensures machine.Value() == old(machine.Value())
    {
      follow := [];
      match effect {
        case StartCapture => follow := StartCapture(s);
        case StopCapture => follow := StopCapture(s);
        case FinalizeTranscript => follow := FinalizeTranscript(s);
        case DeliverText =>
          Deliver();
          follow := [Delivered];
        case DiscardSession => Discard();
        case AnnounceState => follow := Announce(s);
        case WarnDurationLimit =>
        case ReleaseResources => Release();
      }
    }

    method StartCapture(s: Surroundings) returns (follow: seq<Event>)
      modifies this
      ensures (View(), follow) == StartCaptureOn(old(View()), s)
    {
      epoch := epoch + 1;
      var id := if machine.sessionId.Some? then machine.sessionId.value else "";
      preempting := true;
      if !s.opens {
        return [Failed];
      }
      active := Some(Active(id, epoch, true, [], EMPTY, None, []));
      trace := trace + [Began(id, epoch)];
      follow := [CaptureStarted];
    }

    method StopCapture(s: Surroundings) returns (follow: seq<Event>)
      modifies this
      ensures (View(), follow) == StopCaptureOn(old(View()), s)
    {
      if active.None? || !active.value.capturing {
        return [];
      }
      match s.recorded {
        case Some(pcm) =>
          active, follow := Some(active.value.(capturing := false, pcm := pcm)), [];
        case None =>
          active := Some(active.value.(capturing := false, pcm := []));
          follow := if machine.state.Finalizing? then [Failed] else [];
      }
    }

    method FinalizeTranscript(s: Surroundings) returns (follow: seq<Event>)
      modifies this
      ensures (View(), follow) == FinalizeOn(old(View()), s)
    {
      if active.None? {
        return [Failed];
      }
      if active.value.pcm == [] || s.silent {
        active := Some(active.value.(finalText := Some("")));
        return [Finalized];
      }
      trace := trace + [Requested(active.value.epoch, active.value.pcm)];
      follow := [];
    }

    method Deliver()
      modifies this
      ensures View() == DeliverOn(old(View()))
    {
      if active.Some? {
        var text := if active.value.finalText.Some? then active.value.finalText.value else "";
        if text != "" {
          trace := trace + [Spoke(active.value.sessionId, text)];
        }
      }
    }

    method Discard()
      modifies this
      ensures View() == DiscardOn(old(View()))
    {
      if active.Some? {
        active := Some(active.value.(pcm := [], finalText := None, finalSegments := [], epoch := STALE));
      }
    }

    method Release()
      modifies this
      ensures View() == ReleaseOn(old(View()))
    {
      if active.Some? {
        var taken := active.value;
        active := None;
        if machine.state.Idle? && taken.finalText.Some? {
          trace := trace + [Offered(taken.sessionId, taken.finalSegments, taken.pcm)];
        }
      }
      preempting := false;
    }

    method Announce(s: Surroundings) returns (follow: seq<Event>)
      modifies this
      ensures (View(), follow) == AnnounceOn(old(View()), s)
    {
      if machine.state.Error? {
        errorSince := Some(s.now);
      }
      var id := if active.Some? then Some(active.value.sessionId) else machine.sessionId;
      if id.Some? {
        shownSession := id;
      }
      var kind := KindOf(machine.Value());
      if kind.Some? && id.Some? {
        trace := trace + [Announced(kind.value, id.value)];
      }
      follow := if machine.state.Cancelled? then [Reset] else [];
    }

    method HearPartial(answered: nat, result: Option<seq<RecognizedSegment>>, audioEnd: u64)
      modifies this
      ensures View() == OnPartial(old(View()), liveSettings, answered, result, audioEnd)
    {
      if active.None? || active.value.epoch != answered || !machine.state.IsRecording() || result.None? {
        return;
      }
      var id := active.value.sessionId;
      var (live, updates) := Pass(liveSettings, active.value.live, result.value, audioEnd);
      active := Some(active.value.(live := live));
      ghost var passed := View();
      for k := 0 to |updates|
        invariant View() == CaptionAll(passed, id, updates[..k])
      {
        assert updates[..k + 1][..k] == updates[..k];
        trace := trace + [Captioned(id, updates[k])];
      }
      assert updates[..|updates|] == updates;
    }

    method HearFinal(answered: nat, result: Option<seq<RecognizedSegment>>, s: Surroundings)
      modifies this, machine
      ensures View() == OnFinal(old(View()), answered, result, s)
    {
      if result.Some? {
        trace := trace + [Replied(answered, result.value)];
      }
      if active.None? || active.value.epoch != answered || !machine.state.Finalizing? {
        return; // stale: cancelled or superseded
      }
      match result {
        case Some(segments) =>
          active := Some(active.value.(finalText := Some(DisplayText(segments)), finalSegments := segments));
          ApplyEvent(Finalized, s);
        case None => ApplyEvent(Failed, s);
      }
    }

    method TickOnce(broken: bool, s: Surroundings)
      requires machine.limits == limits
      modifies this, machine
      ensures View() == Tick(old(View()), limits, broken, s)
    {
      TickLimit(s);
      if active.Some? && active.value.capturing && broken && machine.state.IsRecording() {
        ApplyEvent(Cancel, s);
      }
      if errorSince.Some? && SaturatingSub(s.now, errorSince.value) >= ERROR_DISPLAY_MS {
        errorSince := None;
        ApplyEvent(Reset, s);
      }
    }

    method TickLimit(s: Surroundings)
      requires machine.limits == limits
      modifies this, machine
      ensures View() == CheckLimit(old(View()), limits, s)
    {
      var reply := machine.Tick(s.now);
      if reply.Accepted? && WarnDurationLimit !in reply.effects {
        var follow := PerformAll(reply.effects, s);
        ghost var performed := View();
        for k := 0 to |follow|
          invariant ApplyEach(performed, follow, s) == ApplyEach(View(), follow[k..], s)
        {
          assert follow[k..][1..] == follow[k + 1..];
          ApplyEvent(follow[k], s);
        }
      }
    }

    method Serve(request: Request, s: Surroundings) returns (answer: Answer)
      modifies this, machine
      ensures (View(), answer) == Ask(old(View()), request, s)
    {
      match request {
        case StartSession =>
          if machine.state.IsActive() {
            return Conflict;
          }
          ApplyEvent(Toggle, s);
          answer := if active.Some? then Granted(active.value.sessionId) else Unavailable;
        case _ =>
          if active.None? || active.value.sessionId != request.id {
            return if shownSession == Some(request.id) then Granted(request.id) else NotFound;
          }
          ApplyEvent(if request.StopSession? then Stop else Cancel, s);
          answer := Granted(request.id);
      }
    }

    // The command loop, over everything received.
    method RunTurns(turns: seq<Turn>)
      requires machine.limits == limits && View() == QUIET
      modifies this, machine
      ensures View() == Run(Setup(limits, liveSettings), turns)
    {
      for k := 0 to |turns|
        invariant View() == Run(Setup(limits, liveSettings), turns[..k])
      {
        assert turns[..k + 1][..k] == turns[..k];
        TakeTurn(turns[k]);
      }
      assert turns[..|turns|] == turns;
    }

    method TakeTurn(turn: Turn)
      requires machine.limits == limits
      modifies this, machine
      ensures View() == Take(old(View()), Setup(limits, liveSettings), turn)
    {
      match turn.input {
        case Command(event) => ApplyEvent(event, turn.s);
        case Partial(answered, result, audioEnd) => HearPartial(answered, result, audioEnd);
        case Final(answered, result) => HearFinal(answered, result, turn.s);
        case Api(request) =>
          var answer := Serve(request, turn.s);
        case Tock(broken) => TickOnce(broken, turn.s);
      }
    }
  }
}
