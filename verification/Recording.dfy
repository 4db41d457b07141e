// The recording state machine: commands in, effects out, no I/O.
module Recording {
  import opened Options
  import opened TimeMap

  datatype State =
    Idle | Starting | RecordingHeld | RecordingLocked | Finalizing | Delivering | Cancelled | Error
  {
    predicate IsRecording() { RecordingHeld? || RecordingLocked? }

    predicate IsActive() { Starting? || IsRecording() || Finalizing? || Delivering? }
  }

  datatype Event =
    | HoldDown | HoldUp | Toggle | Lock | Stop | Cancel
    | CaptureStarted | Finalized | Delivered | Failed | DurationLimit | Reset

  datatype Effect =
    | StartCapture | StopCapture | FinalizeTranscript | DeliverText
    | DiscardSession | AnnounceState | WarnDurationLimit | ReleaseResources

  // `Invalid` is a programming error; `Ignored` an expected no-op.
  datatype Reply = Accepted(effects: seq<Effect>) | Ignored(reason: string) | Invalid

  datatype Transition = Transition(atMs: u64, before: State, event: Event, after: State)

  datatype Limits = Limits(maxSessionSeconds: u64, warnBeforeSeconds: u64)

  datatype Machine = Machine(
    state: State, sessionId: Option<string>, startedAtMs: Option<u64>,
    cancelRequested: bool, pendingLocked: bool, pendingStop: bool, warned: bool,
    history: seq<Transition>)

  const INITIAL := Machine(Idle, None, None, false, false, false, false, [])

  const TEARDOWN := [StopCapture, DiscardSession, AnnounceState, ReleaseResources]

  // ----- one event, as a function ------------------------------------------------

  function BeginFinalize(m: Machine): (Machine, Reply) {
    (m.(state := Finalizing), Accepted([StopCapture, FinalizeTranscript, AnnounceState]))
  }

  function Start(m: Machine, locked: bool, sessionId: Option<string>, now: u64): (Machine, Reply) {
    match m.state
    case Starting | RecordingHeld | RecordingLocked => (m, Ignored("auto_repeat"))
    case Finalizing | Delivering => (m, Ignored("busy_finalizing"))
    case Cancelled | Error => (m, Invalid)
    case Idle =>
      if sessionId.None? || sessionId.value == "" then (m, Invalid)
      else (Machine(Starting, sessionId, Some(now), false, locked, false, false, m.history),
            Accepted([StartCapture, AnnounceState]))
  }

  function ToggleFrom(m: Machine, sessionId: Option<string>, now: u64): (Machine, Reply) {
    match m.state
    case Idle => Start(m, true, sessionId, now)
    case Starting => (m.(pendingStop := true), Accepted([]))
    case RecordingHeld | RecordingLocked => BeginFinalize(m)
    case _ => (m, Ignored("not_recording"))
  }

  function HoldUpFrom(m: Machine): (Machine, Reply) {
    if m.state.RecordingHeld? then BeginFinalize(m)
    else if m.state.RecordingLocked? then (m, Ignored("locked"))
    else if m.state.Starting? && !m.pendingLocked then (m.(pendingStop := true), Accepted([]))
    else (m, Ignored("not_held"))
  }

  function LockFrom(m: Machine): (Machine, Reply) {
    match m.state
    case RecordingHeld => (m.(state := RecordingLocked), Accepted([AnnounceState]))
    case Starting => (m.(pendingLocked := true), Accepted([]))
    case RecordingLocked => (m, Ignored("already_locked"))
    case _ => (m, Ignored("not_recording"))
  }

  function StopFrom(m: Machine): (Machine, Reply) {
    if m.state.IsRecording() then BeginFinalize(m)
    else if m.state.Starting? then (m.(pendingStop := true), Accepted([]))
    else (m, Ignored("already_stopping"))
  }

  function CancelFrom(m: Machine): (Machine, Reply) {
    if m.state.Idle? || m.state.Cancelled? then (m, Ignored("nothing_to_cancel"))
    else (m.(cancelRequested := true, state := Cancelled), Accepted(TEARDOWN))
  }

  function CaptureStartedFrom(m: Machine): (Machine, Reply) {
    if !m.state.Starting? then (m, Ignored("not_starting"))
    else
      var started := m.(state := if m.pendingLocked then RecordingLocked else RecordingHeld);
      if started.pendingStop then BeginFinalize(started.(pendingStop := false))
      else (started, Accepted([AnnounceState]))
  }

  function FinalizedFrom(m: Machine): (Machine, Reply) {
    if !m.state.Finalizing? then (m, Ignored("not_finalizing"))
    else if m.cancelRequested then (m.(state := Cancelled), Accepted([DiscardSession]))
    else (m.(state := Delivering), Accepted([DeliverText]))
  }

  function DeliveredFrom(m: Machine): (Machine, Reply) {
    if !m.state.Delivering? then (m, Ignored("not_delivering"))
    else (m.(state := Idle, sessionId := None, startedAtMs := None), Accepted([AnnounceState, ReleaseResources]))
  }

  function FailedFrom(m: Machine): (Machine, Reply) {
    if m.state.Idle? then (m, Ignored("idle")) else (m.(state := Error), Accepted(TEARDOWN))
  }

  function DurationLimitFrom(m: Machine): (Machine, Reply) {
    if m.state.IsRecording() then BeginFinalize(m) else (m, Ignored("not_recording"))
  }

  function ResetFrom(m: Machine): (Machine, Reply) {
    match m.state
    case Cancelled | Error =>
      (Machine(Idle, None, None, false, false, false, false, m.history), Accepted([AnnounceState]))
    case Idle => (m, Ignored("already_idle"))
    case _ => (m, Invalid)
  }

  // What `event` does, before it is written to the history.
  function React(m: Machine, event: Event, sessionId: Option<string>, now: u64): (Machine, Reply) {
    match event
    case HoldDown => Start(m, false, sessionId, now)
    case Toggle => ToggleFrom(m, sessionId, now)
    case HoldUp => HoldUpFrom(m)
    case Lock => LockFrom(m)
    case Stop => StopFrom(m)
    case Cancel => CancelFrom(m)
    case CaptureStarted => CaptureStartedFrom(m)
    case Finalized => FinalizedFrom(m)
    case Delivered => DeliveredFrom(m)
    case Failed => FailedFrom(m)
    case DurationLimit => DurationLimitFrom(m)
    case Reset => ResetFrom(m)
  }

  function Handled(m: Machine, event: Event, sessionId: Option<string>, now: u64): (Machine, Reply) {
    var (after, reply) := React(m, event, sessionId, now);
    if reply.Accepted? then
      (after.(history := m.history + [Transition(now, m.state, event, after.state)]), reply)
    else
      (after, reply)
  }

  function TickMachine(m: Machine, limits: Limits, now: u64): (Machine, Reply) {
    if !m.state.IsRecording() || m.startedAtMs.None? then (m, Ignored("not_recording"))
    else
      var elapsed := SaturatingSub(now, m.startedAtMs.value);
      var warning: int := SaturatingSub(limits.maxSessionSeconds, limits.warnBeforeSeconds);
      if elapsed >= Min(limits.maxSessionSeconds * 1000, U64_MAX) then Handled(m, DurationLimit, None, now)
      else if !m.warned && elapsed >= Min(warning * 1000, U64_MAX) then
        (m.(warned := true), Accepted([WarnDurationLimit]))
      else (m, Ignored("within_limit"))
  }

  class RecordingStateMachine {
    const limits: Limits
    var state: State
    var sessionId: Option<string>
    var startedAtMs: Option<u64>
    var cancelRequested: bool
    var pendingLocked: bool
    var pendingStop: bool
    var warned: bool
    var history: seq<Transition>

    function Value(): Machine
      reads this
    {
      Machine(state, sessionId, startedAtMs, cancelRequested, pendingLocked, pendingStop, warned, history)
    }

    constructor (limits: Limits)
      ensures this.limits == limits && Value() == INITIAL
    {
      this.limits := limits;
      state, sessionId, startedAtMs, history := Idle, None, None, [];
      cancelRequested, pendingLocked, pendingStop, warned := false, false, false, false;
    }

    method Handle(event: Event, session: Option<string>, now: u64) returns (reply: Reply)
      modifies this
      ensures (Value(), reply) == Handled(old(Value()), event, session, now)
    {
      var before := state;
      reply := Dispatch(event, session, now);
      if reply.Accepted? {
        history := history + [Transition(now, before, event, state)];
      }
    }

    method Dispatch(event: Event, session: Option<string>, now: u64) returns (reply: Reply)
      modifies this
      ensures (Value(), reply) == React(old(Value()), event, session, now)
      ensures history == old(history)
    {
      match event {
        case HoldDown => reply := StartSession(false, session, now);
        case Toggle => reply := ToggleSession(session, now);
        case HoldUp => reply := ReleaseHold();
        case Lock => reply := LockRecording();
        case Stop => reply := StopRecording();
        case Cancel => reply := CancelSession();
        case CaptureStarted => reply := ConfirmCapture();
        case Finalized => reply := ConfirmFinalized();
        case Delivered => reply := ConfirmDelivered();
        case Failed => reply := Fail();
        case DurationLimit => reply := ReachLimit();
        case Reset => reply := ResetSession();
      }
    }

    method ToggleSession(session: Option<string>, now: u64) returns (reply: Reply)
      modifies this
      ensures (Value(), reply) == ToggleFrom(old(Value()), session, now)
    {
      match state {
        case Idle => reply := StartSession(true, session, now);
        case Starting => pendingStop, reply := true, Accepted([]);
        case RecordingHeld | RecordingLocked => reply := Finalize();
        case _ => reply := Ignored("not_recording");
      }
    }

    method ReleaseHold() returns (reply: Reply)
      modifies this
      ensures (Value(), reply) == HoldUpFrom(old(Value()))
    {
      if state.RecordingHeld? {
        reply := Finalize();
      } else if state.RecordingLocked? {
        reply := Ignored("locked");
      } else if state.Starting? && !pendingLocked {
        pendingStop, reply := true, Accepted([]);
      } else {
        reply := Ignored("not_held");
      }
    }

    method LockRecording() returns (reply: Reply)
      modifies this
      ensures (Value(), reply) == LockFrom(old(Value()))
    {
      match state {
        case RecordingHeld => state, reply := RecordingLocked, Accepted([AnnounceState]);
        case Starting => pendingLocked, reply := true, Accepted([]);
        case RecordingLocked => reply := Ignored("already_locked");
        case _ => reply := Ignored("not_recording");
      }
    }

    method StopRecording() returns (reply: Reply)
      modifies this
      ensures (Value(), reply) == StopFrom(old(Value()))
    {
      if state.IsRecording() {
        reply := Finalize();
      } else if state.Starting? {
        pendingStop, reply := true, Accepted([]);
      } else {
        reply := Ignored("already_stopping");
      }
    }

    method CancelSession() returns (reply: Reply)
      modifies this
      ensures (Value(), reply) == CancelFrom(old(Value()))
    {
      if state.Idle? || state.Cancelled? {
        return Ignored("nothing_to_cancel");
      }
      cancelRequested := true;
      state, reply := Cancelled, Accepted(TEARDOWN);
    }

    method ConfirmCapture() returns (reply: Reply)
      modifies this
      ensures (Value(), reply) == CaptureStartedFrom(old(Value()))
    {
      if !state.Starting? {
        return Ignored("not_starting");
      }
      state := if pendingLocked then RecordingLocked else RecordingHeld;
      if pendingStop {
        pendingStop := false;
        reply := Finalize();
      } else {
        reply := Accepted([AnnounceState]);
      }
    }

    method ConfirmFinalized() returns (reply: Reply)
      modifies this
      ensures (Value(), reply) == FinalizedFrom(old(Value()))
    {
      if !state.Finalizing? {
        reply := Ignored("not_finalizing");
      } else if cancelRequested {
        state, reply := Cancelled, Accepted([DiscardSession]);
      } else {
        state, reply := Delivering, Accepted([DeliverText]);
      }
    }

    method ConfirmDelivered() returns (reply: Reply)
      modifies this
      ensures (Value(), reply) == DeliveredFrom(old(Value()))
    {
      if !state.Delivering? {
        return Ignored("not_delivering");
      }
      state, sessionId, startedAtMs := Idle, None, None;
      reply := Accepted([AnnounceState, ReleaseResources]);
    }

    method Fail() returns (reply: Reply)
      modifies this
      ensures (Value(), reply) == FailedFrom(old(Value()))
    {
      if state.Idle? {
        return Ignored("idle");
      }
      state, reply := Error, Accepted(TEARDOWN);
    }

    method ReachLimit() returns (reply: Reply)
      modifies this
      ensures (Value(), reply) == DurationLimitFrom(old(Value()))
    {
      if state.IsRecording() {
        reply := Finalize();
      } else {
        reply := Ignored("not_recording");
      }
    }

    method ResetSession() returns (reply: Reply)
      modifies this
      ensures (Value(), reply) == ResetFrom(old(Value()))
    {
      match state {
        case Cancelled | Error =>
          state, sessionId, startedAtMs := Idle, None, None;
          ClearFlags();
          reply := Accepted([AnnounceState]);
        case Idle => reply := Ignored("already_idle");
        case _ => reply := Invalid;
      }
    }

    method StartSession(locked: bool, session: Option<string>, now: u64) returns (reply: Reply)
      modifies this
      ensures (Value(), reply) == Start(old(Value()), locked, session, now)
    {
      match state {
        case Starting | RecordingHeld | RecordingLocked => reply := Ignored("auto_repeat");
        case Finalizing | Delivering => reply := Ignored("busy_finalizing");
        case Cancelled | Error => reply := Invalid;
        case Idle =>
          if session.None? || session.value == "" {
            return Invalid;
          }
          state, sessionId, startedAtMs := Starting, session, Some(now);
          ClearFlags();
          pendingLocked := locked;
          reply := Accepted([StartCapture, AnnounceState]);
      }
    }

    method Finalize() returns (reply: Reply)
      modifies this`state
      ensures (Value(), reply) == BeginFinalize(old(Value()))
    {
      state, reply := Finalizing, Accepted([StopCapture, FinalizeTranscript, AnnounceState]);
    }

    method ClearFlags()
      modifies this`cancelRequested, this`pendingLocked, this`pendingStop, this`warned
      ensures !cancelRequested && !pendingLocked && !pendingStop && !warned
    {
      cancelRequested, pendingLocked, pendingStop, warned := false, false, false, false;
    }

    method Tick(now: u64) returns (reply: Reply)
      modifies this
      ensures (Value(), reply) == TickMachine(old(Value()), limits, now)
    {
      if !state.IsRecording() || startedAtMs.None? {
        return Ignored("not_recording");
      }
      var elapsed := SaturatingSub(now, startedAtMs.value);
      if elapsed >= Min(limits.maxSessionSeconds * 1000, U64_MAX) {
        reply := Handle(DurationLimit, None, now);
        return;
      }
      var warning: int := SaturatingSub(limits.maxSessionSeconds, limits.warnBeforeSeconds);
      if !warned && elapsed >= Min(warning * 1000, U64_MAX) {
        warned := true;
        return Accepted([WarnDurationLimit]);
      }
      reply := Ignored("within_limit");
    }
  }

  // ----- what every event keeps --------------------------------------------------

  // The history is an unbroken path from idle to the current state.
  ghost predicate Chained(m: Machine) {
    if m.history == [] then m.state.Idle?
    else
      && m.history[0].before.Idle?
      && m.history[|m.history| - 1].after == m.state
      && forall j, k :: 0 <= j && k == j + 1 && k < |m.history| ==> m.history[j].after == m.history[k].before
  }

  // A requested cancellation only survives outside every deliverable state, a
  // pending stop never outlives the start it interrupts, and a session is
  // named and timed exactly while the machine is busy.
  ghost predicate Steady(m: Machine) {
    && (m.cancelRequested ==> m.state.Cancelled? || m.state.Error?)
    && (m.pendingStop ==> m.state.Starting? || m.state.Cancelled? || m.state.Error?)
    && (m.sessionId.None? <==> m.state.Idle?)
    && (m.startedAtMs.None? <==> m.state.Idle?)
  }

  ghost predicate Sound(m: Machine) {
    Chained(m) && Steady(m)
  }

  lemma ReactKeepsSteady(m: Machine, event: Event, sessionId: Option<string>, now: u64)
    requires Steady(m)
    ensures Steady(React(m, event, sessionId, now).0)
    ensures React(m, event, sessionId, now).0.history == m.history
    ensures !React(m, event, sessionId, now).1.Accepted? ==> React(m, event, sessionId, now).0 == m
  {
  }

  lemma HandleKeepsSound(m: Machine, event: Event, sessionId: Option<string>, now: u64)
    requires Sound(m)
    ensures Sound(Handled(m, event, sessionId, now).0)
  {
    var (reacted, reply) := React(m, event, sessionId, now);
    ReactKeepsSteady(m, event, sessionId, now);
    HistoryGrows(m, reacted, Transition(now, m.state, event, reacted.state));
  }

  lemma HistoryGrows(m: Machine, reacted: Machine, t: Transition)
    requires Chained(m) && reacted.history == m.history && t.before == m.state && t.after == reacted.state
    ensures Chained(reacted.(history := m.history + [t]))
  {
  }

  lemma TickKeepsSound(m: Machine, limits: Limits, now: u64)
    requires Sound(m)
    ensures Sound(TickMachine(m, limits, now).0)
  {
    HandleKeepsSound(m, DurationLimit, None, now);
  }

  // A tick at or past the limit ends the recording.
  lemma TickEnforcesLimit(m: Machine, limits: Limits, now: u64)
    requires Sound(m) && m.state.IsRecording()
    ensures TickMachine(m, limits, now).0.state.Finalizing?
      <==> SaturatingSub(now, m.startedAtMs.value) >= Min(limits.maxSessionSeconds * 1000, U64_MAX)
  {
  }

  // ----- whole runs ----------------------------------------------------------------

  datatype Call = Call(event: Event, sessionId: Option<string>, now: u64)

  function RunMachine(m: Machine, calls: seq<Call>): Machine {
    if calls == [] then m
    else
      var last := calls[|calls| - 1];
      Handled(RunMachine(m, calls[..|calls| - 1]), last.event, last.sessionId, last.now).0
  }

  // The effects of the last call of a run.
  function LastEffects(m: Machine, calls: seq<Call>): seq<Effect>
    requires calls != []
  {
    var last := calls[|calls| - 1];
    EffectsOf(Handled(RunMachine(m, calls[..|calls| - 1]), last.event, last.sessionId, last.now).1)
  }

  predicate Starts(call: Call) {
    call.event.HoldDown? || call.event.Toggle?
  }

  function EffectsOf(reply: Reply): seq<Effect> {
    if reply.Accepted? then reply.effects else []
  }

  lemma OnlyFinalizedDelivers(m: Machine, event: Event, sessionId: Option<string>, now: u64)
    ensures DeliverText in EffectsOf(React(m, event, sessionId, now).1) <==>
      event.Finalized? && m.state.Finalizing? && !m.cancelRequested
  {
  }

  lemma TeardownStays(m: Machine, call: Call)
    requires m.state.Cancelled? || m.state.Error? || m.state.Idle?
    requires !Starts(call)
    ensures var after := React(m, call.event, call.sessionId, call.now).0.state;
      after.Cancelled? || after.Error? || after.Idle?
  {
  }

  // Once cancelled or failed, and until a new session starts, no sequence of
  // calls, a late finalization included, authorizes a delivery.
  lemma {:induction false} NothingDeliveredAfterTeardown(m: Machine, calls: seq<Call>)
    requires m.state.Cancelled? || m.state.Error? || m.state.Idle?
    requires forall k :: 0 <= k < |calls| ==> !Starts(calls[k])
    ensures !RunMachine(m, calls).state.IsActive()
    ensures calls != [] ==> DeliverText !in LastEffects(m, calls)
  {
    if calls != [] {
      var before, last := calls[..|calls| - 1], calls[|calls| - 1];
      NothingDeliveredAfterTeardown(m, before);
      TeardownStays(RunMachine(m, before), last);
      OnlyFinalizedDelivers(RunMachine(m, before), last.event, last.sessionId, last.now);
    }
  }

  lemma {:induction false} RunsAreSound(calls: seq<Call>)
    ensures Sound(RunMachine(INITIAL, calls))
  {
    if calls != [] {
      var before, last := calls[..|calls| - 1], calls[|calls| - 1];
      RunsAreSound(before);
      HandleKeepsSound(RunMachine(INITIAL, before), last.event, last.sessionId, last.now);
    }
  }

  // On every run, a delivery is authorized exactly by a finalization that
  // arrives while finalizing: the flag check there can never fail.
  lemma DeliveryIffFinalizing(calls: seq<Call>, last: Call)
    ensures DeliverText in LastEffects(INITIAL, calls + [last])
      <==> last.event.Finalized? && RunMachine(INITIAL, calls).state.Finalizing?
  {
    assert (calls + [last])[..|calls|] == calls;
    RunsAreSound(calls);
    OnlyFinalizedDelivers(RunMachine(INITIAL, calls), last.event, last.sessionId, last.now);
  }
}
