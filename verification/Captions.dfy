// Live captions: replaceable segments, and a client replica of them.
//
// Segments are named by their allocation index. Each partial pass commits
// stable segments and revises one provisional tail; a client keeps the highest
// revision of each segment, in whatever order updates arrive.
module Captions {
  import opened Options
  import opened TimeMap
  import Text

  datatype RecognizedSegment = RecognizedSegment(text: string, startSample: u64, endSample: u64)

  datatype SegmentUpdate = SegmentUpdate(
    segmentId: nat, revision: nat, startSample: u64, endSample: u64, text: string)

  datatype LiveSettings = LiveSettings(stabilityMarginSamples: u64, maxTailSamples: u64)

  datatype LiveState = LiveState(
    committedUntil: u64,
    committed: seq<SegmentUpdate>,
    provisional: Option<SegmentUpdate>,
    nextIndex: nat)
  {
    function Snapshot(): seq<SegmentUpdate> {
      committed + (match provisional case Some(p) => [p] case None => [])
    }

    // The identity and revision of the next update: the provisional segment
    // again, or a fresh one.
    function NextId(): nat {
      match provisional case Some(p) => p.segmentId case None => nextIndex
    }

    function NextRevision(): nat {
      match provisional case Some(p) => p.revision + 1 case None => 1
    }

    function IndexAfter(): nat {
      if provisional.Some? then nextIndex else nextIndex + 1
    }
  }

  const EMPTY := LiveState(0, [], None, 0)

  // ----- one pass, as a function of the state ----------------------------------

  function VisibleTexts(segments: seq<RecognizedSegment>): seq<string> {
    if segments == [] then []
    else
      var text := Text.Trim(segments[0].text);
      (if text == "" then [] else [text]) + VisibleTexts(segments[1..])
  }

  function DisplayText(segments: seq<RecognizedSegment>): string {
    Text.Join(VisibleTexts(segments), " ")
  }

  function CommitUpdate(s: LiveState, segment: RecognizedSegment): SegmentUpdate {
    SegmentUpdate(s.NextId(), s.NextRevision(), segment.startSample, segment.endSample, Text.Trim(segment.text))
  }

  function Commit(s: LiveState, segment: RecognizedSegment): LiveState {
    LiveState(Max(segment.endSample, s.committedUntil), s.committed + [CommitUpdate(s, segment)], None, s.IndexAfter())
  }

  predicate Commits(segments: seq<RecognizedSegment>, stableBefore: u64, force: bool) {
    |segments| > 1 && (force || segments[0].endSample <= stableBefore)
  }

  // Leading segments are committed while they are stable or forced, never the last.
  function CommitAll(s: LiveState, segments: seq<RecognizedSegment>, stableBefore: u64, force: bool)
    : (LiveState, seq<SegmentUpdate>, seq<RecognizedSegment>)
    decreases |segments|
  {
    if !Commits(segments, stableBefore, force) then (s, [], segments)
    else
      var (after, updates, rest) := CommitAll(Commit(s, segments[0]), segments[1..], stableBefore, force);
      (after, [CommitUpdate(s, segments[0])] + updates, rest)
  }

  // What is left becomes, or revises, the provisional segment.
  function ReviseTail(s: LiveState, rest: seq<RecognizedSegment>, audioEnd: u64): (LiveState, seq<SegmentUpdate>) {
    var text := DisplayText(rest);
    if text == "" || (s.provisional.Some? && s.provisional.value.text == text) then (s, [])
    else
      var start := if rest == [] then s.committedUntil else rest[0].startSample;
      var end := if rest == [] then audioEnd else rest[|rest| - 1].endSample;
      var next := SegmentUpdate(s.NextId(), s.NextRevision(), start, end, text);
      (s.(provisional := Some(next), nextIndex := s.IndexAfter()), [next])
  }

  function Pass(settings: LiveSettings, s: LiveState, segments: seq<RecognizedSegment>, audioEnd: u64)
    : (LiveState, seq<SegmentUpdate>)
  {
    var stableBefore := SaturatingSub(audioEnd, settings.stabilityMarginSamples);
    var force := SaturatingSub(audioEnd, s.committedUntil) > settings.maxTailSamples;
    var (committed, updates, rest) := CommitAll(s, segments, stableBefore, force);
    var (after, more) := ReviseTail(committed, rest, audioEnd);
    (after, updates + more)
  }

  lemma Associative<T>(a: seq<T>, b: seq<T>, c: seq<T>)
    ensures (a + b) + c == a + (b + c)
  {
  }

  class LiveReconciler {
    const settings: LiveSettings
    var committedUntil: u64
    var committed: seq<SegmentUpdate>
    var provisional: Option<SegmentUpdate>
    var nextIndex: nat

    constructor (settings: LiveSettings)
      ensures this.settings == settings && State() == EMPTY
    {
      this.settings := settings;
      committedUntil, committed, provisional, nextIndex := 0, [], None, 0;
    }

    function State(): LiveState
      reads this
    {
      LiveState(committedUntil, committed, provisional, nextIndex)
    }

    method ApplyPass(segments: seq<RecognizedSegment>, audioEnd: u64) returns (updates: seq<SegmentUpdate>)
      modifies this
      ensures (State(), updates) == Pass(settings, old(State()), segments, audioEnd)
    {
      var stableBefore := SaturatingSub(audioEnd, settings.stabilityMarginSamples);
      var force := SaturatingSub(audioEnd, committedUntil) > settings.maxTailSamples;
      var remaining: seq<RecognizedSegment>;
      updates, remaining := CommitStable(segments, stableBefore, force);
      assert updates + [] == updates;
      var tailText := DisplayText(remaining);
      if tailText == "" {
        return;
      }
      var start := if remaining == [] then committedUntil else remaining[0].startSample;
      var end := if remaining == [] then audioEnd else remaining[|remaining| - 1].endSample;
      var next: SegmentUpdate;
      match provisional {
        case Some(previous) =>
          if previous.text == tailText {
            return;
          }
          next := SegmentUpdate(previous.segmentId, previous.revision + 1, start, end, tailText);
        case None =>
          next := SegmentUpdate(nextIndex, 1, start, end, tailText);
          nextIndex := nextIndex + 1;
      }
      provisional := Some(next);
      updates := updates + [next];
    }

    method CommitStable(segments: seq<RecognizedSegment>, stableBefore: u64, force: bool)
      returns (updates: seq<SegmentUpdate>, remaining: seq<RecognizedSegment>)
      modifies this
      ensures (State(), updates, remaining) == CommitAll(old(State()), segments, stableBefore, force)
    {
      updates, remaining := [], segments;
      assert [] + CommitAll(State(), segments, stableBefore, force).1 == CommitAll(State(), segments, stableBefore, force).1;
      while Commits(remaining, stableBefore, force)
        invariant var (end, rest, tail) := CommitAll(State(), remaining, stableBefore, force);
          CommitAll(old(State()), segments, stableBefore, force) == (end, updates + rest, tail)
        decreases |remaining|
      {
        Associative(updates, [CommitUpdate(State(), remaining[0])],
                    CommitAll(Commit(State(), remaining[0]), remaining[1..], stableBefore, force).1);
        var first := remaining[0];
        var id, revision := nextIndex, 1;
        match provisional {
          case Some(previous) =>
            id, revision := previous.segmentId, previous.revision + 1;
            provisional := None;
          case None =>
            nextIndex := nextIndex + 1;
        }
        var update := SegmentUpdate(id, revision, first.startSample, first.endSample, Text.Trim(first.text));
        committedUntil := Max(first.endSample, committedUntil);
        committed := committed + [update];
        updates := updates + [update];
        remaining := remaining[1..];
      }
      assert updates + [] == updates;
    }
  }

  // ----- what every pass keeps -------------------------------------------------

  // `snapshot` names its segments 0, 1, 2, ... and holds, for each, the newest
  // update of the log.
  ghost predicate Newest(snapshot: seq<SegmentUpdate>, log: seq<SegmentUpdate>) {
    && (forall i :: 0 <= i < |snapshot| ==> snapshot[i].segmentId == i && snapshot[i] in log)
    && (forall u :: u in log ==> u.segmentId < |snapshot| && !Outdates(u, snapshot[u.segmentId]))
  }

  // Two different updates of a segment: `u` is at least as new as `current`.
  ghost predicate Outdates(u: SegmentUpdate, current: SegmentUpdate) {
    u != current && current.revision <= u.revision
  }

  // Along the log, the revisions of each segment strictly increase.
  ghost predicate RisingRevisions(log: seq<SegmentUpdate>) {
    forall i, j :: 0 <= i < j < |log| && log[i].segmentId == log[j].segmentId ==> log[i].revision < log[j].revision
  }

  ghost predicate Consistent(s: LiveState, log: seq<SegmentUpdate>) {
    Newest(s.Snapshot(), log) && s.nextIndex == |s.Snapshot()| && RisingRevisions(log)
  }

  // `u` either opens segment |before| or revises the last one.
  ghost predicate Emits(before: seq<SegmentUpdate>, u: SegmentUpdate, after: seq<SegmentUpdate>) {
    || (u.segmentId == |before| && u.revision == 1 && after == before + [u])
    || (before != [] && u.segmentId == |before| - 1 && u.revision == before[|before| - 1].revision + 1
        && after == before[..|before| - 1] + [u])
  }

  lemma EmitKeepsNewest(before: seq<SegmentUpdate>, log: seq<SegmentUpdate>, u: SegmentUpdate, after: seq<SegmentUpdate>)
    requires Newest(before, log) && Emits(before, u, after)
    ensures Newest(after, log + [u])
  {
    var longer := log + [u];
    assert longer[|log|] == u;
    forall i | 0 <= i < |after| ensures after[i].segmentId == i && after[i] in longer {
      assert i < |after| - 1 ==> after[i] == before[i] && before[i] in log;
    }
    forall v | v in longer ensures v.segmentId < |after| && !Outdates(v, after[v.segmentId]) {
      if v in log {
        assert !Outdates(v, before[v.segmentId]);
      }
    }
  }

  lemma EmitKeepsRising(before: seq<SegmentUpdate>, log: seq<SegmentUpdate>, u: SegmentUpdate, after: seq<SegmentUpdate>)
    requires Newest(before, log) && Emits(before, u, after) && RisingRevisions(log)
    ensures RisingRevisions(log + [u])
  {
    forall i | 0 <= i < |log| && log[i].segmentId == u.segmentId ensures log[i].revision < u.revision {
      assert log[i] in log;
      assert !Outdates(log[i], before[log[i].segmentId]);
    }
  }

  lemma CommitKeeps(s: LiveState, segment: RecognizedSegment, log: seq<SegmentUpdate>)
    requires Consistent(s, log)
    ensures Consistent(Commit(s, segment), log + [CommitUpdate(s, segment)])
  {
    var u, after := CommitUpdate(s, segment), Commit(s, segment).Snapshot();
    assert Emits(s.Snapshot(), u, after) by {
      if s.provisional.Some? {
        assert s.Snapshot()[|s.committed|] == s.provisional.value;
        assert s.Snapshot()[..|s.committed|] == s.committed;
      }
    }
    EmitKeepsNewest(s.Snapshot(), log, u, after);
    EmitKeepsRising(s.Snapshot(), log, u, after);
  }

  lemma TailKeeps(s: LiveState, rest: seq<RecognizedSegment>, audioEnd: u64, log: seq<SegmentUpdate>)
    requires Consistent(s, log)
    ensures Consistent(ReviseTail(s, rest, audioEnd).0, log + ReviseTail(s, rest, audioEnd).1)
  {
    var (t, updates) := ReviseTail(s, rest, audioEnd);
    if updates == [] {
      assert log + updates == log;
    } else {
      var u := updates[0];
      assert updates == [u];
      assert Emits(s.Snapshot(), u, t.Snapshot()) by {
        if s.provisional.Some? {
          assert s.Snapshot()[|s.committed|] == s.provisional.value;
          assert s.Snapshot()[..|s.committed|] == s.committed;
        }
      }
      EmitKeepsNewest(s.Snapshot(), log, u, t.Snapshot());
      EmitKeepsRising(s.Snapshot(), log, u, t.Snapshot());
    }
  }

  lemma {:induction false} CommitAllKeeps(
    s: LiveState, segments: seq<RecognizedSegment>, stableBefore: u64, force: bool, log: seq<SegmentUpdate>)
    requires Consistent(s, log)
    ensures var (after, updates, rest) := CommitAll(s, segments, stableBefore, force);
      Consistent(after, log + updates) && s.committed <= after.committed && s.committedUntil <= after.committedUntil
    decreases |segments|
  {
    if Commits(segments, stableBefore, force) {
      var u := CommitUpdate(s, segments[0]);
      CommitKeeps(s, segments[0], log);
      CommitAllKeeps(Commit(s, segments[0]), segments[1..], stableBefore, force, log + [u]);
      Associative(log, [u], CommitAll(Commit(s, segments[0]), segments[1..], stableBefore, force).1);
    } else {
      assert log + [] == log;
    }
  }

  // A pass keeps the log consistent, never changes a committed segment, and
  // never moves the commit point back.
  lemma PassKeeps(
    settings: LiveSettings, s: LiveState, segments: seq<RecognizedSegment>, audioEnd: u64, log: seq<SegmentUpdate>)
    requires Consistent(s, log)
    ensures var (after, updates) := Pass(settings, s, segments, audioEnd);
      Consistent(after, log + updates) && s.committed <= after.committed && s.committedUntil <= after.committedUntil
  {
    var stableBefore := SaturatingSub(audioEnd, settings.stabilityMarginSamples);
    var force := SaturatingSub(audioEnd, s.committedUntil) > settings.maxTailSamples;
    var (middle, updates, rest) := CommitAll(s, segments, stableBefore, force);
    CommitAllKeeps(s, segments, stableBefore, force, log);
    TailKeeps(middle, rest, audioEnd, log + updates);
    var more := ReviseTail(middle, rest, audioEnd).1;
    Associative(log, updates, more);
  }

  // A whole session: the state reached and every update sent on the way.
  function Session(settings: LiveSettings, passes: seq<(seq<RecognizedSegment>, u64)>): (LiveState, seq<SegmentUpdate>) {
    if passes == [] then (EMPTY, [])
    else
      var (s, log) := Session(settings, passes[..|passes| - 1]);
      var (after, updates) := Pass(settings, s, passes[|passes| - 1].0, passes[|passes| - 1].1);
      (after, log + updates)
  }

  lemma {:induction false} SessionConsistent(settings: LiveSettings, passes: seq<(seq<RecognizedSegment>, u64)>)
    ensures Consistent(Session(settings, passes).0, Session(settings, passes).1)
  {
    if passes != [] {
      var before := passes[..|passes| - 1];
      SessionConsistent(settings, before);
      PassKeeps(settings, Session(settings, before).0, passes[|passes| - 1].0, passes[|passes| - 1].1, Session(settings, before).1);
    }
  }

  // Over a session, committed segments are final and the commit point only advances.
  lemma {:induction false} CommittedIsFinal(settings: LiveSettings, passes: seq<(seq<RecognizedSegment>, u64)>, n: nat)
    requires n <= |passes|
    ensures Session(settings, passes[..n]).0.committed <= Session(settings, passes).0.committed
    ensures Session(settings, passes[..n]).0.committedUntil <= Session(settings, passes).0.committedUntil
  {
    if n < |passes| {
      var before := passes[..|passes| - 1];
      assert before[..n] == passes[..n];
      CommittedIsFinal(settings, before, n);
      SessionConsistent(settings, before);
      PassKeeps(settings, Session(settings, before).0, passes[|passes| - 1].0, passes[|passes| - 1].1, Session(settings, before).1);
    } else {
      assert passes[..n] == passes;
    }
  }

  // ----- the client replica ----------------------------------------------------

  // A client drops an update that is not newer than what it shows.
  function Receive(shown: map<nat, SegmentUpdate>, u: SegmentUpdate): map<nat, SegmentUpdate> {
    if u.segmentId in shown && shown[u.segmentId].revision >= u.revision then shown else shown[u.segmentId := u]
  }

  function Replay(delivered: seq<SegmentUpdate>): map<nat, SegmentUpdate> {
    if delivered == [] then map[]
    else Receive(Replay(delivered[..|delivered| - 1]), delivered[|delivered| - 1])
  }

  // The replica shows, for each delivered segment, an update of highest revision.
  lemma {:induction false} ReplayShowsHighest(delivered: seq<SegmentUpdate>, u: SegmentUpdate)
    ensures forall id :: id in Replay(delivered) ==>
      Replay(delivered)[id] in delivered && Replay(delivered)[id].segmentId == id
    ensures u in delivered ==>
      u.segmentId in Replay(delivered) && u.revision <= Replay(delivered)[u.segmentId].revision
  {
    if delivered != [] {
      var before, last := delivered[..|delivered| - 1], delivered[|delivered| - 1];
      ReplayShowsHighest(before, u);
      assert delivered == before + [last];
    }
  }

  // A replica that received exactly the session's updates, in any order and
  // with any repetition, shows exactly the snapshot.
  lemma ReplicaConverges(
    settings: LiveSettings, passes: seq<(seq<RecognizedSegment>, u64)>, delivered: seq<SegmentUpdate>)
    requires forall u :: u in delivered <==> u in Session(settings, passes).1
    ensures var snapshot := Session(settings, passes).0.Snapshot();
      Replay(delivered) == map i: nat | i < |snapshot| :: snapshot[i]
  {
    var (s, log) := Session(settings, passes);
    var snapshot, shown := s.Snapshot(), Replay(delivered);
    SessionConsistent(settings, passes);
    forall id | id in shown ensures id < |snapshot| && shown[id] == snapshot[id] {
      ReplayShowsHighest(delivered, shown[id]);
      assert shown[id] in log && !Outdates(shown[id], snapshot[id]);
      ReplayShowsHighest(delivered, snapshot[id]);
    }
    forall id: nat | id < |snapshot| ensures id in shown {
      assert snapshot[id] in log;
      ReplayShowsHighest(delivered, snapshot[id]);
    }
  }
}
