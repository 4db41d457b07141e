// Half-open sample intervals: canonical form, padding, complement, and the
// spliced destination timeline.
//
// A list of intervals stands for the set of samples it covers. `Normal` is the
// reference definition of the canonical list; the imperative methods below are
// proved to compute it, and everything else is stated about covered samples.
module TimeMap {
  import opened Options

  const U64_MAX: int := 0xFFFF_FFFF_FFFF_FFFF

  type u64 = x: int | 0 <= x <= U64_MAX

  datatype RawInterval = RawInterval(start: u64, end: u64) {
    function Len(): int { end - start }

    predicate IsEmpty() { start == end }

    predicate Contains(sample: int) { start <= sample < end }

    predicate Intersects(other: RawInterval) {
      start < other.end && other.start < end
    }
  }

  type SampleInterval = i: RawInterval | i.start <= i.end witness RawInterval(0, 0)

  function Min(a: int, b: int): int { if a <= b then a else b }

  function Max(a: int, b: int): int { if a <= b then b else a }

  function SaturatingSub(a: u64, b: u64): u64 { if a <= b then 0 else a - b }

  function SaturatingAdd(a: u64, b: u64): u64 { Min(a + b, U64_MAX) }

  function ClampTo(value: u64, low: u64, high: u64): u64
    requires low <= high
  {
    Min(Max(value, low), high)
  }

  function Clamp(i: SampleInterval, bound: SampleInterval): (r: SampleInterval)
    ensures bound.start <= r.start <= r.end <= bound.end
    ensures forall x :: r.Contains(x) <==> i.Contains(x) && bound.Contains(x)
  {
    var start := ClampTo(i.start, bound.start, bound.end);
    RawInterval(start, Max(ClampTo(i.end, bound.start, bound.end), start))
  }

  // Rounded to nearest, computed in 128 bits and saturated on the way back.
  function MillisecondsToSamples(milliseconds: u64, sampleRate: nat): u64 {
    Min((milliseconds * sampleRate + 500) / 1000, U64_MAX)
  }

  // ----- Covered samples and the canonical form ------------------------------

  ghost predicate Covered(s: seq<SampleInterval>, sample: int) {
    exists i :: 0 <= i < |s| && s[i].Contains(sample)
  }

  ghost predicate SameCover(a: seq<SampleInterval>, b: seq<SampleInterval>) {
    forall x :: Covered(a, x) <==> Covered(b, x)
  }

  // Non-empty intervals in increasing order, each strictly separated from the next.
  ghost predicate Canonical(s: seq<SampleInterval>) {
    && (forall i :: 0 <= i < |s| ==> s[i].start < s[i].end)
    && (forall i, j :: 0 <= i < j < |s| ==> s[i].end < s[j].start)
  }

  lemma CoveredConcat(a: seq<SampleInterval>, b: seq<SampleInterval>, x: int)
    ensures Covered(a + b, x) <==> Covered(a, x) || Covered(b, x)
  {
    if i :| 0 <= i < |a| && a[i].Contains(x) {
      assert (a + b)[i].Contains(x);
    }
    if i :| 0 <= i < |b| && b[i].Contains(x) {
      assert (a + b)[|a| + i].Contains(x);
    }
  }

  lemma CoveredCons(head: SampleInterval, tail: seq<SampleInterval>)
    ensures forall x :: Covered([head] + tail, x) <==> head.Contains(x) || Covered(tail, x)
  {
    forall x ensures Covered([head] + tail, x) <==> head.Contains(x) || Covered(tail, x) {
      CoveredConcat([head], tail, x);
      assert [head][0].Contains(x) <==> head.Contains(x);
    }
  }

  lemma CoveredHead(s: seq<SampleInterval>)
    requires s != []
    ensures forall x :: Covered(s, x) <==> s[0].Contains(x) || Covered(s[1..], x)
  {
    assert s == [s[0]] + s[1..];
    CoveredCons(s[0], s[1..]);
  }

  lemma CanonicalTail(s: seq<SampleInterval>)
    requires s != [] && Canonical(s)
    ensures Canonical(s[1..])
    ensures forall x :: Covered(s[1..], x) ==> s[0].end < x
    ensures forall x :: Covered(s[1..], x) <==> Covered(s, x) && s[0].end <= x
  {
    CoveredHead(s);
  }

  lemma EmptyCoversNothing(s: seq<SampleInterval>)
    requires Canonical(s)
    ensures s == [] <==> forall x :: !Covered(s, x)
  {
    if s != [] {
      assert s[0].Contains(s[0].start);
      assert Covered(s, s[0].start);
    }
  }

  lemma SameHeads(a: seq<SampleInterval>, b: seq<SampleInterval>)
    requires Canonical(a) && Canonical(b) && SameCover(a, b) && a != [] && b != []
    ensures a[0] == b[0]
    ensures Canonical(a[1..]) && Canonical(b[1..]) && SameCover(a[1..], b[1..])
  {
    HeadNotLater(a, b);
    HeadNotLater(b, a);
    CanonicalTail(a);
    CanonicalTail(b);
  }

  // Two canonical lists that cover the same samples are the same list.
  lemma {:induction false} CanonicalUnique(a: seq<SampleInterval>, b: seq<SampleInterval>)
    requires Canonical(a) && Canonical(b) && SameCover(a, b)
    ensures a == b
  {
    EmptyCoversNothing(a);
    EmptyCoversNothing(b);
    if a != [] && b != [] {
      SameHeads(a, b);
      CanonicalUnique(a[1..], b[1..]);
      HeadAndTail(a, b);
    }
  }

  lemma HeadAndTail<T>(a: seq<T>, b: seq<T>)
    requires a != [] && b != [] && a[0] == b[0] && a[1..] == b[1..]
    ensures a == b
  {
    assert a == [a[0]] + a[1..];
    assert b == [b[0]] + b[1..];
  }

  // The first interval of `b` begins no earlier than that of `a` and, as the
  // gap after it is open, ends no later.
  lemma HeadNotLater(a: seq<SampleInterval>, b: seq<SampleInterval>)
    requires Canonical(a) && Canonical(b) && SameCover(a, b) && a != [] && b != []
    ensures a[0].start <= b[0].start
    ensures a[0].start == b[0].start ==> b[0].end <= a[0].end
  {
    assert b[0].Contains(b[0].start);
    assert Covered(b, b[0].start);
    var i :| 0 <= i < |a| && a[i].Contains(b[0].start);
    assert i > 0 ==> a[0].end < a[i].start;
    var edge := a[0].end;
    assert !Covered(a, edge);
    assert b[0].Contains(edge) ==> Covered(b, edge);
  }

  // Adds one interval to a canonical list, swallowing everything it touches.
  function Insert(i: SampleInterval, m: seq<SampleInterval>): (r: seq<SampleInterval>)
    requires Canonical(m)
    ensures Canonical(r)
    ensures r != [] ==> i.start <= r[0].start || (m != [] && m[0].start <= r[0].start)
    decreases |m|
  {
    if i.IsEmpty() then m
    else if m == [] then [i]
    else if i.end < m[0].start then [i] + m
    else if m[0].end < i.start then
      var rest := Insert(i, m[1..]);
      assert forall k :: 0 <= k < |rest| ==> rest[0].start <= rest[k].start;
      [m[0]] + rest
    else Insert(RawInterval(Min(i.start, m[0].start), Max(i.end, m[0].end)), m[1..])
  }

  lemma {:induction false} InsertCovers(i: SampleInterval, m: seq<SampleInterval>, x: int)
    requires Canonical(m)
    ensures Covered(Insert(i, m), x) <==> i.Contains(x) || Covered(m, x)
    decreases |m|
  {
    CoveredCons(i, m);
    CoveredCons(i, []);
    if !i.IsEmpty() && m != [] {
      CoveredHead(m);
      if i.end < m[0].start {
      } else if m[0].end < i.start {
        InsertCovers(i, m[1..], x);
        CoveredCons(m[0], Insert(i, m[1..]));
      } else {
        InsertCovers(RawInterval(Min(i.start, m[0].start), Max(i.end, m[0].end)), m[1..], x);
      }
    }
  }

  // The canonical list covering exactly the samples of `s`.
  function Normal(s: seq<SampleInterval>): (m: seq<SampleInterval>)
    ensures Canonical(m) && SameCover(m, s)
  {
    if s == [] then []
    else
      var rest := Normal(s[1..]);
      CoveredHead(s);
      assert forall x :: Covered(Insert(s[0], rest), x) <==> Covered(s, x) by {
        forall x ensures Covered(Insert(s[0], rest), x) <==> Covered(s, x) {
          InsertCovers(s[0], rest, x);
        }
      }
      Insert(s[0], rest)
  }

  // Normalisation is a canonical form: it decides sample-set equality.
  lemma NormalDecidesCover(a: seq<SampleInterval>, b: seq<SampleInterval>)
    ensures Normal(a) == Normal(b) <==> SameCover(a, b)
  {
    if SameCover(a, b) {
      CanonicalUnique(Normal(a), Normal(b));
    } else {
      assert !SameCover(Normal(a), Normal(b));
    }
  }

  lemma NormalFixpoint(m: seq<SampleInterval>)
    requires Canonical(m)
    ensures Normal(m) == m
  {
    CanonicalUnique(Normal(m), m);
  }

  // ----- normalize -----------------------------------------------------------

  predicate NotAfter(a: SampleInterval, b: SampleInterval) {
    a.start < b.start || (a.start == b.start && a.end <= b.end)
  }

  ghost predicate Ordered(s: seq<SampleInterval>) {
    forall i, j :: 0 <= i < j < |s| ==> s[i].start <= s[j].start
  }

  function InsertOrdered(i: SampleInterval, s: seq<SampleInterval>): (r: seq<SampleInterval>)
    requires Ordered(s)
    ensures Ordered(r)
    ensures forall x :: x in r <==> x == i || x in s
  {
    if s == [] then [i]
    else if NotAfter(i, s[0]) then [i] + s
    else
      var rest := InsertOrdered(i, s[1..]);
      assert forall k :: 0 <= k < |rest| ==> rest[k] in rest;
      [s[0]] + rest
  }

  // The standard library's sort, by start and then end.
  function Sorted(s: seq<SampleInterval>): (r: seq<SampleInterval>)
    ensures Ordered(r)
    ensures forall x :: x in r <==> x in s
  {
    if s == [] then [] else InsertOrdered(s[0], Sorted(s[1..]))
  }

  lemma SameElementsSameCover(a: seq<SampleInterval>, b: seq<SampleInterval>)
    requires forall x :: x in a <==> x in b
    ensures SameCover(a, b)
  {
    forall x ensures Covered(a, x) <==> Covered(b, x) {
      if k :| 0 <= k < |a| && a[k].Contains(x) {
        assert a[k] in b;
      }
      if k :| 0 <= k < |b| && b[k].Contains(x) {
        assert b[k] in a;
      }
    }
  }

  method DropEmpty(intervals: seq<SampleInterval>) returns (kept: seq<SampleInterval>)
    ensures SameCover(kept, intervals)
    ensures forall k :: 0 <= k < |kept| ==> !kept[k].IsEmpty()
  {
    kept := [];
    for i := 0 to |intervals|
      invariant SameCover(kept, intervals[..i])
      invariant forall k :: 0 <= k < |kept| ==> !kept[k].IsEmpty()
    {
      assert intervals[..i + 1] == intervals[..i] + [intervals[i]];
      CoveredSnoc(intervals[..i], intervals[i]);
      CoveredSnoc(kept, intervals[i]);
      if !intervals[i].IsEmpty() {
        kept := kept + [intervals[i]];
      }
    }
    assert intervals[..|intervals|] == intervals;
  }

  // One step of the merge: widen the last interval or append a new one.
  function Absorb(merged: seq<SampleInterval>, interval: SampleInterval): (r: seq<SampleInterval>)
    requires Canonical(merged) && !interval.IsEmpty()
    requires merged != [] ==> merged[|merged| - 1].start <= interval.start
    ensures Canonical(r) && r != [] && r[|r| - 1].start <= interval.start
  {
    var last := |merged| - 1;
    if merged != [] && interval.start <= merged[last].end then
      merged[..last] + [RawInterval(merged[last].start, Max(merged[last].end, interval.end))]
    else
      merged + [interval]
  }

  lemma AbsorbCovers(merged: seq<SampleInterval>, interval: SampleInterval, x: int)
    requires Canonical(merged) && !interval.IsEmpty()
    requires merged != [] ==> merged[|merged| - 1].start <= interval.start
    ensures Covered(Absorb(merged, interval), x) <==> Covered(merged, x) || interval.Contains(x)
  {
    CoveredSnoc(merged, interval);
    if merged != [] {
      var last := |merged| - 1;
      var previous := merged[last];
      assert merged == merged[..last] + [previous];
      CoveredSnoc(merged[..last], previous);
      CoveredSnoc(merged[..last], RawInterval(previous.start, Max(previous.end, interval.end)));
    }
  }

  // `merged` is the canonical form of the first `k` ordered intervals.
  ghost predicate MergedUpTo(merged: seq<SampleInterval>, ordered: seq<SampleInterval>, k: nat)
    requires k <= |ordered|
  {
    && Canonical(merged)
    && SameCover(merged, ordered[..k])
    && (merged != [] ==> k > 0 && merged[|merged| - 1].start <= ordered[k - 1].start)
  }

  lemma MergeStep(merged: seq<SampleInterval>, ordered: seq<SampleInterval>, k: nat)
    requires k < |ordered| && Ordered(ordered) && !ordered[k].IsEmpty()
    requires MergedUpTo(merged, ordered, k)
    ensures merged != [] ==> merged[|merged| - 1].start <= ordered[k].start
    ensures MergedUpTo(Absorb(merged, ordered[k]), ordered, k + 1)
  {
    assert ordered[..k + 1] == ordered[..k] + [ordered[k]];
    CoveredSnoc(ordered[..k], ordered[k]);
    var next := Absorb(merged, ordered[k]);
    forall x ensures Covered(next, x) <==> Covered(ordered[..k + 1], x) {
      AbsorbCovers(merged, ordered[k], x);
    }
  }

  method Normalize(intervals: seq<SampleInterval>) returns (merged: seq<SampleInterval>)
    ensures merged == Normal(intervals)
  {
    var kept := DropEmpty(intervals);
    var ordered := Sorted(kept);
    SameElementsSameCover(ordered, kept);
    merged := [];
    for k := 0 to |ordered|
      invariant MergedUpTo(merged, ordered, k)
    {
      assert ordered[k] in kept;
      MergeStep(merged, ordered, k);
      merged := Absorb(merged, ordered[k]);
    }
    assert ordered[..|ordered|] == ordered;
    CanonicalUnique(merged, Normal(intervals));
  }

  lemma CoveredSnoc(s: seq<SampleInterval>, last: SampleInterval)
    ensures forall x :: Covered(s + [last], x) <==> Covered(s, x) || last.Contains(x)
  {
    forall x ensures Covered(s + [last], x) <==> Covered(s, x) || last.Contains(x) {
      CoveredConcat(s, [last], x);
      assert [last][0].Contains(x) <==> last.Contains(x);
    }
  }

  // ----- padding -------------------------------------------------------------

  function Pad(i: SampleInterval, padding: u64, bound: SampleInterval): (r: SampleInterval)
    ensures forall x ::
      r.Contains(x) <==> bound.Contains(x) && i.start - padding <= x < i.end + padding
  {
    var start := Max(SaturatingSub(i.start, padding), bound.start);
    RawInterval(start, Max(Min(SaturatingAdd(i.end, padding), bound.end), start))
  }

  function PadEach(s: seq<SampleInterval>, padding: u64, bound: SampleInterval): (r: seq<SampleInterval>)
    ensures |r| == |s| && forall i :: 0 <= i < |s| ==> r[i] == Pad(s[i], padding, bound)
  {
    if s == [] then [] else [Pad(s[0], padding, bound)] + PadEach(s[1..], padding, bound)
  }

  // Whether `x` lies in `bound` within `padding` samples of a non-empty
  // interval of `s`.
  ghost predicate Near(s: seq<SampleInterval>, padding: u64, bound: SampleInterval, x: int) {
    && bound.Contains(x)
    && exists i :: 0 <= i < |s| && !s[i].IsEmpty() && s[i].start - padding <= x < s[i].end + padding
  }

  function PadAll(s: seq<SampleInterval>, padding: u64, bound: SampleInterval): (r: seq<SampleInterval>)
    ensures Canonical(r)
  {
    Normal(PadEach(s, padding, bound))
  }

  lemma PadEachCovers(s: seq<SampleInterval>, padding: u64, bound: SampleInterval, x: int)
    requires forall i :: 0 <= i < |s| ==> !s[i].IsEmpty()
    ensures Covered(PadEach(s, padding, bound), x) <==> Near(s, padding, bound, x)
  {
    var padded := PadEach(s, padding, bound);
    if Near(s, padding, bound, x) {
      var i :| 0 <= i < |s| && !s[i].IsEmpty() && s[i].start - padding <= x < s[i].end + padding;
      assert padded[i].Contains(x);
    }
  }

  // Being near an interval means being near one of its samples.
  lemma NearByCover(a: seq<SampleInterval>, b: seq<SampleInterval>, padding: u64, bound: SampleInterval, x: int)
    requires forall y :: Covered(a, y) ==> Covered(b, y)
    requires Near(a, padding, bound, x)
    ensures Near(b, padding, bound, x)
  {
    var i :| 0 <= i < |a| && !a[i].IsEmpty() && a[i].start - padding <= x < a[i].end + padding;
    var y := if x < a[i].start then a[i].start else if a[i].end <= x then a[i].end - 1 else x;
    assert a[i].Contains(y);
    assert Covered(a, y);
    var k :| 0 <= k < |b| && b[k].Contains(y);
  }

  // Merging before padding does not matter: the padded list covers exactly the
  // samples of the bound near some non-empty interval of the original list.
  lemma PadAllCovers(s: seq<SampleInterval>, padding: u64, bound: SampleInterval)
    ensures forall x :: Covered(PadAll(Normal(s), padding, bound), x) <==> Near(s, padding, bound, x)
  {
    var n := Normal(s);
    forall x ensures Covered(PadAll(n, padding, bound), x) <==> Near(s, padding, bound, x) {
      PadEachCovers(n, padding, bound, x);
      if Near(n, padding, bound, x) { NearByCover(n, s, padding, bound, x); }
      if Near(s, padding, bound, x) { NearByCover(s, n, padding, bound, x); }
    }
  }

  // ----- complement ----------------------------------------------------------

  // The gaps `m` leaves in `bound` from `cursor` onwards.
  function Gaps(m: seq<SampleInterval>, cursor: u64, bound: SampleInterval): seq<SampleInterval>
    requires bound.start <= cursor <= bound.end
  {
    if m == [] then
      if cursor < bound.end then [RawInterval(cursor, bound.end)] else []
    else
      var clipped := Clamp(m[0], bound);
      if clipped.IsEmpty() then Gaps(m[1..], cursor, bound)
      else
        var rest := Gaps(m[1..], Max(cursor, clipped.end), bound);
        if clipped.start > cursor then [RawInterval(cursor, clipped.start)] + rest else rest
  }

  lemma {:induction false} GapsCanonical(m: seq<SampleInterval>, cursor: u64, bound: SampleInterval)
    requires bound.start <= cursor <= bound.end
    ensures Canonical(Gaps(m, cursor, bound))
    ensures forall gap :: gap in Gaps(m, cursor, bound) ==> cursor <= gap.start
  {
    if m != [] {
      var clipped := Clamp(m[0], bound);
      GapsCanonical(m[1..], if clipped.IsEmpty() then cursor else Max(cursor, clipped.end), bound);
    }
  }

  lemma {:induction false} GapsCover(m: seq<SampleInterval>, cursor: u64, bound: SampleInterval, x: int)
    requires Canonical(m) && bound.start <= cursor <= bound.end
    ensures Covered(Gaps(m, cursor, bound), x) <==> cursor <= x < bound.end && !Covered(m, x)
  {
    if m == [] {
      CoveredCons(RawInterval(cursor, bound.end), []);
    } else {
      CoveredHead(m);
      CanonicalTail(m);
      var clipped := Clamp(m[0], bound);
      var next := if clipped.IsEmpty() then cursor else Max(cursor, clipped.end);
      GapsCover(m[1..], next, bound, x);
      if cursor < clipped.start {
        CoveredCons(RawInterval(cursor, clipped.start), Gaps(m[1..], next, bound));
      }
    }
  }

  function Complement(removed: seq<SampleInterval>, bound: SampleInterval): (r: seq<SampleInterval>)
    ensures Canonical(r)
    ensures forall x :: Covered(r, x) <==> bound.Contains(x) && !Covered(removed, x)
  {
    var gaps := Gaps(Normal(removed), bound.start, bound);
    GapsCanonical(Normal(removed), bound.start, bound);
    assert forall x :: Covered(gaps, x) <==> (bound.Contains(x) && !Covered(removed, x)) by {
      forall x ensures Covered(gaps, x) <==> (bound.Contains(x) && !Covered(removed, x)) {
        GapsCover(Normal(removed), bound.start, bound, x);
      }
    }
    gaps
  }

  method SweepGaps(m: seq<SampleInterval>, bound: SampleInterval) returns (retained: seq<SampleInterval>)
    ensures retained == Gaps(m, bound.start, bound)
  {
    retained := [];
    var cursor := bound.start;
    assert m[0..] == m;
    for k := 0 to |m|
      invariant bound.start <= cursor <= bound.end
      invariant Gaps(m, bound.start, bound) == retained + Gaps(m[k..], cursor, bound)
    {
      assert m[k..][1..] == m[k + 1..];
      var clipped := Clamp(m[k], bound);
      if !clipped.IsEmpty() {
        if clipped.start > cursor {
          var gap: seq<SampleInterval> := [RawInterval(cursor, clipped.start)];
          ConcatAssociates(retained, gap, Gaps(m[k + 1..], clipped.end, bound));
          retained := retained + gap;
        }
        cursor := Max(cursor, clipped.end);
      }
    }
    if cursor < bound.end {
      retained := retained + [RawInterval(cursor, bound.end)];
    }
  }

  lemma ConcatAssociates<T>(a: seq<T>, b: seq<T>, c: seq<T>)
    ensures a + (b + c) == (a + b) + c
  {
  }

  method ComputeComplement(removed: seq<SampleInterval>, bound: SampleInterval)
    returns (retained: seq<SampleInterval>)
    ensures retained == Complement(removed, bound)
  {
    var normal := Normalize(removed);
    retained := SweepGaps(normal, bound);
  }

  function ClampEach(s: seq<SampleInterval>, bound: SampleInterval): (r: seq<SampleInterval>)
    ensures |r| == |s| && forall i :: 0 <= i < |s| ==> r[i] == Clamp(s[i], bound)
  {
    if s == [] then [] else [Clamp(s[0], bound)] + ClampEach(s[1..], bound)
  }

  lemma ClampEachCovers(s: seq<SampleInterval>, bound: SampleInterval)
    ensures forall x :: Covered(ClampEach(s, bound), x) <==> Covered(s, x) && bound.Contains(x)
  {
    var clamped := ClampEach(s, bound);
    forall x ensures Covered(clamped, x) <==> Covered(s, x) && bound.Contains(x) {
      if i :| 0 <= i < |s| && s[i].Contains(x) {
        assert clamped[i].Contains(x) <==> bound.Contains(x);
      }
    }
  }

  // Taking the complement twice returns the removed samples themselves.
  lemma ComplementTwice(removed: seq<SampleInterval>, bound: SampleInterval)
    ensures Complement(Complement(removed, bound), bound) == Normal(ClampEach(removed, bound))
  {
    ClampEachCovers(removed, bound);
    CanonicalUnique(Complement(Complement(removed, bound), bound), Normal(ClampEach(removed, bound)));
  }

  // ----- lengths count samples ----------------------------------------------

  // Running total of the lengths of the first `k` intervals.
  function Offset(s: seq<SampleInterval>, k: nat): nat
    requires k <= |s|
  {
    if k == 0 then 0 else Offset(s, k - 1) + s[k - 1].Len()
  }

  function TotalLen(s: seq<SampleInterval>): nat {
    Offset(s, |s|)
  }

  ghost function CoveredBelow(s: seq<SampleInterval>, x: int): set<int> {
    set y: int | 0 <= y < x && Covered(s, y)
  }

  ghost function Range(a: int, b: int): (r: set<int>)
    requires a <= b
    ensures forall y :: y in r <==> a <= y < b
    ensures |r| == b - a
    decreases b - a
  {
    if a == b then {} else Range(a, b - 1) + {b - 1}
  }

  // Samples of one interval below `x`.
  function LenBelow(i: SampleInterval, x: int): nat {
    Max(0, Min(i.end, x) - i.start)
  }

  function TotalBelow(s: seq<SampleInterval>, k: nat, x: int): nat
    requires k <= |s|
  {
    if k == 0 then 0 else TotalBelow(s, k - 1, x) + LenBelow(s[k - 1], x)
  }

  lemma {:induction false} TotalBelowCounts(s: seq<SampleInterval>, k: nat, x: int)
    requires Canonical(s) && k <= |s|
    ensures |CoveredBelow(s[..k], x)| == TotalBelow(s, k, x)
  {
    if k == 0 {
      assert CoveredBelow(s[..0], x) == {};
    } else {
      TotalBelowCounts(s, k - 1, x);
      LastCountsApart(s, k - 1, x);
    }
  }

  lemma LastCountsApart(s: seq<SampleInterval>, k: nat, x: int)
    requires Canonical(s) && k < |s|
    ensures |CoveredBelow(s[..k + 1], x)| == |CoveredBelow(s[..k], x)| + LenBelow(s[k], x)
  {
    var top := Range(s[k].start, Max(s[k].start, Min(s[k].end, x)));
    var before, after := CoveredBelow(s[..k], x), CoveredBelow(s[..k + 1], x);
    assert s[..k + 1] == s[..k] + [s[k]];
    CoveredSnoc(s[..k], s[k]);
    assert forall y :: y in after <==> y in before || y in top;
    assert after == before + top;
    assert before !! top;
  }

  lemma {:induction false} TotalBelowAll(s: seq<SampleInterval>, k: nat, x: int)
    requires k <= |s| && forall i :: 0 <= i < k ==> s[i].end <= x
    ensures TotalBelow(s, k, x) == Offset(s, k)
  {
    if k > 0 {
      TotalBelowAll(s, k - 1, x);
    }
  }

  lemma TotalLenCounts(s: seq<SampleInterval>, x: int)
    requires Canonical(s) && forall i :: 0 <= i < |s| ==> s[i].end <= x
    ensures TotalLen(s) == |CoveredBelow(s, x)|
  {
    assert s[..|s|] == s;
    TotalBelowCounts(s, |s|, x);
    TotalBelowAll(s, |s|, x);
  }

  // Every sample of the bound is counted once, retained or removed.
  lemma ComplementConserves(removed: seq<SampleInterval>, bound: SampleInterval)
    ensures TotalLen(Complement(removed, bound)) + TotalLen(Normal(ClampEach(removed, bound))) == bound.Len()
  {
    var retained := Complement(removed, bound);
    var inside := Normal(ClampEach(removed, bound));
    ClampEachCovers(removed, bound);
    EndsWithin(retained, bound);
    EndsWithin(inside, bound);
    TotalLenCounts(retained, bound.end);
    TotalLenCounts(inside, bound.end);
    PartitionSize(retained, inside, bound);
  }

  lemma PartitionSize(a: seq<SampleInterval>, b: seq<SampleInterval>, bound: SampleInterval)
    requires forall x :: bound.Contains(x) <==> Covered(a, x) || Covered(b, x)
    requires forall x :: !(Covered(a, x) && Covered(b, x))
    ensures |CoveredBelow(a, bound.end)| + |CoveredBelow(b, bound.end)| == bound.Len()
  {
    var kept, cut := CoveredBelow(a, bound.end), CoveredBelow(b, bound.end);
    assert forall y :: y in kept || y in cut <==> y in Range(bound.start, bound.end);
    assert kept + cut == Range(bound.start, bound.end);
    assert kept !! cut;
  }

  lemma EndsWithin(s: seq<SampleInterval>, bound: SampleInterval)
    requires Canonical(s) && forall x :: Covered(s, x) ==> bound.Contains(x)
    ensures forall i :: 0 <= i < |s| ==> bound.start <= s[i].start && s[i].end <= bound.end
  {
    forall i | 0 <= i < |s| ensures bound.start <= s[i].start && s[i].end <= bound.end {
      var first, last := s[i].start, s[i].end - 1;
      assert s[i].Contains(first) && s[i].Contains(last);
      assert Covered(s, first) && Covered(s, last);
    }
  }

  // ----- the spliced timeline -------------------------------------------------

  datatype DestinationMap = DestinationMap(retained: seq<SampleInterval>, offsets: seq<u64>) {
    // Offsets are running totals of the retained lengths before each interval.
    ghost predicate Valid() {
      && Canonical(retained)
      && |offsets| == |retained|
      && (forall i {:trigger offsets[i]} :: 0 <= i < |offsets| ==> offsets[i] == Offset(retained, i))
    }

    function DestinationOf(index: nat): Option<SampleInterval>
      requires Valid()
    {
      if index < |retained| then
        OffsetBounded(retained, index);
        Some(RawInterval(offsets[index], offsets[index] + retained[index].Len()))
      else None
    }

    function MapFrom(index: nat, sample: u64): Option<nat>
      requires |offsets| == |retained| && index <= |retained|
      decreases |retained| - index
    {
      if index == |retained| then None
      else if retained[index].Contains(sample) then Some(offsets[index] + sample - retained[index].start)
      else MapFrom(index + 1, sample)
    }

    function MapSample(sample: u64): Option<nat>
      requires |offsets| == |retained|
    {
      MapFrom(0, sample)
    }
  }

  // Retained lengths never outgrow the timeline they came from, so no running
  // total saturates.
  lemma {:induction false} OffsetBounded(m: seq<SampleInterval>, k: nat)
    requires Canonical(m) && k < |m|
    ensures Offset(m, k) <= m[k].start
  {
    if k > 0 {
      OffsetBounded(m, k - 1);
    }
  }

  lemma DestinationExists(d: DestinationMap, k: nat)
    requires d.Valid() && k < |d.retained|
    ensures d.DestinationOf(k).Some?
    ensures d.DestinationOf(k).value.start == Offset(d.retained, k)
    ensures d.DestinationOf(k).value.end == Offset(d.retained, k + 1)
  {
    assert d.offsets[k] == Offset(d.retained, k);
  }

  ghost predicate OffsetFits(m: seq<SampleInterval>, k: nat)
    requires k < |m|
  {
    Offset(m, k) + m[k].Len() <= U64_MAX
  }

  method RunningOffsets(m: seq<SampleInterval>) returns (offsets: seq<u64>)
    requires forall k :: 0 <= k < |m| ==> OffsetFits(m, k)
    ensures |offsets| == |m| && forall k {:trigger offsets[k]} :: 0 <= k < |m| ==> offsets[k] == Offset(m, k)
  {
    var running: u64 := 0;
    offsets := [];
    for i := 0 to |m|
      invariant |offsets| == i && running == Offset(m, i)
      invariant forall k {:trigger offsets[k]} :: 0 <= k < i ==> offsets[k] == Offset(m, k)
    {
      assert OffsetFits(m, i);
      offsets := offsets + [running];
      running := SaturatingAdd(running, m[i].Len());
    }
  }

  method BuildDestinationMap(intervals: seq<SampleInterval>) returns (map_: DestinationMap)
    ensures map_.Valid() && map_.retained == Normal(intervals)
  {
    var retained := Normalize(intervals);
    forall k | 0 <= k < |retained| ensures OffsetFits(retained, k) {
      OffsetBounded(retained, k);
    }
    var offsets := RunningOffsets(retained);
    map_ := DestinationMap(retained, offsets);
  }

  // A retained sample lands at the number of retained samples before it; a
  // removed sample lands nowhere.
  lemma MapSampleIsRank(d: DestinationMap, sample: u64)
    requires d.Valid()
    ensures d.MapSample(sample)
      == if Covered(d.retained, sample) then Some(|CoveredBelow(d.retained, sample)|) else None
  {
    MapFromFinds(d, 0, sample);
    if Covered(d.retained, sample) {
      var k: nat :| k < |d.retained| && d.retained[k].Contains(sample);
      assert d.retained[..|d.retained|] == d.retained;
      TotalBelowCounts(d.retained, |d.retained|, sample);
      TotalBelowAt(d.retained, |d.retained|, k, sample);
    }
  }

  lemma {:induction false} MapFromFinds(d: DestinationMap, index: nat, sample: u64)
    requires d.Valid() && index <= |d.retained|
    ensures d.MapFrom(index, sample).None? <==>
      forall k :: index <= k < |d.retained| ==> !d.retained[k].Contains(sample)
    ensures forall k :: index <= k < |d.retained| && d.retained[k].Contains(sample) ==>
      d.MapFrom(index, sample) == Some(d.offsets[k] + sample - d.retained[k].start)
    decreases |d.retained| - index
  {
    if index < |d.retained| {
      MapFromFinds(d, index + 1, sample);
    }
  }

  lemma {:induction false} TotalBelowAt(m: seq<SampleInterval>, n: nat, k: nat, x: int)
    requires Canonical(m) && k < n <= |m| && m[k].Contains(x)
    ensures TotalBelow(m, n, x) == Offset(m, k) + x - m[k].start
  {
    if k == n - 1 {
      TotalBelowAll(m, k, x);
    } else {
      TotalBelowAt(m, n - 1, k, x);
    }
  }

  lemma MapSampleAt(d: DestinationMap, k: nat, sample: u64)
    requires d.Valid() && k < |d.retained| && d.retained[k].Contains(sample)
    ensures d.MapSample(sample) == Some(Offset(d.retained, k) + (sample - d.retained[k].start))
  {
    MapFromFinds(d, 0, sample);
    assert d.offsets[k] == Offset(d.retained, k);
  }

  // The destination map is a strictly increasing bijection from the retained
  // samples onto [0, total): defined and in range exactly there, ...
  lemma MapSampleInRange(d: DestinationMap, x: u64)
    requires d.Valid()
    ensures d.MapSample(x).Some? <==> Covered(d.retained, x)
    ensures d.MapSample(x).Some? ==> d.MapSample(x).value < TotalLen(d.retained)
  {
    MapSampleIsRank(d, x);
    TotalLenCounts(d.retained, U64_MAX + 1);
    if Covered(d.retained, x) {
      RankIncreases(d.retained, x, U64_MAX + 1);
    }
  }

  // ... strictly increasing, ...
  lemma MapSampleIncreases(d: DestinationMap, x: u64, y: u64)
    requires d.Valid() && x < y && Covered(d.retained, x) && Covered(d.retained, y)
    ensures d.MapSample(x).Some? && d.MapSample(y).Some?
    ensures d.MapSample(x).value < d.MapSample(y).value
  {
    MapSampleIsRank(d, x);
    MapSampleIsRank(d, y);
    RankIncreases(d.retained, x, y);
  }

  // ... and onto.
  lemma MapSampleOnto(d: DestinationMap, r: nat) returns (x: u64)
    requires d.Valid() && r < TotalLen(d.retained)
    ensures Covered(d.retained, x) && d.MapSample(x) == Some(r)
  {
    var m := d.retained;
    var k := OffsetHolding(m, |m|, r);
    x := m[k].start + (r - Offset(m, k));
    assert m[k].Contains(x);
    MapFromFinds(d, 0, x);
  }

  lemma RankIncreases(m: seq<SampleInterval>, x: int, y: int)
    requires 0 <= x < y && Covered(m, x)
    ensures |CoveredBelow(m, x)| < |CoveredBelow(m, y)|
  {
    SubsetSize(CoveredBelow(m, x) + {x}, CoveredBelow(m, y));
  }

  lemma SubsetSize(a: set<int>, b: set<int>)
    requires a <= b
    ensures |a| <= |b|
  {
    assert b == a + (b - a);
  }

  lemma {:induction false} OffsetHolding(m: seq<SampleInterval>, n: nat, r: nat) returns (k: nat)
    requires n <= |m| && r < Offset(m, n)
    ensures k < n && Offset(m, k) <= r < Offset(m, k) + m[k].Len()
  {
    if r < Offset(m, n - 1) {
      k := OffsetHolding(m, n - 1, r);
    } else {
      k := n - 1;
    }
  }
}
