// Streaming conversion of captured audio to the canonical rate.
//
// Samples pass through a filter window; an accumulator of target-rate ticks
// says when the next output sample is due.
module RateConverter {
  import opened Samples
  import opened TimeMap

  const FILTER_TAPS: nat := 63

  // ----- filtering one window ------------------------------------------------------

  function WeightedSum(history: seq<real>, taps: seq<real>): real
    requires |history| == |taps|
  {
    if history == [] then 0.0
    else
      var n := |history| - 1;
      WeightedSum(history[..n], taps[..n]) + history[n] * taps[n]
  }

  function Filtered(history: seq<real>, taps: seq<real>): i16
    requires |history| == |taps|
  {
    Max(I16_MIN, Min(Round(WeightedSum(history, taps)), I16_MAX))
  }

  // ----- the stream as a function of what was fed -------------------------------------

  datatype Rates = Rates(source: u32, target: u32, taps: seq<real>)
  {
    // A stream has a positive source rate; the filter has at least one tap.
    predicate Valid() { source > 0 && taps != [] }
  }

  datatype Phase = Phase(accumulator: u64, history: seq<real>)
  {
    predicate Fits(rates: Rates) {
      accumulator < rates.source && |history| == |rates.taps|
    }
  }

  function Start(rates: Rates): Phase {
    Phase(0, seq(|rates.taps|, _ => 0.0))
  }

  function Shift(history: seq<real>, sample: i16): seq<real>
    requires history != []
  {
    history[1..] + [sample as real]
  }

  function Copies(sample: i16, count: nat): seq<i16> {
    seq(count, _ => sample)
  }

  // Samples due once `ticks` have accumulated, and the ticks carried over.
  function Emissions(ticks: nat, source: nat): nat
    requires source > 0
  {
    if ticks < source then 0 else 1 + Emissions(ticks - source, source)
  }

  function Carried(ticks: nat, source: nat): (r: nat)
    requires source > 0
    ensures r < source
  {
    if ticks < source then ticks else Carried(ticks - source, source)
  }

  function Feed(rates: Rates, phase: Phase, sample: i16): (r: (Phase, seq<i16>))
    requires rates.Valid() && phase.Fits(rates)
    ensures r.0.Fits(rates)
  {
    var history := Shift(phase.history, sample);
    var ticks := phase.accumulator + rates.target;
    (Phase(Carried(ticks, rates.source), history), Copies(Filtered(history, rates.taps), Emissions(ticks, rates.source)))
  }

  function Stream(rates: Rates, phase: Phase, input: seq<i16>): (r: (Phase, seq<i16>))
    requires rates.Valid() && phase.Fits(rates)
    ensures r.0.Fits(rates)
  {
    if input == [] then (phase, [])
    else
      var (before, output) := Stream(rates, phase, input[..|input| - 1]);
      var (after, more) := Feed(rates, before, input[|input| - 1]);
      (after, output + more)
  }

  // Equal rates need no conversion and leave the state alone.
  function Converted(rates: Rates, phase: Phase, input: seq<i16>): (Phase, seq<i16>)
    requires rates.Valid() && phase.Fits(rates)
  {
    if rates.source == rates.target then (phase, input) else Stream(rates, phase, input)
  }

  class Converter {
    const rates: Rates
    var accumulator: u64
    var history: seq<real>

    ghost predicate Valid()
      reads this
    {
      rates.Valid() && State().Fits(rates)
    }

    function State(): Phase
      reads this
    {
      Phase(accumulator, history)
    }

    // `lowpass` is the anti-aliasing filter computed for this pair of rates.
    constructor (source: u32, target: u32, lowpass: seq<real>)
      requires source > 0 && |lowpass| == FILTER_TAPS
      ensures Valid() && rates == Rates(source, target, if source > target then lowpass else [1.0])
      ensures State() == Start(rates)
    {
      var taps := if source > target then lowpass else [1.0];
      rates := Rates(source, target, taps);
      accumulator := 0;
      history := seq(|taps|, _ => 0.0);
    }

    method Convert(input: seq<i16>) returns (output: seq<i16>)
      requires Valid()
      modifies this
      ensures Valid()
      ensures (State(), output) == Converted(rates, old(State()), input)
    {
      if rates.source == rates.target {
        return input;
      }
      output := [];
      for n := 0 to |input|
        invariant Valid()
        invariant (State(), output) == Stream(rates, old(State()), input[..n])
      {
        assert input[..n + 1][..n] == input[..n];
        var more := Push(input[n]);
        output := output + more;
      }
      assert input[..|input|] == input;
    }

    // One input sample, and the output samples that became due.
    method Push(sample: i16) returns (output: seq<i16>)
      requires Valid()
      modifies this
      ensures Valid() && (State(), output) == Feed(rates, old(State()), sample)
    {
      history := history[1..] + [sample as real];
      accumulator := SaturatingAdd(accumulator, rates.target);
      ghost var ticks := accumulator;
      output := [];
      while accumulator >= rates.source
        invariant history == Shift(old(history), sample)
        invariant Carried(accumulator, rates.source) == Carried(ticks, rates.source)
        invariant |output| + Emissions(accumulator, rates.source) == Emissions(ticks, rates.source)
        invariant output == Copies(Filtered(history, rates.taps), |output|)
      {
        output := output + [Filtered(history, rates.taps)];
        accumulator := accumulator - rates.source;
      }
    }
  }

  // ----- the output does not depend on how the input is cut ------------------------------

  lemma Associative<T>(a: seq<T>, b: seq<T>, c: seq<T>)
    ensures (a + b) + c == a + (b + c)
  {
  }

  lemma LastApart<T>(a: seq<T>, b: seq<T>)
    requires b != []
    ensures b == b[..|b| - 1] + [b[|b| - 1]] && a + b == (a + b[..|b| - 1]) + [b[|b| - 1]]
  {
  }

  lemma {:induction false} StreamSplits(rates: Rates, phase: Phase, first: seq<i16>, second: seq<i16>)
    requires rates.Valid() && phase.Fits(rates)
    ensures var (middle, early) := Stream(rates, phase, first);
      var (end, late) := Stream(rates, middle, second);
      Stream(rates, phase, first + second) == (end, early + late)
  {
    var (middle, early) := Stream(rates, phase, first);
    if second == [] {
      assert first + second == first && early + [] == early;
    } else {
      var before, last := second[..|second| - 1], second[|second| - 1];
      StreamSplits(rates, phase, first, before);
      LastApart(first, second);
      StreamOneMore(rates, phase, first + before, last);
      StreamOneMore(rates, middle, before, last);
      var (late, more) := Stream(rates, middle, before);
      Associative(early, more, Feed(rates, late, last).1);
    }
  }

  lemma StreamOneMore(rates: Rates, phase: Phase, input: seq<i16>, sample: i16)
    requires rates.Valid() && phase.Fits(rates)
    ensures var (before, output) := Stream(rates, phase, input);
      var (after, more) := Feed(rates, before, sample);
      Stream(rates, phase, input + [sample]) == (after, output + more)
  {
    assert (input + [sample])[..|input|] == input;
  }

  lemma ConvertSplits(rates: Rates, phase: Phase, first: seq<i16>, second: seq<i16>)
    requires rates.Valid() && phase.Fits(rates)
    ensures var (middle, early) := Converted(rates, phase, first);
      var (end, late) := Converted(rates, middle, second);
      Converted(rates, phase, first + second) == (end, early + late)
  {
    StreamSplits(rates, phase, first, second);
  }

  // ----- how much is emitted, and when -----------------------------------------------------

  function Ticks(rates: Rates, n: nat): (t: nat)
    ensures n > 0 ==> t == Ticks(rates, n - 1) + rates.target
  {
    n * rates.target
  }

  lemma {:induction false} NoTickIsLost(ticks: nat, source: nat)
    requires source > 0
    ensures Emissions(ticks, source) * source + Carried(ticks, source) == ticks
  {
    if ticks >= source {
      NoTickIsLost(ticks - source, source);
      Distribute(1, Emissions(ticks - source, source), source);
    }
  }

  // Every input brings `target` ticks and every output spends `source` of them.
  lemma {:induction false} TicksConserved(rates: Rates, input: seq<i16>)
    requires rates.Valid()
    ensures var (phase, output) := Stream(rates, Start(rates), input);
      |output| * rates.source + phase.accumulator == |input| * rates.target
  {
    if input != [] {
      var before := input[..|input| - 1];
      var (phase, output) := Stream(rates, Start(rates), before);
      var ticks := phase.accumulator + rates.target;
      TicksConserved(rates, before);
      NoTickIsLost(ticks, rates.source);
      Distribute(|output|, Emissions(ticks, rates.source), rates.source);
      Distribute(|before|, 1, rates.target);
    }
  }

  // After n inputs, exactly floor(n * target / source) samples have come out.
  lemma EmitsExactly(rates: Rates, input: seq<i16>)
    requires rates.Valid()
    ensures |Stream(rates, Start(rates), input).1| == |input| * rates.target / rates.source
  {
    var (phase, output) := Stream(rates, Start(rates), input);
    TicksConserved(rates, input);
    Quotient(|input| * rates.target, rates.source, |output|, phase.accumulator);
  }

  lemma Distribute(a: int, b: int, c: int)
    ensures (a + b) * c == a * c + b * c
  {
  }

  lemma Quotient(x: int, d: int, q: int, r: int)
    requires 0 <= r < d && q * d + r == x
    ensures x / d == q
  {
    var gap := x / d - q;
    assert gap * d == r - x % d;
    assert gap >= 1 ==> gap * d >= d;
    assert gap <= -1 ==> gap * d <= -d;
  }

  // The filter window after `n` inputs: silence, then the newest samples.
  function Window(rates: Rates, input: seq<i16>, n: nat): (w: seq<real>)
    requires n <= |input|
    ensures |w| == |rates.taps|
  {
    var width := |rates.taps|;
    seq(width, j requires 0 <= j < width =>
      if n + j < width then 0.0 else input[n + j - width] as real)
  }

  lemma {:induction false} HistoryIsWindow(rates: Rates, input: seq<i16>)
    requires rates.Valid()
    ensures Stream(rates, Start(rates), input).0.history == Window(rates, input, |input|)
  {
    if input != [] {
      HistoryIsWindow(rates, input[..|input| - 1]);
    }
  }

  // Output sample k is the filter at the first input by which k + 1 target
  // periods have passed.
  lemma SampleIsFilteredWindow(rates: Rates, input: seq<i16>, n: nat, k: nat)
    requires rates.Valid() && 0 < n <= |input|
    requires (n - 1) * rates.target < (k + 1) * rates.source <= n * rates.target
    ensures var output := Stream(rates, Start(rates), input).1;
      k < |output| && output[k] == Filtered(Window(rates, input, n), rates.taps)
  {
    var upTo := input[..n];
    EmittedByLast(rates, upTo, k);
    assert Window(rates, upTo, n) == Window(rates, input, n);
    assert input == upTo + input[n..];
    StreamSplits(rates, Start(rates), upTo, input[n..]);
  }

  lemma EmittedByLast(rates: Rates, input: seq<i16>, k: nat)
    requires rates.Valid() && input != []
    requires (|input| - 1) * rates.target < (k + 1) * rates.source <= |input| * rates.target
    ensures var output := Stream(rates, Start(rates), input).1;
      k < |output| && output[k] == Filtered(Window(rates, input, |input|), rates.taps)
  {
    var before := input[..|input| - 1];
    var (early, output) := Stream(rates, Start(rates), before);
    var (late, longer) := Stream(rates, Start(rates), input);
    TicksConserved(rates, before);
    TicksConserved(rates, input);
    AtMost(|output|, k, rates.source, early.accumulator);
    AtLeast(|longer|, k, rates.source, late.accumulator);
    HistoryIsWindow(rates, input);
  }

  lemma AtMost(q: int, k: int, d: int, r: int)
    requires 0 <= r < d && q * d + r < (k + 1) * d
    ensures q <= k
  {
    assert (k + 1 - q) * d > 0;
  }

  lemma AtLeast(q: int, k: int, d: int, r: int)
    requires 0 <= r < d && (k + 1) * d <= q * d + r
    ensures k < q
  {
    assert (q - k) * d > 0;
  }
}
