// The generated names of package entries.
module Names {
  import opened TimeMap

  const DIGITS := "0123456789"

  function Digit(d: nat): char
    requires d < 10
  {
    DIGITS[d]
  }

  function Decimal(n: nat): (s: string)
    ensures s != ""
  {
    if n < 10 then [Digit(n)] else Decimal(n / 10) + [Digit(n % 10)]
  }

  // At least three digits.
  function Padded(n: nat): string {
    if n < 10 then "00" + Decimal(n) else if n < 100 then "0" + Decimal(n) else Decimal(n)
  }

  function AudioName(index: nat): string {
    "clip-" + Padded(index) + ".wav"
  }

  function TextName(index: nat): string {
    "clip-" + Padded(index) + ".txt"
  }

  predicate Allowed(c: char) {
    'a' <= c <= 'z' || 'A' <= c <= 'Z' || '0' <= c <= '9' || c == '-' || c == '_' || c == '.'
  }

  // One path component: no separators, no parent reference, at most 64 bytes.
  predicate SafeEntryName(name: string) {
    && name != ""
    && |name| <= 64
    && (forall k :: 0 <= k < |name| - 1 ==> !(name[k] == '.' && name[k + 1] == '.'))
    && (forall k :: 0 <= k < |name| ==> Allowed(name[k]))
  }

  // ----- names are distinct ------------------------------------------------------------

  predicate IsDigit(c: char) { '0' <= c <= '9' }

  function DigitValue(c: char): nat {
    if IsDigit(c) then (c - '0') as int else 0
  }

  function Value(s: string): nat {
    if s == "" then 0 else Value(s[..|s| - 1]) * 10 + DigitValue(s[|s| - 1])
  }

  lemma DigitReads(d: nat)
    requires d < 10
    ensures IsDigit(Digit(d)) && DigitValue(Digit(d)) == d
  {
  }

  lemma {:induction false} DecimalReads(n: nat)
    ensures Value(Decimal(n)) == n
    ensures forall k :: 0 <= k < |Decimal(n)| ==> IsDigit(Decimal(n)[k])
  {
    DigitReads(n % 10);
    if n >= 10 {
      DecimalReads(n / 10);
      assert Decimal(n)[..|Decimal(n)| - 1] == Decimal(n / 10);
    } else {
      assert Decimal(n)[..0] == "";
    }
  }

  lemma {:induction false} ZeroesDoNotCount(zeroes: string, s: string)
    requires forall k :: 0 <= k < |zeroes| ==> zeroes[k] == '0'
    ensures Value(zeroes + s) == Value(s)
    decreases |zeroes| + |s|
  {
    if s != "" {
      ZeroesDoNotCount(zeroes, s[..|s| - 1]);
      assert (zeroes + s)[..|zeroes + s| - 1] == zeroes + s[..|s| - 1];
    } else if zeroes != "" {
      ZeroesDoNotCount(zeroes[..|zeroes| - 1], "");
      assert zeroes + s == zeroes && zeroes[..|zeroes| - 1] + "" == zeroes[..|zeroes| - 1];
    }
  }

  lemma PaddedReads(n: nat)
    ensures Value(Padded(n)) == n
    ensures forall k :: 0 <= k < |Padded(n)| ==> IsDigit(Padded(n)[k])
  {
    DecimalReads(n);
    ZeroesDoNotCount("00", Decimal(n));
    ZeroesDoNotCount("0", Decimal(n));
  }

  lemma NamesDistinct(i: nat, j: nat)
    ensures AudioName(i) != TextName(j)
    ensures i != j ==> AudioName(i) != AudioName(j) && TextName(i) != TextName(j)
  {
    assert AudioName(i)[|AudioName(i)| - 3] == 'w' && TextName(j)[|TextName(j)| - 3] == 't';
    if i != j {
      PaddedReads(i);
      PaddedReads(j);
      MiddleOf(Padded(i), ".wav");
      MiddleOf(Padded(j), ".wav");
      MiddleOf(Padded(i), ".txt");
      MiddleOf(Padded(j), ".txt");
    }
  }

  lemma MiddleOf(middle: string, suffix: string)
    requires |suffix| == 4
    ensures var name := "clip-" + middle + suffix;
      |name| == |middle| + 9 && name[5..|name| - 4] == middle
  {
  }

  // ----- names are safe ------------------------------------------------------------------

  function Pow10(k: nat): nat {
    if k == 0 then 1 else 10 * Pow10(k - 1)
  }

  lemma {:induction false} DecimalLength(n: nat, k: nat)
    requires k > 0 && n < Pow10(k)
    ensures |Decimal(n)| <= k
  {
    if n >= 10 {
      assert k > 1;
      DecimalLength(n / 10, k - 1);
    }
  }

  lemma NamesAreSafe(index: nat)
    requires index <= U64_MAX
    ensures SafeEntryName(AudioName(index)) && SafeEntryName(TextName(index))
  {
    PaddedReads(index);
    assert Pow10(4) == 1_0000;
    assert Pow10(8) == 1_0000_0000;
    assert Pow10(12) == 1_0000_0000_0000;
    assert Pow10(16) == 1_0000_0000_0000_0000;
    assert Pow10(20) == 1_0000_0000_0000_0000_0000;
    DecimalLength(index, 20);
    SafeAround(Padded(index), ".wav");
    SafeAround(Padded(index), ".txt");
  }

  lemma SafeAround(middle: string, suffix: string)
    requires |middle| <= 22 && (forall k :: 0 <= k < |middle| ==> IsDigit(middle[k]))
    requires suffix == ".wav" || suffix == ".txt"
    ensures SafeEntryName("clip-" + middle + suffix)
  {
    var name := "clip-" + middle + suffix;
    forall k | 0 <= k < |name| ensures Allowed(name[k]) && (name[k] == '.' ==> k == 5 + |middle|) {
      if 5 <= k < 5 + |middle| {
        assert name[k] == middle[k - 5];
      }
    }
  }
}
