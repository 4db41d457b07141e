// Word error rate: the two-row edit distance, what it means, and its laws.
module EditDistance {
  import opened Options
  import Text

  type Words = seq<string>

  // ----- edit scripts: the meaning of the distance --------------------------------

  datatype Edit = Replace(from: string, to: string) | Delete(from: string) | Insert(to: string)

  // Edits in order, the last one outermost.
  datatype Script = Done | Then(first: Script, last: Edit)

  function Source(s: Script): Words {
    match s
    case Done => []
    case Then(first, Insert(_)) => Source(first)
    case Then(first, last) => Source(first) + [last.from]
  }

  function Target(s: Script): Words {
    match s
    case Done => []
    case Then(first, Delete(_)) => Target(first)
    case Then(first, last) => Target(first) + [last.to]
  }

  // Replacing a word by itself is free; every other edit costs one.
  function EditCost(e: Edit): nat {
    if e.Replace? && e.from == e.to then 0 else 1
  }

  function Cost(s: Script): nat {
    match s
    case Done => 0
    case Then(first, last) => Cost(first) + EditCost(last)
  }

  ghost predicate Turns(s: Script, a: Words, b: Words) {
    Source(s) == a && Target(s) == b
  }

  // ----- the recursive distance -----------------------------------------------------

  function Mismatch(x: string, y: string): nat {
    if x == y then 0 else 1
  }

  function Min(x: nat, y: nat): nat {
    if x <= y then x else y
  }

  function Front(a: Words): Words
    requires a != []
  {
    a[..|a| - 1]
  }

  function Last(a: Words): string
    requires a != []
  {
    a[|a| - 1]
  }

  function Levenshtein(a: Words, b: Words): nat
    decreases |a| + |b|
  {
    if a == [] then |b|
    else if b == [] then |a|
    else
      Min(Min(Levenshtein(Front(a), Front(b)) + Mismatch(Last(a), Last(b)), Levenshtein(Front(a), b) + 1),
          Levenshtein(a, Front(b)) + 1)
  }

  // ----- the two-row dynamic programme ----------------------------------------------

  // `row` holds the distances from the first `i` reference words to the first
  // 0, 1, ..., `columns` hypothesis words.
  ghost predicate Row(row: seq<nat>, reference: Words, hypothesis: Words, i: nat, columns: nat)
    requires i <= |reference| && columns <= |hypothesis| && columns < |row|
  {
    forall j :: 0 <= j <= columns ==> row[j] == Levenshtein(reference[..i], hypothesis[..j])
  }

  // Entry `j + 1` of a row, from the row above and the entry to its left.
  ghost predicate Computed(above: seq<nat>, row: seq<nat>, word: string, hypothesis: Words, j: nat)
    requires |above| == |row| == |hypothesis| + 1 && j < |hypothesis|
  {
    row[j + 1] == Min(Min(above[j] + Mismatch(word, hypothesis[j]), above[j + 1] + 1), row[j] + 1)
  }

  lemma {:induction false} ComputedRow(
    above: seq<nat>, row: seq<nat>, reference: Words, hypothesis: Words, i: nat, columns: nat)
    requires i < |reference| && columns <= |hypothesis| && |above| == |row| == |hypothesis| + 1
    requires Row(above, reference, hypothesis, i, |hypothesis|)
    requires row[0] == i + 1
    requires forall j :: 0 <= j < |hypothesis| ==> Computed(above, row, reference[i], hypothesis, j)
    ensures Row(row, reference, hypothesis, i + 1, columns)
  {
    if columns > 0 {
      var j := columns - 1;
      ComputedRow(above, row, reference, hypothesis, i, j);
      assert Computed(above, row, reference[i], hypothesis, j);
      Cell(reference, hypothesis, i, j);
    }
  }

  lemma Cell(reference: Words, hypothesis: Words, i: nat, j: nat)
    requires i < |reference| && j < |hypothesis|
    ensures Levenshtein(reference[..i + 1], hypothesis[..j + 1])
         == Min(Min(Levenshtein(reference[..i], hypothesis[..j]) + Mismatch(reference[i], hypothesis[j]),
                    Levenshtein(reference[..i], hypothesis[..j + 1]) + 1),
                Levenshtein(reference[..i + 1], hypothesis[..j]) + 1)
  {
    assert Front(reference[..i + 1]) == reference[..i];
    assert Front(hypothesis[..j + 1]) == hypothesis[..j];
  }

  method FillRow(previous: array<nat>, current: array<nat>, row: nat, word: string, hypothesis: Words)
    requires previous != current && previous.Length == current.Length == |hypothesis| + 1
    modifies current
    ensures current[0] == row + 1
    ensures forall j :: 0 <= j < |hypothesis| ==> Computed(previous[..], current[..], word, hypothesis, j)
  {
    current[0] := row + 1;
    for column := 0 to |hypothesis|
      invariant current[0] == row + 1
      invariant forall j :: 0 <= j < column ==> Computed(previous[..], current[..], word, hypothesis, j)
    {
      ghost var before := current[..];
      var substitution := previous[column] + Mismatch(word, hypothesis[column]);
      current[column + 1] := Min(Min(substitution, previous[column + 1] + 1), current[column] + 1);
      forall j | 0 <= j < column ensures Computed(previous[..], current[..], word, hypothesis, j) {
        assert Computed(previous[..], before, word, hypothesis, j);
      }
    }
  }

  method Distance(reference: Words, hypothesis: Words) returns (d: nat)
    ensures d == Levenshtein(reference, hypothesis)
  {
    var previous := new nat[|hypothesis| + 1](j => j);
    var current := new nat[|hypothesis| + 1](_ => 0);
    for i := 0 to |reference|
      invariant fresh(previous) && fresh(current) && previous != current
      invariant previous.Length == current.Length == |hypothesis| + 1
      invariant Row(previous[..], reference, hypothesis, i, |hypothesis|)
    {
      FillRow(previous, current, i, reference[i], hypothesis);
      ComputedRow(previous[..], current[..], reference, hypothesis, i, |hypothesis|);
      previous, current := current, previous;
    }
    d := previous[|hypothesis|];
    assert previous[..][|hypothesis|] == d;
    assert reference[..|reference|] == reference && hypothesis[..|hypothesis|] == hypothesis;
  }

  // ----- the distance is the length of a shortest edit script ------------------------

  function DeleteAll(a: Words): (s: Script)
    ensures Turns(s, a, []) && Cost(s) == |a|
  {
    if a == [] then Done else Then(DeleteAll(Front(a)), Delete(Last(a)))
  }

  function InsertAll(b: Words): (s: Script)
    ensures Turns(s, [], b) && Cost(s) == |b|
  {
    if b == [] then Done else Then(InsertAll(Front(b)), Insert(Last(b)))
  }

  function ThenReplace(first: Script, a: Words, b: Words): (s: Script)
    requires a != [] && b != [] && Turns(first, Front(a), Front(b))
    ensures Turns(s, a, b) && Cost(s) == Cost(first) + Mismatch(Last(a), Last(b))
  {
    Then(first, Replace(Last(a), Last(b)))
  }

  function ThenDelete(first: Script, a: Words, b: Words): (s: Script)
    requires a != [] && Turns(first, Front(a), b)
    ensures Turns(s, a, b) && Cost(s) == Cost(first) + 1
  {
    Then(first, Delete(Last(a)))
  }

  function ThenInsert(first: Script, a: Words, b: Words): (s: Script)
    requires b != [] && Turns(first, a, Front(b))
    ensures Turns(s, a, b) && Cost(s) == Cost(first) + 1
  {
    Then(first, Insert(Last(b)))
  }

  function Shortest(a: Words, b: Words): (s: Script)
    ensures Turns(s, a, b) && Cost(s) == Levenshtein(a, b)
    decreases |a| + |b|
  {
    if a == [] then InsertAll(b)
    else if b == [] then DeleteAll(a)
    else
      var replaced := ThenReplace(Shortest(Front(a), Front(b)), a, b);
      var deleted := ThenDelete(Shortest(Front(a), b), a, b);
      var inserted := ThenInsert(Shortest(a, Front(b)), a, b);
      Cheaper(Cheaper(replaced, deleted), inserted)
  }

  function Cheaper(s: Script, t: Script): (r: Script)
    ensures r in {s, t} && Cost(r) == Min(Cost(s), Cost(t))
  {
    if Cost(s) <= Cost(t) then s else t
  }

  lemma FrontLast(a: Words, x: string)
    ensures Front(a + [x]) == a && Last(a + [x]) == x
  {
  }

  lemma OneMoreTarget(a: Words, b: Words)
    requires b != []
    ensures Levenshtein(a, b) <= Levenshtein(a, Front(b)) + 1
  {
  }

  lemma OneMoreSource(a: Words, b: Words)
    requires a != []
    ensures Levenshtein(a, b) <= Levenshtein(Front(a), b) + 1
  {
  }

  lemma OneMoreOfBoth(a: Words, b: Words)
    requires a != [] && b != []
    ensures Levenshtein(a, b) <= Levenshtein(Front(a), Front(b)) + Mismatch(Last(a), Last(b))
  {
  }

  // One more edit adds at most its own cost to the distance.
  lemma OneMoreEdit(s: Script)
    requires s.Then?
    ensures Levenshtein(Source(s), Target(s)) <= Levenshtein(Source(s.first), Target(s.first)) + EditCost(s.last)
  {
    match s.last {
      case Insert(to) =>
        FrontLast(Target(s.first), to);
        OneMoreTarget(Source(s), Target(s));
      case Delete(from) =>
        FrontLast(Source(s.first), from);
        OneMoreSource(Source(s), Target(s));
      case Replace(from, to) =>
        FrontLast(Source(s.first), from);
        FrontLast(Target(s.first), to);
        OneMoreOfBoth(Source(s), Target(s));
    }
  }

  lemma {:induction false} NoScriptIsShorter(s: Script)
    ensures Levenshtein(Source(s), Target(s)) <= Cost(s)
  {
    if s.Then? {
      NoScriptIsShorter(s.first);
      OneMoreEdit(s);
    }
  }

  // ----- the distance is a metric ------------------------------------------------------

  lemma {:induction false} FreeScriptKeeps(s: Script)
    requires Cost(s) == 0
    ensures Source(s) == Target(s)
  {
    if s.Then? {
      FreeScriptKeeps(s.first);
    }
  }

  function KeepAll(a: Words): (s: Script)
    ensures Turns(s, a, a) && Cost(s) == 0
  {
    if a == [] then Done else Then(KeepAll(Front(a)), Replace(Last(a), Last(a)))
  }

  lemma {:induction false} ZeroIffEqual(a: Words, b: Words)
    ensures Levenshtein(a, b) == 0 <==> a == b
  {
    if Levenshtein(a, b) == 0 {
      FreeScriptKeeps(Shortest(a, b));
    }
    NoScriptIsShorter(KeepAll(a));
  }

  function Invert(s: Script): (r: Script)
    ensures Turns(r, Target(s), Source(s)) && Cost(r) == Cost(s)
  {
    match s
    case Done => Done
    case Then(first, Replace(x, y)) => Then(Invert(first), Replace(y, x))
    case Then(first, Delete(x)) => Then(Invert(first), Insert(x))
    case Then(first, Insert(y)) => Then(Invert(first), Delete(y))
  }

  lemma {:induction false} Symmetric(a: Words, b: Words)
    ensures Levenshtein(a, b) == Levenshtein(b, a)
  {
    NoScriptIsShorter(Invert(Shortest(a, b)));
    NoScriptIsShorter(Invert(Shortest(b, a)));
  }

  // Two scripts run one after the other, as one script.
  function Compose(s: Script, t: Script): (r: Script)
    requires Target(s) == Source(t)
    ensures Turns(r, Source(s), Target(t)) && Cost(r) <= Cost(s) + Cost(t)
    decreases s, t
  {
    if s.Then? && s.last.Delete? then Then(Compose(s.first, t), s.last)
    else if t.Then? && t.last.Insert? then Then(Compose(s, t.first), t.last)
    else if s.Done? || t.Done? then Done
    else
      assert Last(Target(s)) == s.last.to && Last(Source(t)) == t.last.from;
      assert Front(Target(s)) == Target(s.first) && Front(Source(t)) == Source(t.first);
      var first := Compose(s.first, t.first);
      if s.last.Insert? && t.last.Delete? then first
      else if s.last.Insert? then Then(first, Insert(t.last.to))
      else if t.last.Delete? then Then(first, Delete(s.last.from))
      else Then(first, Replace(s.last.from, t.last.to))
  }

  lemma Triangle(a: Words, b: Words, c: Words)
    ensures Levenshtein(a, c) <= Levenshtein(a, b) + Levenshtein(b, c)
  {
    NoScriptIsShorter(Compose(Shortest(a, b), Shortest(b, c)));
  }

  // Never more than rewriting the longer side, never less than the length gap.
  lemma {:induction false} Bounds(a: Words, b: Words)
    ensures Levenshtein(a, b) <= if |a| <= |b| then |b| else |a|
    ensures |a| <= |b| + Levenshtein(a, b) && |b| <= |a| + Levenshtein(a, b)
    decreases |a| + |b|
  {
    if a != [] && b != [] {
      Bounds(Front(a), Front(b));
      Bounds(Front(a), b);
      Bounds(a, Front(b));
    }
  }

  // ----- corpus error rate ---------------------------------------------------------------

  // The words of a text between whitespace.
  function Split(text: string): Words {
    if text == "" then []
    else
      var before, c := Split(text[..|text| - 1]), text[|text| - 1];
      if Text.IsWhitespace(c) then before
      else if |text| == 1 || Text.IsWhitespace(text[|text| - 2]) || before == [] then before + [[c]]
      else Front(before) + [Last(before) + [c]]
  }

  function Spoken(words: Words): Words {
    if words == [] then []
    else
      var word := Text.NormalizeSpoken(Last(words));
      Spoken(Front(words)) + (if word == "" then [] else [word])
  }

  // Normalized words: lower case, surrounding punctuation stripped.
  function WordsOf(text: string): Words {
    Spoken(Split(text))
  }

  function Edits(pairs: seq<(string, string)>): nat {
    if pairs == [] then 0
    else
      var (reference, hypothesis) := pairs[|pairs| - 1];
      Edits(pairs[..|pairs| - 1]) + Levenshtein(WordsOf(reference), WordsOf(hypothesis))
  }

  function ReferenceWords(pairs: seq<(string, string)>): nat {
    if pairs == [] then 0
    else ReferenceWords(pairs[..|pairs| - 1]) + |WordsOf(pairs[|pairs| - 1].0)|
  }

  method CorpusErrorRate(pairs: seq<(string, string)>) returns (rate: Option<real>)
    ensures rate == if ReferenceWords(pairs) == 0 then None else Some(Edits(pairs) as real / ReferenceWords(pairs) as real)
  {
    var edits, total := 0, 0;
    for k := 0 to |pairs|
      invariant edits == Edits(pairs[..k]) && total == ReferenceWords(pairs[..k])
    {
      assert pairs[..k + 1][..k] == pairs[..k];
      var reference := WordsOf(pairs[k].0);
      var distance := Distance(reference, WordsOf(pairs[k].1));
      edits := edits + distance;
      total := total + |reference|;
    }
    assert pairs[..|pairs|] == pairs;
    rate := if total > 0 then Some(edits as real / total as real) else None;
  }

  ghost predicate SameWords(pairs: seq<(string, string)>) {
    forall k :: 0 <= k < |pairs| ==> WordsOf(pairs[k].0) == WordsOf(pairs[k].1)
  }

  lemma SameWordsFront(pairs: seq<(string, string)>)
    requires pairs != []
    ensures var before, last := pairs[..|pairs| - 1], pairs[|pairs| - 1];
      SameWords(pairs) <==> SameWords(before) && WordsOf(last.0) == WordsOf(last.1)
  {
    var before, last := pairs[..|pairs| - 1], pairs[|pairs| - 1];
    assert forall k :: 0 <= k < |before| ==> before[k] == pairs[k];
    assert forall k :: 0 <= k < |pairs| ==> pairs[k] == if k < |before| then before[k] else last;
  }

  // A corpus has no errors exactly when every pair reads the same once normalized.
  lemma {:induction false} NoErrorsIffSameWords(pairs: seq<(string, string)>)
    ensures Edits(pairs) == 0 <==> SameWords(pairs)
  {
    if pairs != [] {
      var last := pairs[|pairs| - 1];
      NoErrorsIffSameWords(pairs[..|pairs| - 1]);
      ZeroIffEqual(WordsOf(last.0), WordsOf(last.1));
      SameWordsFront(pairs);
    }
  }
}
