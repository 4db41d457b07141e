// The character classes and string helpers the model needs, over ASCII.
module Text {
  predicate IsWhitespace(c: char) {
    c == ' ' || '\t' <= c <= '\r'
  }

  predicate IsAlphanumeric(c: char) {
    '0' <= c <= '9' || 'a' <= c <= 'z' || 'A' <= c <= 'Z'
  }

  function LowerChar(c: char): char {
    if 'A' <= c <= 'Z' then c + 32 as char else c
  }

  function Lower(s: string): (r: string)
    ensures |r| == |s| && forall k :: 0 <= k < |s| ==> r[k] == LowerChar(s[k])
  {
    if s == [] then [] else [LowerChar(s[0])] + Lower(s[1..])
  }

  function TrimStart(s: string): (r: string)
    ensures r == "" || !IsWhitespace(r[0])
  {
    if s == "" || !IsWhitespace(s[0]) then s else TrimStart(s[1..])
  }

  function TrimEnd(s: string): (r: string)
    ensures r <= s
    ensures r == "" || !IsWhitespace(r[|r| - 1])
  {
    if s == "" || !IsWhitespace(s[|s| - 1]) then s else TrimEnd(s[..|s| - 1])
  }

  function Trim(s: string): (r: string)
    ensures r == "" || (!IsWhitespace(r[0]) && !IsWhitespace(r[|r| - 1]))
  {
    TrimEnd(TrimStart(s))
  }

  // Non-empty parts joined by single separators.
  function Join(parts: seq<string>, separator: string): string {
    if parts == [] then ""
    else if |parts| == 1 then parts[0]
    else parts[0] + separator + Join(parts[1..], separator)
  }

  // Number of maximal runs of non-whitespace characters.
  function CountWords(s: string): nat {
    if s == "" then 0
    else
      var startsWord := !IsWhitespace(s[|s| - 1]) && (|s| == 1 || IsWhitespace(s[|s| - 2]));
      CountWords(s[..|s| - 1]) + (if startsWord then 1 else 0)
  }

  // Text that starts with a visible character does not trim away.
  lemma {:induction false} VisibleStart(s: string)
    requires s != "" && !IsWhitespace(s[0])
    ensures Trim(s) != ""
  {
    TrimEndKeepsStart(s);
  }

  lemma {:induction false} TrimEndKeepsStart(s: string)
    requires s != "" && !IsWhitespace(s[0])
    ensures TrimEnd(s) != ""
  {
    if IsWhitespace(s[|s| - 1]) {
      TrimEndKeepsStart(s[..|s| - 1]);
    }
  }

  function TrimSymbolsStart(s: string): (r: string)
    ensures r == "" || IsAlphanumeric(r[0])
  {
    if s == "" || IsAlphanumeric(s[0]) then s else TrimSymbolsStart(s[1..])
  }

  function TrimSymbolsEnd(s: string): (r: string)
    ensures r <= s
  {
    if s == "" || IsAlphanumeric(s[|s| - 1]) then s else TrimSymbolsEnd(s[..|s| - 1])
  }

  // Spoken form: surrounding punctuation removed, lower case.
  function NormalizeSpoken(display: string): (r: string)
    ensures r == "" || IsAlphanumeric(r[0])
  {
    Lower(TrimSymbolsEnd(TrimSymbolsStart(display)))
  }
}
