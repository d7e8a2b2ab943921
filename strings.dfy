/** The string operations the backend applies to user input and to the
    text it assembles: `str.upper`, `str.strip` and `str.join`. */
module Strings {

  /** `str.isspace` for one character: the characters Python strips. */
  predicate IsSpace(c: char)
  {
    || c == ' ' || c == '\t' || c == '\n' || c == '\r'
    || c == '\U{0B}' || c == '\U{0C}'
    || ('\U{1C}' <= c <= '\U{1F}')
    || c == '\U{85}' || c == '\U{A0}' || c == '\U{1680}'
    || ('\U{2000}' <= c <= '\U{200A}')
    || c == '\U{2028}' || c == '\U{2029}' || c == '\U{202F}'
    || c == '\U{205F}' || c == '\U{3000}'
  }

  predicate IsLower(c: char)
  {
    'a' <= c <= 'z'
  }

  function UpperChar(c: char): (u: char)
    ensures !IsLower(u)
    ensures IsSpace(u) <==> IsSpace(c)
  {
    if IsLower(c) then (c as int - 32) as char else c
  }

  /** `str.upper` on the ASCII letters. */
  function Upper(s: string): (r: string)
    ensures |r| == |s|
    ensures forall i {:trigger r[i]} :: 0 <= i < |s| ==> r[i] == UpperChar(s[i])
  {
    seq(|s|, i requires 0 <= i < |s| => UpperChar(s[i]))
  }

  /** The index of the first character at or after `i` that is not
      whitespace (or `|s|`). */
  function SpanStart(s: string, i: nat): (a: nat)
    requires i <= |s|
    ensures i <= a <= |s|
    ensures forall k :: i <= k < a ==> IsSpace(s[k])
    ensures a == |s| || !IsSpace(s[a])
    decreases |s| - i
  {
    if i < |s| && IsSpace(s[i]) then SpanStart(s, i + 1) else i
  }

  /** The index just past the last character before `j`, and not before
      `a`, that is not whitespace (or `a`). */
  function SpanEnd(s: string, j: nat, a: nat): (b: nat)
    requires a <= j <= |s|
    ensures a <= b <= j
    ensures forall k :: b <= k < j ==> IsSpace(s[k])
    ensures b == a || !IsSpace(s[b - 1])
  {
    if j > a && IsSpace(s[j - 1]) then SpanEnd(s, j - 1, a) else j
  }

  function StripStart(s: string): nat
  {
    SpanStart(s, 0)
  }

  /** `str.strip()`: the slice of `s` between its leading and its trailing
      whitespace; only whitespace is dropped, and none is left at either end. */
  function Strip(s: string): (r: string)
    ensures StripStart(s) + |r| <= |s| && r == s[StripStart(s)..StripStart(s) + |r|]
    ensures forall i :: 0 <= i < StripStart(s) ==> IsSpace(s[i])
    ensures forall i :: StripStart(s) + |r| <= i < |s| ==> IsSpace(s[i])
    ensures r == [] || (!IsSpace(r[0]) && !IsSpace(r[|r| - 1]))
  {
    var a := SpanStart(s, 0);
    s[a..SpanEnd(s, |s|, a)]
  }

  /** `user_input.upper().strip()`: the candidate ticker. */
  function Normalize(s: string): string
  {
    Strip(Upper(s))
  }

  /** `sep.join(parts)`. */
  function Join(sep: string, parts: seq<string>): string
  {
    if parts == [] then ""
    else if |parts| == 1 then parts[0]
    else parts[0] + sep + Join(sep, parts[1..])
  }

  lemma StripKeepsTrimmed(s: string)
    requires s == [] || (!IsSpace(s[0]) && !IsSpace(s[|s| - 1]))
    ensures Strip(s) == s
  {
  }

  lemma UpperKeepsUpper(s: string)
    requires forall i :: 0 <= i < |s| ==> !IsLower(s[i])
    ensures Upper(s) == s
  {
  }

  /** The candidate ticker has no lower-case ASCII letter and no whitespace
      at either end, and it is the upper-cased input with only the
      surrounding whitespace removed. */
  lemma NormalizeShape(s: string)
    ensures var n, a := Normalize(s), StripStart(Upper(s));
      && (forall i :: 0 <= i < |n| ==> !IsLower(n[i]))
      && (n == [] || (!IsSpace(n[0]) && !IsSpace(n[|n| - 1])))
      && a + |n| <= |s| && n == Upper(s)[a..a + |n|]
      && (forall i :: 0 <= i < a ==> IsSpace(s[i]))
      && (forall i :: a + |n| <= i < |s| ==> IsSpace(s[i]))
  {
    var u := Upper(s);
    var n := Strip(u);
    var a := StripStart(u);
    forall i | 0 <= i < |n| ensures !IsLower(n[i]) {
      assert n[i] == u[a + i];
    }
    forall i | 0 <= i < |s| && (i < a || a + |n| <= i) ensures IsSpace(s[i]) {
      assert IsSpace(u[i]) && u[i] == UpperChar(s[i]);
    }
  }

  /** Normalizing twice gives the same ticker as normalizing once. */
  lemma NormalizeIdempotent(s: string)
    ensures Normalize(Normalize(s)) == Normalize(s)
  {
    var n := Normalize(s);
    NormalizeShape(s);
    UpperKeepsUpper(n);
    StripKeepsTrimmed(n);
  }

  /** An input already upper-case and trimmed is its own candidate ticker. */
  lemma NormalizeKeepsTicker(s: string)
    requires forall i :: 0 <= i < |s| ==> !IsLower(s[i])
    requires s == [] || (!IsSpace(s[0]) && !IsSpace(s[|s| - 1]))
    ensures Normalize(s) == s
  {
    UpperKeepsUpper(s);
    StripKeepsTrimmed(s);
  }
}
