/**
 * The few text operations the application relies on: how a JavaScript
 * template literal prints an integer, how the browser splits a filter
 * string into whitespace-separated function tokens, and the prefix, suffix
 * and last-segment queries made by `startsWith`, `includes` and
 * `split(...).pop()`.
 */
module Strings {
  import opened Wrappers

  /** The whitespace characters that separate tokens in a filter string. */
  predicate IsSpace(c: char) {
    c == ' ' || c == '\n' || c == '\t' || c == '\r'
  }

  predicate AllSpace(s: string) {
    forall i :: 0 <= i < |s| ==> IsSpace(s[i])
  }

  predicate NoSpace(s: string) {
    forall i :: 0 <= i < |s| ==> !IsSpace(s[i])
  }

  lemma NoSpaceConcat(a: string, b: string)
    requires NoSpace(a) && NoSpace(b)
    ensures NoSpace(a + b)
  {
    forall i | 0 <= i < |a + b| ensures !IsSpace((a + b)[i]) {
      if i >= |a| { assert (a + b)[i] == b[i - |a|]; }
    }
  }

  predicate StartsWith(s: string, prefix: string) {
    |prefix| <= |s| && s[..|prefix|] == prefix
  }

  predicate EndsWith(s: string, suffix: string) {
    |suffix| <= |s| && s[|s| - |suffix|..] == suffix
  }

  // ---------------------------------------------------------------------
  // Tokenizing on whitespace
  // ---------------------------------------------------------------------

  /** Length of the run of non-whitespace characters that begins `s`. */
  function WordLength(s: string): (n: nat)
    ensures n <= |s|
    ensures NoSpace(s[..n])
    ensures n < |s| ==> IsSpace(s[n])
  {
    if s == [] || IsSpace(s[0]) then 0 else 1 + WordLength(s[1..])
  }

  /** The non-blank, whitespace-separated tokens of `s`, in order. */
  function Tokens(s: string): (ts: seq<string>)
    ensures forall i :: 0 <= i < |ts| ==> ts[i] != [] && NoSpace(ts[i])
    decreases |s|
  {
    if s == [] then []
    else if IsSpace(s[0]) then Tokens(s[1..])
    else
      var n := WordLength(s);
      [s[..n]] + Tokens(s[n..])
  }

  /** A word that stops where whitespace (or the end) begins has the word's length. */
  lemma {:induction false} WordLengthOfWord(w: string, rest: string)
    requires NoSpace(w)
    requires rest == [] || IsSpace(rest[0])
    ensures WordLength(w + rest) == |w|
  {
    if w != [] {
      assert (w + rest)[1..] == w[1..] + rest;
      WordLengthOfWord(w[1..], rest);
    }
  }

  /** Leading whitespace contributes no token. */
  lemma {:induction false} TokensSkipSpace(ws: string, s: string)
    requires AllSpace(ws)
    ensures Tokens(ws + s) == Tokens(s)
  {
    if ws != [] {
      assert (ws + s)[0] == ws[0] && IsSpace(ws[0]);
      assert (ws + s)[1..] == ws[1..] + s;
      assert Tokens(ws + s) == Tokens(ws[1..] + s);
      TokensSkipSpace(ws[1..], s);
    } else {
      assert ws + s == s;
    }
  }

  /** Whitespace only: no token at all. */
  lemma TokensOfSpace(ws: string)
    requires AllSpace(ws)
    ensures Tokens(ws) == []
  {
    TokensSkipSpace(ws, []);
    assert ws + [] == ws;
  }

  /**
   * Tokenizing distributes over a concatenation whose second part begins
   * with whitespace: no token straddles the seam.
   */
  lemma {:induction false} TokensConcat(a: string, b: string)
    requires b == [] || IsSpace(b[0])
    ensures Tokens(a + b) == Tokens(a) + Tokens(b)
    decreases |a|
  {
    if a == [] {
      assert a + b == b;
    } else if IsSpace(a[0]) {
      assert (a + b)[1..] == a[1..] + b;
      TokensConcat(a[1..], b);
    } else {
      var n := WordLength(a);
      assert a == a[..n] + a[n..];
      assert a + b == a[..n] + (a[n..] + b);
      WordLengthOfWord(a[..n], a[n..] + b);
      assert (a + b)[..n] == a[..n];
      assert (a + b)[n..] == a[n..] + b;
      TokensConcat(a[n..], b);
    }
  }

  /** A single non-blank word is exactly one token. */
  lemma TokensOfWord(w: string)
    requires w != [] && NoSpace(w)
    ensures Tokens(w) == [w]
  {
    WordLengthOfWord(w, []);
    assert w + [] == w;
    assert w[|w|..] == [];
  }

  /**
   * One step of a layout: some whitespace, a token that may be empty, and
   * the rest of the text, which starts with whitespace.
   */
  lemma TokensPiece(lead: string, tok: string, rest: string)
    requires AllSpace(lead) && NoSpace(tok)
    requires rest == [] || IsSpace(rest[0])
    ensures Tokens(lead + tok + rest) == (if tok == [] then [] else [tok]) + Tokens(rest)
  {
    assert lead + tok + rest == lead + (tok + rest);
    TokensSkipSpace(lead, tok + rest);
    TokensConcat(tok, rest);
    if tok == [] {
      assert Tokens(tok) == [];
    } else {
      TokensOfWord(tok);
    }
  }

  // ---------------------------------------------------------------------
  // Integers as a template literal prints them
  // ---------------------------------------------------------------------

  predicate IsDigit(c: char) {
    '0' <= c <= '9'
  }

  predicate AllDigits(s: string) {
    forall i :: 0 <= i < |s| ==> IsDigit(s[i])
  }

  function DigitChar(d: nat): (c: char)
    requires d < 10
    ensures IsDigit(c)
  {
    ('0' as int + d) as char
  }

  function DigitValue(c: char): (d: nat)
    requires IsDigit(c)
    ensures d < 10
  {
    c as int - '0' as int
  }

  /** Decimal digits of `n`, most significant first, with no leading zero. */
  function NatToString(n: nat): (s: string)
    ensures s != [] && AllDigits(s)
    ensures s[0] == '0' ==> n == 0
  {
    if n < 10 then [DigitChar(n)] else NatToString(n / 10) + [DigitChar(n % 10)]
  }

  /** `${n}` for an integer `n`: an optional minus sign, then the digits. */
  function IntToString(n: int): (s: string)
    ensures s != [] && NoSpace(s)
  {
    if n < 0 then "-" + NatToString(-n) else NatToString(n)
  }

  function ParseDigits(s: string): (n: nat)
    requires AllDigits(s)
    decreases |s|
  {
    if s == [] then 0 else ParseDigits(s[..|s| - 1]) * 10 + DigitValue(s[|s| - 1])
  }

  /** Reads back an optionally signed run of decimal digits. */
  function ParseInt(s: string): (r: Option<int>)
    ensures r.Some? ==> s != []
  {
    if s != [] && s[0] == '-' && |s| > 1 && AllDigits(s[1..]) then Some(0 - ParseDigits(s[1..]) as int)
    else if s != [] && AllDigits(s) then Some(ParseDigits(s))
    else None
  }

  lemma {:induction false} ParseNatToString(n: nat)
    ensures ParseDigits(NatToString(n)) == n
  {
    if n >= 10 {
      var s := NatToString(n);
      assert s[..|s| - 1] == NatToString(n / 10);
      ParseNatToString(n / 10);
    }
  }

  /** Reading a printed integer gives the integer back. */
  lemma ParseIntToString(n: int)
    ensures ParseInt(IntToString(n)) == Some(n)
  {
    if n < 0 {
      var s := IntToString(n);
      assert s[1..] == NatToString(-n);
      ParseNatToString(-n);
    } else {
      ParseNatToString(n);
    }
  }

  // ---------------------------------------------------------------------
  // Taking a token apart
  // ---------------------------------------------------------------------

  /** The text of `s` between `prefix` and `suffix`, when `s` has both. */
  function Between(s: string, prefix: string, suffix: string): (r: Option<string>)
    ensures r.Some? ==> s == prefix + r.value + suffix
    ensures r.None? ==> !(StartsWith(s, prefix) && EndsWith(s, suffix) && |prefix| + |suffix| <= |s|)
  {
    if |prefix| + |suffix| <= |s| && StartsWith(s, prefix) && EndsWith(s, suffix) then
      var mid := s[|prefix|..|s| - |suffix|];
      assert s == s[..|prefix|] + mid + s[|s| - |suffix|..];
      Some(mid)
    else None
  }

  lemma BetweenOfWrapped(prefix: string, mid: string, suffix: string)
    ensures Between(prefix + mid + suffix, prefix, suffix) == Some(mid)
  {
    var s := prefix + mid + suffix;
    assert s[..|prefix|] == prefix;
    assert s[|s| - |suffix|..] == suffix;
    assert s[|prefix|..|s| - |suffix|] == mid;
  }

  /** The integer written between `prefix` and `suffix` in `tok`, if any. */
  function ParseWrappedInt(tok: string, prefix: string, suffix: string): Option<int> {
    match Between(tok, prefix, suffix)
    case None => None
    case Some(mid) => ParseInt(mid)
  }

  lemma ParseWrappedIntToString(prefix: string, n: int, suffix: string)
    ensures ParseWrappedInt(prefix + IntToString(n) + suffix, prefix, suffix) == Some(n)
  {
    BetweenOfWrapped(prefix, IntToString(n), suffix);
    ParseIntToString(n);
  }

  // ---------------------------------------------------------------------
  // `s.split(c).pop()`
  // ---------------------------------------------------------------------

  /**
   * The text after the last occurrence of `c` in `s`, or all of `s` when
   * `c` does not occur.
   */
  function LastSegment(s: string, c: char): (r: string)
    ensures c !in r
    ensures EndsWith(s, r)
    ensures |r| < |s| ==> s[|s| - |r| - 1] == c
    ensures c !in s ==> r == s
  {
    if s == [] then []
    else if s[|s| - 1] == c then []
    else
      var r' := LastSegment(s[..|s| - 1], c);
      assert s == s[..|s| - 1] + [s[|s| - 1]];
      r' + [s[|s| - 1]]
  }

  /** Whatever comes before the last `c`, the segment after it is what is returned. */
  lemma {:induction false} LastSegmentAfter(p: string, c: char, x: string)
    requires c !in x
    ensures LastSegment(p + [c] + x, c) == x
  {
    var s := p + [c] + x;
    if x != [] {
      var x' := x[..|x| - 1];
      assert s[..|s| - 1] == p + [c] + x';
      assert s[|s| - 1] == x[|x| - 1];
      assert c !in x' by {
        forall i | 0 <= i < |x'| ensures x'[i] != c {
          assert x'[i] == x[i];
        }
      }
      LastSegmentAfter(p, c, x');
      assert x == x' + [x[|x| - 1]];
    }
  }
}
