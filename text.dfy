/**
 * Text helpers shared by the back end and the front end: ASCII case folding,
 * whitespace trimming, substring search and decimal rendering of integers.
 */
module Text {
  import opened Wrappers
  import opened Seqs

  /** ASCII whitespace: space, tab, line feed, vertical tab, form feed, carriage return. */
  predicate IsWhitespace(c: char) {
    c == ' ' || ('\t' <= c <= '\r')
  }

  predicate AllWhitespace(s: string) {
    forall i :: 0 <= i < |s| ==> IsWhitespace(s[i])
  }

  predicate IsDigit(c: char) {
    '0' <= c <= '9'
  }

  predicate AllDigits(s: string) {
    forall i :: 0 <= i < |s| ==> IsDigit(s[i])
  }

  /** Python truthiness of an optional string: present and not empty. */
  predicate Present(s: Option<string>) {
    s.Some? && s.value != ""
  }

  function LowerChar(c: char): (r: char)
    ensures IsWhitespace(r) <==> IsWhitespace(c)
    ensures IsDigit(r) <==> IsDigit(c)
    ensures !('A' <= r <= 'Z')
  {
    if 'A' <= c <= 'Z' then (c as int + 32) as char else c
  }

  /** `str.lower()` / `String.prototype.toLowerCase()` restricted to ASCII letters. */
  function Lower(s: string): (r: string)
    ensures |r| == |s|
    ensures forall i :: 0 <= i < |s| ==> r[i] == LowerChar(s[i])
  {
    seq(|s|, i requires 0 <= i < |s| => LowerChar(s[i]))
  }

  lemma LowerConcat(a: string, b: string)
    ensures Lower(a + b) == Lower(a) + Lower(b)
  {
  }

  /** Drops leading whitespace. */
  function TrimStart(s: string): string {
    if s != [] && IsWhitespace(s[0]) then TrimStart(s[1..]) else s
  }

  /** Drops trailing whitespace. */
  function TrimEnd(s: string): string {
    if s != [] && IsWhitespace(s[|s| - 1]) then TrimEnd(s[..|s| - 1]) else s
  }

  /** What `TrimStart` drops is a whitespace prefix, and what it keeps starts with something else. */
  lemma {:induction false} TrimStartShape(s: string)
    ensures var r := TrimStart(s);
      && |r| <= |s| && r == s[|s| - |r|..]
      && (forall i :: 0 <= i < |s| - |r| ==> IsWhitespace(s[i]))
      && (r == [] || !IsWhitespace(r[0]))
  {
    if s != [] && IsWhitespace(s[0]) {
      var tail := s[1..];
      TrimStartShape(tail);
      var r := TrimStart(tail);
      assert TrimStart(s) == r;
      assert tail[|tail| - |r|..] == s[|s| - |r|..];
      forall i | 0 < i < |s| - |r|
        ensures IsWhitespace(s[i])
      {
        assert s[i] == tail[i - 1];
      }
    }
  }

  /** What `TrimEnd` drops is a whitespace suffix, and what it keeps ends with something else. */
  lemma {:induction false} TrimEndShape(s: string)
    ensures var r := TrimEnd(s);
      && |r| <= |s| && r == s[..|r|]
      && (forall i :: |r| <= i < |s| ==> IsWhitespace(s[i]))
      && (r == [] || !IsWhitespace(r[|r| - 1]))
  {
    if s != [] && IsWhitespace(s[|s| - 1]) {
      var front := s[..|s| - 1];
      TrimEndShape(front);
      var r := TrimEnd(front);
      assert TrimEnd(s) == r;
      assert front[..|r|] == s[..|r|];
      forall i | |r| <= i < |s| - 1
        ensures IsWhitespace(s[i])
      {
        assert s[i] == front[i];
      }
    }
  }

  /** `str.strip()` / `String.prototype.trim()` over ASCII whitespace. */
  function Trim(s: string): string {
    TrimEnd(TrimStart(s))
  }

  lemma {:induction false} TrimStartSkipsWhitespace(ws: string, s: string)
    requires AllWhitespace(ws)
    ensures TrimStart(ws + s) == TrimStart(s)
  {
    if ws != [] {
      assert (ws + s)[1..] == ws[1..] + s;
      TrimStartSkipsWhitespace(ws[1..], s);
    } else {
      assert ws + s == s;
    }
  }

  lemma {:induction false} TrimEndSkipsWhitespace(s: string, ws: string)
    requires AllWhitespace(ws)
    ensures TrimEnd(s + ws) == TrimEnd(s)
  {
    if ws != [] {
      var last := |ws| - 1;
      assert (s + ws)[|s + ws| - 1] == ws[last];
      assert (s + ws)[..|s + ws| - 1] == s + ws[..last];
      TrimEndSkipsWhitespace(s, ws[..last]);
    } else {
      assert s + ws == s;
    }
  }

  lemma {:induction false} TrimStartAppend(s: string, ws: string)
    requires AllWhitespace(ws)
    ensures TrimStart(s) != [] ==> TrimStart(s + ws) == TrimStart(s) + ws
    ensures TrimStart(s) == [] ==> TrimStart(s + ws) == []
  {
    if s == [] {
      assert s + ws == ws + [];
      TrimStartSkipsWhitespace(ws, []);
    } else {
      assert (s + ws)[0] == s[0];
      if IsWhitespace(s[0]) {
        assert (s + ws)[1..] == s[1..] + ws;
        TrimStartAppend(s[1..], ws);
      }
    }
  }

  /** Whitespace around a string does not change what it trims to. */
  lemma TrimPadded(ws1: string, s: string, ws2: string)
    requires AllWhitespace(ws1) && AllWhitespace(ws2)
    ensures Trim(ws1 + s + ws2) == Trim(s)
  {
    assert ws1 + s + ws2 == ws1 + (s + ws2);
    TrimStartSkipsWhitespace(ws1, s + ws2);
    TrimStartAppend(s, ws2);
    if TrimStart(s) != [] {
      TrimEndSkipsWhitespace(TrimStart(s), ws2);
    }
  }

  lemma {:induction false} TrimStartLower(s: string)
    ensures TrimStart(Lower(s)) == Lower(TrimStart(s))
  {
    if s != [] && IsWhitespace(s[0]) {
      assert Lower(s)[1..] == Lower(s[1..]);
      TrimStartLower(s[1..]);
    }
  }

  lemma {:induction false} TrimEndLower(s: string)
    ensures TrimEnd(Lower(s)) == Lower(TrimEnd(s))
  {
    if s != [] && IsWhitespace(s[|s| - 1]) {
      assert Lower(s)[..|s| - 1] == Lower(s[..|s| - 1]);
      TrimEndLower(s[..|s| - 1]);
    }
  }

  /** Trimming and lower-casing commute. */
  lemma TrimLowerCommute(s: string)
    ensures Trim(Lower(s)) == Lower(Trim(s))
  {
    TrimStartLower(s);
    TrimEndLower(TrimStart(s));
  }

  /** Two strings that lower-case alike also trim and lower-case alike. */
  lemma LowerTrimAgree(a: string, b: string)
    requires Lower(a) == Lower(b)
    ensures Lower(Trim(a)) == Lower(Trim(b))
  {
    TrimLowerCommute(a);
    TrimLowerCommute(b);
  }

  /** Python `sub in s` / JavaScript `s.includes(sub)`. */
  predicate Contains(s: string, sub: string) {
    sub <= s || (s != [] && Contains(s[1..], sub))
  }

  lemma {:induction false} ContainsAt(s: string, sub: string, k: nat)
    requires k + |sub| <= |s| && s[k..k + |sub|] == sub
    ensures Contains(s, sub)
  {
    if k > 0 {
      assert s[1..][k - 1..k - 1 + |sub|] == sub;
      ContainsAt(s[1..], sub, k - 1);
    }
  }

  lemma {:induction false} ContainsSuffix(prefix: string, s: string, sub: string)
    requires Contains(s, sub)
    ensures Contains(prefix + s, sub)
  {
    if prefix != [] {
      assert (prefix + s)[1..] == prefix[1..] + s;
      ContainsSuffix(prefix[1..], s, sub);
      assert Contains((prefix + s)[1..], sub);
    } else {
      assert prefix + s == s;
    }
  }

  /** A string that contains `p + m` also contains `p`: a longer query narrows a match. */
  lemma {:induction false} ContainsLonger(s: string, p: string, m: string)
    requires Contains(s, p + m)
    ensures Contains(s, p)
  {
    if p + m <= s {
      assert (p + m)[..|p|] == p;
      assert s[..|p|] == p;
    } else {
      ContainsLonger(s[1..], p, m);
    }
  }

  /** A string of whitespace trims to nothing. */
  lemma TrimAllWhitespace(s: string)
    requires AllWhitespace(s)
    ensures Trim(s) == []
  {
    assert s + [] == s;
    TrimStartSkipsWhitespace(s, []);
  }

  /** Keeps only the ASCII digits: JavaScript `s.replace(/[^0-9]/g, "")`. */
  function Digits(s: string): (r: string)
    ensures AllDigits(r) && |r| <= |s|
    ensures AllDigits(s) ==> r == s
  {
    if s == [] then []
    else (if IsDigit(s[0]) then [s[0]] else []) + Digits(s[1..])
  }

  /** `Digits` keeps every digit of its input, as often as it occurs, in its order. */
  lemma {:induction false} DigitsExtracts(s: string)
    ensures IsSubsequence(Digits(s), s)
    ensures forall c :: IsDigit(c) ==> multiset(Digits(s))[c] == multiset(s)[c]
  {
    if s != [] {
      var rest := Digits(s[1..]);
      DigitsExtracts(s[1..]);
      assert s == [s[0]] + s[1..];
      if IsDigit(s[0]) {
        assert Digits(s) == [s[0]] + rest;
        SubsequenceKeep(rest, s[0], s[1..]);
      } else {
        assert Digits(s) == rest;
        SubsequenceSkip(rest, s[0], s[1..]);
      }
    }
  }

  lemma {:induction false} DigitsConcat(a: string, b: string)
    ensures Digits(a + b) == Digits(a) + Digits(b)
  {
    if a != [] {
      var tail := a[1..] + b;
      assert (a + b)[0] == a[0];
      assert (a + b)[1..] == tail;
      DigitsConcat(a[1..], b);
      if IsDigit(a[0]) {
        assert Digits(a + b) == [a[0]] + Digits(tail);
        assert Digits(a) == [a[0]] + Digits(a[1..]);
      } else {
        assert Digits(a + b) == Digits(tail);
        assert Digits(a) == Digits(a[1..]);
      }
    } else {
      assert a + b == b;
    }
  }

  function DigitChar(d: nat): (c: char)
    requires d < 10
    ensures IsDigit(c)
  {
    ('0' as int + d) as char
  }

  function DigitValue(c: char): (d: nat)
    requires IsDigit(c)
    ensures d < 10 && DigitChar(d) == c
  {
    c as int - '0' as int
  }

  /** Python `str(n)` / JavaScript `String(n)` of a natural number. */
  function NatToString(n: nat): (r: string)
    ensures r != [] && AllDigits(r)
    ensures |r| > 1 ==> r[0] != '0'
  {
    if n < 10 then [DigitChar(n)] else NatToString(n / 10) + [DigitChar(n % 10)]
  }

  /** Python `str(i)` of an integer. */
  function IntToString(i: int): string {
    if i < 0 then "-" + NatToString(-i) else NatToString(i)
  }

  /** Reads a non-empty string of decimal digits back as a number. */
  function ParseNat(s: string): Option<nat> {
    if s == [] || !AllDigits(s) then None
    else if |s| == 1 then Some(DigitValue(s[0]))
    else match ParseNat(s[..|s| - 1])
      case Some(p) => Some(p * 10 + DigitValue(s[|s| - 1]))
      case None => None
  }

  /** Reads an optionally negative decimal string back as an integer. */
  function ParseInt(s: string): Option<int> {
    if |s| >= 2 && s[0] == '-' then
      match ParseNat(s[1..])
      case Some(n) => if n == 0 then None else Some(0 - n as int)
      case None => None
    else
      match ParseNat(s)
      case Some(n) => Some(n)
      case None => None
  }

  lemma {:induction false} ParseNatToString(n: nat)
    ensures ParseNat(NatToString(n)) == Some(n)
  {
    if n >= 10 {
      var s := NatToString(n);
      var front := NatToString(n / 10);
      assert s[..|s| - 1] == front;
      ParseNatToString(n / 10);
      assert DigitValue(s[|s| - 1]) == n % 10;
    }
  }

  /** Rendering an integer in decimal and reading it back gives the integer. */
  lemma IntToStringRoundTrip(i: int)
    ensures ParseInt(IntToString(i)) == Some(i)
  {
    var s := IntToString(i);
    if i < 0 {
      var n: nat := -i;
      var digits := NatToString(n);
      assert s == "-" + digits;
      assert |s| >= 2 && s[0] == '-';
      assert s[1..] == digits;
      ParseNatToString(n);
      assert ParseNat(s[1..]) == Some(n);
    } else {
      ParseNatToString(i);
      assert IsDigit(s[0]);
      assert !(|s| >= 2 && s[0] == '-');
    }
  }
}
