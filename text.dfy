/**
  The few string operations of JavaScript the client relies on: `String.prototype.trim`,
  `includes`, `startsWith`, and the decimal rendering of numbers inside template literals.
 */
module Text {

  /** The characters `trim` removes: ECMAScript's WhiteSpace and LineTerminator code points. */
  predicate IsJsSpace(c: char) {
    || c == '\t' || c == '\n' || c == '\U{000B}' || c == '\U{000C}' || c == '\r' || c == ' '
    || c == '\U{00A0}' || c == '\U{1680}' || ('\U{2000}' <= c <= '\U{200A}')
    || c == '\U{2028}' || c == '\U{2029}' || c == '\U{202F}' || c == '\U{205F}'
    || c == '\U{3000}' || c == '\U{FEFF}'
  }

  predicate AllSpace(s: string) {
    forall i :: 0 <= i < |s| ==> IsJsSpace(s[i])
  }

  /** Drops leading white space. */
  function TrimStart(s: string): string {
    if s != [] && IsJsSpace(s[0]) then TrimStart(s[1..]) else s
  }

  /** Drops trailing white space. */
  function TrimEnd(s: string): string {
    if s != [] && IsJsSpace(s[|s| - 1]) then TrimEnd(s[..|s| - 1]) else s
  }

  /** `String.prototype.trim`: white space dropped from both ends. */
  function Trim(s: string): string {
    TrimEnd(TrimStart(s))
  }

  /** What `TrimStart` keeps is a suffix of `s` that does not start with white space, and all it drops is white space. */
  lemma {:induction false} TrimStartDrops(s: string)
    ensures var r := TrimStart(s);
      && |r| <= |s| && r == s[|s| - |r|..] && AllSpace(s[..|s| - |r|])
      && (r == [] || !IsJsSpace(r[0]))
  {
    if s != [] && IsJsSpace(s[0]) {
      TrimStartDrops(s[1..]);
      var r := TrimStart(s[1..]);
      assert s[..|s| - |r|] == [s[0]] + s[1..][..|s[1..]| - |r|];
    }
  }

  /** What `TrimEnd` keeps is a prefix of `s` that does not end with white space, and all it drops is white space. */
  lemma {:induction false} TrimEndDrops(s: string)
    ensures var r := TrimEnd(s);
      && |r| <= |s| && r == s[..|r|] && AllSpace(s[|r|..])
      && (r == [] || !IsJsSpace(r[|r| - 1]))
  {
    if s != [] && IsJsSpace(s[|s| - 1]) {
      TrimEndDrops(s[..|s| - 1]);
      var r := TrimEnd(s[..|s| - 1]);
      assert s[|r|..] == s[..|s| - 1][|r|..] + [s[|s| - 1]];
    }
  }

  /** A string trims to the empty string exactly when every one of its characters is white space. */
  lemma TrimEmptyIff(s: string)
    ensures Trim(s) == [] <==> AllSpace(s)
  {
    var t := TrimStart(s);
    TrimStartDrops(s);
    TrimEndDrops(t);
    if Trim(s) == [] {
      assert AllSpace(t[0..]) && t[0..] == t;
      assert t == [];
      assert s[..|s|] == s;
    }
  }

  /** `s.startsWith(p)`. */
  predicate StartsWith(s: string, p: string) {
    |p| <= |s| && s[..|p|] == p
  }

  /** `s.endsWith(p)`. */
  predicate EndsWith(s: string, p: string) {
    |p| <= |s| && s[|s| - |p|..] == p
  }

  /** Concatenation is associative. */
  lemma AppendAssoc(a: string, b: string, c: string)
    ensures (a + b) + c == a + (b + c)
  {
  }

  /** A suffix no longer than what was appended is decided by the appended part alone. */
  lemma EndsWithAppend(a: string, t: string, p: string)
    requires |p| <= |t|
    ensures EndsWith(a + t, p) <==> EndsWith(t, p)
  {
    assert (a + t)[|a + t| - |p|..] == t[|t| - |p|..];
  }

  /** The pieces of `ts` joined in order. */
  function Concat(ts: seq<string>): string {
    if ts == [] then "" else Concat(ts[..|ts| - 1]) + ts[|ts| - 1]
  }

  /** Adding piece `k` to the first `k` pieces adds it at the end of the text. */
  lemma ConcatSnoc(ts: seq<string>, k: nat)
    requires k < |ts|
    ensures Concat(ts[..k + 1]) == Concat(ts[..k]) + ts[k]
  {
    assert ts[..k + 1][..k] == ts[..k];
  }

  /** Two pieces join into their concatenation. */
  lemma ConcatPair(ts: seq<string>)
    requires |ts| == 2
    ensures Concat(ts) == ts[0] + ts[1]
  {
    assert ts[..1][..0] == [];
    assert ts[..|ts| - 1] == ts[..1];
    assert Concat(ts[..1]) == Concat([]) + ts[0];
  }

  /** Joining distributes over splitting the list of pieces. */
  lemma {:induction false} ConcatAppend(a: seq<string>, b: seq<string>)
    ensures Concat(a + b) == Concat(a) + Concat(b)
    decreases |b|
  {
    if b == [] {
      assert a + b == a;
    } else {
      var b' := b[..|b| - 1];
      assert (a + b)[..|a + b| - 1] == a + b';
      ConcatAppend(a, b');
      AppendAssoc(Concat(a), Concat(b'), b[|b| - 1]);
    }
  }

  /** Piece `k` stands between the pieces before it and the pieces after it. */
  lemma ConcatAt(ts: seq<string>, k: nat)
    requires k < |ts|
    ensures Concat(ts) == Concat(ts[..k]) + ts[k] + Concat(ts[k + 1..])
  {
    assert ts == ts[..k + 1] + ts[k + 1..];
    ConcatAppend(ts[..k + 1], ts[k + 1..]);
    ConcatSnoc(ts, k);
  }

  /** `sub` occurs in `s` starting at position `i`. */
  predicate OccursAt(s: string, sub: string, i: nat) {
    i + |sub| <= |s| && s[i..i + |sub|] == sub
  }

  /** `s.includes(sub)`: `sub` occurs in `s` at some position. */
  predicate Contains(s: string, sub: string) {
    exists i: nat :: i <= |s| && OccursAt(s, sub, i)
  }

  /** An occurrence at position `i` makes `Contains` true. */
  lemma ContainsAt(s: string, sub: string, i: nat)
    requires i + |sub| <= |s| && s[i..i + |sub|] == sub
    ensures Contains(s, sub)
  {
    assert OccursAt(s, sub, i);
  }

  /** `s` contains `sub` exactly when `sub` starts `s` or occurs in the rest of `s`. */
  lemma ContainsUncons(s: string, sub: string)
    requires s != []
    ensures Contains(s, sub) <==> StartsWith(s, sub) || Contains(s[1..], sub)
  {
    if Contains(s, sub) {
      var i: nat :| i <= |s| && OccursAt(s, sub, i);
      assert i + |sub| <= |s| && s[i..i + |sub|] == sub;
      if i > 0 {
        assert s[1..][i - 1..i - 1 + |sub|] == sub;
        assert OccursAt(s[1..], sub, i - 1);
      } else {
        assert s[..|sub|] == s[0..|sub|];
      }
    }
    if StartsWith(s, sub) {
      assert s[0..|sub|] == s[..|sub|];
      assert OccursAt(s, sub, 0);
    }
    if Contains(s[1..], sub) {
      var i: nat :| i <= |s[1..]| && OccursAt(s[1..], sub, i);
      assert i + 1 + |sub| <= |s| && s[1..][i..i + |sub|] == sub;
      assert s[i + 1..i + 1 + |sub|] == s[1..][i..i + |sub|];
      assert OccursAt(s, sub, i + 1);
    }
  }

  /**
    A prefix `a` in which the first character of `sub` never appears cannot hold the start of an
    occurrence, so `a + b` contains `sub` exactly when `b` does.
   */
  lemma ContainsSkip(a: string, b: string, sub: string)
    requires sub != []
    requires forall k :: 0 <= k < |a| ==> a[k] != sub[0]
    ensures Contains(a + b, sub) <==> Contains(b, sub)
  {
    var s := a + b;
    if Contains(s, sub) {
      var i: nat :| i <= |s| && OccursAt(s, sub, i);
      assert i + |sub| <= |s| && s[i..i + |sub|] == sub;
      assert s[i] == s[i..i + |sub|][0] == sub[0];
      assert i >= |a|;
      assert b[i - |a|..i - |a| + |sub|] == s[i..i + |sub|];
      assert OccursAt(b, sub, i - |a|);
    }
    if Contains(b, sub) {
      var i: nat :| i <= |b| && OccursAt(b, sub, i);
      assert i + |sub| <= |b| && b[i..i + |sub|] == sub;
      assert s[i + |a|..i + |a| + |sub|] == b[i..i + |sub|];
      assert OccursAt(s, sub, i + |a|);
    }
  }

  /** Whatever `b` contains, `a + b` contains too. */
  lemma ContainsAfter(a: string, b: string, sub: string)
    requires Contains(b, sub)
    ensures Contains(a + b, sub)
  {
    var i: nat :| i <= |b| && OccursAt(b, sub, i);
    assert i + |sub| <= |b| && b[i..i + |sub|] == sub;
    assert (a + b)[i + |a|..i + |a| + |sub|] == b[i..i + |sub|];
    assert OccursAt(a + b, sub, i + |a|);
  }

  /** A string in which the first character of `sub` never appears does not contain `sub`. */
  lemma AbsentFirstChar(a: string, sub: string)
    requires sub != []
    requires forall k :: 0 <= k < |a| ==> a[k] != sub[0]
    ensures !Contains(a, sub)
  {
    ContainsSkip(a, [], sub);
    assert a + [] == a;
  }

  predicate IsDigit(c: char) {
    '0' <= c <= '9'
  }

  predicate IsDigits(s: string) {
    forall i :: 0 <= i < |s| ==> IsDigit(s[i])
  }

  function DigitChar(d: nat): (c: char)
    requires d < 10
    ensures IsDigit(c)
  {
    (48 + d) as char
  }

  function DigitValue(c: char): nat {
    if IsDigit(c) then c as int - 48 else 0
  }

  /** The value of a string of decimal digits, most significant first. */
  function ParseDecimal(s: string): nat {
    if s == [] then 0 else ParseDecimal(s[..|s| - 1]) * 10 + DigitValue(s[|s| - 1])
  }

  /**
    The decimal text of a non-negative integer, as a template literal `${n}` prints it:
    digits only, no leading zero, and reading it back gives `n`.
   */
  function NatToString(n: nat): (r: string)
    ensures r != [] && IsDigits(r)
    ensures n > 0 ==> r[0] != '0'
    ensures ParseDecimal(r) == n
  {
    if n < 10 then
      [DigitChar(n)]
    else
      var prefix := NatToString(n / 10);
      var r := prefix + [DigitChar(n % 10)];
      assert r[..|r| - 1] == prefix;
      r
  }

  /** Distinct numbers print differently. */
  lemma NatToStringInjective(m: nat, n: nat)
    requires NatToString(m) == NatToString(n)
    ensures m == n
  {
  }

  /** An integer in a template literal: a minus sign before negative values. */
  function IntToString(i: int): (r: string)
    ensures r != []
    ensures i < 0 <==> r[0] == '-'
  {
    if i < 0 then "-" + NatToString(-i) else NatToString(i)
  }
}
