/**
 * Text and sequence helpers with the meaning of the JavaScript built-ins the
 * monitor calls: template-literal rendering of integers, `||` on strings,
 * `slice`, `substring`, `includes`, `join`, `split`, `toLowerCase`,
 * `toUpperCase` (the last two on ASCII letters only).
 */
module Strings {
  import opened Wrappers

  function Min(a: int, b: int): int { if a <= b then a else b }

  function DigitChar(d: nat): char
    requires d < 10
  {
    "0123456789"[d]
  }

  /** Decimal digits of a natural number, most significant first. */
  function NatToString(n: nat): (r: string)
    ensures |r| >= 1
  {
    if n < 10 then [DigitChar(n)] else NatToString(n / 10) + [DigitChar(n % 10)]
  }

  lemma {:induction false} NatToStringDigits(n: nat)
    ensures forall c :: c in NatToString(n) ==> '0' <= c <= '9'
  {
    if n >= 10 {
      NatToStringDigits(n / 10);
    }
  }

  /** How `${n}` shows an integer. */
  function IntToString(n: int): string {
    if n < 0 then "-" + NatToString(-n) else NatToString(n)
  }

  /** A string is truthy in JavaScript iff it is present and non-empty. */
  predicate Filled(s: Option<string>) {
    s.Some? && s.value != ""
  }

  /** `s || d` for an optional string: an absent and an empty string both fall back to `d`. */
  function Or(s: Option<string>, d: string): string {
    if Filled(s) then s.value else d
  }

  /** `s.slice(0, n)` / `s.substring(0, n)` for n >= 0. */
  function Prefix<T>(s: seq<T>, n: nat): (r: seq<T>)
    ensures |r| == Min(|s|, n)
    ensures r <= s
  {
    if |s| <= n then s else s[..n]
  }

  /** `a.slice(start)`: a negative start counts from the end, and both ends clamp. */
  function SliceFrom<T>(s: seq<T>, start: int): (r: seq<T>)
    ensures start >= 0 ==> r == s[Min(start, |s|)..]
    ensures start < 0 ==> r == s[if |s| + start < 0 then 0 else |s| + start..]
  {
    var k := if start < 0 then (if |s| + start < 0 then 0 else |s| + start)
             else Min(start, |s|);
    s[k..]
  }

  lemma AppendAssoc<T>(a: seq<T>, b: seq<T>, c: seq<T>)
    ensures (a + b) + c == a + (b + c)
  {
  }

  /** A sequence is a prefix of itself followed by any seven more. */
  lemma PrefixOfConcat<T>(a: seq<T>, b: seq<T>, c: seq<T>, d: seq<T>, e: seq<T>, f: seq<T>, g: seq<T>, h: seq<T>)
    ensures a <= a + b + c + d + e + f + g + h
  {
    PrefixExtends(a, a, b);
    PrefixExtends(a, a + b, c);
    PrefixExtends(a, a + b + c, d);
    PrefixExtends(a, a + b + c + d, e);
    PrefixExtends(a, a + b + c + d + e, f);
    PrefixExtends(a, a + b + c + d + e + f, g);
    PrefixExtends(a, a + b + c + d + e + f + g, h);
  }

  lemma SuffixAppended<T>(s: seq<T>, t: seq<T>)
    ensures |s + t| >= |t| && (s + t)[|s + t| - |t|..] == t
  {
    assert (s + t)[|s|..] == t;
  }

  lemma PrefixExtends<T>(p: seq<T>, s: seq<T>, t: seq<T>)
    requires p <= s
    ensures p <= s + t
  {
    assert (s + t)[..|p|] == s[..|p|];
  }

  /** `parts.join(sep)`. */
  function Join(parts: seq<string>, sep: string): string {
    if |parts| == 0 then ""
    else if |parts| == 1 then parts[0]
    else parts[0] + sep + Join(parts[1..], sep)
  }

  /** Position of the first `c` in `s`. */
  function IndexOf(s: string, c: char): (i: nat)
    requires c in s
    ensures i < |s| && s[i] == c && c !in s[..i]
  {
    if s[0] == c then 0
    else
      assert c in s[1..] by { var k :| 0 <= k < |s| && s[k] == c; assert s[1..][k - 1] == c; }
      var j := IndexOf(s[1..], c);
      assert s[..j + 1] == [s[0]] + s[1..][..j];
      j + 1
  }

  /** `s.split(c)` for a one-character separator. */
  function Split(s: string, c: char): (r: seq<string>)
    ensures |r| >= 1
    decreases |s|
  {
    if c !in s then [s]
    else
      var i := IndexOf(s, c);
      [s[..i]] + Split(s[i + 1..], c)
  }

  /**
   * Splitting a joined list at its separator gives the list back, provided no
   * part contains the separator: every joined part can be read back line by line.
   */
  lemma {:induction false} SplitJoin(parts: seq<string>, c: char)
    requires |parts| >= 1
    requires forall k :: 0 <= k < |parts| ==> c !in parts[k]
    ensures Split(Join(parts, [c]), c) == parts
  {
    if |parts| == 1 {
      assert Join(parts, [c]) == parts[0];
    } else {
      var s := Join(parts, [c]);
      var rest := Join(parts[1..], [c]);
      assert s == parts[0] + [c] + rest;
      assert s[|parts[0]|] == c;
      assert s[..|parts[0]|] == parts[0];
      assert IndexOf(s, c) == |parts[0]|;
      assert s[|parts[0]| + 1..] == rest;
      SplitJoin(parts[1..], c);
    }
  }

  /** `sub` occurs in `s` starting at index `i`. */
  predicate OccursAt(s: string, sub: string, i: int) {
    0 <= i && i + |sub| <= |s| && s[i..i + |sub|] == sub
  }

  /** `s.includes(sub)`. */
  predicate Includes(s: string, sub: string)
    decreases |s|
  {
    |sub| <= |s| && (s[..|sub|] == sub || Includes(s[1..], sub))
  }

  /** `includes` is exactly substring containment at some position. */
  lemma {:induction false} IncludesIffOccurs(s: string, sub: string)
    ensures Includes(s, sub) <==> exists i :: OccursAt(s, sub, i)
    decreases |s|
  {
    if |sub| <= |s| {
      if s[..|sub|] == sub {
        assert OccursAt(s, sub, 0);
      } else {
        IncludesIffOccurs(s[1..], sub);
        if Includes(s[1..], sub) {
          var i :| OccursAt(s[1..], sub, i);
          assert s[1..][i..i + |sub|] == s[i + 1..i + 1 + |sub|];
          assert OccursAt(s, sub, i + 1);
        }
        if exists i :: OccursAt(s, sub, i) {
          var i :| OccursAt(s, sub, i);
          assert i != 0;
          assert s[1..][i - 1..i - 1 + |sub|] == s[i..i + |sub|];
          assert OccursAt(s[1..], sub, i - 1);
        }
      }
    }
  }

  function LowerChar(c: char): char {
    if 'A' <= c <= 'Z' then (c as int + 32) as char else c
  }

  function UpperChar(c: char): char {
    if 'a' <= c <= 'z' then (c as int - 32) as char else c
  }

  /** `s.toLowerCase()` on ASCII letters. */
  function ToLower(s: string): (r: string)
    ensures |r| == |s|
    ensures forall i :: 0 <= i < |s| ==> r[i] == LowerChar(s[i])
  {
    if s == [] then [] else [LowerChar(s[0])] + ToLower(s[1..])
  }

  /** `s.toUpperCase()` on ASCII letters. */
  function ToUpper(s: string): (r: string)
    ensures |r| == |s|
    ensures forall i :: 0 <= i < |s| ==> r[i] == UpperChar(s[i])
  {
    if s == [] then [] else [UpperChar(s[0])] + ToUpper(s[1..])
  }

  /**
   * `xs.forEach((x, i) => out += render(x, n + i))`: the renderings of `xs` in
   * order, numbered from `n`.
   */
  function Numbered<T>(xs: seq<T>, n: int, render: (T, int) -> string): string {
    if xs == [] then "" else render(xs[0], n) + Numbered(xs[1..], n + 1, render)
  }

  lemma {:induction false} NumberedSnoc<T>(xs: seq<T>, x: T, n: int, render: (T, int) -> string)
    ensures Numbered(xs + [x], n, render) == Numbered(xs, n, render) + render(x, n + |xs|)
  {
    if xs == [] {
      assert Numbered([x], n, render) == render(x, n) + Numbered([], n + 1, render);
    } else {
      assert (xs + [x])[1..] == xs[1..] + [x];
      NumberedSnoc(xs[1..], x, n + 1, render);
    }
  }

  /** The `k`-th element (from 0) is rendered with number `n + k`, after those before it and before those after it. */
  lemma {:induction false} NumberedAt<T>(xs: seq<T>, n: int, render: (T, int) -> string, k: nat)
    requires k < |xs|
    ensures Numbered(xs, n, render)
            == Numbered(xs[..k], n, render) + render(xs[k], n + k) + Numbered(xs[k + 1..], n + k + 1, render)
  {
    if k == 0 {
      assert xs[..0] == [];
    } else {
      NumberedAt(xs[1..], n + 1, render, k - 1);
      assert xs[1..][..k - 1] == xs[1..k];
      assert xs[1..][k - 1] == xs[k];
      assert xs[1..][k..] == xs[k + 1..];
      assert xs[..k][0] == xs[0] && xs[..k][1..] == xs[1..k];
    }
  }

  /** `xs.forEach((x, i) => out += render(x, n + i))`, appending to `out` in place. */
  method AppendNumbered<T>(out: string, xs: seq<T>, n: int, render: (T, int) -> string) returns (r: string)
    ensures r == out + Numbered(xs, n, render)
  {
    r := out;
    var i := 0;
    while i < |xs|
      invariant 0 <= i <= |xs|
      invariant r == out + Numbered(xs[..i], n, render)
    {
      NumberedSnoc(xs[..i], xs[i], n, render);
      assert xs[..i + 1] == xs[..i] + [xs[i]];
      r := r + render(xs[i], n + i);
      i := i + 1;
    }
    assert xs[..i] == xs;
  }
}
