/**
 * The few string operations the core relies on: decimal printing (template
 * literals such as `${n}`), unary `+` on a string of digits, `startsWith`,
 * `replace` with a global character pattern or a first-match pattern, and
 * Node's `Buffer.toString('hex')`.
 */
module Strings {
  import opened Wrappers

  type Byte = x: int | 0 <= x < 256

  predicate IsDigit(c: char) {
    '0' <= c <= '9'
  }

  predicate AllDigits(s: string) {
    forall i :: 0 <= i < |s| ==> IsDigit(s[i])
  }

  function DigitChar(d: nat): (c: char)
    requires d < 10
    ensures IsDigit(c) && (c as int) - ('0' as int) == d
  {
    ('0' as int + d) as char
  }

  /** `${n}` for a non-negative integer: its shortest decimal spelling. */
  function NatToString(n: nat): (s: string)
    ensures |s| >= 1 && AllDigits(s)
    ensures n >= 10 ==> s[0] != '0'
  {
    if n < 10 then [DigitChar(n)] else NatToString(n / 10) + [DigitChar(n % 10)]
  }

  /**
   * `+s` for a string made only of digits (the empty string reads as 0);
   * `None` stands for the NaN that any other character produces.
   */
  function ParseDigits(s: string): (r: Option<nat>)
    ensures r.Some? <==> AllDigits(s)
  {
    if s == [] then Some(0)
    else if !IsDigit(s[|s| - 1]) then None
    else match ParseDigits(s[..|s| - 1])
      case None => None
      case Some(v) => Some(10 * v + ((s[|s| - 1] as int) - ('0' as int)))
  }

  /** Printing a number and reading it back gives the number. */
  lemma {:induction false} ParsePrinted(n: nat)
    ensures ParseDigits(NatToString(n)) == Some(n)
  {
    var s := NatToString(n);
    if n >= 10 {
      ParsePrinted(n / 10);
      assert s[..|s| - 1] == NatToString(n / 10);
    }
  }

  /** Two numbers print the same only if they are equal. */
  lemma PrintedInjective(m: nat, n: nat)
    requires NatToString(m) == NatToString(n)
    ensures m == n
  {
    ParsePrinted(m);
    ParsePrinted(n);
  }

  /** `s.replace(/c/g, '')`: every occurrence of `c` removed. */
  function RemoveChar(s: string, c: char): (r: string)
    ensures c !in r
    ensures |r| <= |s|
    ensures c !in s ==> r == s
  {
    if s == [] then []
    else (if s[0] == c then [] else [s[0]]) + RemoveChar(s[1..], c)
  }

  lemma {:induction false} RemoveCharConcat(a: string, b: string, c: char)
    ensures RemoveChar(a + b, c) == RemoveChar(a, c) + RemoveChar(b, c)
  {
    if a != [] {
      assert (a + b)[1..] == a[1..] + b;
      RemoveCharConcat(a[1..], b, c);
    } else {
      assert a + b == b;
    }
  }

  predicate StartsWith(s: string, prefix: string) {
    |prefix| <= |s| && s[..|prefix|] == prefix
  }

  /** `s.replace(/^prefix/, '')`: the prefix removed when `s` starts with it. */
  function StripPrefix(s: string, prefix: string): (r: string)
    ensures StartsWith(s, prefix) ==> s == prefix + r
    ensures !StartsWith(s, prefix) ==> r == s
  {
    if StartsWith(s, prefix) then s[|prefix|..] else s
  }

  /** `pat` occurs in `s` starting at index `i`. */
  predicate OccursAt(s: string, pat: string, i: nat) {
    i + |pat| <= |s| && s[i..i + |pat|] == pat
  }

  lemma OccursShift(s: string, pat: string, j: nat)
    requires |s| > 0
    ensures OccursAt(s, pat, j + 1) <==> OccursAt(s[1..], pat, j)
  {
    if j + 1 + |pat| <= |s| {
      var u, v := s[j + 1..j + 1 + |pat|], s[1..][j..j + |pat|];
      forall k | 0 <= k < |u| ensures u[k] == v[k] {
      }
      assert u == v;
    }
  }

  /** `s.indexOf(pat)`: the index where `pat` first occurs, `None` for `-1`. */
  function IndexOf(s: string, pat: string): (r: Option<nat>)
    requires |pat| > 0
    ensures r.Some? ==> r.value + |pat| <= |s|
    decreases |s|
  {
    if |s| < |pat| then None
    else if StartsWith(s, pat) then Some(0)
    else match IndexOf(s[1..], pat)
      case None => None
      case Some(i) => Some(i + 1)
  }

  /** `IndexOf` finds the first occurrence, and finds none only when there is none. */
  lemma {:induction false} IndexOfSpec(s: string, pat: string)
    requires |pat| > 0
    ensures var r := IndexOf(s, pat);
      && (r.Some? ==> OccursAt(s, pat, r.value) && forall j: nat :: j < r.value ==> !OccursAt(s, pat, j))
      && (r.None? ==> forall j: nat :: !OccursAt(s, pat, j))
    decreases |s|
  {
    if |s| < |pat| {
    } else if StartsWith(s, pat) {
      assert s[0..|pat|] == s[..|pat|];
    } else {
      IndexOfSpec(s[1..], pat);
      forall j: nat ensures OccursAt(s, pat, j + 1) <==> OccursAt(s[1..], pat, j) {
        OccursShift(s, pat, j);
      }
      assert s[0..|pat|] == s[..|pat|];
      assert !OccursAt(s, pat, 0);
      forall j: nat | j > 0 ensures OccursAt(s, pat, j) <==> OccursAt(s[1..], pat, j - 1) {
        OccursShift(s, pat, j - 1);
      }
    }
  }

  /**
   * `s.replace(pat, rep)` with a string or non-global pattern: only the
   * first occurrence of `pat` is replaced.
   */
  function ReplaceFirst(s: string, pat: string, rep: string): (r: string)
    requires |pat| > 0
    ensures IndexOf(s, pat).None? ==> r == s
    ensures IndexOf(s, pat).Some? ==>
      var i := IndexOf(s, pat).value;
      r == s[..i] + rep + s[i + |pat|..]
    decreases |s|
  {
    if |s| < |pat| then s
    else if StartsWith(s, pat) then rep + s[|pat|..]
    else
      var rest := ReplaceFirst(s[1..], pat, rep);
      var idx := IndexOf(s[1..], pat);
      if idx.Some? then
        var i := idx.value;
        assert s[..i + 1] == [s[0]] + s[1..][..i];
        assert s[i + 1 + |pat|..] == s[1..][i + |pat|..];
        [s[0]] + rest
      else
        [s[0]] + rest
  }

  function HexChar(d: nat): (c: char)
    requires d < 16
  {
    if d < 10 then DigitChar(d) else ('a' as int + d - 10) as char
  }

  /** `Buffer.from(bytes).toString('hex')`: two lower-case hex digits per byte. */
  function ToHex(bytes: seq<Byte>): (h: string)
    ensures |h| == 2 * |bytes|
    ensures '.' !in h
  {
    if bytes == [] then []
    else [HexChar(bytes[0] as int / 16), HexChar(bytes[0] as int % 16)] + ToHex(bytes[1..])
  }

  /** Different keys never share a hex spelling. */
  lemma {:induction false} ToHexInjective(a: seq<Byte>, b: seq<Byte>)
    requires ToHex(a) == ToHex(b)
    ensures a == b
  {
    if a != [] {
      var ha, hb := ToHex(a), ToHex(b);
      assert |b| == |a|;
      assert ha[0] == hb[0] && ha[1] == hb[1];
      assert a[0] as int / 16 == b[0] as int / 16;
      assert a[0] as int % 16 == b[0] as int % 16;
      assert ha[2..] == ToHex(a[1..]) && hb[2..] == ToHex(b[1..]);
      ToHexInjective(a[1..], b[1..]);
    }
  }
}
