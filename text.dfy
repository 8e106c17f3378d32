/**
 * The string primitives of Rust's standard library that the chat core calls
 * (`str::replace`, `[String]::join`, `str::trim_end_matches` and the decimal
 * formatting of integers done by `format!("{}")`). Two more scans, shaped
 * like `str::find` and `str::trim_start_matches`, are not called by the chat
 * core: they are how this model writes out the matching done by the reply
 * clean-up's regular expressions. Strings are sequences of Unicode scalar
 * values, as Rust's `char`.
 */
module Text {
  import opened Wrappers

  /** `t` occurs in `s` starting at index `i`. */
  predicate OccursAt(s: string, t: string, i: nat) {
    i + |t| <= |s| && s[i..i + |t|] == t
  }

  predicate StartsWith(s: string, t: string) {
    OccursAt(s, t, 0)
  }

  predicate EndsWith(s: string, t: string) {
    |t| <= |s| && s[|s| - |t|..] == t
  }

  /** `str::contains` with a string pattern. */
  predicate Contains(s: string, t: string) {
    exists i: nat | i <= |s| :: OccursAt(s, t, i)
  }

  /** An occurrence in the tail is an occurrence in the whole string. */
  lemma ContainsOfTail(s: string, t: string)
    requires s != []
    ensures Contains(s[1..], t) ==> Contains(s, t)
  {
    if Contains(s[1..], t) {
      var i: nat :| i <= |s[1..]| && OccursAt(s[1..], t, i);
      assert s[i + 1..i + 1 + |t|] == s[1..][i..i + |t|];
      assert OccursAt(s, t, i + 1);
    }
  }

  /** Occurrences in `s[1..]` are the occurrences in `s` one position later. */
  lemma OccursInTail(s: string, t: string)
    requires s != []
    ensures forall i: nat :: OccursAt(s[1..], t, i) <==> OccursAt(s, t, i + 1)
  {
    forall i: nat
      ensures OccursAt(s[1..], t, i) <==> OccursAt(s, t, i + 1)
    {
      if i + 1 + |t| <= |s| {
        assert s[1..][i..i + |t|] == s[i + 1..i + 1 + |t|];
      }
    }
  }

  /** An occurrence that is not at the start is an occurrence in the tail. */
  lemma ContainsInTail(s: string, t: string)
    requires s != [] && !OccursAt(s, t, 0)
    ensures Contains(s, t) ==> Contains(s[1..], t)
  {
    if Contains(s, t) {
      var i: nat :| i <= |s| && OccursAt(s, t, i);
      OccursInTail(s, t);
      assert OccursAt(s[1..], t, i - 1);
    }
  }

  /** `str::find`: the index of the leftmost occurrence of `t` in `s`. */
  function FindFirst(s: string, t: string): (r: Option<nat>)
    ensures r.Some? ==> OccursAt(s, t, r.value) && forall k: nat :: k < r.value ==> !OccursAt(s, t, k)
    ensures r.None? <==> !Contains(s, t)
    decreases |s|
  {
    if OccursAt(s, t, 0) then Some(0)
    else if s == [] then None
    else
      OccursInTail(s, t);
      ContainsInTail(s, t);
      match FindFirst(s[1..], t)
      case None => None
      case Some(k) =>
        assert forall j: nat :: j < k + 1 ==> !OccursAt(s, t, j) by {
          forall j: nat | 1 <= j < k + 1
            ensures !OccursAt(s, t, j)
          {
            assert !OccursAt(s[1..], t, j - 1);
          }
        }
        Some(k + 1)
  }

  /** Trimming a leading run that ends inside `a` does not reach what follows `a`. */
  lemma {:induction false} TrimStartAppend(a: string, t: string, c: char)
    requires a != [] && a[|a| - 1] != c
    ensures TrimStartMatches(a + t, c) == TrimStartMatches(a, c) + t
    decreases |a|
  {
    assert (a + t)[0] == a[0];
    if a[0] == c {
      assert (a + t)[1..] == a[1..] + t;
      TrimStartAppend(a[1..], t, c);
    }
  }

  /** `str::trim_start_matches(c)`: `s` without its leading run of `c`. */
  function TrimStartMatches(s: string, c: char): (r: string)
    ensures |r| <= |s| && r == s[|s| - |r|..]
    ensures forall i :: 0 <= i < |s| - |r| ==> s[i] == c
    ensures r == [] || r[0] != c
    decreases |s|
  {
    if s != [] && s[0] == c then TrimStartMatches(s[1..], c) else s
  }

  /**
   * `str::replace(pat, rep)`: every leftmost non-overlapping occurrence of
   * `pat` is replaced by `rep`. An empty pattern matches at every character
   * boundary, so `rep` is inserted before each character and at the end.
   */
  function Replace(s: string, pat: string, rep: string): string
    decreases |s|
  {
    if pat == [] then
      if s == [] then rep else rep + [s[0]] + Replace(s[1..], pat, rep)
    else if StartsWith(s, pat) then
      rep + Replace(s[|pat|..], pat, rep)
    else if s == [] then
      []
    else
      [s[0]] + Replace(s[1..], pat, rep)
  }

  /** The character at position `p` of an occurrence starting at `i` is the pattern's. */
  lemma OccursChar(s: string, t: string, i: nat, p: nat)
    ensures OccursAt(s, t, i) && i <= p < i + |t| ==> s[p] == t[p - i]
  {
    if OccursAt(s, t, i) && i <= p < i + |t| {
      assert s[i..i + |t|][p - i] == s[p];
    }
  }

  /** Occurrences after a prefix `z` are the occurrences in the rest, shifted by `|z|`. */
  lemma OccursShift(z: string, s: string, t: string, i: nat)
    ensures OccursAt(z + s, t, |z| + i) <==> OccursAt(s, t, i)
  {
    if |z| + i + |t| <= |z + s| {
      assert (z + s)[|z| + i..|z| + i + |t|] == s[i..i + |t|];
    }
  }

  /** An occurrence that ends within `s` does not depend on what follows `s`. */
  lemma OccursPrefix(s: string, z: string, t: string, i: nat)
    ensures i + |t| <= |s| ==> (OccursAt(s + z, t, i) <==> OccursAt(s, t, i))
  {
    if i + |t| <= |s| {
      assert (s + z)[i..i + |t|] == s[i..i + |t|];
    }
  }

  /** What a prefix contains, the whole string contains. */
  lemma ContainsOfPrefix(p: string, s: string, t: string)
    ensures p <= s && Contains(p, t) ==> Contains(s, t)
  {
    if p <= s && Contains(p, t) {
      var i: nat :| i <= |p| && OccursAt(p, t, i);
      assert s == p + s[|p|..];
      OccursPrefix(p, s[|p|..], t, i);
    }
  }

  /**
   * Replacing in `x + y` is replacing in each part, when no occurrence of the
   * pattern starts in `x` and runs on into `y`.
   */
  lemma {:induction false} ReplaceSplit(x: string, y: string, pat: string, rep: string)
    requires pat != []
    requires forall i: nat :: i < |x| < i + |pat| ==> !OccursAt(x + y, pat, i)
    ensures Replace(x + y, pat, rep) == Replace(x, pat, rep) + Replace(y, pat, rep)
    decreases |x|
  {
    if x == [] {
      assert x + y == y;
    } else if StartsWith(x, pat) {
      var head, tail := x[..|pat|], x[|pat|..];
      assert x + y == head + (tail + y);
      assert (x + y)[..|pat|] == head;
      assert (x + y)[|pat|..] == tail + y;
      forall i: nat | i < |tail| < i + |pat|
        ensures !OccursAt(tail + y, pat, i)
      {
        OccursShift(head, tail + y, pat, i);
      }
      ReplaceSplit(tail, y, pat, rep);
    } else {
      if |pat| <= |x| {
        assert (x + y)[..|pat|] == x[..|pat|];
      }
      assert (x + y)[1..] == x[1..] + y;
      OccursInTail(x + y, pat);
      ReplaceSplit(x[1..], y, pat, rep);
    }
  }

  /**
   * A copy of a pattern whose first character occurs in it only once is
   * replaced wherever it stands, and the text around it is replaced on its own.
   */
  lemma ReplaceAround(a: string, b: string, pat: string, rep: string)
    requires pat != [] && forall k :: 0 < k < |pat| ==> pat[k] != pat[0]
    ensures Replace(a + pat + b, pat, rep) == Replace(a, pat, rep) + rep + Replace(b, pat, rep)
  {
    var s := a + (pat + b);
    forall i: nat | i < |a| < i + |pat|
      ensures !OccursAt(s, pat, i)
    {
      OccursChar(s, pat, i, |a|);
      assert s[|a|] == pat[0];
    }
    ReplaceSplit(a, pat + b, pat, rep);
    assert (pat + b)[..|pat|] == pat && (pat + b)[|pat|..] == b;
    ReplaceAtStart(pat + b, pat, rep);
    assert a + pat + b == s;
  }

  /**
   * `a + m + b` holds no copy of `pat` when neither `a` nor `b` does, `m`
   * starts with a character found nowhere else in `m` nor after the start of
   * `pat`, and `m` and `pat` differ somewhere in their common length.
   */
  lemma NoOccurrenceAround(a: string, m: string, b: string, pat: string)
    requires pat != [] && m != []
    requires !Contains(a, pat) && !Contains(b, pat)
    requires forall k :: 0 < k < |pat| ==> pat[k] != m[0]
    requires forall j :: 0 < j < |m| ==> m[j] != pat[0]
    requires exists k :: 0 <= k < |pat| && k < |m| && pat[k] != m[k]
    ensures !Contains(a + m + b, pat)
  {
    var s := a + m + b;
    var d :| 0 <= d < |pat| && d < |m| && pat[d] != m[d];
    forall i: nat | i <= |s|
      ensures !OccursAt(s, pat, i)
    {
      OccursChar(s, pat, i, i);
      if i + |pat| <= |a| {
        assert s == a + (m + b);
        OccursPrefix(a, m + b, pat, i);
      } else if i < |a| {
        OccursChar(s, pat, i, |a|);
        assert s[|a|] == m[0];
      } else if i == |a| {
        OccursChar(s, pat, i, |a| + d);
        assert s[|a| + d] == m[d];
      } else if i < |a| + |m| {
        assert s[i] == m[i - |a|];
      } else {
        OccursShift(a + m, b, pat, i - |a| - |m|);
      }
    }
  }

  /** A string that starts with a non-empty pattern has that copy replaced first. */
  lemma ReplaceAtStart(s: string, pat: string, rep: string)
    requires pat != [] && StartsWith(s, pat)
    ensures Replace(s, pat, rep) == rep + Replace(s[|pat|..], pat, rep)
  {
  }

  /** `q` between `p` and `t`: it opens with `p` and holds `q` right after it. */
  function Around(p: string, q: string, t: string): (r: string)
    ensures StartsWith(r, p) && OccursAt(r, q, |p|)
  {
    assert (p + q + t)[..|p|] == p;
    assert (p + q + t)[|p|..|p| + |q|] == q;
    p + q + t
  }

  /** Nothing to replace in the empty string. */
  lemma ReplaceNil(pat: string, rep: string)
    ensures pat != [] ==> Replace([], pat, rep) == []
  {
  }

  /** A string in which a non-empty pattern does not occur is left as it is. */
  lemma {:induction false} ReplaceAbsent(s: string, pat: string, rep: string)
    ensures pat != [] && !Contains(s, pat) ==> Replace(s, pat, rep) == s
    decreases |s|
  {
    if pat != [] && !Contains(s, pat) && s != [] {
      assert !OccursAt(s, pat, 0);
      ContainsOfTail(s, pat);
      ReplaceAbsent(s[1..], pat, rep);
    }
  }

  /** `[String]::join(sep)`. */
  function Join(xs: seq<string>, sep: string): string
    decreases |xs|
  {
    if |xs| == 0 then []
    else if |xs| == 1 then xs[0]
    else xs[0] + sep + Join(xs[1..], sep)
  }

  /** Joining one more element adds exactly the separator and that element. */
  lemma {:induction false} JoinSnoc(xs: seq<string>, x: string, sep: string)
    ensures Join(xs + [x], sep) == if xs == [] then x else Join(xs, sep) + sep + x
    decreases |xs|
  {
    if |xs| >= 2 {
      assert (xs + [x])[1..] == xs[1..] + [x];
      JoinSnoc(xs[1..], x, sep);
    } else if |xs| == 1 {
      assert (xs + [x])[1..] == [x];
    }
  }

  /** Joining with no separator: the first element, then the join of the rest. */
  lemma JoinCons(x: string, xs: seq<string>)
    ensures Join([x] + xs, "") == x + Join(xs, "")
  {
    assert ([x] + xs)[0] == x && ([x] + xs)[1..] == xs;
  }

  /** `k` copies of `t` one after another. */
  function Repeat(t: string, k: nat): string
    decreases k
  {
    if k == 0 then [] else Repeat(t, k - 1) + t
  }

  /**
   * `str::trim_end_matches(pat)`: strips copies of `pat` from the end as long
   * as the string ends with one. An empty pattern strips nothing.
   */
  function TrimEndMatches(s: string, pat: string): (r: string)
    ensures r <= s
    ensures pat != [] ==> !EndsWith(r, pat)
    decreases |s|
  {
    if pat != [] && EndsWith(s, pat) then TrimEndMatches(s[..|s| - |pat|], pat) else s
  }

  /**
   * Trimming stops at a character the pattern does not hold: after such a
   * character only the text that follows it is trimmed.
   */
  lemma {:induction false} TrimEndAfterStop(x: string, c: string, pat: string)
    requires pat != [] && x != []
    requires forall k :: 0 <= k < |pat| ==> pat[k] != x[|x| - 1]
    ensures TrimEndMatches(x + c, pat) == x + TrimEndMatches(c, pat)
    decreases |c|
  {
    var s := x + c;
    if |pat| <= |c| {
      assert s[|s| - |pat|..] == c[|c| - |pat|..];
      assert EndsWith(s, pat) == EndsWith(c, pat);
      if EndsWith(c, pat) {
        assert s[..|s| - |pat|] == x + c[..|c| - |pat|];
        TrimEndAfterStop(x, c[..|c| - |pat|], pat);
        assert TrimEndMatches(s, pat) == TrimEndMatches(x + c[..|c| - |pat|], pat);
        assert TrimEndMatches(c, pat) == TrimEndMatches(c[..|c| - |pat|], pat);
      } else {
        assert TrimEndMatches(s, pat) == s;
        assert TrimEndMatches(c, pat) == c;
      }
    } else {
      if |pat| <= |s| {
        assert s[|s| - |pat|..][|pat| - |c| - 1] == x[|x| - 1];
      }
      assert !EndsWith(s, pat);
      assert TrimEndMatches(s, pat) == s;
      assert TrimEndMatches(c, pat) == c;
    }
  }

  /** What `TrimEndMatches` strips is a whole number of copies of the pattern. */
  lemma {:induction false} TrimEndMatchesStripsCopies(s: string, pat: string) returns (k: nat)
    ensures s == TrimEndMatches(s, pat) + Repeat(pat, k)
    decreases |s|
  {
    if pat != [] && EndsWith(s, pat) {
      var p := s[..|s| - |pat|];
      assert s == p + pat;
      var k0 := TrimEndMatchesStripsCopies(p, pat);
      k := k0 + 1;
      assert TrimEndMatches(s, pat) == TrimEndMatches(p, pat);
      hide TrimEndMatches;
      assert Repeat(pat, k) == Repeat(pat, k0) + pat;
      assert s == TrimEndMatches(p, pat) + (Repeat(pat, k0) + pat);
    } else {
      k := 0;
    }
  }

  predicate IsDigit(c: char) {
    '0' <= c <= '9'
  }

  function DigitChar(d: nat): (c: char)
    requires d < 10
    ensures IsDigit(c) && (c as int) - ('0' as int) == d
  {
    (48 + d) as char
  }

  /** `format!("{}", n)` for an unsigned integer: decimal, no leading zeros. */
  function NatToString(n: nat): (r: string)
    ensures |r| >= 1
    ensures forall i :: 0 <= i < |r| ==> IsDigit(r[i])
    ensures n > 0 ==> r[0] != '0'
    decreases n
  {
    if n < 10 then [DigitChar(n)] else NatToString(n / 10) + [DigitChar(n % 10)]
  }

  /** `format!("{}", i)` for a signed integer. */
  function IntToString(i: int): (r: string)
    ensures i < 0 <==> (|r| > 0 && r[0] == '-')
  {
    if i < 0 then "-" + NatToString(-i) else NatToString(i)
  }

  /** Reads a string of decimal digits back as a number. */
  function ParseNat(s: string): nat
    requires forall i :: 0 <= i < |s| ==> IsDigit(s[i])
    decreases |s|
  {
    if s == [] then 0
    else
      assert IsDigit(s[|s| - 1]);
      ParseNat(s[..|s| - 1]) * 10 + ((s[|s| - 1] as int) - ('0' as int))
  }

  /** Decimal formatting is lossless: parsing the digits gives the number back. */
  lemma {:induction false} ParseNatToString(n: nat)
    ensures ParseNat(NatToString(n)) == n
    decreases n
  {
    var r := NatToString(n);
    if n >= 10 {
      ParseNatToString(n / 10);
      assert r[..|r| - 1] == NatToString(n / 10);
    } else {
      assert r[..|r| - 1] == [];
    }
  }

  /** Every character is a decimal digit. */
  predicate IsDecimal(s: string) {
    forall k :: 0 <= k < |s| ==> IsDigit(s[k])
  }

  /** `s` is decimal text for `i`: its digits, after a minus sign when `i` is negative. */
  predicate ReadsAsInt(s: string, i: int) {
    if i >= 0 then IsDecimal(s) && ParseNat(s) == i
    else s != [] && s[0] == '-' && IsDecimal(s[1..]) && ParseNat(s[1..]) == -i
  }

  /** The signed form is the unsigned one, with a minus sign in front when negative. */
  lemma IntToStringReadsBack(i: int)
    ensures i >= 0 ==> IntToString(i) == NatToString(i) && ParseNat(IntToString(i)) == i
    ensures i < 0 ==> IntToString(i) == "-" + NatToString(-i) && ParseNat(IntToString(i)[1..]) == -i
    ensures ReadsAsInt(IntToString(i), i)
  {
    if i >= 0 {
      ParseNatToString(i);
    } else {
      ParseNatToString(-i);
      assert IntToString(i)[1..] == NatToString(-i);
    }
  }

  /** Integer division truncating toward zero, as Rust's `/` on `i64`. */
  function TruncDiv(a: int, b: int): (q: int)
    requires b > 0
    ensures a >= 0 ==> q == a / b
    ensures (a >= 0 ==> q >= 0) && (a <= 0 ==> q <= 0)
    ensures -b < a < b ==> q == 0
    ensures a <= 0 ==> (q - 1) * b < a <= q * b
  {
    if a >= 0 then a / b else -((-a) / b)
  }
}
