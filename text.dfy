/** The Python string built-ins the core relies on: `str.strip()`,
    `str.rstrip(c)`, `"".join(...)` and `repr` of a list of strings. */
module Text {

  /** `c.isspace()`: the characters Python's `str.strip()` removes by default. */
  predicate IsSpace(c: char)
  {
    || ('\U{9}' <= c <= '\U{d}') || ('\U{1c}' <= c <= '\U{20}')
    || c == '\U{85}' || c == '\U{a0}' || c == '\U{1680}'
    || ('\U{2000}' <= c <= '\U{200a}')
    || c == '\U{2028}' || c == '\U{2029}' || c == '\U{202f}' || c == '\U{205f}' || c == '\U{3000}'
  }

  /** Every character of `s` from `lo` up to `hi` is whitespace. */
  predicate SpaceBetween(s: string, lo: int, hi: int)
  {
    forall k :: lo <= k < hi && 0 <= k < |s| ==> IsSpace(s[k])
  }

  /** Neither end of `s` is whitespace. */
  predicate Trimmed(s: string)
  {
    s == [] || (!IsSpace(s[0]) && !IsSpace(s[|s| - 1]))
  }

  /** Where `s.lstrip()` starts when scanning from `lo`: the first position
      at or after `lo` that is not whitespace. */
  function SpaceFrom(s: string, lo: nat): (n: nat)
    requires lo <= |s|
    ensures lo <= n <= |s| && SpaceBetween(s, lo, n)
    ensures n == |s| || !IsSpace(s[n])
    decreases |s| - lo
  {
    if lo < |s| && IsSpace(s[lo]) then SpaceFrom(s, lo + 1) else lo
  }

  /** Where `s[lo..hi].rstrip()` ends: the position after the last
      character before `hi` that is not whitespace, or `lo`. */
  function SpaceBefore(s: string, lo: nat, hi: nat): (n: nat)
    requires lo <= hi <= |s|
    ensures lo <= n <= hi && SpaceBetween(s, n, hi)
    ensures n == lo || !IsSpace(s[n - 1])
    decreases hi - lo
  {
    if lo < hi && IsSpace(s[hi - 1]) then SpaceBefore(s, lo, hi - 1) else hi
  }

  /** `s.strip()`: `s.lstrip()`, then `.rstrip()` of what is left. */
  function Strip(s: string): (r: string)
    ensures Trimmed(r)
  {
    var i := SpaceFrom(s, 0);
    var j := SpaceBefore(s, i, |s|);
    assert i < j ==> !IsSpace(s[i]) && !IsSpace(s[j - 1]);
    s[i..j]
  }

  /** `s.strip()` removes whitespace from both ends and nothing else: it is
      the slice of `s` that only whitespace surrounds. */
  lemma {:induction false} StripSlice(s: string)
    ensures var i := SpaceFrom(s, 0);
            var j := SpaceBefore(s, i, |s|);
            && Strip(s) == s[i..j] && SpaceBetween(s, 0, i) && SpaceBetween(s, j, |s|)
  {
  }

  /** The scan from `lo` stops at the first position that is not
      whitespace. */
  lemma {:induction false} SpaceFromIs(s: string, lo: nat, n: nat)
    requires lo <= n <= |s| && SpaceBetween(s, lo, n) && (n == |s| || !IsSpace(s[n]))
    ensures SpaceFrom(s, lo) == n
    decreases n - lo
  {
    if lo < n {
      assert IsSpace(s[lo]);
      SpaceFromIs(s, lo + 1, n);
    }
  }

  /** The scan back from `hi` stops after the last position that is not
      whitespace. */
  lemma {:induction false} SpaceBeforeIs(s: string, lo: nat, hi: nat, n: nat)
    requires lo <= n <= hi <= |s| && SpaceBetween(s, n, hi) && (n == lo || !IsSpace(s[n - 1]))
    ensures SpaceBefore(s, lo, hi) == n
    decreases hi - n
  {
    if n < hi {
      assert IsSpace(s[hi - 1]);
      SpaceBeforeIs(s, lo, hi - 1, n);
    }
  }

  /** Stripping any whitespace padding of a trimmed string gives that string back. */
  lemma {:induction false} StripPadded(w1: string, r: string, w2: string)
    requires SpaceBetween(w1, 0, |w1|) && SpaceBetween(w2, 0, |w2|) && Trimmed(r)
    ensures Strip(w1 + r + w2) == r
  {
    var s := w1 + r + w2;
    var a, b := |w1|, |w1| + |r|;
    assert SpaceBetween(s, b, |s|) by {
      forall k | b <= k < |s|
        ensures IsSpace(s[k])
      {
        assert s[k] == w2[k - b];
      }
    }
    if r == [] {
      assert SpaceBetween(s, 0, a) by {
        forall k | 0 <= k < a
          ensures IsSpace(s[k])
        {
          assert s[k] == w1[k];
        }
      }
      SpaceFromIs(s, 0, |s|);
    } else {
      assert s[a] == r[0] && s[b - 1] == r[|r| - 1];
      SpaceFromIs(s, 0, a);
      SpaceBeforeIs(s, a, |s|, b);
      assert s[a..b] == r;
    }
  }

  /** Stripping twice is stripping once. */
  lemma {:induction false} StripIdempotent(s: string)
    ensures Strip(Strip(s)) == Strip(s)
  {
    StripPadded([], Strip(s), []);
    assert [] + Strip(s) + [] == Strip(s);
  }

  /** Appending to a prefixed text appends to the text after the prefix. */
  lemma {:induction false} AppendAssoc(a: string, b: string, c: string)
    ensures (a + b) + c == a + (b + c)
  {
  }

  /** `s.rstrip(c)` for a single character `c`. */
  function RStripChar(s: string, c: char): (r: string)
    ensures |r| <= |s| && r == s[..|r|]
    ensures forall i :: |r| <= i < |s| ==> s[i] == c
    ensures r == [] || r[|r| - 1] != c
  {
    if |s| > 0 && s[|s| - 1] == c then RStripChar(s[..|s| - 1], c) else s
  }

  /** `"".join(parts)` */
  function Concat(parts: seq<string>): string
  {
    if parts == [] then "" else Concat(parts[..|parts| - 1]) + parts[|parts| - 1]
  }

  lemma {:induction false} ConcatAppend(xs: seq<string>, ys: seq<string>)
    ensures Concat(xs + ys) == Concat(xs) + Concat(ys)
    decreases |ys|
  {
    if ys == [] {
      assert xs + ys == xs;
    } else {
      assert (xs + ys)[..|xs + ys| - 1] == xs + ys[..|ys| - 1];
      ConcatAppend(xs, ys[..|ys| - 1]);
    }
  }

  /** `sep.join(parts)` */
  function Join(sep: string, parts: seq<string>): string
  {
    if parts == [] then ""
    else if |parts| == 1 then parts[0]
    else Join(sep, parts[..|parts| - 1]) + sep + parts[|parts| - 1]
  }

  /** `repr(s)` of a string that holds no quote or backslash. */
  function ReprStr(s: string): string
  {
    "'" + s + "'"
  }

  /** `str(names)` of a list of strings, as Python prints it. */
  function ReprList(names: seq<string>): string
  {
    "[" + Join(", ", seq(|names|, i requires 0 <= i < |names| => ReprStr(names[i]))) + "]"
  }

  /** `str(n)` of a non-negative int: its decimal digits. */
  function Digits(n: nat): (r: string)
    ensures r != [] && forall k :: 0 <= k < |r| ==> '0' <= r[k] <= '9'
    decreases n
  {
    if n < 10 then ["0123456789"[n]] else Digits(n / 10) + ["0123456789"[n % 10]]
  }

  /** `str(i)` of an int: a minus sign for a negative one, then its digits. */
  function Decimal(i: int): (r: string)
    ensures r != [] && (r[0] == '-' <==> i < 0)
  {
    if i < 0 then "-" + Digits(-i) else Digits(i)
  }
}
