/** The Python string operations the core relies on, over `seq<char>`:
    `in` (substring test), `lower()`, slicing `s[:n]`, `sep.join(xs)`,
    `split(sep, 1)`, `replace(p, "")`, `strip()` and `<=` on strings. */
module Text {
  import opened Wrappers

  // ---------------------------------------------------------------------
  // lower()

  /** `c.lower()` for the ASCII letters; every other character is kept. */
  function LowerChar(c: char): char {
    if 'A' <= c <= 'Z' then (c as int + 32) as char else c
  }

  function Lower(s: string): (r: string)
    ensures |r| == |s|
    ensures forall i :: 0 <= i < |s| ==> r[i] == LowerChar(s[i])
  {
    seq(|s|, i requires 0 <= i < |s| => LowerChar(s[i]))
  }

  // ---------------------------------------------------------------------
  // Substring search: `p in s`, `s.find(p)`

  /** `s.startswith(p)`. */
  predicate StartsWith(s: string, p: string) {
    |p| <= |s| && s[..|p|] == p
  }

  lemma StartsWithTag(tag: string, x: string)
    ensures StartsWith(tag + x, tag)
  {
    assert (tag + x)[..|tag|] == tag;
  }

  /** A prefix of a prefix is a prefix. */
  lemma StartsWithTrans(a: string, b: string, c: string)
    requires StartsWith(b, a) && StartsWith(c, b)
    ensures StartsWith(c, a)
  {
    assert c[..|a|] == c[..|b|][..|a|];
  }

  /** Two tags that differ at some index inside both cannot both start a string. */
  lemma StartsWithOtherTag(tag: string, x: string, other: string, k: nat)
    requires k < |tag| && k < |other| && tag[k] != other[k]
    ensures !StartsWith(tag + x, other)
  {
    if |other| <= |tag + x| {
      assert (tag + x)[..|other|][k] == tag[k];
    }
  }

  /** `p` occurs in `s` starting at index `j`. */
  predicate MatchAt(s: string, p: string, j: int) {
    0 <= j && j + |p| <= |s| && s[j..j + |p|] == p
  }

  /** The first index at or after `from` where `p` occurs in `s`. */
  function IndexOfFrom(s: string, p: string, from: nat): (r: Option<nat>)
    ensures r.Some? ==> from <= r.value && MatchAt(s, p, r.value)
    ensures r.Some? ==> forall j :: from <= j < r.value ==> !MatchAt(s, p, j)
    ensures r.None? ==> forall j :: from <= j ==> !MatchAt(s, p, j)
    decreases |s| - from
  {
    if from + |p| > |s| then None
    else if MatchAt(s, p, from) then Some(from)
    else IndexOfFrom(s, p, from + 1)
  }

  /** `s.find(p)`, with None for -1. */
  function IndexOf(s: string, p: string): (r: Option<nat>)
    ensures r.Some? ==> MatchAt(s, p, r.value) && forall j :: 0 <= j < r.value ==> !MatchAt(s, p, j)
    ensures r.None? ==> forall j :: !MatchAt(s, p, j)
  {
    IndexOfFrom(s, p, 0)
  }

  /** Python's `p in s`. */
  predicate Contains(s: string, p: string) {
    IndexOf(s, p).Some?
  }

  /** `any(k in s for k in keys)`. */
  predicate ContainsAny(s: string, keys: seq<string>) {
    exists i :: 0 <= i < |keys| && Contains(s, keys[i])
  }

  lemma ContainsFromMatch(s: string, p: string, j: int)
    requires MatchAt(s, p, j)
    ensures Contains(s, p)
  {
  }

  lemma MatchFromContains(s: string, p: string) returns (j: nat)
    requires Contains(s, p)
    ensures MatchAt(s, p, j)
  {
    j := IndexOf(s, p).value;
  }

  /** Whatever surrounds it, a string contains itself verbatim. */
  lemma {:induction false} ContainsInfix(a: string, p: string, b: string)
    ensures Contains(a + p + b, p)
  {
    var s := a + p + b;
    assert s[|a|..|a| + |p|] == p;
    ContainsFromMatch(s, p, |a|);
  }

  /** Each of the three values interpolated into a four-piece template
      appears in the result verbatim. */
  lemma {:induction false} ContainsTemplateParts(a: string, x: string, b: string, y: string, c: string, z: string, d: string)
    ensures Contains(a + x + b + y + c + z + d, x)
    ensures Contains(a + x + b + y + c + z + d, y)
    ensures Contains(a + x + b + y + c + z + d, z)
  {
    var s := a + x + b + y + c + z + d;
    assert s == a + x + (b + y + c + z + d);
    ContainsInfix(a, x, b + y + c + z + d);
    assert s == (a + x + b) + y + (c + z + d);
    ContainsInfix(a + x + b, y, c + z + d);
    assert s == (a + x + b + y + c) + z + d;
    ContainsInfix(a + x + b + y + c, z, d);
  }

  /** Text that contains `p` still contains it inside any surroundings. */
  lemma {:induction false} ContainsWithin(a: string, q: string, b: string, p: string)
    requires Contains(q, p)
    ensures Contains(a + q + b, p)
  {
    var j := MatchFromContains(q, p);
    assert (a + q + b)[|a| + j..|a| + j + |p|] == q[j..j + |p|];
    ContainsFromMatch(a + q + b, p, |a| + j);
  }

  /** A match fixes each character of its window. */
  lemma MatchCharWhen(s: string, p: string, j: int, k: int)
    requires 0 <= j <= k < j + |p| && k < |s|
    ensures MatchAt(s, p, j) ==> s[k] == p[k - j]
  {
    if MatchAt(s, p, j) {
      assert s[j..j + |p|][k - j] == s[k];
    }
  }

  /** A match whose window lies inside the middle operand is a match there. */
  lemma MatchInsideWhen(a: string, q: string, b: string, p: string, j: int)
    requires |a| <= j && j + |p| <= |a| + |q|
    ensures MatchAt(a + q + b, p, j) ==> MatchAt(q, p, j - |a|)
  {
    assert (a + q + b)[j..j + |p|] == q[j - |a|..j - |a| + |p|];
  }

  /** A pattern absent from `q` cannot start at or before the end of `q` in
      `a + q + b` when its first character is not in `a` and the first
      character of `b` is not in the pattern. */
  lemma NoMatchInFrame(a: string, q: string, b: string, p: string, j: int)
    requires |p| > 0 && !Contains(q, p) && p[0] !in a && (b == [] || b[0] !in p)
    requires 0 <= j <= |a| + |q|
    ensures !MatchAt(a + q + b, p, j)
  {
    var s := a + q + b;
    if j < |a| {
      assert s[j] == a[j];
      MatchCharWhen(s, p, j, j);
    } else if j + |p| > |a| + |q| {
      if b != [] {
        var k := |a| + |q|;
        assert s[k] == b[0];
        assert b[0] != p[k - j];
        MatchCharWhen(s, p, j, k);
      }
    } else {
      MatchInsideWhen(a, q, b, p, j);
      assert !MatchAt(q, p, j - |a|) by {
        assert MatchAt(q, p, j - |a|) ==> Contains(q, p);
      }
    }
  }

  // ---------------------------------------------------------------------
  // Slicing s[:n]

  /** `s[:n]`: the first `n` characters, or all of `s` when it is shorter. */
  function Take<T>(s: seq<T>, n: nat): (r: seq<T>)
    ensures |r| == if |s| < n then |s| else n
    ensures r == s[..|r|]
  {
    if |s| <= n then s else s[..n]
  }

  /** `s[-n:]`: the last `n` elements, or all of `s` when it is shorter. */
  function Last<T>(s: seq<T>, n: nat): (r: seq<T>)
    ensures |r| == if |s| < n then |s| else n
    ensures s == s[..|s| - |r|] + r
  {
    if |s| <= n then s else s[|s| - n..]
  }

  // ---------------------------------------------------------------------
  // Joining and splitting

  /** `sep.join(xs)`. */
  function Join(xs: seq<string>, sep: string): string
    decreases |xs|
  {
    if |xs| == 0 then ""
    else if |xs| == 1 then xs[0]
    else xs[0] + sep + Join(xs[1..], sep)
  }

  /** `"".join(xs)`, built from the right as a `+=` loop builds it. */
  function Concat(xs: seq<string>): string
    decreases |xs|
  {
    if xs == [] then "" else Concat(xs[..|xs| - 1]) + xs[|xs| - 1]
  }

  lemma ConcatSnoc(xs: seq<string>, x: string)
    ensures Concat(xs + [x]) == Concat(xs) + x
  {
    assert (xs + [x])[..|xs|] == xs;
  }

  /** The first index of `c` in `s`. */
  function FirstIndex(s: string, c: char): (r: Option<nat>)
    ensures r.Some? ==> r.value < |s| && s[r.value] == c && c !in s[..r.value]
    ensures r.None? ==> c !in s
  {
    if s == [] then None
    else if s[0] == c then Some(0)
    else match FirstIndex(s[1..], c)
      case None => None
      case Some(i) => assert s[..i + 1] == [s[0]] + s[1..][..i]; Some(i + 1)
  }

  /** `s.split(c)` for a one-character separator. */
  function SplitOn(s: string, c: char): (r: seq<string>)
    ensures |r| > 0
    ensures forall i :: 0 <= i < |r| ==> c !in r[i]
    ensures Join(r, [c]) == s
    ensures |r| == 1 <==> c !in s
    decreases |s|
  {
    match FirstIndex(s, c)
    case None => [s]
    case Some(i) =>
      var rest := SplitOn(s[i + 1..], c);
      assert s == s[..i] + [c] + s[i + 1..];
      assert ([s[..i]] + rest)[1..] == rest;
      [s[..i]] + rest
  }

  /** The last part of a join of two or more parts follows the last separator. */
  lemma {:induction false} JoinLast(xs: seq<string>, sep: string)
    requires |xs| >= 2
    ensures Join(xs, sep) == Join(xs[..|xs| - 1], sep) + sep + xs[|xs| - 1]
    decreases |xs|
  {
    if |xs| > 2 {
      JoinLast(xs[1..], sep);
      assert xs[1..][..|xs| - 2] == xs[..|xs| - 1][1..];
      assert xs[1..][|xs| - 2] == xs[|xs| - 1];
    } else {
      assert xs[..1] == [xs[0]];
    }
  }

  lemma FirstIndexAfter(x: string, c: char, y: string)
    requires c !in x
    ensures FirstIndex(x + [c] + y, c) == Some(|x|)
  {
    var s := x + [c] + y;
    assert s[|x|] == c;
  }

  /** Splitting a join on a separator that no part contains gives back
      the parts. */
  lemma {:induction false} SplitJoin(xs: seq<string>, c: char)
    requires |xs| > 0
    requires forall i :: 0 <= i < |xs| ==> c !in xs[i]
    ensures SplitOn(Join(xs, [c]), c) == xs
    decreases |xs|
  {
    if |xs| == 1 {
      assert Join(xs, [c]) == xs[0];
    } else {
      var rest := Join(xs[1..], [c]);
      assert Join(xs, [c]) == xs[0] + [c] + rest;
      FirstIndexAfter(xs[0], c, rest);
      var s := xs[0] + [c] + rest;
      assert s[..|xs[0]|] == xs[0];
      assert s[|xs[0]| + 1..] == rest;
      SplitJoin(xs[1..], c);
      assert xs == [xs[0]] + xs[1..];
    }
  }

  /** `IndexOf` is pinned down by a match with none before it. */
  lemma IndexOfIs(s: string, p: string, k: nat)
    requires MatchAt(s, p, k)
    requires forall j :: 0 <= j < k ==> !MatchAt(s, p, j)
    ensures IndexOf(s, p) == Some(k)
  {
  }

  /** `s.split(sep, 1)`: two parts around the first occurrence of `sep`,
      or `[s]` when there is none. */
  function SplitOnce(s: string, sep: string): (r: seq<string>)
    ensures |r| == 1 || |r| == 2
    ensures |r| == 2 <==> Contains(s, sep)
    ensures |r| == 1 ==> r[0] == s
    ensures |r| == 2 ==> s == r[0] + sep + r[1] && IndexOf(s, sep) == Some(|r[0]|)
  {
    match IndexOf(s, sep)
    case None => [s]
    case Some(i) =>
      assert s == s[..i] + sep + s[i + |sep|..] by { assert s[i..i + |sep|] == sep; }
      [s[..i], s[i + |sep|..]]
  }

  /** `s.replace(p, "")`: left-to-right removal of non-overlapping
      occurrences of a non-empty pattern. */
  function Remove(s: string, p: string): string
    requires |p| > 0
    decreases |s|
  {
    if |s| < |p| then s
    else if s[..|p|] == p then Remove(s[|p|..], p)
    else [s[0]] + Remove(s[1..], p)
  }

  lemma RemoveLeading(p: string, rest: string)
    requires |p| > 0
    ensures Remove(p + rest, p) == Remove(rest, p)
  {
    assert (p + rest)[..|p|] == p;
    assert (p + rest)[|p|..] == rest;
  }

  /** Removing a pattern that does not occur leaves the string as it is. */
  lemma {:induction false} RemoveAbsent(s: string, p: string)
    requires |p| > 0
    requires !Contains(s, p)
    ensures Remove(s, p) == s
    decreases |s|
  {
    if |s| >= |p| {
      assert !MatchAt(s, p, 0);
      assert s[..|p|] == s[0..0 + |p|];
      assert !Contains(s[1..], p) by {
        if Contains(s[1..], p) {
          var j := MatchFromContains(s[1..], p);
          assert s == [s[0]] + s[1..];
          assert s[j + 1..j + 1 + |p|] == s[1..][j..j + |p|];
          assert MatchAt(s, p, j + 1);
        }
      }
      RemoveAbsent(s[1..], p);
      assert s == [s[0]] + s[1..];
    }
  }

  // ---------------------------------------------------------------------
  // strip()

  /** Python's `str.isspace()` for one character. */
  predicate IsSpace(c: char) {
    var n := c as int;
    (9 <= n <= 13) || (28 <= n <= 32) || n == 0x85 || n == 0xA0 || n == 0x1680 ||
    (0x2000 <= n <= 0x200A) || n == 0x2028 || n == 0x2029 || n == 0x202F ||
    n == 0x205F || n == 0x3000
  }

  predicate AllSpace(s: string) {
    forall i :: 0 <= i < |s| ==> IsSpace(s[i])
  }

  /** No whitespace at either end: what `strip()` leaves. */
  predicate Stripped(s: string) {
    s == [] || (!IsSpace(s[0]) && !IsSpace(s[|s| - 1]))
  }

  function StripLeft(s: string): string
    decreases |s|
  {
    if s != [] && IsSpace(s[0]) then StripLeft(s[1..]) else s
  }

  function StripRight(s: string): string
    decreases |s|
  {
    if s != [] && IsSpace(s[|s| - 1]) then StripRight(s[..|s| - 1]) else s
  }

  /** `s.strip()`. */
  function Strip(s: string): string {
    StripRight(StripLeft(s))
  }

  lemma {:induction false} StripLeftSpaces(w: string, t: string)
    requires AllSpace(w)
    ensures StripLeft(w + t) == StripLeft(t)
    decreases |w|
  {
    if w != [] {
      assert IsSpace(w[0]) && (w + t)[0] == w[0];
      assert (w + t)[1..] == w[1..] + t;
      assert AllSpace(w[1..]);
      StripLeftSpaces(w[1..], t);
    } else {
      assert w + t == t;
    }
  }

  lemma {:induction false} StripRightSpaces(t: string, w: string)
    requires AllSpace(w)
    ensures StripRight(t + w) == StripRight(t)
    decreases |w|
  {
    if w != [] {
      assert IsSpace(w[|w| - 1]) && (t + w)[|t + w| - 1] == w[|w| - 1];
      assert (t + w)[..|t + w| - 1] == t + w[..|w| - 1];
      assert AllSpace(w[..|w| - 1]);
      StripRightSpaces(t, w[..|w| - 1]);
    } else {
      assert t + w == t;
    }
  }

  /** `strip()` gives back a stripped string from between any two runs of
      whitespace. */
  lemma StripWrapped(w1: string, q: string, w2: string)
    requires AllSpace(w1) && AllSpace(w2) && Stripped(q)
    ensures Strip(w1 + q + w2) == q
  {
    assert w1 + q + w2 == w1 + (q + w2);
    StripLeftSpaces(w1, q + w2);
    if q == [] {
      assert q + w2 == w2;
      StripLeftSpaces(w2, []);
      assert w2 + [] == w2;
    } else {
      StripRightSpaces(q, w2);
    }
  }

  /** Whatever it is given, `strip()` returns a stripped string. */
  lemma {:induction false} StripIsStripped(s: string)
    ensures Stripped(Strip(s))
  {
    StripLeftStripped(s);
    StripRightKeepsHead(StripLeft(s));
  }

  lemma {:induction false} StripLeftStripped(s: string)
    ensures StripLeft(s) == [] || !IsSpace(StripLeft(s)[0])
    decreases |s|
  {
    if s != [] && IsSpace(s[0]) {
      StripLeftStripped(s[1..]);
    }
  }

  lemma {:induction false} StripRightKeepsHead(s: string)
    requires s == [] || !IsSpace(s[0])
    ensures Stripped(StripRight(s))
    decreases |s|
  {
    if s != [] && IsSpace(s[|s| - 1]) {
      StripRightKeepsHead(s[..|s| - 1]);
    }
  }

  // ---------------------------------------------------------------------
  // String order: Python's `a <= b` on str (code-point lexicographic)

  predicate LexLe(a: string, b: string)
    decreases |a|
  {
    if a == [] then true
    else if b == [] then false
    else if a[0] != b[0] then a[0] < b[0]
    else LexLe(a[1..], b[1..])
  }

  lemma {:induction false} LexLeTotal(a: string, b: string)
    ensures LexLe(a, b) || LexLe(b, a)
    decreases |a|
  {
    if a != [] && b != [] && a[0] == b[0] {
      LexLeTotal(a[1..], b[1..]);
    }
  }

  lemma {:induction false} LexLeTransitive(a: string, b: string, c: string)
    requires LexLe(a, b) && LexLe(b, c)
    ensures LexLe(a, c)
    decreases |a|
  {
    if a != [] && b != [] && c != [] && a[0] == b[0] && b[0] == c[0] {
      LexLeTransitive(a[1..], b[1..], c[1..]);
    }
  }
}
