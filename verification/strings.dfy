/**
 * The functions of Go's `strings` package that the codec calls, on strings
 * modelled as sequences of characters: Repeat, TrimSpace, Split, Index and a
 * one-shot Replace, plus the Join that the record writer performs by hand.
 */
module GoStrings {

  /** `strings.Repeat`: `n` copies of `s`, back to back. */
  function Repeat(s: string, n: nat): (r: string)
    ensures |r| == n * |s|
    ensures |s| == 1 ==> forall k :: 0 <= k < |r| ==> r[k] == s[0]
  {
    if n == 0 then "" else s + Repeat(s, n - 1)
  }

  /** Repeating `a + b` times is repeating `a` times, then `b` times. */
  lemma {:induction false} RepeatAdd(s: string, a: nat, b: nat)
    ensures Repeat(s, a + b) == Repeat(s, a) + Repeat(s, b)
  {
    if a > 0 {
      RepeatAdd(s, a - 1, b);
      assert a + b - 1 == (a - 1) + b;
    }
  }

  // ---------------------------------------------------------------- whitespace

  /** Unicode White_Space, the class Go's `unicode.IsSpace` (and so `strings.TrimSpace`) uses. */
  predicate IsSpace(c: char) {
    || ('\t' <= c <= '\r')
    || c == ' '
    || c == '\U{0085}'
    || c == '\U{00A0}'
    || c == '\U{1680}'
    || ('\U{2000}' <= c <= '\U{200A}')
    || c == '\U{2028}'
    || c == '\U{2029}'
    || c == '\U{202F}'
    || c == '\U{205F}'
    || c == '\U{3000}'
  }

  predicate AllSpace(s: string) {
    forall k :: 0 <= k < |s| ==> IsSpace(s[k])
  }

  /** Neither the first nor the last character is whitespace. */
  predicate NoEdgeSpace(s: string) {
    s == [] || (!IsSpace(s[0]) && !IsSpace(s[|s| - 1]))
  }

  /**
   * `r` is `s` with its leading and trailing whitespace removed: an infix of
   * `s`, with only whitespace before and after it, and no whitespace at its
   * own edges.
   */
  ghost predicate IsTrimOf(r: string, s: string) {
    exists i :: TrimAt(r, s, i)
  }

  ghost predicate TrimAt(r: string, s: string, i: int) {
    && 0 <= i && i + |r| <= |s|
    && r == s[i..i + |r|]
    && AllSpace(s[..i])
    && AllSpace(s[i + |r|..])
    && NoEdgeSpace(r)
  }

  /** The position of the first non-whitespace character of `s` at or after `i`, or `|s|`. */
  function SkipSpace(s: string, i: nat): (j: nat)
    requires i <= |s|
    ensures i <= j <= |s|
    decreases |s| - i
  {
    if i < |s| && IsSpace(s[i]) then SkipSpace(s, i + 1) else i
  }

  /** The position just after the last non-whitespace character of `s` before `j`, but not below `lo`. */
  function SkipSpaceBack(s: string, lo: nat, j: nat): (k: nat)
    requires lo <= j <= |s|
    ensures lo <= k <= j
  {
    if j > lo && IsSpace(s[j - 1]) then SkipSpaceBack(s, lo, j - 1) else j
  }

  /** `strings.TrimSpace`: the text without its leading and trailing whitespace. */
  function TrimSpace(s: string): string {
    var i := SkipSpace(s, 0);
    s[i..SkipSpaceBack(s, i, |s|)]
  }

  /** `SkipSpace` passes only whitespace and stops at a non-whitespace character or the end. */
  lemma {:induction false} SkipSpaceStops(s: string, i: nat)
    requires i <= |s|
    ensures forall k :: i <= k < SkipSpace(s, i) ==> IsSpace(s[k])
    ensures SkipSpace(s, i) < |s| ==> !IsSpace(s[SkipSpace(s, i)])
    decreases |s| - i
  {
    if i < |s| && IsSpace(s[i]) {
      SkipSpaceStops(s, i + 1);
    }
  }

  /** `SkipSpaceBack` passes only whitespace and stops after a non-whitespace character or at `lo`. */
  lemma {:induction false} SkipSpaceBackStops(s: string, lo: nat, j: nat)
    requires lo <= j <= |s|
    ensures forall k :: SkipSpaceBack(s, lo, j) <= k < j ==> IsSpace(s[k])
    ensures SkipSpaceBack(s, lo, j) > lo ==> !IsSpace(s[SkipSpaceBack(s, lo, j) - 1])
  {
    if j > lo && IsSpace(s[j - 1]) {
      SkipSpaceBackStops(s, lo, j - 1);
    }
  }

  /** What `TrimSpace` computes is a trim of its argument. */
  lemma TrimSpaceTrims(s: string)
    ensures IsTrimOf(TrimSpace(s), s)
  {
    var i := SkipSpace(s, 0);
    var j := SkipSpaceBack(s, i, |s|);
    SkipSpaceStops(s, 0);
    SkipSpaceBackStops(s, i, |s|);
    var r := s[i..j];
    assert AllSpace(s[..i]);
    assert AllSpace(s[j..]);
    assert NoEdgeSpace(r) by {
      if r != [] {
        assert r[0] == s[i] && r[|r| - 1] == s[j - 1];
      }
    }
    assert TrimAt(r, s, i);
  }

  /** There is only one way to trim a string. */
  lemma TrimUnique(r: string, r': string, s: string)
    requires IsTrimOf(r, s) && IsTrimOf(r', s)
    ensures r == r'
  {
    var i :| TrimAt(r, s, i);
    var i' :| TrimAt(r', s, i');
    if r != [] && r' != [] {
      // Both start at the first non-whitespace character and end after the last one.
      assert s[i] == r[0] && s[i'] == r'[0];
      assert s[i + |r| - 1] == r[|r| - 1] && s[i' + |r'| - 1] == r'[|r'| - 1];
    }
  }

  /** Trimming a text that is only surrounded by whitespace gives back the text. */
  lemma TrimPadded(before: string, t: string, after: string)
    requires AllSpace(before) && AllSpace(after) && NoEdgeSpace(t)
    ensures TrimSpace(before + t + after) == t
  {
    var s := before + t + after;
    assert s[..|before|] == before;
    assert s[|before|..|before| + |t|] == t;
    assert s[|before| + |t|..] == after;
    assert TrimAt(t, s, |before|);
    TrimSpaceTrims(s);
    TrimUnique(TrimSpace(s), t, s);
  }

  /** Joining two texts with clean edges gives a text with clean edges. */
  lemma NoEdgeSpaceConcat(a: string, b: string)
    requires NoEdgeSpace(a) && NoEdgeSpace(b)
    ensures NoEdgeSpace(a + b)
  {
    if a != [] && b != [] {
      assert (a + b)[0] == a[0] && (a + b)[|a + b| - 1] == b[|b| - 1];
    }
  }

  // ------------------------------------------------------------ split and join

  /** The parts, with `sep` between consecutive ones. */
  function Join(parts: seq<string>, sep: string): string
  {
    if |parts| == 0 then ""
    else if |parts| == 1 then parts[0]
    else parts[0] + sep + Join(parts[1..], sep)
  }

  /** Appending one more part adds one separator and the part. */
  lemma {:induction false} JoinSnoc(parts: seq<string>, last: string, sep: string)
    requires |parts| >= 1
    ensures Join(parts + [last], sep) == Join(parts, sep) + sep + last
  {
    if |parts| == 1 {
      assert parts + [last] == [parts[0], last];
      assert [parts[0], last][1..] == [last];
    } else {
      assert (parts + [last])[1..] == parts[1..] + [last];
      JoinSnoc(parts[1..], last, sep);
    }
  }

  /** With one-character separator `c` absent from every part, the result holds exactly one `c` per gap. */
  lemma {:induction false} JoinCount(parts: seq<string>, c: char)
    requires |parts| >= 1
    requires forall k :: 0 <= k < |parts| ==> c !in parts[k]
    ensures multiset(Join(parts, [c]))[c] == |parts| - 1
  {
    if |parts| == 1 {
      assert multiset(parts[0])[c] == 0;
    } else {
      JoinCount(parts[1..], c);
      var rest := Join(parts[1..], [c]);
      assert multiset(parts[0] + [c] + rest) == multiset(parts[0]) + multiset([c]) + multiset(rest);
      assert multiset(parts[0])[c] == 0;
    }
  }

  /**
   * `strings.Split(s, string(sep))`: the maximal `sep`-free pieces of `s`, in
   * order. There is always at least one piece, even for the empty string.
   */
  function Split(s: string, sep: char): (parts: seq<string>)
    ensures |parts| >= 1
    ensures forall k :: 0 <= k < |parts| ==> sep !in parts[k]
    ensures Join(parts, [sep]) == s
  {
    if |s| == 0 then [""]
    else
      var rest := Split(s[1..], sep);
      if s[0] == sep then
        var parts := [""] + rest;
        assert parts[1..] == rest;
        parts
      else
        var parts := [[s[0]] + rest[0]] + rest[1..];
        assert Join(parts, [sep]) == [s[0]] + Join(rest, [sep]) by {
          if |rest| > 1 {
            assert parts[1..] == rest[1..];
          }
        }
        parts
  }

  /** Joining with a separator that no part contains loses nothing: equal joins come from equal parts. */
  lemma {:induction false} JoinInjective(p: seq<string>, q: seq<string>, sep: char)
    requires |p| >= 1 && |q| >= 1
    requires forall k :: 0 <= k < |p| ==> sep !in p[k]
    requires forall k :: 0 <= k < |q| ==> sep !in q[k]
    requires Join(p, [sep]) == Join(q, [sep])
    ensures p == q
  {
    var s := Join(p, [sep]);
    if |p| == 1 && |q| == 1 {
    } else if |p| == 1 {
      assert false;
    } else if |q| == 1 {
      assert false;
    } else {
      var rp, rq := Join(p[1..], [sep]), Join(q[1..], [sep]);
      // Both first parts end where the first separator stands.
      FirstSeparator(p[0], rp, sep);
      FirstSeparator(q[0], rq, sep);
      assert p[0] == s[..|p[0]|] == q[0];
      assert rp == s[|p[0]| + 1..] == rq;
      JoinInjective(p[1..], q[1..], sep);
      assert p == [p[0]] + p[1..] && q == [q[0]] + q[1..];
    }
  }

  lemma FirstSeparator(a: string, rest: string, sep: char)
    requires sep !in a
    ensures IndexOf(a + [sep] + rest, sep) == |a|
  {
    var s := a + [sep] + rest;
    assert s[|a|] == sep && s[..|a|] == a;
  }

  /** `Split` undoes `Join` when no part contains the separator. */
  lemma SplitJoin(parts: seq<string>, sep: char)
    requires |parts| >= 1 && forall k :: 0 <= k < |parts| ==> sep !in parts[k]
    ensures Split(Join(parts, [sep]), sep) == parts
  {
    JoinInjective(Split(Join(parts, [sep]), sep), parts, sep);
  }

  // ------------------------------------------------------- index and replace

  /** `strings.Index` for a one-character needle: the first position of `c`, or -1. */
  function IndexOf(s: string, c: char): (i: int)
    ensures -1 <= i < |s|
    ensures i == -1 <==> c !in s
    ensures 0 <= i ==> s[i] == c && c !in s[..i]
  {
    if |s| == 0 then -1
    else if s[0] == c then 0
    else
      var j := IndexOf(s[1..], c);
      if j == -1 then -1
      else
        assert s[..j + 1] == [s[0]] + s[1..][..j];
        j + 1
  }

  /** `strings.Replace(s, string(c), "", 1)`: the first `c`, if any, is deleted and nothing else changes. */
  function RemoveFirst(s: string, c: char): string {
    var i := IndexOf(s, c);
    if i < 0 then s else s[..i] + s[i + 1..]
  }

  /** `RemoveFirst` deletes exactly the first `c`, and leaves a text without `c` as it is. */
  lemma RemoveFirstDeletes(s: string, c: char)
    ensures c !in s ==> RemoveFirst(s, c) == s
    ensures c in s ==> exists i :: 0 <= i < |s| && s[i] == c && c !in s[..i] && RemoveFirst(s, c) == s[..i] + s[i + 1..]
    ensures multiset(RemoveFirst(s, c)) + (if c in s then multiset{c} else multiset{}) == multiset(s)
  {
    var i := IndexOf(s, c);
    if i >= 0 {
      assert s == s[..i] + [s[i]] + s[i + 1..];
    }
  }
}
