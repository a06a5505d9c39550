/**
 * The few JavaScript array and string operations the chat code relies on:
 * `slice` with a negative start, `slice(from, to)`, `join` and `trim`.
 * `split` on one character is defined as well, though the chat code never
 * calls it: it serves only to state that a `join('\n')` can be undone.
 */
module JsText {

  function Min(a: int, b: int): int { if a <= b then a else b }

  /**
   * `xs.slice(-k)`: the last `k` elements, or all of them when there are
   * fewer. Since `-0` is `0`, `xs.slice(-0)` is the whole array.
   */
  function SliceFromEnd<T>(xs: seq<T>, k: nat): (r: seq<T>)
    ensures k > 0 ==> |r| == Min(k, |xs|)
    ensures k == 0 ==> r == xs
    ensures |r| <= |xs| && r == xs[|xs| - |r|..]
  {
    if k == 0 || k >= |xs| then xs else xs[|xs| - k..]
  }

  /** Taking the last `k` twice is taking them once. */
  lemma SliceFromEndIdempotent<T>(xs: seq<T>, k: nat)
    ensures SliceFromEnd(SliceFromEnd(xs, k), k) == SliceFromEnd(xs, k)
  {
  }

  /** `s.slice(from, to)` for non-negative bounds: indices are clamped to the length. */
  function SliceRange<T>(s: seq<T>, from: nat, to: nat): (r: seq<T>)
    ensures |r| == if from < Min(to, |s|) then Min(to, |s|) - from else 0
    ensures forall i :: 0 <= i < |r| ==> r[i] == s[from + i]
  {
    if from < Min(to, |s|) then s[from..Min(to, |s|)] else []
  }

  /** `parts.join(sep)`: the parts with `sep` between neighbours and nowhere else. */
  function Join(parts: seq<string>, sep: string): (r: string)
    ensures |parts| == 0 ==> r == ""
    ensures |parts| == 1 ==> r == parts[0]
  {
    if |parts| == 0 then ""
    else if |parts| == 1 then parts[0]
    else parts[0] + sep + Join(parts[1..], sep)
  }

  /** Adding a part at the end adds one separator and that part, and nothing after it. */
  lemma {:induction false} JoinSnoc(parts: seq<string>, last: string, sep: string)
    requires |parts| > 0
    ensures Join(parts + [last], sep) == Join(parts, sep) + sep + last
  {
    if |parts| == 1 {
      assert parts + [last] == [parts[0], last];
      assert (parts + [last])[1..] == [last];
    } else {
      var all := parts + [last];
      assert all[0] == parts[0] && all[1..] == parts[1..] + [last];
      JoinSnoc(parts[1..], last, sep);
      calc {
        Join(all, sep);
        all[0] + sep + Join(all[1..], sep);
        parts[0] + sep + (Join(parts[1..], sep) + sep + last);
        (parts[0] + sep + Join(parts[1..], sep)) + sep + last;
        Join(parts, sep) + sep + last;
      }
    }
  }

  /** A join starts with its first part and ends with its last part. */
  lemma {:induction false} JoinEnds(parts: seq<string>, sep: string)
    requires |parts| >= 1
    ensures var r, first, last := Join(parts, sep), parts[0], parts[|parts| - 1];
      && |first| <= |r| && r[..|first|] == first
      && |last| <= |r| && r[|r| - |last|..] == last
  {
    if |parts| > 1 {
      JoinEnds(parts[1..], sep);
      var rest := Join(parts[1..], sep);
      var last := parts[|parts| - 1];
      assert parts[1..][|parts| - 2] == last;
      assert Join(parts, sep) == (parts[0] + sep) + rest;
      assert rest[|rest| - |last|..] == last;
    }
  }

  /** `s.split(c)` for a one-character separator: always at least one piece. */
  function Split(s: string, c: char): (r: seq<string>)
    ensures |r| >= 1
    ensures forall i :: 0 <= i < |r| ==> c !in r[i]
    decreases |s|
  {
    if |s| == 0 then [""]
    else
      var rest := Split(s[1..], c);
      if s[0] == c then [""] + rest else [[s[0]] + rest[0]] + rest[1..]
  }

  lemma {:induction false} SplitNoSeparator(s: string, c: char)
    requires c !in s
    ensures Split(s, c) == [s]
    decreases |s|
  {
    if |s| > 0 {
      assert c !in s[1..] by {
        forall k | 0 <= k < |s[1..]| ensures s[1..][k] != c { assert s[1..][k] == s[k + 1]; }
      }
      SplitNoSeparator(s[1..], c);
      assert [s[0]] + s[1..] == s;
    }
  }

  lemma {:induction false} SplitAtFirst(a: string, c: char, b: string)
    requires c !in a
    ensures Split(a + [c] + b, c) == [a] + Split(b, c)
    decreases |a|
  {
    var s := a + [c] + b;
    if |a| == 0 {
      assert s[1..] == b;
    } else {
      assert s[1..] == a[1..] + [c] + b;
      assert c !in a[1..] by {
        forall k | 0 <= k < |a[1..]| ensures a[1..][k] != c { assert a[1..][k] == a[k + 1]; }
      }
      SplitAtFirst(a[1..], c, b);
      assert [a[0]] + a[1..] == a;
    }
  }

  /**
   * Joining pieces that do not contain the separator character and splitting
   * on it again gives the same pieces back.
   */
  lemma {:induction false} SplitJoin(parts: seq<string>, c: char)
    requires |parts| >= 1
    requires forall i :: 0 <= i < |parts| ==> c !in parts[i]
    ensures Split(Join(parts, [c]), c) == parts
  {
    if |parts| == 1 {
      SplitNoSeparator(parts[0], c);
    } else {
      SplitJoin(parts[1..], c);
      SplitAtFirst(parts[0], c, Join(parts[1..], [c]));
      assert [parts[0]] + parts[1..] == parts;
    }
  }

  /** The characters `String.prototype.trim` removes: white space and line terminators. */
  const WhiteSpace: set<char> :=
    {' ', '\t', '\n', '\r', '\U{000B}', '\U{000C}', '\U{00A0}', '\U{FEFF}', '\U{1680}',
           '\U{2000}', '\U{2001}', '\U{2002}', '\U{2003}', '\U{2004}', '\U{2005}', '\U{2006}',
           '\U{2007}', '\U{2008}', '\U{2009}', '\U{200A}', '\U{2028}', '\U{2029}', '\U{202F}',
           '\U{205F}', '\U{3000}'}

  predicate IsWhite(ch: char)
  {
    ch in WhiteSpace
  }

  /** Drops the leading white space. */
  function TrimStart(s: string): (r: string)
    ensures |r| <= |s| && r == s[|s| - |r|..]
    ensures forall k :: 0 <= k < |s| - |r| ==> IsWhite(s[k])
    ensures r == [] || !IsWhite(r[0])
    decreases |s|
  {
    if |s| > 0 && IsWhite(s[0]) then TrimStart(s[1..]) else s
  }

  /** Drops the trailing white space. */
  function TrimEnd(s: string): (r: string)
    ensures |r| <= |s| && r == s[..|r|]
    ensures forall k :: |r| <= k < |s| ==> IsWhite(s[k])
    ensures r == [] || !IsWhite(r[|r| - 1])
    decreases |s|
  {
    if |s| > 0 && IsWhite(s[|s| - 1]) then TrimEnd(s[..|s| - 1]) else s
  }

  /** The trimmed text is empty exactly when the input is all white space, and starts and ends non-white otherwise. */
  lemma TrimEnds(s: string)
    ensures var r := TrimEnd(TrimStart(s));
      && (r == [] || (!IsWhite(r[0]) && !IsWhite(r[|r| - 1])))
      && (r == [] <==> forall k :: 0 <= k < |s| ==> IsWhite(s[k]))
  {
    var t := TrimStart(s);
    var r := TrimEnd(t);
    assert r != [] ==> !IsWhite(t[0]) && r[0] == t[0];
  }

  /** `r` occurs in `s` at index `i`, with only white space before and after it. */
  predicate Surrounded(s: string, i: nat, r: string)
  {
    && i + |r| <= |s| && r == s[i..i + |r|]
    && (forall k :: 0 <= k < i ==> IsWhite(s[k]))
    && (forall k :: i + |r| <= k < |s| ==> IsWhite(s[k]))
  }

  /** A white-space-free cut at both ends: a prefix `r` of a suffix `t` of `s`, with white space cut off each time. */
  lemma {:induction false} CutBothEnds(s: string, t: string, r: string)
    requires |t| <= |s| && t == s[|s| - |t|..]
    requires forall k :: 0 <= k < |s| - |t| ==> IsWhite(s[k])
    requires |r| <= |t| && r == t[..|r|]
    requires forall k :: |r| <= k < |t| ==> IsWhite(t[k])
    ensures Surrounded(s, |s| - |t|, r)
  {
    var i := |s| - |t|;
    assert r == s[i..i + |r|];
    forall k | i + |r| <= k < |s| ensures IsWhite(s[k]) {
      assert t[k - i] == s[k];
    }
  }

  /** The trimmed text sits in the input between two runs of white space. */
  lemma TrimPlace(s: string)
    ensures Surrounded(s, |s| - |TrimStart(s)|, TrimEnd(TrimStart(s)))
  {
    CutBothEnds(s, TrimStart(s), TrimEnd(TrimStart(s)));
  }

  /** `s.trim()`: the text between the leading and the trailing white space. */
  function Trim(s: string): (r: string)
    ensures |r| <= |s|
    ensures r == [] || (!IsWhite(r[0]) && !IsWhite(r[|r| - 1]))
    ensures r == [] <==> forall k :: 0 <= k < |s| ==> IsWhite(s[k])
    ensures Surrounded(s, |s| - |TrimStart(s)|, r)
  {
    TrimEnds(s);
    TrimPlace(s);
    TrimEnd(TrimStart(s))
  }

  /** Trimming twice is trimming once. */
  lemma TrimIdempotent(s: string)
    ensures Trim(Trim(s)) == Trim(s)
  {
    var r := Trim(s);
    assert r == [] || !IsWhite(r[0]);
    assert TrimStart(r) == r;
    assert r == [] || !IsWhite(r[|r| - 1]);
    assert TrimEnd(r) == r;
  }
}
