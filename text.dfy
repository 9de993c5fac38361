/**
 * The parts of Python's `str` that the tracker relies on: prefix tests,
 * `find`, `split` with and without a limit, `'\n'.join`, `strip`, and the
 * case mappings used on ASCII keywords.
 */
module Text {
  import opened Wrappers

  /** The characters Python's `str.isspace()` (and so `strip()` and the `\s` class of `re`) treats as whitespace. */
  predicate IsSpace(c: char) {
    || ('\t' <= c <= '\r')
    || ('\U{1c}' <= c <= '\U{1f}')
    || c == ' '
    || c == '\U{85}'
    || c == '\U{a0}'
    || c == '\U{1680}'
    || ('\U{2000}' <= c <= '\U{200a}')
    || c == '\U{2028}'
    || c == '\U{2029}'
    || c == '\U{202f}'
    || c == '\U{205f}'
    || c == '\U{3000}'
  }

  predicate AllSpace(s: string) {
    forall i :: 0 <= i < |s| ==> IsSpace(s[i])
  }

  /** `s.startswith(prefix)` */
  predicate StartsWith(s: string, prefix: string) {
    |prefix| <= |s| && s[..|prefix|] == prefix
  }

  /** `pat` occurs in `s` at index `i`. */
  predicate OccursAt(s: string, pat: string, i: nat) {
    i + |pat| <= |s| && s[i..i + |pat|] == pat
  }

  /** `s.find(pat, from)`: the first index at or after `from` where `pat` occurs. */
  function Find(s: string, pat: string, from: nat): (r: Option<nat>)
    ensures r.Some? ==> from <= r.value && r.value + |pat| <= |s|
    decreases |s| - from
  {
    if from + |pat| > |s| then None
    else if OccursAt(s, pat, from) then Some(from)
    else Find(s, pat, from + 1)
  }

  /** `find` reports the first occurrence at or after `from`, and None only when there is none. */
  lemma {:induction false} FindSpec(s: string, pat: string, from: nat)
    ensures var r := Find(s, pat, from);
      && (r.Some? ==> from <= r.value && OccursAt(s, pat, r.value))
      && (r.Some? ==> forall j :: from <= j < r.value ==> !OccursAt(s, pat, j))
      && (r.None? ==> forall j :: from <= j ==> !OccursAt(s, pat, j))
    decreases |s| - from
  {
    if from + |pat| <= |s| && !OccursAt(s, pat, from) {
      FindSpec(s, pat, from + 1);
    }
  }

  /** `pat in s` for strings: a substring test. */
  predicate Contains(s: string, pat: string) {
    Find(s, pat, 0).Some?
  }

  /** The substring test holds exactly when `pat` occurs somewhere. */
  lemma ContainsIff(s: string, pat: string)
    ensures Contains(s, pat) <==> exists j: nat :: OccursAt(s, pat, j)
  {
    FindSpec(s, pat, 0);
  }

  /** `s.find(c)` for one character, with `|s|` standing for "not found". */
  function IndexOf(s: string, c: char): (i: nat)
    ensures i <= |s|
  {
    if |s| == 0 then 0
    else if s[0] == c then 0
    else 1 + IndexOf(s[1..], c)
  }

  /** The index is that of the first `c`. */
  lemma {:induction false} IndexOfSpec(s: string, c: char)
    ensures IndexOf(s, c) < |s| ==> s[IndexOf(s, c)] == c
    ensures c !in s[..IndexOf(s, c)]
  {
    if |s| > 0 && s[0] != c {
      IndexOfSpec(s[1..], c);
      assert s[..1 + IndexOf(s[1..], c)] == [s[0]] + s[1..][..IndexOf(s[1..], c)];
    }
  }

  /** `s.split(c, 1)`: the text before the first `c`, and the text after it if there is one. */
  function SplitOnce(s: string, c: char): (r: (string, Option<string>))
    ensures r.1.Some? ==> |r.1.value| < |s|
  {
    var i := IndexOf(s, c);
    if i == |s| then (s, None) else (s[..i], Some(s[i + 1..]))
  }

  /** Without a `c` the text is left whole; with one, it is cut at the first `c`. */
  lemma SplitOnceSpec(s: string, c: char)
    ensures var r := SplitOnce(s, c);
      && (r.1.None? ==> r.0 == s && c !in s)
      && (r.1.Some? ==> s == r.0 + [c] + r.1.value && c !in r.0)
  {
    IndexOfSpec(s, c);
    var i := IndexOf(s, c);
    if i == |s| {
      assert s[..i] == s;
    } else {
      assert s == s[..i] + [c] + s[i + 1..];
    }
  }

  /** The split is determined by where the first `c` is. */
  lemma SplitOnceAt(a: string, c: char, b: string)
    requires c !in a
    ensures SplitOnce(a + [c] + b, c) == (a, Some(b))
  {
    var s := a + [c] + b;
    SplitOnceSpec(s, c);
    assert s[|a|] == c;
    var r := SplitOnce(s, c);
    assert r.1.Some?;
    assert forall i :: 0 <= i < |a| ==> s[i] == a[i] && s[i] != c;
    assert forall i :: 0 <= i < |r.0| ==> s[i] == r.0[i] && s[i] != c;
    assert s[|r.0|] == c;
    assert |r.0| == |a|;
    assert r.0 == s[..|a|] == a;
    assert r.1.value == s[|a| + 1..] == b;
  }

  lemma SplitOnceNone(s: string, c: char)
    requires c !in s
    ensures SplitOnce(s, c) == (s, None)
  {
    SplitOnceSpec(s, c);
    var r := SplitOnce(s, c);
    assert forall x: string, y: string :: s != x + [c] + y by {
      forall x: string, y: string ensures s != x + [c] + y {
        assert (x + [c] + y)[|x|] == c;
      }
    }
  }

  /** `s.split(sep, 1)` for a separator string: text before the first `sep`, and the rest if it occurs. */
  function SplitOnceOn(s: string, sep: string): (r: (string, Option<string>)) {
    match Find(s, sep, 0)
    case None => (s, None)
    case Some(i) => (s[..i], Some(s[i + |sep|..]))
  }

  /** The cut is at the first occurrence of a non-empty separator. */
  lemma SplitOnceOnSpec(s: string, sep: string)
    requires sep != []
    ensures var r := SplitOnceOn(s, sep);
      && (r.1.None? ==> r.0 == s && forall j :: !OccursAt(s, sep, j))
      && (r.1.Some? ==> s == r.0 + sep + r.1.value)
      && (r.1.Some? ==> forall j: nat :: j < |r.0| ==> !OccursAt(s, sep, j))
  {
    FindSpec(s, sep, 0);
    match Find(s, sep, 0)
    case None =>
    case Some(i) =>
      assert s == s[..i] + sep + s[i + |sep|..];
  }

  /** `s.split(c)` for a one-character separator. */
  function Split(s: string, c: char): (parts: seq<string>)
    ensures |parts| >= 1
    decreases |s|
  {
    match SplitOnce(s, c)
    case (head, None) => [head]
    case (head, Some(tail)) => [head] + Split(tail, c)
  }

  /** No part of a split holds the separator. */
  lemma {:induction false} SplitParts(s: string, c: char)
    ensures forall i :: 0 <= i < |Split(s, c)| ==> c !in Split(s, c)[i]
    decreases |s|
  {
    SplitOnceSpec(s, c);
    match SplitOnce(s, c)
    case (head, None) =>
    case (head, Some(tail)) =>
      SplitParts(tail, c);
  }

  /** `c.join(parts)` */
  function Join(parts: seq<string>, c: char): string {
    if |parts| == 0 then ""
    else if |parts| == 1 then parts[0]
    else parts[0] + [c] + Join(parts[1..], c)
  }

  /** Joining what `split` produced gives the text back. */
  lemma {:induction false} JoinSplit(s: string, c: char)
    ensures Join(Split(s, c), c) == s
    decreases |s|
  {
    SplitOnceSpec(s, c);
    match SplitOnce(s, c)
    case (head, None) =>
    case (head, Some(tail)) =>
      JoinSplit(tail, c);
  }

  /** Splitting joined parts that do not contain the separator gives the parts back. */
  lemma {:induction false} SplitJoin(parts: seq<string>, c: char)
    requires |parts| >= 1
    requires forall i :: 0 <= i < |parts| ==> c !in parts[i]
    ensures Split(Join(parts, c), c) == parts
  {
    if |parts| == 1 {
      SplitOnceNone(parts[0], c);
    } else {
      SplitOnceAt(parts[0], c, Join(parts[1..], c));
      SplitJoin(parts[1..], c);
    }
  }

  /** Joining a concatenation puts one separator between the two halves. */
  lemma {:induction false} JoinAppend(a: seq<string>, b: seq<string>, c: char)
    requires |a| >= 1 && |b| >= 1
    ensures Join(a + b, c) == Join(a, c) + [c] + Join(b, c)
  {
    if |a| == 1 {
      assert (a + b)[1..] == b;
    } else {
      assert (a + b)[1..] == a[1..] + b;
      JoinAppend(a[1..], b, c);
    }
  }

  /** A separator-free line contributes no separator of its own to a join. */
  lemma {:induction false} JoinNoSeparator(parts: seq<string>, c: char, d: char)
    requires forall i :: 0 <= i < |parts| ==> d !in parts[i]
    requires d != c
    ensures d !in Join(parts, c)
  {
    if |parts| > 1 {
      JoinNoSeparator(parts[1..], c, d);
    }
  }

  /** `s.lstrip()` */
  function TrimStart(s: string): (r: string)
    ensures |r| <= |s| && r == s[|s| - |r|..]
    ensures r != [] ==> !IsSpace(r[0])
  {
    if |s| > 0 && IsSpace(s[0]) then TrimStart(s[1..]) else s
  }

  /** `lstrip()` removes whitespace only. */
  lemma {:induction false} TrimStartRemovesSpace(s: string)
    ensures forall i :: 0 <= i < |s| - |TrimStart(s)| ==> IsSpace(s[i])
  {
    if |s| > 0 && IsSpace(s[0]) {
      TrimStartRemovesSpace(s[1..]);
    }
  }

  /** `s.rstrip()` */
  function TrimEnd(s: string): (r: string)
    ensures |r| <= |s| && r == s[..|r|]
    ensures r != [] ==> !IsSpace(r[|r| - 1])
  {
    if |s| > 0 && IsSpace(s[|s| - 1]) then TrimEnd(s[..|s| - 1]) else s
  }

  /** `rstrip()` removes whitespace only. */
  lemma {:induction false} TrimEndRemovesSpace(s: string)
    ensures forall i :: |TrimEnd(s)| <= i < |s| ==> IsSpace(s[i])
  {
    if |s| > 0 && IsSpace(s[|s| - 1]) {
      TrimEndRemovesSpace(s[..|s| - 1]);
    }
  }

  /** `s.strip()` */
  function Strip(s: string): string {
    TrimEnd(TrimStart(s))
  }

  /** Text that neither starts nor ends with whitespace is left alone by `strip()`. */
  lemma StripTrimmed(s: string)
    requires s == [] || (!IsSpace(s[0]) && !IsSpace(s[|s| - 1]))
    ensures Strip(s) == s
  {
  }

  /** Leading whitespace is dropped by `lstrip()`. */
  lemma {:induction false} TrimStartLeadingSpace(w: string, s: string)
    requires AllSpace(w)
    ensures TrimStart(w + s) == TrimStart(s)
  {
    if |w| > 0 {
      var t := w + s;
      assert t[0] == w[0];
      assert t[1..] == w[1..] + s;
      calc {
        TrimStart(t);
        TrimStart(t[1..]);
        TrimStart(w[1..] + s);
        { TrimStartLeadingSpace(w[1..], s); }
        TrimStart(s);
      }
    } else {
      assert w + s == s;
    }
  }

  /** Leading whitespace is dropped by `strip()`. */
  lemma StripLeadingSpace(w: string, s: string)
    requires AllSpace(w)
    ensures Strip(w + s) == Strip(s)
  {
    TrimStartLeadingSpace(w, s);
  }

  /** What `strip()` returns is left alone by a second `strip()`. */
  lemma StripIdempotent(s: string)
    ensures Strip(Strip(s)) == Strip(s)
  {
    StripTrimmed(Strip(s));
  }

  function LowerChar(c: char): char {
    if 'A' <= c <= 'Z' then (c as int + 32) as char else c
  }

  function UpperChar(c: char): char {
    if 'a' <= c <= 'z' then (c as int - 32) as char else c
  }

  /** `s.lower()` on the ASCII letters. */
  function Lower(s: string): string {
    seq(|s|, i requires 0 <= i < |s| => LowerChar(s[i]))
  }

  /** `s.upper()` on the ASCII letters. */
  function Upper(s: string): string {
    seq(|s|, i requires 0 <= i < |s| => UpperChar(s[i]))
  }

  /** `s[:n]` for a non-negative `n`. */
  function Prefix(s: string, n: nat): string {
    if n <= |s| then s[..n] else s
  }

  /** `c * n` */
  function Repeat(c: char, n: nat): (r: string)
    ensures |r| == n && forall i :: 0 <= i < n ==> r[i] == c
  {
    seq(n, _ => c)
  }
}
