/**
 * The handful of Python `str` operations the application relies on, written
 * out so that their results can be reasoned about: `sep.join`, `split(sep)`,
 * `split()`, `strip()`, `lstrip(chars)`, `lower()`, `startswith` and `in`.
 * Whitespace and case are those of the ASCII range.
 */
module Text {

  /** Python's notion of whitespace for `split()` and `strip()`, restricted to ASCII. */
  predicate IsSpace(c: char) {
    var n := c as int;
    n == 32 || 9 <= n <= 13 || 28 <= n <= 31
  }

  predicate IsDigit(c: char) {
    '0' <= c <= '9'
  }

  function LowerChar(c: char): char {
    if 'A' <= c <= 'Z' then (c as int + 32) as char else c
  }

  /** `s.lower()` on ASCII letters. */
  function Lower(s: string): string {
    seq(|s|, i requires 0 <= i < |s| => LowerChar(s[i]))
  }

  /** `s.startswith(p)` */
  predicate StartsWith(s: string, p: string) {
    |p| <= |s| && s[..|p|] == p
  }

  /** `s.endswith(p)` */
  predicate EndsWith(s: string, p: string) {
    |p| <= |s| && s[|s| - |p|..] == p
  }

  /** `needle in hay`: the needle occurs at some position of the haystack. */
  predicate Contains(hay: string, needle: string) {
    exists i :: 0 <= i <= |hay| && StartsWith(hay[i..], needle)
  }

  /** `any(k in s for k in keys)` */
  predicate ContainsAny(s: string, keys: seq<string>) {
    exists k :: k in keys && Contains(s, k)
  }

  /** `sep.join(parts)` */
  function Join(parts: seq<string>, sep: string): string {
    if |parts| == 0 then ""
    else if |parts| == 1 then parts[0]
    else parts[0] + sep + Join(parts[1..], sep)
  }

  /** `s.split(sep)` for a one-character separator; like Python, never empty. */
  function Split(s: string, sep: char): (parts: seq<string>)
    ensures |parts| >= 1
  {
    if s == [] then [""]
    else if s[0] == sep then [""] + Split(s[1..], sep)
    else
      var rest := Split(s[1..], sep);
      [[s[0]] + rest[0]] + rest[1..]
  }

  /** `s.lstrip()` */
  function TrimLeft(s: string): (r: string)
    ensures |r| <= |s| && r == s[|s| - |r|..]
    ensures r != [] ==> !IsSpace(r[0])
    ensures forall i :: 0 <= i < |s| - |r| ==> IsSpace(s[i])
  {
    if s != [] && IsSpace(s[0]) then TrimLeft(s[1..]) else s
  }

  /** `s.rstrip()` */
  function TrimRight(s: string): (r: string)
    ensures |r| <= |s| && r == s[..|r|]
    ensures r != [] ==> !IsSpace(r[|r| - 1])
    ensures forall i :: |r| <= i < |s| ==> IsSpace(s[i])
  {
    if s != [] && IsSpace(s[|s| - 1]) then TrimRight(s[..|s| - 1]) else s
  }

  /** `s.strip()` */
  function Strip(s: string): string {
    TrimRight(TrimLeft(s))
  }

  /** `s.lstrip(chars)` */
  function TrimLeftChars(s: string, chars: set<char>): (r: string)
    ensures |r| <= |s| && r == s[|s| - |r|..]
    ensures r != [] ==> r[0] !in chars
    ensures forall j :: 0 <= j < |s| - |r| ==> s[j] in chars
  {
    if s != [] && s[0] in chars then TrimLeftChars(s[1..], chars) else s
  }

  /** The longest prefix of `s` free of whitespace. */
  function Word(s: string): (w: string)
    ensures |w| <= |s| && w == s[..|w|]
    ensures s != [] && !IsSpace(s[0]) ==> w != []
    ensures forall c :: c in w ==> !IsSpace(c)
  {
    if s == [] || IsSpace(s[0]) then "" else [s[0]] + Word(s[1..])
  }

  /** `s.split()`: the maximal runs of non-whitespace characters, in order. */
  function SplitWs(s: string): (words: seq<string>)
    decreases |s|
  {
    var t := TrimLeft(s);
    if t == [] then []
    else
      var w := Word(t);
      [w] + SplitWs(t[|w|..])
  }

  /** The loop `for x in s: if p(x): r.append(x)`, which is also `[x for x in s if p(x)]`. */
  function Filter<T(==,!new)>(s: seq<T>, p: T -> bool): (r: seq<T>)
    ensures |r| <= |s|
    decreases |s|
  {
    if s == [] then []
    else Filter(s[..|s| - 1], p) + (if p(s[|s| - 1]) then [s[|s| - 1]] else [])
  }

  lemma {:induction false} FilterMembers<T(!new)>(s: seq<T>, p: T -> bool)
    ensures forall x :: x in Filter(s, p) <==> x in s && p(x)
    decreases |s|
  {
    if s != [] {
      var init := s[..|s| - 1];
      FilterMembers(init, p);
      assert s == init + [s[|s| - 1]];
    }
  }

  predicate Present(s: string) {
    s != ""
  }

  /** `filter(None, parts)`: the non-empty strings, in order. */
  function NonEmpty(parts: seq<string>): seq<string> {
    Filter(parts, Present)
  }

  /** Python's `s[:k]`, negative `k` counting from the end. */
  function Head<T>(s: seq<T>, k: int): (r: seq<T>)
    ensures |r| <= |s| && r == s[..|r|]
    ensures 0 <= k ==> |r| == if k < |s| then k else |s|
    ensures k < 0 ==> |r| == if |s| + k > 0 then |s| + k else 0
  {
    if k >= 0 then s[..if k < |s| then k else |s|]
    else s[..if |s| + k > 0 then |s| + k else 0]
  }

  /** `[s.strip() for s in parts]` */
  function StripAll(parts: seq<string>): (r: seq<string>)
    ensures |r| == |parts| && forall i :: 0 <= i < |parts| ==> r[i] == Strip(parts[i])
  {
    seq(|parts|, i requires 0 <= i < |parts| => Strip(parts[i]))
  }

  /** `a` is `b` with some elements left out, the rest in their order. */
  predicate Subseq<T(==)>(a: seq<T>, b: seq<T>)
    decreases |b|
  {
    a == [] ||
    (b != [] &&
     ((a[|a| - 1] == b[|b| - 1] && Subseq(a[..|a| - 1], b[..|b| - 1])) || Subseq(a, b[..|b| - 1])))
  }

  // ---------------------------------------------------------------------------
  // Lemmas

  /** A filter that keeps everything is the identity. */
  lemma {:induction false} FilterAll<T(!new)>(s: seq<T>, p: T -> bool)
    requires forall i :: 0 <= i < |s| ==> p(s[i])
    ensures Filter(s, p) == s
    decreases |s|
  {
    if s != [] {
      var init := s[..|s| - 1];
      assert forall i :: 0 <= i < |init| ==> init[i] == s[i];
      FilterAll(init, p);
      assert s == init + [s[|s| - 1]];
    }
  }

  /** Filtering a list that ends with `x`: the step of a loop that appends what it keeps. */
  lemma FilterSnoc<T(!new)>(s: seq<T>, x: T, p: T -> bool)
    ensures Filter(s + [x], p) == Filter(s, p) + (if p(x) then [x] else [])
  {
    assert (s + [x])[..|s|] == s;
  }

  /** Filtering a list that starts with `x`. */
  lemma {:induction false} FilterCons<T(!new)>(x: T, s: seq<T>, p: T -> bool)
    ensures Filter([x] + s, p) == (if p(x) then [x] else []) + Filter(s, p)
    decreases |s|
  {
    if s != [] {
      var init := s[..|s| - 1];
      assert ([x] + s)[..|s|] == [x] + init;
      FilterCons(x, init, p);
    }
  }

  /** Filtering by a stronger condition keeps a sub-list of what the weaker one keeps. */
  lemma {:induction false} FilterSubseq<T(!new)>(s: seq<T>, p: T -> bool, q: T -> bool)
    requires forall x :: p(x) ==> q(x)
    ensures Subseq(Filter(s, p), Filter(s, q))
    decreases |s|
  {
    if s != [] {
      var init := s[..|s| - 1];
      FilterSubseq(init, p, q);
      var a, b := Filter(s, p), Filter(s, q);
      if p(s[|s| - 1]) {
        assert a[..|a| - 1] == Filter(init, p);
        assert b[..|b| - 1] == Filter(init, q);
      } else if q(s[|s| - 1]) {
        assert b == Filter(init, q) + [s[|s| - 1]];
        assert b[..|b| - 1] == Filter(init, q);
        assert a == Filter(init, p);
        assert Subseq(a, b[..|b| - 1]);
      } else {
        assert a == Filter(init, p) && b == Filter(init, q);
      }
    }
  }

  /** A filter keeps the elements' order, so it keeps a list free of duplicates free of them. */
  lemma {:induction false} FilterDistinct<T(!new)>(s: seq<T>, p: T -> bool)
    requires forall i, j :: 0 <= i < j < |s| ==> s[i] != s[j]
    ensures forall i, j :: 0 <= i < j < |Filter(s, p)| ==> Filter(s, p)[i] != Filter(s, p)[j]
    decreases |s|
  {
    if s != [] {
      var init := s[..|s| - 1];
      FilterDistinct(init, p);
      var r := Filter(s, p);
      if p(s[|s| - 1]) {
        FilterMembers(init, p);
        forall i | 0 <= i < |r| - 1 ensures r[i] != r[|r| - 1] {
          assert r[i] in Filter(init, p);
          assert r[i] in init;
        }
      }
    }
  }

  /** A prefix holds only elements of the list. */
  lemma HeadMembers<T>(s: seq<T>, k: int)
    ensures forall x :: x in Head(s, k) ==> x in s
  {
    var h := Head(s, k);
    forall x | x in h ensures x in s {
      var i :| 0 <= i < |h| && h[i] == x;
      assert s[i] == x;
    }
  }

  /** A prefix of a list is a sub-list of it. */
  lemma {:induction false} PrefixSubseq<T>(s: seq<T>, k: nat)
    requires k <= |s|
    ensures Subseq(s[..k], s)
    decreases |s|
  {
    if k == |s| {
      if s != [] {
        assert s[..k] == s;
        assert s[..|s| - 1][..k - 1] == s[..k - 1];
        PrefixSubseq(s[..|s| - 1], k - 1);
        assert s[..k][..k - 1] == s[..|s| - 1];
      }
    } else {
      assert s[..|s| - 1][..k] == s[..k];
      PrefixSubseq(s[..|s| - 1], k);
    }
  }

  lemma {:induction false} StartsWithAppend(s: string, p: string, q: string)
    requires StartsWith(s, p)
    ensures StartsWith(s + q, p)
  {
    assert (s + q)[..|p|] == s[..|p|];
  }

  lemma JoinCons(x: string, rest: seq<string>, sep: string)
    requires rest != []
    ensures Join([x] + rest, sep) == x + sep + Join(rest, sep)
  {
    assert ([x] + rest)[1..] == rest;
  }

  /** Five parts joined: each separator sits between two neighbours. */
  lemma JoinFive(a: string, b: string, c: string, d: string, e: string, sep: string)
    ensures Join([a, b, c, d, e], sep) == a + sep + b + sep + c + sep + d + sep + e
  {
    JoinCons(d, [e], sep);
    assert [d, e] == [d] + [e];
    JoinCons(c, [d, e], sep);
    assert [c, d, e] == [c] + [d, e];
    JoinCons(b, [c, d, e], sep);
    assert [b, c, d, e] == [b] + [c, d, e];
    JoinCons(a, [b, c, d, e], sep);
    assert [a, b, c, d, e] == [a] + [b, c, d, e];
  }

  /** Every part of a join occurs in the joined string. */
  lemma {:induction false} JoinContains(parts: seq<string>, sep: string, i: nat)
    requires i < |parts|
    ensures Contains(Join(parts, sep), parts[i])
  {
    var j := Join(parts, sep);
    if |parts| == 1 {
      assert StartsWith(j[0..], parts[0]);
    } else if i == 0 {
      assert j == parts[0] + (sep + Join(parts[1..], sep));
      assert j[0..] == j;
      StartsWithAppend(parts[0], parts[0], sep + Join(parts[1..], sep));
      assert StartsWith(j[0..], parts[0]);
    } else {
      JoinContains(parts[1..], sep, i - 1);
      var rest := Join(parts[1..], sep);
      var k :| 0 <= k <= |rest| && StartsWith(rest[k..], parts[i]);
      var pre := parts[0] + sep;
      assert j == pre + rest;
      assert j[|pre| + k..] == rest[k..];
    }
  }

  /** A string occurring in `mid` occurs in `pre + mid + post`. */
  lemma ContainsInfix(pre: string, mid: string, post: string, needle: string)
    requires Contains(mid, needle)
    ensures Contains(pre + mid + post, needle)
  {
    var k :| 0 <= k <= |mid| && StartsWith(mid[k..], needle);
    var whole := pre + mid + post;
    assert whole[|pre| + k..] == mid[k..] + post;
    StartsWithAppend(mid[k..], needle, post);
  }

  /** An occurrence of an occurrence is an occurrence. */
  lemma ContainsTrans(a: string, b: string, c: string)
    requires Contains(a, b) && Contains(b, c)
    ensures Contains(a, c)
  {
    var i :| 0 <= i <= |a| && StartsWith(a[i..], b);
    var j :| 0 <= j <= |b| && StartsWith(b[j..], c);
    assert a[i..][..|b|] == b;
    assert j + |c| <= |b|;
    forall k | 0 <= k < |c| ensures a[i + j + k] == c[k] {
      assert a[i + j + k] == a[i..][..|b|][j + k] == b[j + k] == b[j..][..|c|][k];
    }
    assert a[i + j..][..|c|] == c;
    assert StartsWith(a[i + j..], c);
  }

  /** A string contains each of its prefixes. */
  lemma ContainsPrefix(s: string, p: string)
    requires StartsWith(s, p)
    ensures Contains(s, p)
  {
    assert s[0..] == s;
  }

  /** Joining the parts of a split with the separator gives back the string. */
  lemma {:induction false} JoinSplit(s: string, sep: char)
    ensures Join(Split(s, sep), [sep]) == s
    decreases |s|
  {
    if s == [] {
    } else if s[0] == sep {
      var rest := Split(s[1..], sep);
      JoinSplit(s[1..], sep);
      assert Split(s, sep) == [""] + rest;
      assert ([""] + rest)[1..] == rest;
    } else {
      var rest := Split(s[1..], sep);
      JoinSplit(s[1..], sep);
      var parts := [[s[0]] + rest[0]] + rest[1..];
      assert Split(s, sep) == parts;
      if |rest| == 1 {
        assert Join(parts, [sep]) == [s[0]] + rest[0];
      } else {
        assert parts[1..] == rest[1..];
        assert Join(rest, [sep]) == rest[0] + [sep] + Join(rest[1..], [sep]);
        assert Join(parts, [sep]) == [s[0]] + rest[0] + [sep] + Join(rest[1..], [sep]);
      }
    }
  }

  /** No part of a split contains the separator. */
  lemma {:induction false} SplitPartsFree(s: string, sep: char)
    ensures forall p :: p in Split(s, sep) ==> sep !in p
    decreases |s|
  {
    if s != [] {
      SplitPartsFree(s[1..], sep);
    }
  }

  /** The first part of a split is the longest prefix without the separator. */
  lemma {:induction false} SplitHead(s: string, sep: char)
    ensures var h := Split(s, sep)[0];
      StartsWith(s, h) && sep !in h && (|h| < |s| ==> s[|h|] == sep)
    decreases |s|
  {
    if s != [] && s[0] != sep {
      SplitHead(s[1..], sep);
    }
  }

  /** The words of `split()` are non-empty and free of whitespace. */
  lemma {:induction false} SplitWsWords(s: string)
    ensures forall w :: w in SplitWs(s) ==> w != [] && forall c :: c in w ==> !IsSpace(c)
    decreases |s|
  {
    var t := TrimLeft(s);
    if t != [] {
      SplitWsWords(t[|Word(t)|..]);
    }
  }

  /** A string made only of whitespace has no words. */
  lemma {:induction false} SplitWsBlank(s: string)
    requires forall i :: 0 <= i < |s| ==> IsSpace(s[i])
    ensures SplitWs(s) == []
  {
  }

  lemma LowerIdempotent(s: string)
    ensures Lower(Lower(s)) == Lower(s)
  {
  }
}
