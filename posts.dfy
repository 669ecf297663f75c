/** Posts and the one ordering the pages use on them: `[...posts].sort((a, b) => b.k - a.k)`,
    a stable sort by a numeric field, largest first, optionally followed by `slice(0, n)`. */
module Posts {
  import opened Prelude

  /** The fields of a post that the modelled rules read. */
  datatype Post = Post(
    id: string, slug: string, title: string, excerpt: string, category: string,
    views: int, reactionsCount: int, isPremium: bool)

  /** The numeric field a page sorts by. */
  datatype Metric = Views | Reactions

  function Score(p: Post, m: Metric): int {
    match m
    case Views => p.views
    case Reactions => p.reactionsCount
  }

  predicate NonIncreasing(s: seq<Post>, m: Metric) {
    forall i, j :: 0 <= i < j < |s| ==> Score(s[i], m) >= Score(s[j], m)
  }

  /** Puts `x` in front of the first element that does not out-score it, so that among equal
      scores the element inserted last (the earlier one in the input) comes first. */
  function Insert(x: Post, s: seq<Post>, m: Metric): (r: seq<Post>)
    requires NonIncreasing(s, m)
    ensures NonIncreasing(r, m)
    ensures multiset(r) == multiset(s) + multiset{x}
  {
    if s == [] || Score(x, m) >= Score(s[0], m) then
      ConsNonIncreasing(x, s, m);
      [x] + s
    else
      NonIncreasingTail(s, m);
      var rest := Insert(x, s[1..], m);
      HeadDominates(s, x, rest, m);
      ConsNonIncreasing(s[0], rest, m);
      assert s == [s[0]] + s[1..];
      assert multiset([s[0]] + rest) == multiset{s[0]} + multiset(rest);
      [s[0]] + rest
  }

  lemma NonIncreasingTail(s: seq<Post>, m: Metric)
    requires s != [] && NonIncreasing(s, m)
    ensures NonIncreasing(s[1..], m)
  {
    forall i, j | 0 <= i < j < |s| - 1 ensures Score(s[1..][i], m) >= Score(s[1..][j], m) {
      assert s[1..][i] == s[i + 1] && s[1..][j] == s[j + 1];
    }
  }

  /** A head that out-scores a sorted tail keeps the list sorted. */
  lemma ConsNonIncreasing(h: Post, rest: seq<Post>, m: Metric)
    requires NonIncreasing(rest, m)
    requires rest == [] || Score(h, m) >= Score(rest[0], m)
    ensures NonIncreasing([h] + rest, m)
  {
    var r := [h] + rest;
    forall i, j | 0 <= i < j < |r| ensures Score(r[i], m) >= Score(r[j], m) {
      assert r[j] == rest[j - 1];
      if i > 0 {
        assert r[i] == rest[i - 1];
      }
    }
  }

  /** The head of a sorted list out-scores whatever is inserted behind it. */
  lemma HeadDominates(s: seq<Post>, x: Post, rest: seq<Post>, m: Metric)
    requires s != [] && NonIncreasing(s, m) && Score(x, m) < Score(s[0], m)
    requires multiset(rest) == multiset(s[1..]) + multiset{x}
    ensures rest == [] || Score(s[0], m) >= Score(rest[0], m)
  {
    if rest != [] {
      assert rest[0] in multiset(rest);
      if rest[0] != x {
        assert rest[0] in multiset(s[1..]);
        var k :| 0 <= k < |s[1..]| && s[1..][k] == rest[0];
        assert s[k + 1] == rest[0];
      }
    }
  }

  /** The stable insertion sort that `Array.prototype.sort` performs with the comparator
      `(a, b) => score(b) - score(a)`. */
  function SortBy(s: seq<Post>, m: Metric): (r: seq<Post>)
    ensures NonIncreasing(r, m)
    ensures multiset(r) == multiset(s)
    ensures |r| == |s|
  {
    if s == [] then []
    else
      assert s == [s[0]] + s[1..];
      var r := Insert(s[0], SortBy(s[1..], m), m);
      assert |r| == |multiset(r)| == |multiset(s)|;
      r
  }

  /** `[...s].sort(by m, descending).slice(0, n)` */
  function TopBy(s: seq<Post>, m: Metric, n: nat): (r: seq<Post>)
    ensures |r| == Min(n, |s|)
    ensures NonIncreasing(r, m)
    ensures r == SortBy(s, m)[..|r|]
    ensures multiset(r) <= multiset(s)
    ensures forall x :: x in r ==> x in s
  {
    var sorted := SortBy(s, m);
    var k := Min(n, |s|);
    PrefixSubMultiset(sorted, k);
    PrefixNonIncreasing(sorted, k, m);
    forall x | x in sorted[..k] ensures x in s {
      assert x in multiset(sorted[..k]);
    }
    sorted[..k]
  }

  lemma PrefixNonIncreasing(s: seq<Post>, k: nat, m: Metric)
    requires k <= |s| && NonIncreasing(s, m)
    ensures NonIncreasing(s[..k], m)
  {
    forall i, j | 0 <= i < j < k ensures Score(s[..k][i], m) >= Score(s[..k][j], m) {
      assert s[..k][i] == s[i] && s[..k][j] == s[j];
    }
  }

  /** What `TopBy` leaves out scores no higher than anything it keeps. */
  lemma TopByKeepsTheBest(s: seq<Post>, m: Metric, n: nat, x: Post, y: Post)
    requires x in s && x !in TopBy(s, m, n)
    requires y in TopBy(s, m, n)
    ensures Score(y, m) >= Score(x, m)
  {
    var sorted := SortBy(s, m);
    var r := TopBy(s, m, n);
    assert r == sorted[..|r|];
    assert x in multiset(sorted);
    var k :| 0 <= k < |sorted| && sorted[k] == x;
    var i :| 0 <= i < |r| && r[i] == y;
    assert sorted[i] == y;
  }
}
