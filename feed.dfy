/** The home feed: the visible posts with an ad after every third one, the "Load More" button
    that reveals five more posts at a time, the guest reward banner and the trending ribbon. */
module Feed {
  import opened Prelude
  import opened Posts
  import Gamification
  import Events

  /** The fields of an ad the feed reads. */
  datatype Ad = Ad(id: string)

  datatype FeedItem = PostItem(post: Post) | AdItem(ad: Ad)

  /** How many posts the feed starts with and how many each "Load More" adds. */
  const BatchSize: nat := 5

  /** How many posts the trending ribbon holds. */
  const TrendingCount: nat := 6

  /** What the `forEach` callback pushes for the post at (0-based) index `i`: the post, then
      ad number `floor(i / 3)` when `i + 1` is a multiple of 3 and that ad exists. */
  function Block(posts: seq<Post>, ads: seq<Ad>, i: nat): seq<FeedItem>
    requires i < |posts|
  {
    [PostItem(posts[i])] + (if AdSlot(i, |ads|) then [AdItem(ads[i / 3])] else [])
  }

  /** An ad follows the post at index `i` when `i + 1` is a multiple of 3 and ad number
      `floor(i / 3)` exists. */
  predicate AdSlot(i: nat, adCount: nat) {
    (i + 1) % 3 == 0 && i / 3 < adCount
  }

  /** The arithmetic of the ad count: one more post adds an ad exactly at an ad slot, and that
      ad is the next one in line. */
  lemma AdCountStep(k: nat, adCount: nat)
    requires k > 0
    ensures Min(adCount, k / 3) == Min(adCount, (k - 1) / 3) + (if AdSlot(k - 1, adCount) then 1 else 0)
    ensures AdSlot(k - 1, adCount) ==> (k - 1) / 3 == Min(adCount, (k - 1) / 3)
  {
  }

  /** The items pushed once the callback has run for the first `k` posts. */
  function FeedOf(posts: seq<Post>, ads: seq<Ad>, k: nat): seq<FeedItem>
    requires k <= |posts|
  {
    if k == 0 then [] else FeedOf(posts, ads, k - 1) + Block(posts, ads, k - 1)
  }

  /** `feedItems`: the first `visibleCount` posts with the ads pushed between them. */
  method FeedItems(allPosts: seq<Post>, ads: seq<Ad>, visibleCount: nat) returns (items: seq<FeedItem>)
    ensures var shown := Take(allPosts, visibleCount); items == FeedOf(shown, ads, |shown|)
    ensures PostsOf(items) == allPosts[..Min(visibleCount, |allPosts|)]
    ensures AdsOf(items) == ads[..Min(|ads|, Min(visibleCount, |allPosts|) / 3)]
    ensures items != [] ==> items[0].PostItem?
    ensures forall j :: 0 <= j < |items| && items[j].AdItem? ==> j > 0 && items[j - 1].PostItem?
  {
    var posts := Take(allPosts, visibleCount);
    items := [];
    var i := 0;
    while i < |posts|
      invariant 0 <= i <= |posts|
      invariant items == FeedOf(posts, ads, i)
    {
      items := items + [PostItem(posts[i])];
      if (i + 1) % 3 == 0 && i / 3 < |ads| {
        items := items + [AdItem(ads[i / 3])];
      }
      i := i + 1;
    }
    FeedPosts(posts, ads, |posts|);
    FeedAds(posts, ads, |posts|);
    FeedShape(posts, ads, |posts|);
  }

  /** The posts of a list of feed items, in order. */
  function PostsOf(items: seq<FeedItem>): seq<Post> {
    if items == [] then []
    else (if items[0].PostItem? then [items[0].post] else []) + PostsOf(items[1..])
  }

  /** The ads of a list of feed items, in order. */
  function AdsOf(items: seq<FeedItem>): seq<Ad> {
    if items == [] then []
    else (if items[0].AdItem? then [items[0].ad] else []) + AdsOf(items[1..])
  }

  lemma {:induction false} PostsOfAppend(a: seq<FeedItem>, b: seq<FeedItem>)
    ensures PostsOf(a + b) == PostsOf(a) + PostsOf(b)
  {
    if a != [] {
      assert a + b != [] && (a + b)[0] == a[0];
      assert (a + b)[1..] == a[1..] + b;
      PostsOfAppend(a[1..], b);
    } else {
      assert a + b == b;
    }
  }

  lemma {:induction false} AdsOfAppend(a: seq<FeedItem>, b: seq<FeedItem>)
    ensures AdsOf(a + b) == AdsOf(a) + AdsOf(b)
  {
    if a != [] {
      assert a + b != [] && (a + b)[0] == a[0];
      assert (a + b)[1..] == a[1..] + b;
      AdsOfAppend(a[1..], b);
    } else {
      assert a + b == b;
    }
  }

  /** The posts of the feed are the first `k` posts, in their order: none is dropped, repeated
      or moved by the interleaving. */
  lemma {:induction false} FeedPosts(posts: seq<Post>, ads: seq<Ad>, k: nat)
    requires k <= |posts|
    ensures PostsOf(FeedOf(posts, ads, k)) == posts[..k]
  {
    if k > 0 {
      var prev := FeedOf(posts, ads, k - 1);
      var b := Block(posts, ads, k - 1);
      FeedPosts(posts, ads, k - 1);
      BlockPosts(posts, ads, k - 1);
      assert posts[..k] == posts[..k - 1] + [posts[k - 1]];
      PostsStep(FeedOf(posts, ads, k), prev, b, posts[..k - 1], posts[k - 1], posts[..k]);
    }
  }

  /** The post half of `BlockContents`, stated alone to keep the proofs about posts small. */
  lemma BlockPosts(posts: seq<Post>, ads: seq<Ad>, i: nat)
    requires i < |posts|
    ensures PostsOf(Block(posts, ads, i)) == [posts[i]]
  {
    BlockContents(posts, ads, i);
  }

  /** One induction step of `FeedPosts`: the posts of `prev + b` are those of `prev`, then `x`. */
  lemma PostsStep(f: seq<FeedItem>, prev: seq<FeedItem>, b: seq<FeedItem>, pre: seq<Post>, x: Post, whole: seq<Post>)
    requires f == prev + b && PostsOf(prev) == pre && PostsOf(b) == [x] && pre + [x] == whole
    ensures PostsOf(f) == whole
  {
    PostsOfAppend(prev, b);
  }

  /** The ad half of `BlockContents`. */
  lemma BlockAds(posts: seq<Post>, ads: seq<Ad>, i: nat)
    requires i < |posts|
    ensures AdsOf(Block(posts, ads, i)) == if AdSlot(i, |ads|) then [ads[i / 3]] else []
  {
    BlockContents(posts, ads, i);
  }

  /** One induction step of `FeedAds`. */
  lemma AdsStep(f: seq<FeedItem>, prev: seq<FeedItem>, b: seq<FeedItem>, pre: seq<Ad>, extra: seq<Ad>, whole: seq<Ad>)
    requires f == prev + b && AdsOf(prev) == pre && AdsOf(b) == extra && pre + extra == whole
    ensures AdsOf(f) == whole
  {
    AdsOfAppend(prev, b);
  }

  /** One callback run pushes one post and at most one ad. */
  lemma BlockContents(posts: seq<Post>, ads: seq<Ad>, i: nat)
    requires i < |posts|
    ensures PostsOf(Block(posts, ads, i)) == [posts[i]]
    ensures AdsOf(Block(posts, ads, i)) == if AdSlot(i, |ads|) then [ads[i / 3]] else []
  {
    var b := Block(posts, ads, i);
    if AdSlot(i, |ads|) {
      assert b == [PostItem(posts[i]), AdItem(ads[i / 3])];
      var tail := b[1..];
      assert tail == [AdItem(ads[i / 3])] && tail[1..] == [];
      assert PostsOf(tail) == [] + PostsOf(tail[1..]);
      assert AdsOf(tail) == [ads[i / 3]] + AdsOf(tail[1..]);
      assert PostsOf(b) == [posts[i]] + PostsOf(tail);
      assert AdsOf(b) == [] + AdsOf(tail);
    } else {
      assert b == [PostItem(posts[i])];
      assert b[1..] == [];
      assert PostsOf(b) == [posts[i]] + PostsOf(b[1..]);
      assert AdsOf(b) == [] + AdsOf(b[1..]);
    }
  }

  /** The ads of the feed are the first `floor(k / 3)` ads, as far as there are that many:
      one ad per full group of three posts, in order. */
  lemma {:induction false} FeedAds(posts: seq<Post>, ads: seq<Ad>, k: nat)
    requires k <= |posts|
    ensures AdsOf(FeedOf(posts, ads, k)) == ads[..Min(|ads|, k / 3)]
  {
    if k > 0 {
      var prev := FeedOf(posts, ads, k - 1);
      var b := Block(posts, ads, k - 1);
      var c := Min(|ads|, (k - 1) / 3);
      var slot := AdSlot(k - 1, |ads|);
      FeedAds(posts, ads, k - 1);
      AdCountStep(k, |ads|);
      BlockAds(posts, ads, k - 1);
      var extra := if slot then [ads[c]] else [];
      PrefixStep(ads, c, slot);
      AdsStep(FeedOf(posts, ads, k), prev, b, ads[..c], extra, ads[..Min(|ads|, k / 3)]);
    }
  }

  /** Growing a prefix by zero or one element. */
  lemma PrefixStep<T>(s: seq<T>, c: nat, grow: bool)
    requires grow ==> c < |s|
    requires c <= |s|
    ensures s[..c] + (if grow then [s[c]] else []) == s[..c + if grow then 1 else 0]
  {
  }

  /** The shape of the feed: it never starts with an ad, no two ads are adjacent, and every ad
      comes right after a post whose 1-based position is a multiple of three, being ad number
      `floor(i / 3)` for that post's 0-based index `i`. */
  lemma FeedShape(posts: seq<Post>, ads: seq<Ad>, k: nat)
    requires k <= |posts|
    ensures var f := FeedOf(posts, ads, k);
      && (f != [] ==> f[0].PostItem?)
      && (forall j :: 0 <= j < |f| && f[j].AdItem? ==>
            j > 0 && f[j - 1].PostItem? && AdAfter(posts, ads, f, j))
  {
    var f := FeedOf(posts, ads, k);
    if f != [] {
      FeedStartsWithPost(posts, ads, k);
    }
    forall j | 0 <= j < |f| && f[j].AdItem?
      ensures j > 0 && f[j - 1].PostItem? && AdAfter(posts, ads, f, j)
    {
      AdPosition(posts, ads, k, j);
    }
  }

  lemma {:induction false} FeedStartsWithPost(posts: seq<Post>, ads: seq<Ad>, k: nat)
    requires 0 < k <= |posts|
    ensures FeedOf(posts, ads, k) != [] && FeedOf(posts, ads, k)[0] == PostItem(posts[0])
  {
    if k > 1 {
      FeedStartsWithPost(posts, ads, k - 1);
    }
  }

  /** The ad at index `j` of the feed sits where `FeedShape` says. */
  lemma {:induction false} AdPosition(posts: seq<Post>, ads: seq<Ad>, k: nat, j: nat)
    requires k <= |posts|
    requires j < |FeedOf(posts, ads, k)| && FeedOf(posts, ads, k)[j].AdItem?
    ensures j > 0 && FeedOf(posts, ads, k)[j - 1].PostItem?
    ensures AdAfter(posts, ads, FeedOf(posts, ads, k), j)
  {
    var prev := FeedOf(posts, ads, k - 1);
    var f := FeedOf(posts, ads, k);
    var b := Block(posts, ads, k - 1);
    assert f == prev + b;
    if j < |prev| {
      AdPosition(posts, ads, k - 1, j);
      AdAfterExtended(posts, ads, prev, b, j);
    } else {
      assert f[|prev|] == b[0] == PostItem(posts[k - 1]);
      assert j == |prev| + 1 && AdSlot(k - 1, |ads|) && f[j] == AdItem(ads[(k - 1) / 3]);
      FeedPosts(posts, ads, k - 1);
      BlockPosts(posts, ads, k - 1);
      assert posts[..k] == posts[..k - 1] + [posts[k - 1]];
      assert f[..j] == prev + [PostItem(posts[k - 1])];
      PostsStep(f[..j], prev, [PostItem(posts[k - 1])], posts[..k - 1], posts[k - 1], posts[..k]);
    }
  }

  /** Items appended after an ad do not move it or the posts before it. */
  lemma AdAfterExtended(posts: seq<Post>, ads: seq<Ad>, prev: seq<FeedItem>, b: seq<FeedItem>, j: nat)
    requires 0 < j < |prev| && AdAfter(posts, ads, prev, j)
    ensures AdAfter(posts, ads, prev + b, j)
  {
    assert (prev + b)[..j] == prev[..j];
    assert (prev + b)[j] == prev[j];
  }

  /** The ad at index `j` of `f` follows the post of (0-based) index `i`, with `i + 1` a
      multiple of three, and is ad number `floor(i / 3)`. */
  predicate AdAfter(posts: seq<Post>, ads: seq<Ad>, f: seq<FeedItem>, j: nat)
    requires 0 < j < |f|
  {
    var i := |PostsOf(f[..j])| - 1;
    && 0 <= i < |posts| && (i + 1) % 3 == 0 && i / 3 < |ads| && f[j] == AdItem(ads[i / 3])
  }

  /** The "Load More" updater `prev => Math.min(prev + BATCH_SIZE, posts.length)`. */
  function NextVisible(visible: nat, postCount: nat): (v: nat)
    ensures v <= postCount
    ensures visible < postCount ==> visible < v
    ensures visible <= postCount ==> v - visible <= BatchSize
  {
    Min(visible + BatchSize, postCount)
  }

  /** `m` presses of "Load More" in a row. */
  function LoadMoreTimes(visible: nat, postCount: nat, m: nat): nat
    decreases m
  {
    if m == 0 then visible else LoadMoreTimes(NextVisible(visible, postCount), postCount, m - 1)
  }

  /** From a count within bounds, `m` presses reveal `5m` more posts until all are shown. */
  lemma {:induction false} LoadMoreReveals(visible: nat, postCount: nat, m: nat)
    requires visible <= postCount
    ensures LoadMoreTimes(visible, postCount, m) == Min(visible + BatchSize * m, postCount)
    decreases m
  {
    if m > 0 {
      LoadMoreReveals(NextVisible(visible, postCount), postCount, m - 1);
    }
  }

  /** The guest reward banner: the page's `isGuest` (from the auth context) and the XP
      context's shadow wallet. */
  predicate ShowGuestBanner(authIsGuest: bool, shadowWalletXP: int) {
    authIsGuest && shadowWalletXP > 0
  }

  /** The banner reads the auth context's guest flag, while the wallet grows on the XP
      context's own flag (set from the profile alone); the two are separate inputs here. A
      grant to a guest in both senses, from an empty or positive wallet, shows the banner; a
      grant while the XP context holds a profile leaves the banner as it was; and a reader the
      auth context treats as signed in never sees it. */
  lemma GuestBannerAfterGrant(
    authIsGuest: bool, s: Gamification.GamificationState, e: Events.Event, rankOf: int -> Gamification.Rank)
    requires s.shadowWalletXP >= 0
    ensures var t := Gamification.AddXPUpdate(s, e, rankOf);
      && (authIsGuest && s.isGuest && e.amount > 0 ==> ShowGuestBanner(authIsGuest, t.shadowWalletXP))
      && (!s.isGuest ==> ShowGuestBanner(authIsGuest, t.shadowWalletXP) == ShowGuestBanner(authIsGuest, s.shadowWalletXP))
      && (!authIsGuest ==> !ShowGuestBanner(authIsGuest, t.shadowWalletXP))
  {
  }

  /** `trendingPosts`: the six most viewed posts, most viewed first. */
  function TrendingPosts(posts: seq<Post>): (r: seq<Post>)
    ensures |r| == Min(TrendingCount, |posts|)
    ensures NonIncreasing(r, Views)
    ensures r == SortBy(posts, Views)[..|r|]
    ensures multiset(r) <= multiset(posts)
    ensures forall x :: x in r ==> x in posts
  {
    TopBy(posts, Views, TrendingCount)
  }

  /** The home page's own state: the posts and ads it shows and how many posts are visible. */
  class FeedPage {
    const posts: seq<Post>
    const ads: seq<Ad>
    var visibleCount: nat

    constructor (posts: seq<Post>, ads: seq<Ad>)
      ensures this.posts == posts && this.ads == ads && visibleCount == BatchSize
    {
      this.posts := posts;
      this.ads := ads;
      visibleCount := BatchSize;
    }

    /** The "Load More" button is offered while some post is hidden. */
    predicate CanLoadMore()
      reads this
    {
      visibleCount < |posts|
    }

    /** The button's click: reveal up to five more posts, never more than there are. */
    method LoadMore()
      modifies this
      ensures visibleCount == NextVisible(old(visibleCount), |posts|)
      ensures visibleCount <= |posts|
      ensures old(CanLoadMore()) ==> old(visibleCount) < visibleCount
    {
      visibleCount := Min(visibleCount + BatchSize, |posts|);
    }

    /** The items the page renders for the current count. */
    method Items() returns (items: seq<FeedItem>)
      ensures PostsOf(items) == posts[..Min(visibleCount, |posts|)]
      ensures AdsOf(items) == ads[..Min(|ads|, Min(visibleCount, |posts|) / 3)]
    {
      items := FeedItems(posts, ads, visibleCount);
    }
  }
}
