/** The post page: looking the post up by slug, its related posts, and the per-view state the
    page keeps while mounted (the active reaction, the one-shot read latch, the premium blur
    flag, the comment list and the comment input). The handlers return the reward calls they
    issue to the XP and coin contexts. The scroll depth arrives as the ratio the page computes
    from the layout; the layout itself is not modelled. */
module PostDetail {
  import opened Prelude
  import opened Text
  import opened Posts
  import opened Effects

  /** `posts.find(p => p.slug === slug)`: the first post with that slug. */
  function FindBySlug(posts: seq<Post>, slug: string): (r: Option<Post>)
    ensures r.None? <==> forall i :: 0 <= i < |posts| ==> posts[i].slug != slug
    ensures r.Some? ==> exists i :: 0 <= i < |posts| && posts[i] == r.value
                                    && posts[i].slug == slug
                                    && forall j :: 0 <= j < i ==> posts[j].slug != slug
  {
    if posts == [] then None
    else if posts[0].slug == slug then Some(posts[0])
    else
      var r := FindBySlug(posts[1..], slug);
      assert forall i :: 0 < i < |posts| ==> posts[i] == posts[1..][i - 1];
      r
  }

  function IsRelatedTo(post: Post): Post -> bool {
    (p: Post) => p.category == post.category && p.id != post.id
  }

  /** Number of related posts the page shows. */
  const MaxRelated: nat := 3

  /** `relatedPosts`: the first three other posts of the same category, in catalogue order;
      none when the post was not found. */
  function RelatedPosts(posts: seq<Post>, post: Option<Post>): (r: seq<Post>)
    ensures |r| <= MaxRelated
    ensures post.None? ==> r == []
    ensures post.Some? ==> forall q :: q in r ==>
      q in posts && q.category == post.value.category && q.id != post.value.id
    ensures post.Some? ==> Subseq(r, posts)
    ensures post.Some? ==> |r| == Min(MaxRelated, |Filter(posts, IsRelatedTo(post.value))|)
    ensures post.Some? ==> r == Filter(posts, IsRelatedTo(post.value))[..|r|]
  {
    if post.None? then []
    else
      var related := Filter(posts, IsRelatedTo(post.value));
      var r := Take(related, MaxRelated);
      FilterIsSubseq(posts, IsRelatedTo(post.value));
      SubseqOfPrefix(r, related, posts);
      forall q | q in r
        ensures q in posts && q.category == post.value.category && q.id != post.value.id
      {
        var i :| 0 <= i < |r| && r[i] == q;
        assert related[i] == q;
        assert IsRelatedTo(post.value)(q);
      }
      r
  }

  lemma {:induction false} SubseqOfPrefix(r: seq<Post>, s: seq<Post>, t: seq<Post>)
    requires Subseq(s, t) && |r| <= |s| && r == s[..|r|]
    ensures Subseq(r, t)
    decreases |t|
  {
    if r != [] {
      assert t != [];
      if s[0] == t[0] && Subseq(s[1..], t[1..]) {
        assert r[1..] == s[1..][..|r| - 1];
        SubseqOfPrefix(r[1..], s[1..], t[1..]);
      } else {
        SubseqOfPrefix(r, s, t[1..]);
      }
    }
  }

  // ---------------------------------------------------------------------------------------
  // Reactions

  /** `handleReaction(emoji)` as a transition: clicking the active emoji clears it, any other
      click makes that emoji active, and a reward is due exactly when nothing was active. */
  function ReactionStep(active: Option<string>, emoji: string): (r: (Option<string>, bool))
    ensures r.0.None? <==> active == Some(emoji)
    ensures r.0.Some? ==> r.0.value == emoji
    ensures r.1 <==> active.None?
  {
    if active == Some(emoji) then (None, false) else (Some(emoji), active.None?)
  }

  /** The number of rewarded clicks in a run of reaction clicks. */
  function ReactionRewards(active: Option<string>, clicks: seq<string>): nat
    decreases clicks
  {
    if clicks == [] then 0
    else
      var (next, rewarded) := ReactionStep(active, clicks[0]);
      (if rewarded then 1 else 0) + ReactionRewards(next, clicks[1..])
  }

  /** A reward needs a cleared reaction before it, so at most every other click is rewarded:
      `n` clicks starting from no reaction earn at most `ceil(n / 2)` rewards. */
  lemma {:induction false} ReactionRewardsAlternate(active: Option<string>, clicks: seq<string>)
    ensures ReactionRewards(active, clicks) <= (|clicks| + (if active.None? then 1 else 0)) / 2
    decreases clicks
  {
    if clicks != [] {
      var (next, _) := ReactionStep(active, clicks[0]);
      ReactionRewardsAlternate(next, clicks[1..]);
    }
  }

  /** Every click picks an emoji other than the one active just before it. */
  predicate AllSwitches(active: string, clicks: seq<string>)
    decreases clicks
  {
    clicks == [] || (clicks[0] != active && AllSwitches(clicks[0], clicks[1..]))
  }

  /** Switching from one emoji straight to another never rewards. */
  lemma {:induction false} SwitchingNeverRewards(active: string, clicks: seq<string>)
    requires AllSwitches(active, clicks)
    ensures ReactionRewards(Some(active), clicks) == 0
    decreases clicks
  {
    if clicks != [] {
      assert ReactionStep(Some(active), clicks[0]) == (Some(clicks[0]), false);
      SwitchingNeverRewards(clicks[0], clicks[1..]);
    }
  }

  /** 🔥, ❤️, 🔥: one reward. 🔥, 🔥, 🔥: removing the reaction and adding it again rewards
      a second time. */
  lemma ReactionExamples()
    ensures ReactionRewards(None, ["🔥", "❤️", "🔥"]) == 1
    ensures ReactionRewards(None, ["🔥", "🔥", "🔥"]) == 2
  {
    assert ["🔥", "❤️", "🔥"][1..] == ["❤️", "🔥"];
    assert ["❤️", "🔥"][1..] == ["🔥"];
    assert ["🔥", "🔥", "🔥"][1..] == ["🔥", "🔥"];
    assert ["🔥", "🔥"][1..] == ["🔥"];
  }

  // ---------------------------------------------------------------------------------------
  // Scrolling

  /** Depth past which a premium post is blurred. */
  const BlurDepth: real := 0.5

  /** Depth past which the read reward fires. */
  const ReadDepth: real := 0.8

  /** `Math.min(1, ratio)` */
  function ScrollDepth(ratio: real): (d: real)
    ensures d <= 1.0
    ensures ratio <= 1.0 ==> d == ratio
    ensures ratio > 1.0 ==> d == 1.0
  {
    if ratio <= 1.0 then ratio else 1.0
  }

  /** How many read rewards a run of scroll events fires, from the given latch. */
  function ReadRewards(tracked: bool, ratios: seq<real>): nat
    decreases ratios
  {
    if ratios == [] then 0
    else if !tracked && ScrollDepth(ratios[0]) > ReadDepth then 1 + ReadRewards(true, ratios[1..])
    else ReadRewards(tracked, ratios[1..])
  }

  /** The read reward fires at most once per view, never after the latch is set, and exactly
      once when some scroll goes past the read depth. */
  lemma {:induction false} ReadRewardOnce(tracked: bool, ratios: seq<real>)
    ensures ReadRewards(tracked, ratios) <= 1
    ensures tracked ==> ReadRewards(tracked, ratios) == 0
    ensures !tracked ==>
      (ReadRewards(tracked, ratios) == 1 <==> exists i :: 0 <= i < |ratios| && ScrollDepth(ratios[i]) > ReadDepth)
    decreases ratios
  {
    if ratios != [] {
      ReadRewardOnce(tracked, ratios[1..]);
      ReadRewardOnce(true, ratios[1..]);
      assert forall i :: 0 < i < |ratios| ==> ratios[i] == ratios[1..][i - 1];
    }
  }

  /** What the scroll listener reads and sets: whether a listener is registered for the
      current post, the read latch and the blur flag. */
  datatype ScrollState = ScrollState(listening: bool, tracked: bool, blurred: bool)

  /** One scroll event: with no listener registered nothing happens; otherwise the blur flag
      latches on for a premium post past the blur depth and the read latch past the read depth. */
  function ScrollStep(st: ScrollState, premium: bool, ratio: real): ScrollState {
    if !st.listening then st
    else
      st.(blurred := st.blurred || (premium && ScrollDepth(ratio) > BlurDepth),
          tracked := st.tracked || ScrollDepth(ratio) > ReadDepth)
  }

  /** A run of scroll events on one post. */
  function ScrollRun(st: ScrollState, premium: bool, ratios: seq<real>): ScrollState
    decreases ratios
  {
    if ratios == [] then st else ScrollRun(ScrollStep(st, premium, ratios[0]), premium, ratios[1..])
  }

  /** With a listener registered, a run blurs the post exactly when it was blurred already or
      the post is premium and some scroll goes past the blur depth; the listener stays. */
  lemma {:induction false} BlurRun(st: ScrollState, premium: bool, ratios: seq<real>)
    requires st.listening
    ensures ScrollRun(st, premium, ratios).listening
    ensures ScrollRun(st, premium, ratios).blurred <==>
      st.blurred || (premium && exists i :: 0 <= i < |ratios| && ScrollDepth(ratios[i]) > BlurDepth)
    decreases ratios
  {
    if ratios != [] {
      BlurRun(ScrollStep(st, premium, ratios[0]), premium, ratios[1..]);
      assert forall i :: 0 < i < |ratios| ==> ratios[i] == ratios[1..][i - 1];
    }
  }

  /** Without a listener no run of scrolls changes anything. */
  lemma {:induction false} UnlistenedViewIsFrozen(st: ScrollState, premium: bool, ratios: seq<real>)
    requires !st.listening
    ensures ScrollRun(st, premium, ratios) == st
    decreases ratios
  {
    if ratios != [] {
      UnlistenedViewIsFrozen(ScrollStep(st, premium, ratios[0]), premium, ratios[1..]);
    }
  }

  /** A view whose read latch is set and which moves to another post registers no listener
      there, so however far the reader scrolls, a premium post is never blurred (unless the
      flag was already set on the earlier post). */
  lemma LatchedChangeNeverBlurs(st: ScrollState, premium: bool, ratios: seq<real>)
    requires st.tracked
    ensures var moved := st.(listening := !st.tracked);
      ScrollRun(moved, premium, ratios).blurred == st.blurred
  {
    UnlistenedViewIsFrozen(st.(listening := !st.tracked), premium, ratios);
  }

  // ---------------------------------------------------------------------------------------
  // The mounted page

  datatype Comment = Comment(id: string, author: string, avatar: string, text: string, time: string)

  const GuestAvatar: string := "https://api.dicebear.com/9.x/adventurer/svg?seed=Guest"

  /** One mounted page. The route `/post/:slug` keeps the same component mounted when a
      related-post link changes the slug, so the post can change under the other state. */
  class PostView {
    var post: Post
    var activeReaction: Option<string>
    var hasTrackedRead: bool
    var blurred: bool
    var comments: seq<Comment>
    var newComment: string
    /** Whether the scroll effect registered a listener for the current post. */
    var listening: bool

    function Scroll(): ScrollState
      reads this
    {
      ScrollState(listening, hasTrackedRead, blurred)
    }

    /** Mounting the page for a found post, with the seeded comment list. */
    constructor (p: Post, seeded: seq<Comment>)
      ensures post == p && activeReaction == None && !hasTrackedRead && !blurred
      ensures comments == seeded && newComment == "" && listening
    {
      post := p;
      activeReaction, hasTrackedRead, blurred := None, false, false;
      comments, newComment := seeded, "";
      listening := true;
    }

    method HandleReaction(emoji: string) returns (calls: seq<Call>)
      modifies this`activeReaction
      ensures (activeReaction, calls != []) == ReactionStep(old(activeReaction), emoji)
      ensures calls != [] ==> calls == [AddXP(5, "Liked with " + emoji),
                                        EarnCoins(2, "like", "Reacted " + emoji, Some(post.id))]
    {
      if activeReaction == Some(emoji) {
        activeReaction := None;
        calls := [];
      } else {
        var isFirstReaction := activeReaction.None?;
        activeReaction := Some(emoji);
        calls := [];
        if isFirstReaction {
          calls := [AddXP(5, "Liked with " + emoji), EarnCoins(2, "like", "Reacted " + emoji, Some(post.id))];
        }
      }
    }

    /** The scroll listener, given `(innerHeight - rect.top) / scrollHeight`; a scroll on a
        post with no listener registered does nothing. */
    method HandleScroll(ratio: real) returns (calls: seq<Call>)
      modifies this`blurred, this`hasTrackedRead
      ensures Scroll() == ScrollStep(old(Scroll()), post.isPremium, ratio)
      ensures |calls| == if listening then 2 * ReadRewards(old(hasTrackedRead), [ratio]) else 0
      ensures calls != [] ==> calls == [MarkPostRead(post.id), EarnCoins(3, "read", "Read a post", Some(post.id))]
    {
      calls := [];
      if !listening {
        return;
      }
      var depth := ScrollDepth(ratio);
      if post.isPremium && depth > BlurDepth {
        blurred := true;
      }
      if depth > ReadDepth && !hasTrackedRead {
        hasTrackedRead := true;
        calls := [MarkPostRead(post.id), EarnCoins(3, "read", "Read a post", Some(post.id))];
      }
    }

    /** Following a link to another post while the page stays mounted: the post changes and the
        scroll effect runs again, removing the old listener and registering a new one only when
        the read latch is not set. The active reaction, the read latch, the blur flag, the
        comments and the input carry over. */
    method ChangePost(p: Post)
      modifies this`post, this`listening
      ensures post == p
      ensures listening == !hasTrackedRead
      ensures activeReaction == old(activeReaction) && hasTrackedRead == old(hasTrackedRead)
      ensures blurred == old(blurred) && comments == old(comments) && newComment == old(newComment)
    {
      post := p;
      listening := !hasTrackedRead;
    }

    /** The comment input's `onChange`. */
    method SetNewComment(text: string)
      modifies this`newComment
      ensures newComment == text
    {
      newComment := text;
    }

    /** `handleComment()`: a blank input does nothing; otherwise the comment, untrimmed, goes on
        top of the list, the input is cleared and 10 XP and 4 coins are asked for. */
    method HandleComment(commentId: string) returns (calls: seq<Call>)
      modifies this`comments, this`newComment
      ensures IsBlank(old(newComment)) ==> calls == [] && unchanged(this)
      ensures !IsBlank(old(newComment)) ==>
        && comments == [Comment(commentId, "You", GuestAvatar, old(newComment), "Just now")] + old(comments)
        && newComment == ""
        && calls == [AddXP(10, "Commented on a post"), EarnCoins(4, "comment", "Commented on a post", Some(post.id))]
    {
      TrimEmptyIffBlank(newComment);
      if Trim(newComment) == "" {
        return [];
      }
      comments := [Comment(commentId, "You", GuestAvatar, newComment, "Just now")] + comments;
      newComment := "";
      calls := [AddXP(10, "Commented on a post"), EarnCoins(4, "comment", "Commented on a post", Some(post.id))];
    }

    /** `handleShare()`: always 10 XP and 5 coins, with no latch; the native share sheet is
        not modelled. */
    method HandleShare() returns (calls: seq<Call>)
      ensures XPRequested(calls) == 10 && CoinsRequested(calls) == 5 && ReadsMarked(calls) == 0
      ensures calls == [AddXP(10, "Shared a post"), EarnCoins(5, "share", "Shared a post", Some(post.id))]
    {
      calls := [AddXP(10, "Shared a post"), EarnCoins(5, "share", "Shared a post", Some(post.id))];
      TalliesOfPair(calls[0], calls[1]);
    }
  }

  /** What a view carried over to the next post can still earn: once the read latch is set no
      scroll pays a read reward on any later post, and a reaction left active from the earlier
      post means `n` clicks earn at most `floor(n / 2)` reaction rewards. */
  lemma CarriedOverView(tracked: bool, active: Option<string>, ratios: seq<real>, clicks: seq<string>)
    ensures tracked ==> ReadRewards(tracked, ratios) == 0
    ensures active.Some? ==> ReactionRewards(active, clicks) <= |clicks| / 2
    ensures active.Some? && clicks != [] && clicks[0] != active.value ==>
      ReactionRewards(active, clicks) == ReactionRewards(Some(clicks[0]), clicks[1..])
  {
    ReadRewardOnce(tracked, ratios);
    ReactionRewardsAlternate(active, clicks);
  }

  /** The read reward is one read mark, 10 XP and 3 coins. */
  lemma ReadRewardCalls(postId: string)
    ensures var calls := [MarkPostRead(postId), EarnCoins(3, "read", "Read a post", Some(postId))];
      ReadsMarked(calls) == 1 && XPRequested(calls) == 10 && CoinsRequested(calls) == 3
  {
    var calls := [MarkPostRead(postId), EarnCoins(3, "read", "Read a post", Some(postId))];
    TalliesOfPair(calls[0], calls[1]);
  }
}
