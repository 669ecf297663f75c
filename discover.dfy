/** The discover page: the category chips (`All`, a concrete category, or `Trending`, which
    sorts by views), the free-text search over title and excerpt, and the "AI picks" ribbon. */
module Discover {
  import opened Prelude
  import opened Text
  import opened Posts

  /** The chip that keeps every post. */
  const AllChip: string := "All"

  /** The chip that orders every post by views instead of filtering. */
  const TrendingChip: string := "Trending"

  /** How many posts the "AI picks" ribbon holds. */
  const PickCount: nat := 3

  function InCategory(category: string): Post -> bool {
    (p: Post) => p.category == category
  }

  /** `p.title.toLowerCase().includes(q) || p.excerpt.toLowerCase().includes(q)`, for a query
      `q` that is already lower-cased. */
  predicate Matches(p: Post, q: string) {
    Contains(ToLower(p.title), q) || Contains(ToLower(p.excerpt), q)
  }

  function MatchesQuery(q: string): Post -> bool {
    (p: Post) => Matches(p, q)
  }

  /** The category stage of `filtered`. */
  function CategoryStage(posts: seq<Post>, category: string): seq<Post> {
    if category == TrendingChip then SortBy(posts, Views)
    else if category != AllChip then Filter(posts, InCategory(category))
    else posts
  }

  /** The search stage of `filtered`: an empty search string is falsy and keeps everything. */
  function SearchStage(posts: seq<Post>, search: string): seq<Post> {
    if search != "" then Filter(posts, MatchesQuery(ToLower(search))) else posts
  }

  /** `filtered`: the copy of the posts is reassigned stage by stage, first by the chip, then
      by the search. */
  method Filtered(allPosts: seq<Post>, search: string, activeCategory: string) returns (posts: seq<Post>)
    ensures posts == SearchStage(CategoryStage(allPosts, activeCategory), search)
    ensures search == "" ==> posts == CategoryStage(allPosts, activeCategory)
    ensures search != "" ==>
      && Subseq(posts, CategoryStage(allPosts, activeCategory))
      && forall p :: p in posts <==>
           p in CategoryStage(allPosts, activeCategory) && Matches(p, ToLower(search))
    ensures activeCategory == AllChip && search == "" ==> posts == allPosts
    ensures activeCategory == TrendingChip && search == "" ==>
      multiset(posts) == multiset(allPosts) && NonIncreasing(posts, Views)
    ensures activeCategory != AllChip && activeCategory != TrendingChip ==>
      forall p :: p in posts ==> p.category == activeCategory
    ensures forall p :: p in posts ==> p in allPosts
  {
    posts := allPosts;
    if activeCategory == TrendingChip {
      posts := SortBy(posts, Views);
      assert forall p :: p in posts ==> p in multiset(allPosts);
    } else if activeCategory != AllChip {
      posts := Filter(posts, InCategory(activeCategory));
    }
    var byCategory := posts;
    if search != "" {
      var q := ToLower(search);
      posts := Filter(posts, MatchesQuery(q));
      FilterIsSubseq(byCategory, MatchesQuery(q));
    }
  }

  /** The search ignores case: the query typed in any mix of capitals finds the same posts as
      its lower-cased form. */
  lemma SearchIgnoresQueryCase(posts: seq<Post>, search: string)
    ensures SearchStage(posts, search) == SearchStage(posts, ToLower(search))
  {
    ToLowerIdempotent(search);
    assert search != "" <==> ToLower(search) != "";
  }

  /** A post whose title or excerpt holds the query exactly as typed is always found. */
  lemma SearchFindsVerbatim(posts: seq<Post>, search: string, p: Post)
    requires p in posts
    requires Contains(p.title, search) || Contains(p.excerpt, search)
    ensures p in SearchStage(posts, search)
  {
    if Contains(p.title, search) {
      ContainsLower(p.title, search);
    } else {
      ContainsLower(p.excerpt, search);
    }
  }

  /** Searching twice for the same text is searching once. */
  lemma SearchIdempotent(posts: seq<Post>, search: string)
    ensures SearchStage(SearchStage(posts, search), search) == SearchStage(posts, search)
  {
    if search != "" {
      FilterIdempotent(posts, MatchesQuery(ToLower(search)));
    }
  }

  /** `aiPicks`: the three most reacted-to posts, most reactions first. */
  function AiPicks(posts: seq<Post>): (r: seq<Post>)
    ensures |r| == Min(PickCount, |posts|)
    ensures NonIncreasing(r, Reactions)
    ensures r == SortBy(posts, Reactions)[..|r|]
    ensures multiset(r) <= multiset(posts)
    ensures forall x :: x in r ==> x in posts
  {
    TopBy(posts, Reactions, PickCount)
  }
}
