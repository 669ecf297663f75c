# Reward accounting of the Jara Daily reader

This project models, in Dafny, the client-side reward accounting of the Jara Daily news reader:
the rules that turn a reader's actions (reacting, reading, commenting, sharing, publishing)
into XP and coin grants, and the list logic around the home feed and the discover page.

- `Coins`, in `coins.dfy`, models the coin context. Its state is the balance, a local mirror of
  the shared coin pool, the pool size and the recent coin toasts. The operations are:
  - the guest grant, clamped into [1, 5];
  - the signed-in grant, which asks the remote `earn_coins` function and moves the credited
    amount from the pool mirror to the balance. The request carries an idempotency key;
  - the overdraft-refusing spend;
  - dismissing a toast;
  - the refresh merge.
- `Gamification`, in `gamification.dfy`, models the XP context. It covers:
  - the profile sync;
  - `addXP`, with its rank update, the guest-only shadow wallet and the five-toast list;
  - the saved-post toggle;
  - `markPostRead`;
  - toast dismissal.
- `PostDetail`, in `post_detail.dfy`, models the post page:
  - the lookup by slug and the related posts;
  - the reaction state machine;
  - the scroll handler, with its premium blur flag and its one-shot read latch;
  - comment posting;
  - sharing.
- `Create`, in `create.dfy`, models the publish form. The body has its tags stripped and is
  trimmed. Then come the required-field check and the 150-code-unit length gate. On success the
  reward is asked for and the form is cleared.
- `Feed`, in `feed.dfy`, models the home page:
  - the interleaving of an ad after every third post;
  - the "Load More" clamp;
  - the guest banner condition;
  - the trending ribbon.
- `Discover`, in `discover.dfy`, models the discover page's chip, Trending and search pipeline
  and the "AI picks" ribbon.

The two contexts are classes whose fields are the React state record. Each React state updater
(`prev => next`) is a pure function on a state datatype. Each public method applies the
updaters the source applies (one, except `XPLedger.MarkPostRead`, which applies the read-count
updater and then the `addXP` updater) and states the new state as those functions of the old
state. The lemmas beside them prove what
the updaters promise.

The page handlers do not call the context objects. Instead they return the calls they issue, in
order, as a `seq<Call>` (`AddXP`, `EarnCoins` or `MarkPostRead`).

Some helper modules are shared:
- `Prelude`: Option, Min/Max, `Filter`, `Take` and the subsequence relation;
- `Text`: JavaScript `trim`, UTF-16 `.length`, `toLowerCase`, `includes`, and the decimal
  rendering in a template literal;
- `Events`: the newest-first toast list of at most five entries;
- `Posts`: the post record, and the copy-sort-slice by views or by reactions.

Several inputs are parameters rather than computed values:
- the remote `earn_coins` call is a function from the request to its reply (an oracle);
- the pool and profile reads are optional values;
- `getRank` is an uninterpreted function held by the XP ledger;
- `crypto.randomUUID()` and `Date.now()` are passed in;
- the scroll depth ratio is a real number passed in.

The model follows the code where the product description promises more:
- the read reward depends on scroll depth only, with no dwell time;
- any non-blank comment is rewarded, with no minimum length;
- removing a reaction and adding one again rewards a second time, because the "first reaction"
  test is only `activeReaction === null`;
- publishing grants 20 XP and 3 coins;
- a related-post link keeps the post page mounted, so its state carries over to the next
  post; once the read latch is set, the scroll effect registers no listener for that post,
  so a premium post reached this way is blurred only when the blur flag was already set on
  the earlier post (`PostDetail.LatchedChangeNeverBlurs`).

## Model

| member | source | states |
|---|---|---|
| Events.PushRecent | src/contexts/CoinContext.tsx:73 | the new toast comes first, then the previous toasts in their order; the list holds `min(n + 1, 5)` entries |
| Events.Dismiss | src/contexts/CoinContext.tsx:111-116 | a toast survives exactly when it was there and does not carry the id; the list never grows |
| Events.DismissKeepsOrder | src/contexts/CoinContext.tsx:114 | the surviving toasts keep their relative order (subsequence of the old list) |
| Events.DismissUnknownId | src/contexts/GamificationContext.tsx:114 | dismissing an id no toast carries leaves the list unchanged |
| Events.DismissAppend | src/contexts/GamificationContext.tsx:114 | dismissal over a concatenation is the concatenation of the dismissals |
| Events.DismissJustPushed | src/contexts/CoinContext.tsx:73 | dismissing a freshly pushed toast (fresh id) yields the older toasts that were kept |
| Events.TotalAmount | src/contexts/CoinContext.tsx:93 | no contract of its own: the sum of a run of grants, used by `Coins.PoolCreditsConserve` and `Gamification.AddXPsAccumulate` |
| Coins.GuestCredit | src/contexts/CoinContext.tsx:66-68 | a guest's credit lies in [1, 5]: it equals the base reward inside that range, 5 above it and 1 below it |
| Coins.GuestCreditUpdate | src/contexts/CoinContext.tsx:70-74 | no contract of its own: the guest updater; described by `Coins.GuestCreditsBounded` and `Coins.CoinLedger.EarnCoins` |
| Coins.PoolCreditUpdate | src/contexts/CoinContext.tsx:91-96 | no contract of its own: the signed-in updater; described by `Coins.PoolCreditsConserve` and `Coins.CoinLedger.EarnCoins` |
| Coins.SpendUpdate | src/contexts/CoinContext.tsx:103-107 | no contract of its own: the spend updater; described by `Coins.SpendNeverOverdraws` |
| Coins.DismissUpdate | src/contexts/CoinContext.tsx:112-115 | no contract of its own: only the toast list changes, by `Events.Dismiss` |
| Coins.RefreshUpdate | src/contexts/CoinContext.tsx:46-51 | no contract of its own: the merge; described by `Coins.RefreshMerge` |
| Coins.PostParam | src/contexts/CoinContext.tsx:84 | no contract of its own: `postId \|\| null`, checked in `Coins.CoinLedger.EarnCoins` |
| Coins.IdempotencyKey | src/contexts/CoinContext.tsx:79 | no contract of its own: the key string; described by `Coins.IdempotencyKeyInjective` and `Coins.IdempotencyKeyChangesWithTime` |
| Coins.Underscored | src/contexts/CoinContext.tsx:79 | two fields joined by `_`: the first field, then `_`, then the rest, at those positions |
| Coins.Credited | src/contexts/CoinContext.tsx:88 | a reply credits something exactly when it is not an error and carries a non-zero amount, and then credits that amount |
| Coins.IdempotencyKeyInjective | src/contexts/CoinContext.tsx:79 | equal idempotency keys mean the same user, source type, post key and millisecond (for underscore-free ids and source types) |
| Coins.IdempotencyKeyChangesWithTime | src/contexts/CoinContext.tsx:79 | the same grant at a different millisecond carries a different key |
| Coins.PoolCreditsConserve | src/contexts/CoinContext.tsx:90-97 | signed-in grants preserve `userCoins + globalRemaining`, add the credited sum to the balance, leave `totalCoins` and keep at most 5 toasts |
| Coins.GuestCreditsBounded | src/contexts/CoinContext.tsx:66-75 | `n` guest grants add between `n` and `5n` coins and never touch the pool mirror or the pool size |
| Coins.SpendNeverOverdraws | src/contexts/CoinContext.tsx:101-108 | a refused spend leaves the state unchanged, a granted one debits exactly the amount; a non-negative balance stays non-negative |
| Coins.RefreshMerge | src/contexts/CoinContext.tsx:46-51 | each remote value replaces the local one when present and the local one is kept otherwise; toasts untouched; the merge is idempotent and the identity when nothing is supplied |
| Coins.CoinLedger.constructor | src/contexts/CoinContext.tsx:34-39 | a zero balance, a full pool of 1 000 000 and no toasts |
| Coins.CoinLedger.EarnCoins | src/contexts/CoinContext.tsx:65-99 | a guest gets the clamped credit through the guest updater; a signed-in user sends the request with `postId \|\| null` and the idempotency key, gets 0 with the state unchanged on failure, else the credited amount through the pool updater |
| Coins.CoinLedger.SpendCoins | src/contexts/CoinContext.tsx:101-109 | reports success exactly when the balance covers the amount, and the new state is the spend updater applied to the old |
| Coins.CoinLedger.DismissCoinEvent | src/contexts/CoinContext.tsx:111-116 | only the coin toast list changes, by `Dismiss` |
| Coins.CoinLedger.RefreshCoins | src/contexts/CoinContext.tsx:41-52 | the refresh merge of the pool row and, for a signed-in user only, the profile's coins |
| Coins.CoinLedger.SyncProfileCoins | src/contexts/CoinContext.tsx:59-63 | a loaded profile's coin count replaces the balance; nothing changes without a profile |
| Gamification.Toggle | src/contexts/GamificationContext.tsx:86-89 | a saved post is removed (all copies, order of the rest kept); an unsaved post is appended at the end |
| Gamification.SyncUpdate | src/contexts/GamificationContext.tsx:50-60 | no contract of its own: the profile sync updater, applied by `Gamification.XPLedger.SyncProfile` |
| Gamification.AddXPUpdate | src/contexts/GamificationContext.tsx:67-77 | no contract of its own: the `addXP` updater; described by `Gamification.AddXPsAccumulate` and `Gamification.XPLedger.AddXP` |
| Gamification.ToggleUpdate | src/contexts/GamificationContext.tsx:86-96 | no contract of its own: only `savedPosts` changes, by `Gamification.Toggle` |
| Gamification.ReadCountUpdate | src/contexts/GamificationContext.tsx:101-106 | no contract of its own: one more read; stated by `Gamification.XPLedger.MarkPostRead` |
| Gamification.DismissUpdate | src/contexts/GamificationContext.tsx:112-115 | no contract of its own: only the XP toast list changes, by `Events.Dismiss` |
| Gamification.ToggleTwiceUnsaved | src/contexts/GamificationContext.tsx:86-89 | saving and unsaving a post that was not saved gives back the same list |
| Gamification.ToggleTwiceRestoresMembership | src/contexts/GamificationContext.tsx:86-89 | two toggles restore membership; on a duplicate-free list they restore the length and create no duplicate |
| Gamification.UnsaveDropsOne | src/contexts/GamificationContext.tsx:88 | unsaving a post saved once shortens a duplicate-free list by exactly one |
| Gamification.AddXPsAccumulate | src/contexts/GamificationContext.tsx:67-77 | over any run of grants the XP gains their sum, the rank is `getRank` of the new total, the shadow wallet gains the sum only for a guest, the other counters are unchanged, at most 5 toasts |
| Gamification.AddXPsToasts | src/contexts/GamificationContext.tsx:75 | after a run of grants the newest toast is the last grant |
| Gamification.XPLedger.constructor | src/contexts/GamificationContext.tsx:36-45 | zero counters, rank "JJC", guest, empty wallet, lists empty |
| Gamification.XPLedger.SyncProfile | src/contexts/GamificationContext.tsx:48-62 | a profile copies XP, rank, streak, read count and saved posts (`[]` for null) and clears the guest flag; no profile only sets the guest flag |
| Gamification.XPLedger.AddXP | src/contexts/GamificationContext.tsx:64-83 | XP grows by the amount, the rank is `getRank` of the new total, the wallet grows only for a guest, the toast is pushed |
| Gamification.XPLedger.ToggleSavePost | src/contexts/GamificationContext.tsx:85-98 | only the saved list changes, by `Toggle` |
| Gamification.XPLedger.MarkPostRead | src/contexts/GamificationContext.tsx:100-109 | one more read, then 10 XP through `addXP` |
| Gamification.XPLedger.DismissXPEvent | src/contexts/GamificationContext.tsx:111-116 | only the XP toast list changes, by `Dismiss` |
| PostDetail.FindBySlug | src/pages/PostDetail.tsx:35 | none exactly when no post has the slug; otherwise the first post with it |
| PostDetail.RelatedPosts | src/pages/PostDetail.tsx:47-50 | none without a post; otherwise at most 3 other posts of the same category, in catalogue order, as many as exist up to 3: the first ones of the related list |
| PostDetail.ReactionStep | src/pages/PostDetail.tsx:81-96 | clicking the active emoji clears it, any other click makes it active, and a reward is due exactly when nothing was active |
| PostDetail.ReactionRewardsAlternate | src/pages/PostDetail.tsx:87-94 | `n` clicks earn at most `ceil(n / 2)` rewards from no reaction (`floor(n / 2)` from one) |
| PostDetail.SwitchingNeverRewards | src/pages/PostDetail.tsx:87-94 | a run of clicks that each switch to another emoji earns nothing |
| PostDetail.ReactionExamples | src/pages/PostDetail.tsx:81-96 | switching and switching back earns once; clearing and re-adding the same emoji earns twice |
| PostDetail.ScrollDepth | src/pages/PostDetail.tsx:58 | the depth is the ratio capped at 1 |
| PostDetail.ScrollStep | src/pages/PostDetail.tsx:53-64 | no contract of its own: one scroll event on the listener's state; described by `PostDetail.BlurRun`, `PostDetail.UnlistenedViewIsFrozen` and `PostDetail.PostView.HandleScroll` |
| PostDetail.ScrollRun | src/pages/PostDetail.tsx:54-66 | no contract of its own: a run of scroll events on one post |
| PostDetail.BlurRun | src/pages/PostDetail.tsx:59 | with a listener, a run blurs exactly when already blurred or the post is premium and some scroll passes 0.5; the listener stays |
| PostDetail.UnlistenedViewIsFrozen | src/pages/PostDetail.tsx:53 | without a listener no run of scrolls changes the latch or the blur flag |
| PostDetail.LatchedChangeNeverBlurs | src/pages/PostDetail.tsx:52-66 | a latched view moved to another post keeps its blur flag as it was, however far the reader scrolls: no scroll on the new post sets it |
| PostDetail.ReadRewardOnce | src/pages/PostDetail.tsx:53-64 | a view fires the read reward at most once, never once latched, and exactly once when some scroll passes depth 0.8 |
| PostDetail.ReadRewardCalls | src/pages/PostDetail.tsx:62-63 | the read reward is one read mark, 10 XP and 3 coins |
| PostDetail.PostView.constructor | src/pages/PostDetail.tsx:40-45 | no reaction, latch and blur off, the seeded comments, an empty input, and a scroll listener registered (lines 52-66) |
| PostDetail.PostView.HandleReaction | src/pages/PostDetail.tsx:81-96 | the reaction moves as `ReactionStep`; calls are issued exactly when a reward is due, and they are 5 XP and 2 coins |
| PostDetail.PostView.HandleScroll | src/pages/PostDetail.tsx:52-68 | the scroll state moves as `ScrollStep`: nothing without a listener; otherwise blur latches on for a premium post past 0.5 and the read latch past 0.8, and the read reward is issued only on that first crossing |
| PostDetail.PostView.SetNewComment | src/pages/PostDetail.tsx:45 | the input holds the typed text |
| PostDetail.PostView.HandleComment | src/pages/PostDetail.tsx:103-116 | a blank input changes nothing and issues nothing; otherwise the untrimmed comment goes first, the input clears, and 10 XP and 4 coins are asked for |
| PostDetail.PostView.HandleShare | src/pages/PostDetail.tsx:97-101 | every share asks for 10 XP and 5 coins, no read mark |
| PostDetail.PostView.ChangePost | src/pages/PostDetail.tsx:34-68 | a new slug on the same mounted page changes the post; a listener is registered again exactly when the read latch is not set; the reaction, the read latch, the blur flag, the comments and the input carry over |
| PostDetail.CarriedOverView | src/pages/PostDetail.tsx:53 | a carried-over read latch pays no read reward on the next post, and a carried-over reaction caps `n` clicks at `floor(n / 2)` rewards, the first switch earning nothing |
| Create.StripTags | src/pages/Create.tsx:24 | stripping never lengthens the text |
| Create.StripTagsKeepsText | src/pages/Create.tsx:24 | a tag-free prefix survives stripping unchanged, in front of the stripped rest |
| Create.StripTagsDropsTag | src/pages/Create.tsx:24 | a whole tag `<t>` (no `>` inside) is removed and stripping carries on after it |
| Create.StripTagsUnclosed | src/pages/Create.tsx:24 | a `<` never closed by a `>` removes the rest of the text, keeping the tag-free text before it |
| Create.StripTagsRemovesTags | src/pages/Create.tsx:24 | stripped text contains no `<`, and text without `<` is left as it is |
| Create.StripTagsIdempotent | src/pages/Create.tsx:24 | stripping twice is stripping once |
| Create.PlainTextHasNoTags | src/pages/Create.tsx:24 | the stripped, trimmed body contains no `<` |
| Create.PlainText | src/pages/Create.tsx:24 | no contract of its own: `Trim(StripTags(body))`; described by `Create.PlainTextHasNoTags` |
| Create.CheckPublish | src/pages/Create.tsx:26-39 | no contract of its own: the two checks in order; described by `Create.PublishGate`, `Create.LengthGateBoundary` and `Create.MarkupOnlyBodyTooShort` |
| Create.PublishGate | src/pages/Create.tsx:26-39 | missing fields exactly when a field is empty (checked first); publishing needs every field and at least 75 characters, and 150 characters always suffice |
| Create.LengthGateBoundary | src/pages/Create.tsx:32-39 | for Basic Multilingual Plane text, 149 characters are too short and 150 are published |
| Create.MarkupOnlyBodyTooShort | src/pages/Create.tsx:24-39 | a body of markup and whitespace passes the field check and fails the length check |
| Create.EmptyParagraphIsTooShort | src/pages/Create.tsx:24-39 | the editor's empty paragraph `<p></p>` is too short |
| Create.CreateForm.constructor | src/pages/Create.tsx:17-20 | every field starts empty |
| Create.CreateForm.HandlePublish | src/pages/Create.tsx:22-46 | the outcome is the gate on the form as it was; exactly 20 XP and 3 coins are asked for and every field is cleared on success; a rejection issues nothing and keeps the form |
| Text.TrimStartSpec | src/pages/Create.tsx:24 | the result is a suffix not starting with whitespace, and what was removed is all whitespace |
| Text.TrimEndSpec | src/pages/Create.tsx:24 | the result is a prefix not ending with whitespace, and what was removed is all whitespace |
| Text.Trim | src/pages/Create.tsx:24 | no contract of its own: `TrimEnd(TrimStart(s))`; described by `Text.TrimStartSpec`, `Text.TrimEndSpec`, `Text.TrimEmptyIffBlank` and `Text.TrimIdempotent` (also used at src/pages/PostDetail.tsx:104) |
| Text.TrimEmptyIffBlank | src/pages/PostDetail.tsx:104 | `trim()` is empty exactly when the text is all whitespace |
| Text.TrimIdempotent | src/pages/Create.tsx:24 | trimming twice is trimming once |
| Text.Utf16Length | src/pages/Create.tsx:32 | `.length` lies between the character count and twice it |
| Text.Utf16LengthOfBmp | src/pages/Create.tsx:32 | for Basic Multilingual Plane text `.length` is the character count |
| Text.ToLower | src/pages/Discover.tsx:25-26 | same length; each ASCII capital becomes its small letter and every other character is kept |
| Text.ToLowerIdempotent | src/pages/Discover.tsx:25 | lower-casing twice is lower-casing once |
| Text.Contains | src/pages/Discover.tsx:26 | no contract of its own: `includes`; described by `Text.ContainsAt` |
| Text.ContainsAt | src/pages/Discover.tsx:26 | `includes` holds exactly when the query occurs at some position |
| Text.ContainsLower | src/pages/Discover.tsx:26 | text that contains the query contains it after both are lower-cased |
| Text.Decimal | src/contexts/CoinContext.tsx:79 | the rendering is non-empty and made of digits |
| Text.DecimalInjective | src/contexts/CoinContext.tsx:79 | different numbers render differently |
| Posts.SortBy | src/pages/Discover.tsx:20 | the result is a permutation of the input, of the same length, with non-increasing score |
| Posts.TopBy | src/pages/Index.tsx:24 | `min(n, length)` posts, non-increasing score: a prefix of the sorted input, so a sub-multiset of the input (no post taken more often than it occurs) |
| Posts.TopByKeepsTheBest | src/pages/Discover.tsx:32 | every post left out scores no higher than any post kept |
| Feed.FeedItems | src/pages/Index.tsx:28-38 | the pushed items are the first `min(visibleCount, length)` posts in order, with the first `floor(shown / 3)` ads (as far as they exist); the feed starts with a post and every ad follows a post |
| Feed.AdSlot | src/pages/Index.tsx:33 | no contract of its own: `(i + 1) % 3 === 0` and ad `floor(i / 3)` exists; described by `Feed.FeedAds` and `Feed.FeedShape` |
| Feed.Block | src/pages/Index.tsx:32-35 | no contract of its own: what one callback run pushes; described by `Feed.BlockContents` |
| Feed.BlockContents | src/pages/Index.tsx:32-35 | one callback run pushes exactly its post and, at an ad slot, exactly ad `floor(i / 3)` |
| Feed.FeedPosts | src/pages/Index.tsx:30-32 | the posts among the items are exactly the first `k` posts, in order |
| Feed.FeedAds | src/pages/Index.tsx:31-35 | the ads among the items are the first `min(ads, floor(k / 3))` ads, in order |
| Feed.FeedShape | src/pages/Index.tsx:31-35 | the feed never starts with an ad, and every ad follows the post of index `i` with `i + 1` a multiple of 3 and is ad number `floor(i / 3)` |
| Feed.NextVisible | src/pages/Index.tsx:72 | "Load More" never passes the post count, reveals at most 5 posts, and reveals at least one while some post is hidden |
| Feed.LoadMoreReveals | src/pages/Index.tsx:72 | `m` presses from a count within bounds show `min(count + 5m, posts)` posts |
| Feed.GuestBannerAfterGrant | src/pages/Index.tsx:45 | with the page's auth guest flag and the XP context's guest flag as separate inputs: a guest in both senses sees the banner after any positive grant; a grant while the XP context holds a profile leaves the banner as it was; a reader the auth context treats as signed in never sees it |
| Feed.ShowGuestBanner | src/pages/Index.tsx:45 | no contract of its own: the auth guest flag and a positive wallet; described by `Feed.GuestBannerAfterGrant` |
| Feed.TrendingPosts | src/pages/Index.tsx:23-26 | `min(6, length)` posts by non-increasing views: a prefix of the input sorted by views, and a sub-multiset of the input |
| Feed.FeedPage.constructor | src/pages/Index.tsx:17 | the page starts with 5 visible posts |
| Feed.FeedPage.LoadMore | src/pages/Index.tsx:68-72 | the count becomes `min(count + 5, posts)` and grows whenever the button is offered |
| Feed.FeedPage.CanLoadMore | src/pages/Index.tsx:68 | no contract of its own: some post is hidden; `Feed.FeedPage.LoadMore` grows the count whenever it holds |
| Feed.FeedPage.Items | src/pages/Index.tsx:28-38 | the items show the first visible posts and their ads |
| Discover.Filtered | src/pages/Discover.tsx:17-29 | the result is the search stage applied to the chip stage; "All" with no search gives every post in order; "Trending" with no search gives a permutation by non-increasing views; a category keeps only its posts; a search keeps, in order, exactly the posts whose lower-cased title or excerpt contains the lower-cased query |
| Discover.CategoryStage | src/pages/Discover.tsx:19-23 | no contract of its own: the chip stage; described by `Discover.Filtered` |
| Discover.SearchStage | src/pages/Discover.tsx:24-27 | no contract of its own: the search stage; described by `Discover.Filtered`, `Discover.SearchIgnoresQueryCase`, `Discover.SearchFindsVerbatim` and `Discover.SearchIdempotent` |
| Discover.Matches | src/pages/Discover.tsx:26 | no contract of its own: the lower-cased title or excerpt contains the query; used by `Discover.Filtered` |
| Discover.SearchIgnoresQueryCase | src/pages/Discover.tsx:24-27 | a query finds the same posts as its lower-cased form |
| Discover.SearchFindsVerbatim | src/pages/Discover.tsx:24-27 | a post whose title or excerpt contains the query as typed is always found |
| Discover.SearchIdempotent | src/pages/Discover.tsx:24-27 | searching the results again for the same query changes nothing |
| Discover.AiPicks | src/pages/Discover.tsx:31-34 | `min(3, length)` posts by non-increasing reactions: a prefix of the input sorted by reactions, and a sub-multiset of the input |

## Left out

- The remote writes are not modelled: `add_xp`, the `saved_posts` update and the `posts_read`
  update (src/contexts/GamificationContext.tsx:81, 93, 104). They are fire-and-forget and do
  not change the local state.
- The server-side `earn_coins` is not modelled. Its pool floor and its enforcement of
  idempotency live in database code that is not part of this model, so the reply is an oracle.
- `getRank` is a parameter of the XP ledger and nothing is assumed of it, because the types
  module that defines it is not part of this model.
- React scheduling is not modelled. Every updater is applied at once, in call order.
  - `Coins.CoinLedger.SpendCoins`: the source reads `success` after handing the updater to
    React, which may run it later; the model reports the updater's own decision.
  - Whether a scroll listener is registered is modelled (`PostView.listening`), but the
    `window.addEventListener` and `removeEventListener` mechanics are not. One `PostView` is
    one mount, which may show several posts in turn (`PostView.ChangePost`).
- The scroll geometry (`getBoundingClientRect`, `innerHeight`, `scrollHeight`) is not
  modelled: `HandleScroll` takes the ratio as a real number.
- Toasts, navigation, `navigator.share`, the draft button (`handleSaveDraft`), rendering,
  routing, and the mock posts, ads and comments are not modelled. They are display or data,
  not rules.
- `Text.ToLower`: only ASCII capitals are lowered. JavaScript's `toLowerCase` lowers every
  Unicode capital, so `Discover.Filtered` and the search lemmas hold for this ASCII
  lower-casing only.
- `Posts.SortBy`: the order of equal scores is not stated. The definition puts the earlier
  post first, as the stable `Array.prototype.sort` does, but only the ordering by score and
  the permutation are proved.
- `Feed.FeedItems`: the `visibleCount` is a `nat`. The negative slice bound JavaScript would
  allow cannot arise, because the count starts at 5 and only grows.
- `Coins.IdempotencyKeyInjective`: it is stated only for user ids, source types and post keys
  (`postId || 'none'`) without an underscore. Otherwise two different keys could coincide, because the source joins the
  fields with `_` without escaping them.
- JavaScript numbers are modelled as unbounded integers. A fractional or NaN `baseReward`, a
  non-integer or NaN `earn_coins` reply, a `null` `profile.coins` or `xp_points`, and
  floating-point rounding of large sums are not modelled.
- `PostDetail.PostView.ChangePost`: a related-post card (src/pages/PostDetail.tsx:234) links
  to another slug of the same route (src/App.tsx:41), which keeps the page mounted. The model
  states the carry-over and the listener's re-registration. It does not model a remount, nor
  the effect re-running when `markPostRead` or `earnCoins` change identity (a change of user).
- `Feed.GuestBannerAfterGrant`: the auth context, which supplies the page's `isGuest`, is not
  part of this model. Its flag is a free input, unrelated to the XP context's flag.
