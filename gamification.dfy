/** The XP context: XP total and rank, read counter, saved posts, the guest shadow wallet and
    the recent XP toasts. As in the coin context, each operation is a React state updater on
    `GamificationState`, and `XPLedger` holds the state and applies them. `getRank` lives in a
    module outside this model, so the ledger takes it as a parameter and assumes nothing of
    it. The fire-and-forget profile writes (`add_xp`, `saved_posts`, `posts_read`) do not
    change the local state and are not modelled. */
module Gamification {
  import opened Prelude
  import opened Events

  type Rank = string

  /** The rank a fresh provider shows before any profile is loaded. */
  const InitialRank: Rank := "JJC"

  /** What `markPostRead` grants through `addXP`. */
  const ReadXP: int := 10

  datatype GamificationState = GamificationState(
    xpPoints: int, currentRank: Rank, streakDays: int, postsRead: int,
    savedPosts: seq<string>, isGuest: bool, shadowWalletXP: int, recentXPEvents: seq<Event>)

  function InitialState(): GamificationState {
    GamificationState(0, InitialRank, 0, 0, [], true, 0, [])
  }

  /** The columns of a `profiles` row the sync effect copies; `savedPosts` may be `null`. */
  datatype Profile = Profile(
    xpPoints: int, currentRank: Rank, streakDays: int, postsRead: int,
    savedPosts: Option<seq<string>>)

  /** The profile effect: a loaded profile replaces the counters and marks the user signed in;
      no profile only marks the user a guest. The shadow wallet and toasts are kept. */
  function SyncUpdate(s: GamificationState, profile: Option<Profile>): GamificationState {
    match profile
    case None => s.(isGuest := true)
    case Some(p) =>
      s.(xpPoints := p.xpPoints, currentRank := p.currentRank, streakDays := p.streakDays,
         postsRead := p.postsRead, savedPosts := p.savedPosts.GetOr([]), isGuest := false)
  }

  /** The `addXP` updater, with `getRank` passed in as `rankOf`. */
  function AddXPUpdate(s: GamificationState, e: Event, rankOf: int -> Rank): GamificationState {
    var xp := s.xpPoints + e.amount;
    s.(xpPoints := xp, currentRank := rankOf(xp),
       shadowWalletXP := if s.isGuest then s.shadowWalletXP + e.amount else s.shadowWalletXP,
       recentXPEvents := PushRecent(e, s.recentXPEvents))
  }

  function IsNot(p: string): string -> bool {
    (x: string) => x != p
  }

  /** The `toggleSavePost` list update: drop every copy of a saved post, append an unsaved one. */
  function Toggle(saved: seq<string>, p: string): (r: seq<string>)
    ensures p in saved ==> p !in r && Subseq(r, saved)
    ensures p in saved ==> forall x :: x in r <==> x in saved && x != p
    ensures p !in saved ==> r == saved + [p]
  {
    if p in saved then
      FilterIsSubseq(saved, IsNot(p));
      Filter(saved, IsNot(p))
    else saved + [p]
  }

  function ToggleUpdate(s: GamificationState, postId: string): GamificationState {
    s.(savedPosts := Toggle(s.savedPosts, postId))
  }

  /** The `markPostRead` updater; the 10 XP follow as a separate `addXP`. */
  function ReadCountUpdate(s: GamificationState): GamificationState {
    s.(postsRead := s.postsRead + 1)
  }

  function DismissUpdate(s: GamificationState, id: string): GamificationState {
    s.(recentXPEvents := Dismiss(s.recentXPEvents, id))
  }

  // ---------------------------------------------------------------------------------------
  // Properties

  /** Toggling a post that is not saved and toggling it again gives back the same list. */
  lemma ToggleTwiceUnsaved(saved: seq<string>, p: string)
    requires p !in saved
    ensures Toggle(Toggle(saved, p), p) == saved
  {
    FilterAppend(saved, [p], IsNot(p));
    FilterKeepsAll(saved, IsNot(p));
    assert Filter([p], IsNot(p)) == [];
  }

  /** Two toggles always restore which posts are saved; on a list without duplicates the
      length is restored too and no duplicate appears. */
  lemma ToggleTwiceRestoresMembership(saved: seq<string>, p: string)
    ensures forall x :: x in Toggle(Toggle(saved, p), p) <==> x in saved
    ensures NoDup(saved) ==> NoDup(Toggle(saved, p)) && NoDup(Toggle(Toggle(saved, p), p))
    ensures NoDup(saved) ==> |Toggle(Toggle(saved, p), p)| == |saved|
  {
    if p !in saved {
      ToggleTwiceUnsaved(saved, p);
      if NoDup(saved) {
        NoDupAppendFresh(saved, p);
      }
    } else {
      var once := Toggle(saved, p);
      if NoDup(saved) {
        FilterNoDup(saved, IsNot(p));
        NoDupAppendFresh(once, p);
        UnsaveDropsOne(saved, p);
      }
    }
  }

  /** Unsaving a post that is saved once shortens the list by exactly one. */
  lemma {:induction false} UnsaveDropsOne(saved: seq<string>, p: string)
    requires NoDup(saved) && p in saved
    ensures |Toggle(saved, p)| == |saved| - 1
  {
    NoDupTail(saved);
    if saved[0] == p {
      FilterKeepsAll(saved[1..], IsNot(p));
    } else {
      UnsaveDropsOne(saved[1..], p);
    }
  }

  lemma NoDupAppendFresh(s: seq<string>, p: string)
    requires NoDup(s) && p !in s
    ensures NoDup(s + [p])
  {
    var r := s + [p];
    forall i, j | 0 <= i < j < |r| ensures r[i] != r[j] {
      if j == |s| {
        assert r[i] == s[i];
      } else {
        assert r[i] == s[i] && r[j] == s[j];
      }
    }
  }

  /** Applies `addXP` for each event in turn. */
  function AddXPs(s: GamificationState, events: seq<Event>, rankOf: int -> Rank): GamificationState
    decreases events
  {
    if events == [] then s else AddXPs(AddXPUpdate(s, events[0], rankOf), events[1..], rankOf)
  }

  /** Over any run of grants the XP total gains their sum and the rank is `getRank` of the new
      total; the shadow wallet gains the same sum while the reader is a guest and does not move
      for a signed-in reader; nothing else but the toasts changes. */
  lemma {:induction false} AddXPsAccumulate(s: GamificationState, events: seq<Event>, rankOf: int -> Rank)
    ensures var t := AddXPs(s, events, rankOf);
      && t.xpPoints == s.xpPoints + TotalAmount(events)
      && (events != [] ==> t.currentRank == rankOf(t.xpPoints))
      && t.shadowWalletXP == s.shadowWalletXP + (if s.isGuest then TotalAmount(events) else 0)
      && t.isGuest == s.isGuest && t.postsRead == s.postsRead && t.savedPosts == s.savedPosts
      && t.streakDays == s.streakDays
      && (events != [] ==> |t.recentXPEvents| <= MaxRecent)
    decreases events
  {
    if events != [] {
      AddXPsAccumulate(AddXPUpdate(s, events[0], rankOf), events[1..], rankOf);
    }
  }

  /** After a run of grants the first toast is the last grant. */
  lemma {:induction false} AddXPsToasts(s: GamificationState, events: seq<Event>, rankOf: int -> Rank)
    requires events != []
    ensures var t := AddXPs(s, events, rankOf);
      t.recentXPEvents != [] && t.recentXPEvents[0] == events[|events| - 1]
    decreases events
  {
    if |events| > 1 {
      AddXPsToasts(AddXPUpdate(s, events[0], rankOf), events[1..], rankOf);
    }
  }

  // ---------------------------------------------------------------------------------------
  // The provider

  class XPLedger {
    /** `getRank` from the types module, which is not part of this model. */
    const rankOf: int -> Rank

    var xpPoints: int
    var currentRank: Rank
    var streakDays: int
    var postsRead: int
    var savedPosts: seq<string>
    var isGuest: bool
    var shadowWalletXP: int
    var recentXPEvents: seq<Event>

    function State(): GamificationState
      reads this
    {
      GamificationState(xpPoints, currentRank, streakDays, postsRead, savedPosts, isGuest,
                        shadowWalletXP, recentXPEvents)
    }

    constructor (getRank: int -> Rank)
      ensures rankOf == getRank && State() == InitialState()
    {
      rankOf := getRank;
      xpPoints, currentRank, streakDays, postsRead := 0, InitialRank, 0, 0;
      savedPosts, isGuest, shadowWalletXP, recentXPEvents := [], true, 0, [];
    }

    /** `setState(next)` */
    method SetState(next: GamificationState)
      modifies this
      ensures State() == next
    {
      xpPoints, currentRank, streakDays, postsRead := next.xpPoints, next.currentRank, next.streakDays, next.postsRead;
      savedPosts, isGuest := next.savedPosts, next.isGuest;
      shadowWalletXP, recentXPEvents := next.shadowWalletXP, next.recentXPEvents;
    }

    /** The effect that runs whenever the auth profile changes. */
    method SyncProfile(profile: Option<Profile>)
      modifies this
      ensures State() == SyncUpdate(old(State()), profile)
    {
      SetState(SyncUpdate(State(), profile));
    }

    /** `addXP(amount, reason)`; `eventId` and `now` are the toast's id and time. */
    method AddXP(amount: int, reason: string, eventId: string, now: int)
      modifies this
      ensures State() == AddXPUpdate(old(State()), Event(eventId, amount, reason, now), rankOf)
      ensures xpPoints == old(xpPoints) + amount && currentRank == rankOf(xpPoints)
      ensures shadowWalletXP == old(shadowWalletXP) + (if old(isGuest) then amount else 0)
      ensures recentXPEvents == PushRecent(Event(eventId, amount, reason, now), old(recentXPEvents))
    {
      SetState(AddXPUpdate(State(), Event(eventId, amount, reason, now), rankOf));
    }

    method ToggleSavePost(postId: string)
      modifies this
      ensures State() == ToggleUpdate(old(State()), postId)
    {
      SetState(ToggleUpdate(State(), postId));
    }

    /** `markPostRead(postId)`: one more read, then `addXP(10, 'Read a post')`. */
    method MarkPostRead(postId: string, eventId: string, now: int)
      modifies this
      ensures State() == AddXPUpdate(ReadCountUpdate(old(State())), Event(eventId, ReadXP, "Read a post", now), rankOf)
      ensures postsRead == old(postsRead) + 1 && xpPoints == old(xpPoints) + ReadXP
    {
      SetState(ReadCountUpdate(State()));
      AddXP(ReadXP, "Read a post", eventId, now);
    }

    method DismissXPEvent(id: string)
      modifies this
      ensures State() == DismissUpdate(old(State()), id)
    {
      SetState(DismissUpdate(State(), id));
    }
  }
}
