/** The reward toasts both contexts keep: `CoinEvent` and `XPEvent` have the same shape, and
    both lists are kept newest first and cut to five entries. */
module Events {
  import opened Prelude

  /** A reward toast; `id` comes from `crypto.randomUUID()` and `timestamp` from `Date.now()`,
      both supplied by the caller. */
  datatype Event = Event(id: string, amount: int, reason: string, timestamp: int)

  /** Length bound of `recentCoinEvents` and `recentXPEvents`. */
  const MaxRecent: nat := 5

  /** `[e, ...recent].slice(0, 5)`: the new event first, then the previous events in their
      order, as many as fit in five. */
  function PushRecent(e: Event, recent: seq<Event>): (r: seq<Event>)
    ensures 1 <= |r| <= MaxRecent
    ensures |r| == Min(|recent| + 1, MaxRecent)
    ensures r[0] == e && r[1..] == recent[..|r| - 1]
  {
    var r := Take([e] + recent, MaxRecent);
    assert r[1..] == ([e] + recent)[1..|r|];
    r
  }

  /** The sum of the amounts of a run of grants. */
  function TotalAmount(events: seq<Event>): int {
    if events == [] then 0 else events[0].amount + TotalAmount(events[1..])
  }

  function IdIsNot(id: string): Event -> bool {
    (e: Event) => e.id != id
  }

  /** `recent.filter(e => e.id !== id)` */
  function Dismiss(recent: seq<Event>, id: string): (r: seq<Event>)
    ensures |r| <= |recent|
    ensures forall e :: e in r <==> e in recent && e.id != id
  {
    Filter(recent, IdIsNot(id))
  }

  /** Dismissing keeps the surviving toasts in their order. */
  lemma DismissKeepsOrder(recent: seq<Event>, id: string)
    ensures Subseq(Dismiss(recent, id), recent)
  {
    FilterIsSubseq(recent, IdIsNot(id));
  }

  /** Dismissing an id no toast carries changes nothing. */
  lemma DismissUnknownId(recent: seq<Event>, id: string)
    requires forall i :: 0 <= i < |recent| ==> recent[i].id != id
    ensures Dismiss(recent, id) == recent
  {
    FilterKeepsAll(recent, IdIsNot(id));
  }

  /** Dismissing works toast by toast: over a concatenation it is the concatenation of the
      two dismissals, so each surviving toast keeps its place relative to the others. */
  lemma DismissAppend(a: seq<Event>, b: seq<Event>, id: string)
    ensures Dismiss(a + b, id) == Dismiss(a, id) + Dismiss(b, id)
  {
    FilterAppend(a, b, IdIsNot(id));
  }

  /** Dismissing the toast that was just pushed, when its id is fresh, gives back the older
      toasts that were kept. */
  lemma DismissJustPushed(e: Event, recent: seq<Event>)
    requires forall i :: 0 <= i < |recent| ==> recent[i].id != e.id
    ensures Dismiss(PushRecent(e, recent), e.id) == PushRecent(e, recent)[1..]
  {
    var r := PushRecent(e, recent);
    assert r == [e] + r[1..];
    DismissAppend([e], r[1..], e.id);
    assert Dismiss([e], e.id) == [];
    forall i | 0 <= i < |r[1..]| ensures r[1..][i].id != e.id {
      assert r[1..][i] == recent[i];
    }
    DismissUnknownId(r[1..], e.id);
  }
}
