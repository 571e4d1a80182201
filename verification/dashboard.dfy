/**
 * The logic of the administrator dashboard (`frontend/src/pages/AdminPage.tsx`):
 * the status actions offered per order, relative creation times, the
 * search/status filter, the reducers applied to live events, and the
 * notification badge. Rendering, sounds and browser notifications are left out.
 */
module Dashboard {
  import opened Common
  import opened Text
  import opened Seqs
  import opened OrderStore
  import opened LiveEvents

  /** `NEXT_STATUS[status] ?? []`: the target statuses of the action buttons shown for
      an order, in display order. A status outside the table offers nothing. */
  function NextStatus(status: string): (r: seq<string>)
    ensures |r| <= 2 && forall t :: t in r ==> t != status
    ensures forall t :: t in r ==> t in ["pending", "confirmed", "in_progress", "completed", "cancelled"]
    ensures "cancelled" in r <==> status == "pending" || status == "confirmed"
  {
    if status == "pending" then ["confirmed", "cancelled"]
    else if status == "confirmed" then ["in_progress", "cancelled"]
    else if status == "in_progress" then ["completed"]
    else if status == "completed" then []
    else if status == "cancelled" then ["pending"]
    else []
  }

  /** The shape of the table: no action keeps the status, `completed` and unknown
      statuses offer nothing, every other status offers something, and the only
      action leading back to `pending` starts from `cancelled`. */
  lemma NextStatusShape(status: string)
    ensures forall t :: t in NextStatus(status) ==> t != status
    ensures status == "completed" ==> NextStatus(status) == []
    ensures status !in ["pending", "confirmed", "in_progress", "completed", "cancelled"] ==>
      NextStatus(status) == []
    ensures status in ["pending", "confirmed", "in_progress", "cancelled"] ==> |NextStatus(status)| > 0
    ensures "pending" in NextStatus(status) <==> status == "cancelled"
    ensures "completed" in NextStatus(status) <==> status == "in_progress"
  {
  }

  /** The six actions of the table, as (from, to) pairs. */
  lemma NextStatusPairs(status: string, t: string)
    ensures t in NextStatus(status) <==>
      || (status == "pending" && t == "confirmed")
      || (status == "pending" && t == "cancelled")
      || (status == "confirmed" && t == "in_progress")
      || (status == "confirmed" && t == "cancelled")
      || (status == "in_progress" && t == "completed")
      || (status == "cancelled" && t == "pending")
  {
  }

  /** A chain of statuses the action buttons can walk through, one click per step. */
  ghost predicate UiPath(p: seq<string>)
  {
    forall i :: 0 <= i < |p| - 1 ==> p[i + 1] in NextStatus(p[i])
  }

  /** Once `completed`, the buttons can take an order nowhere. */
  lemma CompletedIsTerminal(p: seq<string>)
    requires |p| > 1 && p[0] == "completed"
    ensures !UiPath(p)
  {
    assert p[1] !in NextStatus(p[0]);
  }

  /** The way through: pending, confirmed, in progress, completed. */
  lemma HappyPathIsUiPath()
    ensures UiPath(["pending", "confirmed", "in_progress", "completed"])
  {
  }

  /** `timeAgo`, bucketed on whole elapsed minutes. */
  datatype Ago = JustNow | MinutesAgo(m: int) | HoursAgo(h: int) | DaysAgo(d: int)

  const HourMs: int := 60 * MinuteMs
  const DayMs: int := 24 * HourMs

  /** `timeAgo` on the elapsed milliseconds: under a minute (or in the future) is "just
      now", under an hour whole minutes, under a day whole hours, else whole days;
      each count is the elapsed time rounded down to its unit. */
  function TimeAgo(elapsedMs: int): (r: Ago)
    ensures r == JustNow <==> elapsedMs < MinuteMs
    ensures r.MinutesAgo? <==> MinuteMs <= elapsedMs < HourMs
    ensures r.MinutesAgo? ==> 1 <= r.m < 60 && r.m * MinuteMs <= elapsedMs < (r.m + 1) * MinuteMs
    ensures r.HoursAgo? <==> HourMs <= elapsedMs < DayMs
    ensures r.HoursAgo? ==> 1 <= r.h < 24 && r.h * HourMs <= elapsedMs < (r.h + 1) * HourMs
    ensures r.DaysAgo? <==> DayMs <= elapsedMs
    ensures r.DaysAgo? ==> 1 <= r.d && r.d * DayMs <= elapsedMs < (r.d + 1) * DayMs
  {
    // `Math.floor(x / n)`: Dafny's division rounds down as well for a positive divisor.
    var m := elapsedMs / MinuteMs;
    if m < 1 then JustNow
    else if m < 60 then MinutesAgo(m)
    else
      var h := m / 60;
      if h < 24 then HoursAgo(h) else DaysAgo(h / 24)
  }

  /** The search: the lower-cased query is empty, or occurs in the lower-cased name,
      e-mail, phone, address or service of the order. */
  predicate MatchesSearch(o: Order, search: string)
  {
    var q := ToLower(search);
    || q == ""
    || Contains(ToLower(o.fields.clientName), q)
    || Contains(ToLower(o.fields.clientEmail), q)
    || Contains(ToLower(o.fields.clientPhone), q)
    || Contains(ToLower(o.fields.address), q)
    || Contains(ToLower(o.fields.service), q)
  }

  /** Whether an order is listed under the chosen status tab and search. */
  predicate Shown(filter: string, search: string, o: Order)
  {
    (filter == "all" || o.status == filter) && MatchesSearch(o, search)
  }

  /** `filtered`: the listed orders. They keep the list order, are exactly the orders
      passing both tests, all carry the chosen status unless the tab is `all`, and
      with tab `all` and no search they are the whole list. */
  function Filtered(orders: seq<Order>, filter: string, search: string): (r: seq<Order>)
    ensures IsSubseq(r, orders)
    ensures forall o :: o in r <==> o in orders && Shown(filter, search, o)
    ensures filter != "all" ==> forall i :: 0 <= i < |r| ==> r[i].status == filter
    ensures filter == "all" && search == "" ==> r == orders
    ensures forall o :: multiset(r)[o] == if Shown(filter, search, o) then multiset(orders)[o] else 0
  {
    var keep := (o: Order) => Shown(filter, search, o);
    FilterMultiplicity(orders, keep);
    if filter == "all" && search == "" then
      FilterKeepsAll(orders, keep);
      Filter(orders, keep)
    else
      var r := Filter(orders, keep);
      assert forall i :: 0 <= i < |r| ==> r[i] in r;
      r
  }

  /** The dashboard state the live events act on. */
  datatype View = View(orders: seq<Order>, stats: Stats, badge: nat)

  /** `new_order`: the order goes in front, `total`, `pending` and `today` each go up
      by one, `completed` stays, and the badge counts one more. */
  function OnNewOrder(v: View, o: Order): (r: View)
    ensures r.orders == [o] + v.orders
    ensures r.stats.total == v.stats.total + 1 && r.stats.pending == v.stats.pending + 1
    ensures r.stats.today == v.stats.today + 1 && r.stats.completed == v.stats.completed
    ensures r.badge == v.badge + 1
  {
    View([o] + v.orders,
         v.stats.(total := v.stats.total + 1, pending := v.stats.pending + 1,
                  today := v.stats.today + 1),
         v.badge + 1)
  }

  /** `order_updated`: every listed order with the same id is replaced, in place; the
      length and the other positions stay. */
  function OnOrderUpdated(v: View, u: Order): (r: View)
    ensures |r.orders| == |v.orders|
    ensures forall i :: 0 <= i < |v.orders| ==>
      r.orders[i] == (if v.orders[i].id == u.id then u else v.orders[i])
    ensures r.stats == v.stats && r.badge == v.badge
  {
    v.(orders := seq(|v.orders|, i requires 0 <= i < |v.orders| =>
                       if v.orders[i].id == u.id then u else v.orders[i]))
  }

  /** Whether an order does not carry the given id. */
  function HasOtherId(id: int): Order -> bool
  {
    (o: Order) => o.id != id
  }

  /** `order_deleted`: exactly the listed orders with that id disappear; the rest keep
      their order. */
  function OnOrderDeleted(v: View, id: int): (r: View)
    ensures IsSubseq(r.orders, v.orders)
    ensures forall o :: o in r.orders <==> o in v.orders && o.id != id
    ensures (forall i :: 0 <= i < |v.orders| ==> v.orders[i].id != id) ==> r.orders == v.orders
    ensures forall o :: multiset(r.orders)[o] == if o.id != id then multiset(v.orders)[o] else 0
    ensures r.stats == v.stats && r.badge == v.badge
  {
    FilterMultiplicity(v.orders, HasOtherId(id));
    if forall i :: 0 <= i < |v.orders| ==> v.orders[i].id != id then
      FilterKeepsAll(v.orders, HasOtherId(id));
      v.(orders := Filter(v.orders, HasOtherId(id)))
    else
      v.(orders := Filter(v.orders, HasOtherId(id)))
  }

  /** The socket listeners: one reducer per event; nothing listens to `new_quote`. The
      refetch the update and delete listeners also start is I/O and not modelled. */
  function Apply(v: View, e: LiveEvent): (r: View)
    ensures e.NewOrder? ==> r.orders == [e.order] + v.orders && r.badge == v.badge + 1
    ensures !e.NewOrder? ==> r.stats == v.stats && r.badge == v.badge && |r.orders| <= |v.orders|
    ensures e.OrderUpdated? ==> forall o :: o in r.orders ==> o == e.order || o in v.orders
    ensures e == NewQuote ==> r == v
  {
    match e
    case NewOrder(o) => OnNewOrder(v, o)
    case OrderUpdated(o) => OnOrderUpdated(v, o)
    case OrderDeleted(id) => OnOrderDeleted(v, id)
    case NewQuote => v
  }

  /** What the bell shows. */
  datatype BadgeView = NoBadge | CountBadge(n: int) | NinePlus

  /** The badge: hidden at 0, the count from 1 to 9, `9+` above. */
  function Badge(n: int): (r: BadgeView)
    ensures r == NoBadge <==> n <= 0
    ensures r.CountBadge? <==> 1 <= n <= 9
    ensures r.CountBadge? ==> r.n == n
    ensures r == NinePlus <==> n > 9
  {
    if n > 0 then (if n > 9 then NinePlus else CountBadge(n)) else NoBadge
  }
}
