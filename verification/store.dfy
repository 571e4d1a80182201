/**
 * The order record store of `backend/db.js`: a list of orders kept newest
 * first and a counter for the next id. Every operation is a pure function from
 * the old store to the new one together with what the JavaScript call returns.
 * Writing the file after each mutation is I/O and is not modelled; reading it
 * at start-up is reduced to "a store was read, or nothing usable was".
 */
module OrderStore {
  import opened Common
  import opened Seqs

  /** The booking details the public form submits, after normalisation by the server. */
  datatype OrderFields = OrderFields(
    service: string,
    clientName: string,
    clientEmail: string,
    clientPhone: string,
    address: string,
    date: string,
    timeSlot: string,
    surfaceArea: Option<string>,
    notes: Option<string>)

  /** A stored order: its id, the submitted fields, a status string and the creation time text. */
  datatype Order = Order(id: int, fields: OrderFields, status: string, createdAt: string)

  /** The persisted document: the orders, newest first, and the next id to hand out. */
  datatype Store = Store(orders: seq<Order>, nextId: int)

  /** The dashboard counters of `getStats`. */
  datatype Stats = Stats(total: nat, pending: nat, today: nat, completed: nat)

  /** The state used when there is no file or it cannot be parsed. */
  const Empty: Store := Store([], 1)

  /** The store invariant: ids are at least 1 and below the counter, and strictly
      decreasing along the list (newest first), hence pairwise distinct. */
  ghost predicate Valid(s: Store)
  {
    && 1 <= s.nextId
    && (forall i :: 0 <= i < |s.orders| ==> 1 <= s.orders[i].id < s.nextId)
    && (forall i, j :: 0 <= i < j < |s.orders| ==> s.orders[i].id > s.orders[j].id)
  }

  /** Under the invariant no two orders share an id. */
  lemma ValidIdsDistinct(s: Store, i: int, j: int)
    requires Valid(s)
    requires 0 <= i < |s.orders| && 0 <= j < |s.orders| && i != j
    ensures s.orders[i].id != s.orders[j].id
  {
  }

  /** `load`: the parsed file when there is one, otherwise no orders and a counter of 1.
      `file` is `None` both for a missing file and for one that fails to parse. */
  function Load(file: Option<Store>): (s: Store)
    ensures file.None? ==> s.orders == [] && s.nextId == 1
    ensures file.Some? ==> s == file.value
  {
    file.GetOr(Empty)
  }

  /** The fallback state satisfies the invariant. */
  lemma EmptyIsValid()
    ensures Valid(Load(None))
    ensures Load(None).orders == [] && Load(None).nextId == 1
  {
  }

  /** `findIndex`: the first position holding an order with this id. */
  function FindIndex(orders: seq<Order>, id: int): (r: Option<nat>)
    ensures r.Some? ==> r.value < |orders| && orders[r.value].id == id
    ensures r.Some? ==> forall j :: 0 <= j < r.value ==> orders[j].id != id
    ensures r.None? <==> forall j :: 0 <= j < |orders| ==> orders[j].id != id
  {
    if |orders| == 0 then None
    else if orders[0].id == id then Some(0)
    else
      match FindIndex(orders[1..], id)
      case None => None
      case Some(k) => Some(k + 1)
  }

  /** `insertOrder`: the order gets the current counter as id and status `pending`,
      goes to the front of the list, and the counter moves on by one. */
  function Insert(s: Store, fields: OrderFields, now: string): (r: (Store, Order))
    ensures r.1.id == s.nextId && r.1.status == "pending"
    ensures r.1.fields == fields && r.1.createdAt == now
    ensures r.0.nextId == s.nextId + 1
    ensures GetAll(r.0) == [r.1] + GetAll(s)
  {
    var order := Order(s.nextId, fields, "pending", now);
    (Store([order] + s.orders, s.nextId + 1), order)
  }

  /** `getAllOrders`: every stored order, in stored order; on a valid store that is
      newest first, ids strictly decreasing. The store is not changed. */
  function GetAll(s: Store): (r: seq<Order>)
    ensures |r| == |s.orders| && forall o :: o in r <==> o in s.orders
    ensures Valid(s) ==> forall i, j :: 0 <= i < j < |r| ==> r[i].id > r[j].id
  {
    s.orders
  }

  /** `getOrderById`: the first order with this id, or `null`. */
  function GetById(s: Store, id: int): (r: Option<Order>)
    ensures r.None? <==> forall j :: 0 <= j < |s.orders| ==> s.orders[j].id != id
    ensures r.Some? ==> r.value in s.orders && r.value.id == id
    ensures r.Some? ==> FindIndex(s.orders, id).Some? && r.value == s.orders[FindIndex(s.orders, id).value]
  {
    match FindIndex(s.orders, id)
    case None => None
    case Some(i) => Some(s.orders[i])
  }

  /** `updateStatus`: `null` and no change for an absent id; otherwise the first order
      with that id gets the new status and nothing else in the store changes. */
  function UpdateStatus(s: Store, id: int, status: string): (r: (Store, Option<Order>))
    ensures r.1.None? <==> forall j :: 0 <= j < |s.orders| ==> s.orders[j].id != id
    ensures r.1.None? ==> r.0 == s
    ensures r.1.Some? ==>
      && r.0.nextId == s.nextId
      && exists i :: 0 <= i < |s.orders| && s.orders[i].id == id
          && r.1.value == s.orders[i].(status := status)
          && r.0.orders == s.orders[i := r.1.value]
    ensures r.1.Some? ==> var i := FindIndex(s.orders, id).value;
      r.1.value == s.orders[i].(status := status) && r.0.orders == s.orders[i := r.1.value]
  {
    match FindIndex(s.orders, id)
    case None => (s, None)
    case Some(i) =>
      var updated := s.orders[i].(status := status);
      (s.(orders := s.orders[i := updated]), Some(updated))
  }

  /** `deleteOrder`: `false` and no change for an absent id; otherwise the first order
      with that id is removed and the others keep their relative order. */
  function Delete(s: Store, id: int): (r: (Store, bool))
    ensures !r.1 <==> forall j :: 0 <= j < |s.orders| ==> s.orders[j].id != id
    ensures !r.1 ==> r.0 == s
    ensures r.1 ==>
      && r.0.nextId == s.nextId
      && |r.0.orders| == |s.orders| - 1
      && exists i :: 0 <= i < |s.orders| && s.orders[i].id == id
          && r.0.orders == RemoveAt(s.orders, i)
    ensures r.1 ==> r.0.orders == RemoveAt(s.orders, FindIndex(s.orders, id).value)
  {
    match FindIndex(s.orders, id)
    case None => (s, false)
    case Some(i) => (s.(orders := RemoveAt(s.orders, i)), true)
  }

  /** Status tests used by the statistics. */
  predicate IsPending(o: Order)
  {
    o.status == "pending"
  }

  predicate IsCompleted(o: Order)
  {
    o.status == "completed"
  }

  /** `created_at.startsWith(day)`: the order was created on the given day, where
      `day` is the date text the server computes for today. */
  function CreatedOn(day: string): Order -> bool
  {
    (o: Order) => day <= o.createdAt
  }

  /** `getStats`: the list length, the pending and completed counts, and the number
      of orders created on `today`. */
  function GetStats(s: Store, today: string): (r: Stats)
    ensures r.total == |s.orders|
    ensures r.pending == Count(s.orders, IsPending)
    ensures r.completed == Count(s.orders, IsCompleted)
    ensures r.today == Count(s.orders, CreatedOn(today))
    ensures r.pending + r.completed <= r.total
    ensures r.today <= r.total
  {
    DisjointCountsBounded(s.orders, IsPending, IsCompleted);
    Stats(|s.orders|, Count(s.orders, IsPending), Count(s.orders, CreatedOn(today)),
          Count(s.orders, IsCompleted))
  }

  /** Inserting keeps the invariant, and the new id was never used by any stored order. */
  lemma InsertKeepsValid(s: Store, fields: OrderFields, now: string)
    requires Valid(s)
    ensures Valid(Insert(s, fields, now).0)
    ensures forall o :: o in s.orders ==> o.id < Insert(s, fields, now).1.id
  {
  }

  /** Updating a status keeps the invariant: ids and the counter are untouched. */
  lemma UpdateKeepsValid(s: Store, id: int, status: string)
    requires Valid(s)
    ensures Valid(UpdateStatus(s, id, status).0)
  {
    var r := UpdateStatus(s, id, status);
    if r.1.Some? {
      assert forall j :: 0 <= j < |s.orders| ==> r.0.orders[j].id == s.orders[j].id;
    }
  }

  /** After a status change the store holds the updated order under its id: a lookup
      finds exactly the order the update returned. */
  lemma UpdatedIsFound(s: Store, id: int, status: string)
    requires UpdateStatus(s, id, status).1.Some?
    ensures GetById(UpdateStatus(s, id, status).0, id) == UpdateStatus(s, id, status).1
  {
    var i := FindIndex(s.orders, id).value;
    var u := s.orders[i].(status := status);
    var ys := s.orders[i := u];
    assert ys[i].id == id;
  }

  /** Deleting keeps the invariant; the counter does not move back, so a deleted id
      is never handed out again. */
  lemma DeleteKeepsValid(s: Store, id: int)
    requires Valid(s)
    ensures Valid(Delete(s, id).0)
    ensures Delete(s, id).0.nextId == s.nextId
  {
    var r := Delete(s, id);
    if r.1 {
      var i :| 0 <= i < |s.orders| && s.orders[i].id == id
        && r.0.orders == RemoveAt(s.orders, i);
      RemoveKeepsIdOrder(s.orders, i, s.nextId);
    }
  }

  /** Removing one order keeps the ids within bounds and strictly decreasing. */
  lemma RemoveKeepsIdOrder(xs: seq<Order>, i: nat, n: int)
    requires i < |xs|
    requires forall a :: 0 <= a < |xs| ==> 1 <= xs[a].id < n
    requires forall a, b :: 0 <= a < b < |xs| ==> xs[a].id > xs[b].id
    ensures var o := RemoveAt(xs, i);
      && (forall a :: 0 <= a < |o| ==> 1 <= o[a].id < n)
      && (forall a, b :: 0 <= a < b < |o| ==> o[a].id > o[b].id)
  {
    var o := RemoveAt(xs, i);
    forall a | 0 <= a < |o|
      ensures 1 <= o[a].id < n
    {
      if a < i { assert o[a] == xs[a]; } else { assert o[a] == xs[a + 1]; }
    }
    forall a, b | 0 <= a < b < |o|
      ensures o[a].id > o[b].id
    {
      var a' := if a < i then a else a + 1;
      var b' := if b < i then b else b + 1;
      assert o[a] == xs[a'] && o[b] == xs[b'];
    }
  }

  /** On a valid store a successful delete leaves no order with that id. */
  lemma DeleteRemovesId(s: Store, id: int)
    requires Valid(s)
    ensures forall j :: 0 <= j < |Delete(s, id).0.orders| ==> Delete(s, id).0.orders[j].id != id
  {
    var r := Delete(s, id);
    if r.1 {
      var i :| 0 <= i < |s.orders| && s.orders[i].id == id
        && r.0.orders == RemoveAt(s.orders, i);
      forall a | 0 <= a < |r.0.orders|
        ensures r.0.orders[a].id != id
      {
        if a < i {
          ValidIdsDistinct(s, a, i);
        } else {
          ValidIdsDistinct(s, a + 1, i);
        }
      }
    }
  }

  /** The first order listed after an insert is the one just inserted, and it is the newest. */
  lemma InsertListsNewestFirst(s: Store, fields: OrderFields, now: string)
    requires Valid(s)
    ensures GetAll(Insert(s, fields, now).0)[0] == Insert(s, fields, now).1
    ensures forall j :: 1 <= j < |GetAll(Insert(s, fields, now).0)| ==>
      GetAll(Insert(s, fields, now).0)[j].id < Insert(s, fields, now).1.id
  {
  }
}
