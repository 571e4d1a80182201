/**
 * The order routes of `backend/server.js`: public submission, the
 * administrator's status change and delete, and the two read-only
 * administrator routes. Each route is a function from the store to its reply,
 * the store after it, and the live event it broadcasts. E-mail sending is
 * fire-and-forget and its outcome never reaches the reply, so it is left out.
 */
module OrdersApi {
  import opened Common
  import opened OrderStore
  import opened OrderStatus
  import opened LiveEvents
  import opened Seqs
  import Auth

  /** The JSON body of `POST /api/orders`; an absent field is `""`. */
  datatype OrderRequest = OrderRequest(
    service: string,
    clientName: string,
    clientEmail: string,
    clientPhone: string,
    address: string,
    date: string,
    timeSlot: string,
    surfaceArea: string,
    notes: string)

  /** What a route produces: its reply, the store afterwards and the broadcast event. */
  datatype Handled<T> = Handled(reply: Result<T>, store: Store, event: Option<LiveEvent>)

  /** The seven fields the submission route insists on. */
  predicate HasRequiredFields(b: OrderRequest)
  {
    && b.service != "" && b.clientName != "" && b.clientEmail != "" && b.clientPhone != ""
    && b.address != "" && b.date != "" && b.timeSlot != ""
  }

  /** `value || null` on a string field. */
  function OrNull(v: string): (r: Option<string>)
    ensures r.None? <==> v == ""
    ensures r.Some? ==> r.value == v
  {
    if v == "" then None else Some(v)
  }

  /** The fields the route passes to `insertOrder`: the seven required ones as sent,
      the optional ones as `null` when empty. No `id` is passed. */
  function Normalise(b: OrderRequest): OrderFields
  {
    OrderFields(b.service, b.clientName, b.clientEmail, b.clientPhone, b.address, b.date,
                b.timeSlot, OrNull(b.surfaceArea), OrNull(b.notes))
  }

  /** `POST /api/orders`: 400 and nothing stored when a required field is empty;
      otherwise exactly one insert, a 201 reply with the new pending order, and a
      `new_order` broadcast of it. */
  function SubmitOrder(s: Store, b: OrderRequest, now: string): (r: Handled<Order>)
    ensures !HasRequiredFields(b) ==> r == Handled(Err(BadRequest), s, None)
    ensures HasRequiredFields(b) ==>
      && r.reply.Ok?
      && (r.store, r.reply.value) == Insert(s, Normalise(b), now)
      && r.reply.value.status == "pending"
      && r.reply.value.id == s.nextId
      && (r.reply.value.fields.surfaceArea.None? <==> b.surfaceArea == "")
      && (r.reply.value.fields.notes.None? <==> b.notes == "")
      && r.event == Some(NewOrder(r.reply.value))
  {
    if !HasRequiredFields(b) then Handled(Err(BadRequest), s, None)
    else
      var (s', order) := Insert(s, Normalise(b), now);
      Handled(Ok(order), s', Some(NewOrder(order)))
  }

  /** `PATCH /api/orders/:id/status`: a value outside the five statuses is 400 with no
      store call; an absent id is 404; otherwise the order takes the new status,
      whatever its current one, and an `order_updated` broadcast follows. */
  function PatchStatus(s: Store, id: int, status: string): (r: Handled<Order>)
    ensures status !in Accepted ==> r == Handled(Err(BadRequest), s, None)
    ensures status in Accepted && GetById(s, id).None? ==> r == Handled(Err(NotFound), s, None)
    ensures (status in Accepted && GetById(s, id).Some?) ==>
      && r.reply.Ok?
      && r.reply.value.id == id
      && r.reply.value.status == status
      && r.reply.value == GetById(s, id).value.(status := status)
      && r.store == UpdateStatus(s, id, status).0
      && GetById(r.store, id) == Some(r.reply.value)
      && r.event == Some(OrderUpdated(r.reply.value))
  {
    if Parse(status).None? then Handled(Err(BadRequest), s, None)
    else
      var (s', updated) := UpdateStatus(s, id, status);
      match updated
      case None => Handled(Err(NotFound), s, None)
      case Some(order) =>
        UpdatedIsFound(s, id, status);
        Handled(Ok(order), s', Some(OrderUpdated(order)))
  }

  /** `DELETE /api/orders/:id`: always `{ success: true }` and an `order_deleted`
      broadcast, whether or not the order existed. */
  function DeleteOrder(s: Store, id: int): (r: Handled<()>)
    ensures r.reply == Ok(())
    ensures r.store == Delete(s, id).0
    ensures r.event == Some(OrderDeleted(id))
    ensures GetById(s, id).None? ==> r.store == s
  {
    Handled(Ok(()), Delete(s, id).0, Some(OrderDeleted(id)))
  }

  /** A route behind `adminAuth`: the guard's refusal is the reply and nothing else happens. */
  function Guarded<T>(gate: Result<()>, s: Store, h: Handled<T>): (r: Handled<T>)
    ensures gate.Err? ==> r == Handled(Err(gate.error), s, None)
    ensures gate.Ok? ==> r == h
  {
    match gate
    case Err(e) => Handled(Err(e), s, None)
    case Ok(_) => h
  }

  /** `PATCH /api/orders/:id/status` with its guard: without an administrator token the
      store is untouched and nothing is broadcast. */
  function PatchStatusRoute(header: string, verify: string -> Option<Auth.Claims>, s: Store,
                            id: int, status: string): (r: Handled<Order>)
    ensures Auth.AdminGate(header, verify).Err? ==> r.reply.Err? && r.store == s && r.event.None?
    ensures Auth.AdminGate(header, verify).Ok? ==> r == PatchStatus(s, id, status)
  {
    Guarded(Auth.AdminGate(header, verify), s, PatchStatus(s, id, status))
  }

  /** `DELETE /api/orders/:id` with its guard. */
  function DeleteOrderRoute(header: string, verify: string -> Option<Auth.Claims>, s: Store,
                            id: int): (r: Handled<()>)
    ensures Auth.AdminGate(header, verify).Err? ==> r.reply.Err? && r.store == s && r.event.None?
    ensures Auth.AdminGate(header, verify).Ok? ==> r == DeleteOrder(s, id)
  {
    Guarded(Auth.AdminGate(header, verify), s, DeleteOrder(s, id))
  }

  /** `GET /api/orders`: the whole list, newest first, for administrators only. */
  function ListOrdersRoute(header: string, verify: string -> Option<Auth.Claims>, s: Store)
    : (r: Result<seq<Order>>)
    ensures r.Ok? <==> Auth.AdminGate(header, verify).Ok?
    ensures r.Ok? ==> r.value == s.orders
  {
    match Auth.AdminGate(header, verify)
    case Err(e) => Err(e)
    case Ok(_) => Ok(GetAll(s))
  }

  /** `GET /api/stats`: the counters, for administrators only. */
  function StatsRoute(header: string, verify: string -> Option<Auth.Claims>, s: Store, today: string)
    : (r: Result<Stats>)
    ensures r.Ok? <==> Auth.AdminGate(header, verify).Ok?
    ensures r.Ok? ==> r.value == GetStats(s, today)
    ensures r.Ok? ==> r.value.total == |s.orders| && r.value.pending + r.value.completed <= r.value.total
  {
    match Auth.AdminGate(header, verify)
    case Err(e) => Err(e)
    case Ok(_) => Ok(GetStats(s, today))
  }

  /** Every route keeps the store invariant. */
  lemma RoutesKeepValid(s: Store, b: OrderRequest, now: string, id: int, status: string)
    requires Valid(s)
    ensures Valid(SubmitOrder(s, b, now).store)
    ensures Valid(PatchStatus(s, id, status).store)
    ensures Valid(DeleteOrder(s, id).store)
  {
    InsertKeepsValid(s, Normalise(b), now);
    UpdateKeepsValid(s, id, status);
    DeleteKeepsValid(s, id);
  }

  /** A valid submission raises `total` and `pending` by one each, and `today` by one
      when the creation time falls on the day counted. */
  lemma SubmissionBumpsStats(s: Store, b: OrderRequest, now: string, today: string)
    requires HasRequiredFields(b)
    ensures var before := GetStats(s, today);
      var after := GetStats(SubmitOrder(s, b, now).store, today);
      && after.total == before.total + 1
      && after.pending == before.pending + 1
      && after.completed == before.completed
      && after.today == before.today + (if today <= now then 1 else 0)
  {
    var (s', order) := Insert(s, Normalise(b), now);
    FilterCons(order, s.orders, IsPending);
    FilterCons(order, s.orders, IsCompleted);
    FilterCons(order, s.orders, CreatedOn(today));
  }
}
