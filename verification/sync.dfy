/**
 * How the pages and the server fit together: the dashboard's action buttons
 * against the status route, the dashboard's live reducers against the store the
 * routes change, the order progress bar against the action buttons, and the
 * booking wizard against the order route's validation.
 */
module Sync {
  import opened Common
  import opened Seqs
  import opened OrderStore
  import opened OrderStatus
  import opened LiveEvents
  import opened OrdersApi
  import opened Dashboard
  import ClientSpace
  import OrderWizard
  import QuotesApi
  import Auth

  /** Every action button targets a status the server accepts. */
  lemma UiTargetsAccepted(status: string)
    ensures forall t :: t in NextStatus(status) ==> t in Accepted
  {
  }

  /** With an administrator token, clicking an action button on a listed order
      succeeds: the server stores and returns the order with the target status. */
  lemma UiActionSucceeds(s: Store, id: int, t: string)
    requires GetById(s, id).Some?
    requires t in NextStatus(GetById(s, id).value.status)
    ensures PatchStatus(s, id, t).reply.Ok?
    ensures PatchStatus(s, id, t).reply.value.status == t
  {
    UiTargetsAccepted(GetById(s, id).value.status);
  }

  /** The same through the guarded route: with an administrator token every offered
      target is accepted and stored; without one, the request is refused and the store
      is left as it is. */
  lemma UiActionThroughGuard(header: string, verify: string -> Option<Auth.Claims>, s: Store,
                             id: int, t: string)
    requires GetById(s, id).Some?
    requires t in NextStatus(GetById(s, id).value.status)
    ensures Auth.AdminGate(header, verify).Ok? ==>
      PatchStatusRoute(header, verify, s, id, t).reply.Ok?
      && PatchStatusRoute(header, verify, s, id, t).reply.value.status == t
      && GetById(PatchStatusRoute(header, verify, s, id, t).store, id)
         == Some(PatchStatusRoute(header, verify, s, id, t).reply.value)
    ensures Auth.AdminGate(header, verify).Err? ==>
      PatchStatusRoute(header, verify, s, id, t).reply.Err?
      && PatchStatusRoute(header, verify, s, id, t).store == s
  {
    UiActionSucceeds(s, id, t);
  }

  /** The server checks the value, not the transition: a completed order, which the
      dashboard offers no action for, can still be set back to `pending`. */
  lemma ServerAllowsReopeningCompleted(s: Store, id: int)
    requires GetById(s, id).Some? && GetById(s, id).value.status == "completed"
    ensures NextStatus(GetById(s, id).value.status) == []
    ensures PatchStatus(s, id, "pending").reply.Ok?
  {
    assert "pending" in Accepted;
  }

  /** A forward action (anything but cancelling, from a non-cancelled order) moves the
      progress bar exactly one segment on. */
  lemma ForwardActionAdvancesProgress(status: string, t: string)
    requires t in NextStatus(status) && t != "cancelled" && status != "cancelled"
    ensures ClientSpace.PositionOf(ClientSpace.Steps, status) >= 0
    ensures ClientSpace.PositionOf(ClientSpace.Steps, t) ==
      ClientSpace.PositionOf(ClientSpace.Steps, status) + 1
  {
    ClientSpace.StepPositions();
    NextStatusPairs(status, t);
  }

  /** Along a chain of action clicks that never cancels, each click moves the progress
      bar one segment on. */
  lemma {:induction false} ProgressAlongPath(p: seq<string>)
    requires |p| > 1 && UiPath(p)
    requires forall i :: 0 <= i < |p| ==> p[i] != "cancelled"
    ensures ClientSpace.PositionOf(ClientSpace.Steps, p[0]) >= 0
    ensures ClientSpace.PositionOf(ClientSpace.Steps, p[|p| - 1]) ==
      ClientSpace.PositionOf(ClientSpace.Steps, p[0]) + |p| - 1
  {
    var n := |p|;
    assert p[n - 1] in NextStatus(p[n - 2]);
    ForwardActionAdvancesProgress(p[n - 2], p[n - 1]);
    if n > 2 {
      var q := p[..n - 1];
      forall i | 0 <= i < |q| - 1
        ensures q[i + 1] in NextStatus(q[i])
      {
        assert q[i] == p[i] && q[i + 1] == p[i + 1];
      }
      ProgressAlongPath(q);
      assert q[0] == p[0] && q[|q| - 1] == p[n - 2];
    }
  }

  /** Without cancelling, an order goes through at most four statuses: the buttons
      offer no cycle. */
  lemma NoCycleWithoutCancelling(p: seq<string>)
    requires UiPath(p)
    requires forall i :: 0 <= i < |p| ==> p[i] != "cancelled"
    ensures |p| <= 4
  {
    if |p| > 1 {
      ProgressAlongPath(p);
    }
  }

  /** After a submission, the dashboard's `new_order` reducer lists exactly the orders
      the store holds, if it listed them before. */
  lemma NewOrderMirrorsStore(v: View, s: Store, b: OrderRequest, now: string)
    requires v.orders == s.orders
    requires SubmitOrder(s, b, now).event.Some?
    ensures Apply(v, SubmitOrder(s, b, now).event.value).orders == SubmitOrder(s, b, now).store.orders
  {
  }

  /** The same for the counters, provided the new order was created on the day they
      count (the reducer always adds one to `today`). */
  lemma NewOrderMirrorsStats(v: View, s: Store, b: OrderRequest, now: string, today: string)
    requires v.stats == GetStats(s, today)
    requires SubmitOrder(s, b, now).event.Some?
    requires today <= now
    ensures Apply(v, SubmitOrder(s, b, now).event.value).stats ==
      GetStats(SubmitOrder(s, b, now).store, today)
  {
    SubmissionBumpsStats(s, b, now, today);
  }

  /** After a status change, the `order_updated` reducer lists exactly what the store
      holds: ids are distinct, so replacing every match replaces the one the store changed. */
  lemma UpdateMirrorsStore(v: View, s: Store, id: int, status: string)
    requires Valid(s) && v.orders == s.orders
    requires PatchStatus(s, id, status).event.Some?
    ensures Apply(v, PatchStatus(s, id, status).event.value).orders == PatchStatus(s, id, status).store.orders
  {
    var r := UpdateStatus(s, id, status);
    var i :| 0 <= i < |s.orders| && s.orders[i].id == id
      && r.1.value == s.orders[i].(status := status)
      && r.0.orders == s.orders[i := r.1.value];
    forall j | 0 <= j < |s.orders| && j != i
      ensures s.orders[j].id != id
    {
      ValidIdsDistinct(s, i, j);
    }
    ReplaceByIdAt(s.orders, i, r.1.value);
  }

  /** Replacing every order with the id of the one at `i`, which no other order has,
      is replacing position `i`. */
  lemma ReplaceByIdAt(xs: seq<Order>, i: nat, u: Order)
    requires i < |xs| && xs[i].id == u.id
    requires forall j :: 0 <= j < |xs| && j != i ==> xs[j].id != u.id
    ensures OnOrderUpdated(View(xs, Stats(0, 0, 0, 0), 0), u).orders == xs[i := u]
  {
  }

  /** After a delete request, the `order_deleted` reducer lists exactly what the store
      holds, whether or not the id existed. */
  lemma DeleteMirrorsStore(v: View, s: Store, id: int)
    requires Valid(s) && v.orders == s.orders
    ensures Apply(v, DeleteOrder(s, id).event.value).orders == DeleteOrder(s, id).store.orders
  {
    var r := Delete(s, id);
    assert DeleteOrder(s, id).store == r.0;
    assert Apply(v, OrderDeleted(id)).orders == Filter(s.orders, HasOtherId(id));
    if r.1 {
      var i :| 0 <= i < |s.orders| && s.orders[i].id == id
        && r.0.orders == RemoveAt(s.orders, i);
      forall j | 0 <= j < |s.orders| && j != i
        ensures HasOtherId(id)(s.orders[j])
      {
        ValidIdsDistinct(s, i, j);
      }
      FilterRemovesOnlyFailing(s.orders, i, HasOtherId(id));
    } else {
      FilterKeepsAll(s.orders, HasOtherId(id));
    }
  }

  /** A created quote is announced, but the dashboard does not react to it: its list,
      counters and badge stay as they were. */
  lemma NewQuoteLeavesDashboard(v: View, header: string, verify: string -> Option<Auth.Claims>,
                                b: QuotesApi.QuoteRequest)
    requires QuotesApi.CreateQuoteRoute(header, verify, b).reply.Ok?
    ensures QuotesApi.CreateQuoteRoute(header, verify, b).event == Some(NewQuote)
    ensures Apply(v, QuotesApi.CreateQuoteRoute(header, verify, b).event.value) == v
  {
  }

  /** Whatever the user did before, a request the wizard lets through passes the
      order route's validation and creates an order. */
  lemma WizardSubmissionAccepted(preselected: string, es: seq<OrderWizard.UiEvent>, loading: bool,
                                 s: Store, now: string)
    requires OrderWizard.CanSubmit(OrderWizard.Run(OrderWizard.Initial(preselected), es), loading)
    ensures OrderWizard.Run(OrderWizard.Initial(preselected), es).service.Some?
    ensures SubmitOrder(s, OrderWizard.Payload(OrderWizard.Run(OrderWizard.Initial(preselected), es)),
                        now).reply.Ok?
  {
    OrderWizard.SubmittedPayloadComplete(preselected, es, loading);
  }
}
