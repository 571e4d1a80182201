/**
 * The quote routes of `backend/server.js` that carry logic: creation (with the
 * totals computed server-side) and the client's electronic signature. The
 * quote store (`createQuote`, `getQuoteById`, `updateQuoteStatus`) is not part of
 * the order store: each route takes what the lookup returned and yields the
 * record or update it hands to the store, without presuming how the store
 * applies it. Amounts are exact reals, not IEEE doubles.
 */
module QuotesApi {
  import opened Common
  import opened Text
  import opened LiveEvents
  import Auth

  /** One quote line. */
  datatype Item = Item(description: string, quantity: real, unitPrice: real)

  /** The JSON body of `POST /api/quotes`. An absent string is `""`, absent `items` is
      `[]`; `taxRate` is `None` when absent or not a number; `orderId` is `None` when absent. */
  datatype QuoteRequest = QuoteRequest(
    kind: string,
    clientEmail: string,
    clientName: string,
    clientPhone: string,
    items: seq<Item>,
    taxRate: Option<real>,
    notes: string,
    validUntil: string,
    orderId: Option<int>)

  /** The record the route hands to `createQuote`. */
  datatype QuoteDraft = QuoteDraft(
    kind: string,
    clientEmail: string,
    clientName: string,
    clientPhone: string,
    items: seq<Item>,
    taxRate: real,
    subtotal: real,
    taxAmount: real,
    total: real,
    notes: string,
    validUntil: Option<string>,
    orderId: Option<int>)

  /** `items.reduce((s, i) => s + quantity * unitPrice, acc)`: a left fold. */
  function SumFrom(acc: real, items: seq<Item>): real
    decreases |items|
  {
    if |items| == 0 then acc
    else SumFrom(acc + items[0].quantity * items[0].unitPrice, items[1..])
  }

  /** The reference definition: the sum of the line amounts. */
  function LineTotal(items: seq<Item>): real
  {
    if |items| == 0 then 0.0 else items[0].quantity * items[0].unitPrice + LineTotal(items[1..])
  }

  /** The fold the route runs computes the sum of the line amounts. */
  lemma {:induction false} SumFromIsLineTotal(acc: real, items: seq<Item>)
    ensures SumFrom(acc, items) == acc + LineTotal(items)
    decreases |items|
  {
    if |items| > 0 {
      SumFromIsLineTotal(acc + items[0].quantity * items[0].unitPrice, items[1..]);
    }
  }

  /** Lines with non-negative quantity and price. */
  ghost predicate NonNegativeLines(items: seq<Item>)
  {
    forall i :: 0 <= i < |items| ==> items[i].quantity >= 0.0 && items[i].unitPrice >= 0.0
  }

  lemma {:induction false} LineTotalNonNegative(items: seq<Item>)
    requires NonNegativeLines(items)
    ensures LineTotal(items) >= 0.0
  {
    if |items| > 0 {
      assert items[0].quantity * items[0].unitPrice >= 0.0;
      LineTotalNonNegative(items[1..]);
    }
  }

  /** `POST /api/quotes`: 400 when the kind, client e-mail or client name is missing or
      there are no lines; otherwise the totals are computed server-side:
      subtotal = sum of quantity x unit price, tax = subtotal x rate / 100 with the rate
      defaulting to 0, total = subtotal + tax. Empty optional fields are normalised. */
  function CreateQuote(b: QuoteRequest): (r: Result<QuoteDraft>)
    ensures r.Err? <==> (b.kind == "" || b.clientEmail == "" || b.clientName == "" || |b.items| == 0)
    ensures r.Err? ==> r.error == BadRequest
    ensures r.Ok? ==>
      && r.value.kind == b.kind
      && r.value.clientEmail == b.clientEmail
      && r.value.clientName == b.clientName
      && r.value.clientPhone == b.clientPhone
      && r.value.notes == b.notes
      && r.value.items == b.items
      && r.value.subtotal == LineTotal(b.items)
      && r.value.taxRate == b.taxRate.GetOr(0.0)
      && r.value.taxAmount == r.value.subtotal * r.value.taxRate / 100.0
      && r.value.total == r.value.subtotal + r.value.taxAmount
      && (r.value.validUntil.None? <==> b.validUntil == "")
      && (r.value.validUntil.Some? ==> r.value.validUntil.value == b.validUntil)
      && (r.value.orderId.None? <==> (b.orderId.None? || b.orderId == Some(0)))
      && (r.value.orderId.Some? ==> r.value.orderId == b.orderId)
  {
    if b.kind == "" || b.clientEmail == "" || b.clientName == "" || |b.items| == 0 then Err(BadRequest)
    else
      var subtotal := SumFrom(0.0, b.items);
      SumFromIsLineTotal(0.0, b.items);
      var rate := b.taxRate.GetOr(0.0);
      var taxAmount := subtotal * rate / 100.0;
      Ok(QuoteDraft(b.kind, b.clientEmail, b.clientName, b.clientPhone, b.items, rate,
                    subtotal, taxAmount, subtotal + taxAmount, b.notes,
                    if b.validUntil == "" then None else Some(b.validUntil),
                    if b.orderId == Some(0) then None else b.orderId))
  }

  /** What the creation route produces: its reply and the broadcast event. */
  datatype QuoteCreated = QuoteCreated(reply: Result<QuoteDraft>, event: Option<LiveEvent>)

  /** `POST /api/quotes` behind `adminAuth`: without an administrator token nothing is
      created and nothing is broadcast; otherwise the route answers as `CreateQuote`
      and broadcasts `new_quote` exactly when a quote is created. */
  function CreateQuoteRoute(header: string, verify: string -> Option<Auth.Claims>, b: QuoteRequest)
    : (r: QuoteCreated)
    ensures Auth.AdminGate(header, verify).Err? ==>
      r == QuoteCreated(Err(Auth.AdminGate(header, verify).error), None)
    ensures Auth.AdminGate(header, verify).Ok? ==> r.reply == CreateQuote(b)
    ensures r.event.Some? <==> r.reply.Ok?
    ensures r.event.Some? ==> r.event.value == NewQuote
  {
    match Auth.AdminGate(header, verify)
    case Err(e) => QuoteCreated(Err(e), None)
    case Ok(_) =>
      var reply := CreateQuote(b);
      QuoteCreated(reply, if reply.Ok? then Some(NewQuote) else None)
  }

  /** With non-negative lines and rate, the total is at least the subtotal, which is at least 0. */
  lemma TotalAtLeastSubtotal(b: QuoteRequest)
    requires CreateQuote(b).Ok?
    requires NonNegativeLines(b.items)
    requires b.taxRate.GetOr(0.0) >= 0.0
    ensures 0.0 <= CreateQuote(b).value.subtotal <= CreateQuote(b).value.total
  {
    LineTotalNonNegative(b.items);
    var d := CreateQuote(b).value;
    assert d.subtotal * d.taxRate >= 0.0;
  }

  /** A stored quote or invoice, as far as signing looks at it. */
  datatype Quote = Quote(
    id: int,
    reference: string,
    kind: string,
    clientEmail: string,
    clientName: string,
    status: string,
    total: real,
    signedAt: Option<string>)

  /** The call `updateQuoteStatus(id, 'signed', { signedAt })` a signature makes. */
  datatype SignUpdate = SignUpdate(id: int, status: string, signedAt: string)

  /** `PATCH /api/client/quotes/:id/sign`, checked in order: no such quote is 404; a
      quote addressed to another e-mail (compared case-insensitively) is 403; a quote
      whose status is exactly `signed` is 400; otherwise the quote is marked signed at
      `now`. A refusal makes no store call. */
  function Sign(found: Option<Quote>, requesterEmail: string, now: string): (r: Result<SignUpdate>)
    ensures found.None? ==> r == Err(NotFound)
    ensures found.Some? && !SameIgnoringCase(found.value.clientEmail, requesterEmail) ==>
      r == Err(Forbidden)
    ensures (found.Some? && SameIgnoringCase(found.value.clientEmail, requesterEmail)
      && found.value.status == "signed") ==> r == Err(BadRequest)
    ensures r.Ok? <==> (found.Some? && SameIgnoringCase(found.value.clientEmail, requesterEmail)
      && found.value.status != "signed")
    ensures r.Ok? ==> r.value == SignUpdate(found.value.id, "signed", now)
  {
    match found
    case None => Err(NotFound)
    case Some(q) =>
      if ToLower(q.clientEmail) != ToLower(requesterEmail) then Err(Forbidden)
      else if q.status == "signed" then Err(BadRequest)
      else Ok(SignUpdate(q.id, "signed", now))
  }

  /** The signature route with its guard: the requester is the e-mail in the client token. */
  function SignRoute(header: string, verify: string -> Option<Auth.Claims>, found: Option<Quote>,
                     now: string): (r: Result<SignUpdate>)
    ensures Auth.ClientGate(header, verify).Err? ==> r == Err(Auth.ClientGate(header, verify).error)
    ensures Auth.ClientGate(header, verify).Ok? ==>
      r == Sign(found, Auth.ClientGate(header, verify).value.email, now)
  {
    match Auth.ClientGate(header, verify)
    case Err(e) => Err(e)
    case Ok(who) => Sign(found, who.email, now)
  }

  /** At most one signature: once the store holds the quote as `signed` (as the update
      asked), the same client signing again gets 400 and no new signing time. */
  lemma SecondSignatureRefused(q: Quote, requesterEmail: string, now: string, stored: Quote, later: string)
    requires Sign(Some(q), requesterEmail, now).Ok?
    requires stored.clientEmail == q.clientEmail
    requires stored.status == Sign(Some(q), requesterEmail, now).value.status
    ensures Sign(Some(stored), requesterEmail, later) == Err(BadRequest)
  {
  }

  /** Only the literal status `signed` blocks a signature: the owner can sign a quote
      in any other status, including `paid`, which then goes back to `signed`. */
  lemma OnlySignedBlocks(q: Quote, requesterEmail: string, now: string)
    requires SameIgnoringCase(q.clientEmail, requesterEmail)
    requires q.status != "signed"
    ensures Sign(Some(q), requesterEmail, now) == Ok(SignUpdate(q.id, "signed", now))
  {
  }

  /** E-mail case does not matter for the ownership check. */
  lemma OwnershipIgnoresCase(q: Quote, requesterEmail: string, now: string)
    ensures Sign(Some(q), ToLower(requesterEmail), now) == Sign(Some(q), requesterEmail, now)
  {
    ToLowerIdempotent(requesterEmail);
  }
}
