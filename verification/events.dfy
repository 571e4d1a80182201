/**
 * The live-channel events the server broadcasts to every connected dashboard
 * after a state change. Delivery is best effort; only the payloads are modelled.
 */
module LiveEvents {
  import OrderStore

  datatype LiveEvent =
    | NewOrder(order: OrderStore.Order)        // `new_order`, after a submission
    | OrderUpdated(order: OrderStore.Order)    // `order_updated`, after a status change
    | OrderDeleted(id: int)                    // `order_deleted`, after every delete request
    | NewQuote                                 // `new_quote`, after a quote is created; its payload
                                               // is the record the quote store returns, which is
                                               // not part of this model
}
