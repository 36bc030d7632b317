/** POST /api/v1/orders: binding, the service call, and the status that drives the
    gateway's retries. */
module OrderHandlers {
  import opened Wrappers
  import opened Payments
  import opened Orders
  import opened OrderSaga
  import opened Worlds
  import opened OrderServices
  import opened ServiceClients
  import opened OrderRepositories
  import P = PaymentProtocol

  /** The binding tags: required, min=1, gt=0. */
  predicate Binds(req: CreateOrderRequest) {
    && req.userId != Other("", None) && req.items != []
    && forall k :: 0 <= k < |req.items| ==> req.items[k].productId != Other("", None) && req.items[k].quantity > 0
  }

  /** CreateOrder of the handler. `infos` are the products of the lines that were priced.
      201 exactly if the last answer says paid, 402 exactly if a charge was tried and the
      last answer does not; 404, 409 and 502 exactly as the last answer about the user or
      the first unpriced line says; a 500 has its cause in the transaction or in a client
      that is set to make no attempt. A status that the gateway retries is always a 502
      for an order that was never stored; the body carries the order exactly with 201 and
      402. */
  method CreateOrder(s: OrderService, w: World, id: nat, req: CreateOrderRequest, itemIds: seq<nat>, tx: TxWeather,
      update: P.Commit) returns (status: int, body: Option<Order>, ghost infos: seq<ProductInfo>)
    requires w == s.repo.pool && w.Valid() && s.payments.retryAttempts == w.retries
    requires IsFreshId(w.st, id) && |req.items| <= |itemIds|
    modifies w
    ensures w.Valid() && w.Later(old(w.trace)) && w.open == old(w.open)
    ensures !Binds(req) ==> w.st == old(w.st) && w.log == old(w.log)
    ensures Binds(req) ==> In(w.st, id) && w.st.calls[id].stage == Done(status)
    ensures LinesPriced(w.log, infos, req.items)
    ensures status in {201, 400, 402, 404, 409, 500, 502}
    ensures status == 201 <==> SaysPaid(Final(w.log, old(w.log)))
    ensures status == 402 <==> IsCharge(Final(w.log, old(w.log))) && !SaysPaid(Final(w.log, old(w.log)))
    ensures status == 400 <==>
              || req.userId == Other("", None) || ParseId(req.userId).None? || req.items == []
              || exists k :: 0 <= k < |req.items| &&
                   (req.items[k].productId == Other("", None) || req.items[k].quantity <= 0)
    ensures status == 404 <==> NotFoundAnswer(Final(w.log, old(w.log)))
    ensures status == 409 <==> NoStockAnswer(Final(w.log, old(w.log)), req.items, |infos|)
    ensures status == 502 <==> NoUsableAnswer(Final(w.log, old(w.log)), req.items, |infos|)
    ensures status == 500 ==>
              || s.users.retryAttempts < 0 || s.products.retryAttempts < 0 || s.payments.retryAttempts < 0
              || (In(w.st, id) && w.st.calls[id].order.Some?
                  && PricedFor(w.log, infos, req, w.st.calls[id].order.value)
                  && NotPersisted(w.st.tables, w.st.calls[id].order.value, tx))
    ensures status in {502, 503, 504} ==> id !in w.st.tables.orders
    ensures body.Some? <==> status in {201, 402}
    ensures body.Some? ==>
              && PricedFor(w.log, infos, req, body.value)
              && StoredAs(w.st.tables, body.value) && StatusStored(w.st.tables, body.value, update)
              && (if status == 201 then body.value.status.OrderConfirmed? else body.value.status.OrderFailed?)
  {
    if !Binds(req) {
      return 400, None, [];
    }
    var order, err;
    order, err, infos := s.CreateOrder(w, id, req, itemIds, tx, update);
    if err.Some? {
      return StatusOf(err.value), order, infos;
    }
    return 201, order, infos;
  }
}
