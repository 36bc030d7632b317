/** OrderService.CreateOrder, and the handler's mapping of its errors to HTTP. */
module OrderServices {
  import opened Wrappers
  import opened Int64
  import opened Payments
  import opened Orders
  import opened OrderSaga
  import opened Worlds
  import opened ResilientClients
  import opened ServiceClients
  import opened OrderRepositories
  import P = PaymentProtocol
  import PI = PaymentInvariant
  import SI = SagaInvariant
  import ST = SagaTheorems

  datatype ItemRequest = ItemRequest(productId: IdText, quantity: int)

  datatype CreateOrderRequest = CreateOrderRequest(userId: IdText, items: seq<ItemRequest>)

  /** The sentinels of the service package; ErrPersisting is the wrapped repository
      error, Panic a nil dereference that gin.Recovery answers. */
  datatype ServiceError =
    | ErrValidation
    | ErrUserNotFound
    | ErrProductNotFound
    | ErrProductUnavailable
    | ErrOrderNotFound
    | ErrUpstreamUnavailable
    | ErrPaymentDeclined
    | ErrPersisting
    | Panic

  /** writeServiceError */
  function StatusOf(e: ServiceError): int {
    match e
    case ErrValidation => 400
    case ErrUserNotFound => 404
    case ErrProductNotFound => 404
    case ErrProductUnavailable => 409
    case ErrOrderNotFound => 404
    case ErrPaymentDeclined => 402
    case ErrUpstreamUnavailable => 502
    case ErrPersisting => 500
    case Panic => 500
  }

  /** The item was priced from this answer of product-service, which had the stock. */
  predicate PricedFrom(info: ProductInfo, r: ItemRequest, it: OrderItem) {
    && info.isActive && r.quantity <= info.stockQuantity
    && it.quantity == r.quantity && it.unitPriceCents == info.priceCents && it.sku == info.sku
    && ParseId(info.id) == Some(it.productId)
  }

  /** This product was the answer to the request for the product of this line. */
  predicate WasAnswer(log: seq<Exchange>, r: ItemRequest, info: ProductInfo) {
    Exchange(GetProduct(r.productId), Response(200, ProductBody(info))) in log
  }

  /** Item by item, the answers of product-service that the prices come from. */
  predicate AllPricedFrom(log: seq<Exchange>, infos: seq<ProductInfo>, reqs: seq<ItemRequest>, items: seq<OrderItem>) {
    && |infos| == |items| <= |reqs|
    && forall k :: 0 <= k < |items| ==> WasAnswer(log, reqs[k], infos[k]) && PricedFrom(infos[k], reqs[k], items[k])
  }

  /** The lines before |infos| can be priced: each product was answered, is active, has the
      stock, and has an id that parses. */
  predicate LinesPriced(log: seq<Exchange>, infos: seq<ProductInfo>, reqs: seq<ItemRequest>) {
    && |infos| <= |reqs|
    && forall k :: 0 <= k < |infos| ==>
         && Exchange(GetProduct(reqs[k].productId), Response(200, ProductBody(infos[k]))) in log
         && infos[k].isActive && reqs[k].quantity <= infos[k].stockQuantity && ParseId(infos[k].id).Some?
  }

  /** The last answer, about the user or a product, is a 404. */
  predicate NotFoundAnswer(last: Option<Exchange>) {
    && last.Some? && !last.value.req.PostCharge?
    && last.value.outcome.Response? && last.value.outcome.status == 404
  }

  /** The last answer is the product of line k, inactive or with less than the line's
      quantity in stock. */
  predicate NoStockAnswer(last: Option<Exchange>, reqs: seq<ItemRequest>, k: nat) {
    && last.Some? && k < |reqs| && last.value.req == GetProduct(reqs[k].productId)
    && last.value.outcome.Response? && last.value.outcome.status == 200 && last.value.outcome.body.ProductBody?
    && var info := last.value.outcome.body.info; !info.isActive || info.stockQuantity < reqs[k].quantity
  }

  /** The last attempt was about the user, or about the product of line k, and had no
      usable answer: for the user neither a 200 nor a 404; for the product neither a 404
      nor a product, or one that could be sold but for an id that does not parse. */
  predicate NoUsableAnswer(last: Option<Exchange>, reqs: seq<ItemRequest>, k: nat) {
    last.Some? &&
    var o := last.value.outcome;
    match last.value.req
    case GetUser(_) => !(o.Response? && o.status in {200, 404})
    case GetProduct(_) =>
      && k < |reqs|
      && !(o.Response? && o.status == 404)
      && (o.Response? && o.status == 200 && o.body.ProductBody? ==>
           o.body.info.isActive && reqs[k].quantity <= o.body.info.stockQuantity && ParseId(o.body.info.id).None?)
    case PostCharge(_) => false
  }

  /** The error that comes before anything is stored is what the last answer says. */
  predicate ErrorSaysWhy(err: Option<ServiceError>, last: Option<Exchange>, reqs: seq<ItemRequest>, k: nat) {
    && (err == Some(ErrUserNotFound) || err == Some(ErrProductNotFound) <==> NotFoundAnswer(last))
    && (err == Some(ErrProductUnavailable) <==> NoStockAnswer(last, reqs, k))
    && (err == Some(ErrUpstreamUnavailable) <==> NoUsableAnswer(last, reqs, k))
  }

  /** The order is for the requested user and lines, at the prices that were answered. */
  predicate PricedFor(log: seq<Exchange>, infos: seq<ProductInfo>, req: CreateOrderRequest, o: Order) {
    && ParseId(req.userId) == Some(o.userId)
    && |o.items| == |req.items| && AllPricedFrom(log, infos, req.items, o.items)
    && o.totalCents == LoopTotal(o.items)
  }

  /** An answer stays in the log. */
  lemma AnswersStay(log: seq<Exchange>, longer: seq<Exchange>, infos: seq<ProductInfo>, reqs: seq<ItemRequest>,
      items: seq<OrderItem>)
    requires AllPricedFrom(log, infos, reqs, items) && log <= longer
    ensures AllPricedFrom(longer, infos, reqs, items) && LinesPriced(longer, infos, reqs)
  {
    forall k | 0 <= k < |items| ensures WasAnswer(longer, reqs[k], infos[k]) {
      assert WasAnswer(log, reqs[k], infos[k]);
    }
  }

  /** What the last answer of user-service means for the call. */
  function UserVerdict(o: HttpOutcome): (v: Option<ServiceError>)
    ensures v.None? <==> o.Response? && o.status == 200
    ensures v == Some(ErrUserNotFound) <==> o.Response? && o.status == 404
    ensures v.None? || v.value in {ErrUserNotFound, ErrUpstreamUnavailable}
  {
    if Answered(o, 200) then None else Some(if Answered(o, 404) then ErrUserNotFound else ErrUpstreamUnavailable)
  }

  predicate Available(info: ProductInfo, r: ItemRequest) {
    info.isActive && info.stockQuantity >= r.quantity
  }

  /** What the last answer of product-service means for the line. */
  function LineVerdict(o: HttpOutcome, r: ItemRequest): (v: Option<ServiceError>)
    ensures v.None? <==> o.Response? && o.status == 200 && o.body.ProductBody? && o.body.info.isActive
                         && r.quantity <= o.body.info.stockQuantity && ParseId(o.body.info.id).Some?
    ensures v == Some(ErrProductUnavailable) <==>
              o.Response? && o.status == 200 && o.body.ProductBody?
              && (!o.body.info.isActive || o.body.info.stockQuantity < r.quantity)
    ensures v == Some(ErrProductNotFound) <==> o.Response? && o.status == 404
    ensures v.None? || v.value in {ErrProductNotFound, ErrProductUnavailable, ErrUpstreamUnavailable}
  {
    match ProductIn(o)
    case None => Some(if Answered(o, 404) then ErrProductNotFound else ErrUpstreamUnavailable)
    case Some(info) =>
      if !Available(info, r) then Some(ErrProductUnavailable)
      else if ParseId(info.id).None? then Some(ErrUpstreamUnavailable)
      else None
  }

  /** The last attempt asked user-service for this user, and this is the verdict. */
  predicate UserAnswer(last: Option<Exchange>, user: IdText, verdict: Option<ServiceError>) {
    last.Some? && last.value.req == GetUser(user) && UserVerdict(last.value.outcome) == verdict
  }

  /** The last attempt asked for the product of this line, and this is the verdict. */
  predicate LineAnswer(last: Option<Exchange>, r: ItemRequest, verdict: Option<ServiceError>) {
    last.Some? && last.value.req == GetProduct(r.productId) && LineVerdict(last.value.outcome, r) == verdict
  }

  /** The pricing loop after |items| lines. */
  predicate PricedSoFar(log: seq<Exchange>, before: seq<Exchange>, reqs: seq<ItemRequest>, itemIds: seq<nat>,
    infos: seq<ProductInfo>, items: seq<OrderItem>, total: int)
  {
    && total == LoopTotal(items) && AllPricedFrom(log, infos, reqs, items)
    && |items| <= |itemIds| && (forall k :: 0 <= k < |items| ==> items[k].id == itemIds[k])
    && (Final(log, before).Some? ==>
         Final(log, before).value.req.GetProduct? && ProductIn(Final(log, before).value.outcome).Some?)
  }

  /** One turn of the pricing loop: `longer` is the log after it. */
  lemma PricedOneMore(log: seq<Exchange>, longer: seq<Exchange>, before: seq<Exchange>, reqs: seq<ItemRequest>,
      itemIds: seq<nat>, infos: seq<ProductInfo>, items: seq<OrderItem>, total: int, info: ProductInfo, item: OrderItem)
    requires PricedSoFar(log, before, reqs, itemIds, infos, items, total) && before <= log <= longer
    requires |items| < |reqs| <= |itemIds| && LineAnswer(Final(longer, log), reqs[|items|], None)
    requires WasAnswer(longer, reqs[|items|], info) && PricedFrom(info, reqs[|items|], item)
    requires item.id == itemIds[|items|]
    ensures PricedSoFar(longer, before, reqs, itemIds, infos + [info], items + [item],
                        Wrap(total + Wrap(item.unitPriceCents * item.quantity)))
  {
    assert (items + [item])[..|items|] == items;
    AnswersStay(log, longer, infos, reqs, items);
  }

  lemma LongerLog(log: seq<Exchange>, longer: seq<Exchange>, before: seq<Exchange>, reqs: seq<ItemRequest>,
      itemIds: seq<nat>, infos: seq<ProductInfo>, items: seq<OrderItem>, total: int, r: ItemRequest)
    requires PricedSoFar(log, before, reqs, itemIds, infos, items, total) && before <= log
    requires OnlySent(longer, log, GetProduct(r.productId))
    ensures AllPricedFrom(longer, infos, reqs, items)
    ensures Final(longer, before).Some? ==> Final(longer, before).value.req.GetProduct?
  {
    AnswersStay(log, longer, infos, reqs, items);
    assert |longer| == |log| ==> longer == log;
  }

  /** The answer that refused the order: about the user, or about the first line that
      is not among the `priced` ones. */
  predicate RefusedBy(last: Option<Exchange>, req: CreateOrderRequest, priced: nat, e: ServiceError) {
    UserAnswer(last, req.userId, Some(e)) || (priced < |req.items| && LineAnswer(last, req.items[priced], Some(e)))
  }

  lemma UserErrorSaysWhy(last: Option<Exchange>, req: CreateOrderRequest, err: Option<ServiceError>)
    requires err == Some(Panic) ==> last.None?
    requires err != Some(Panic) ==> UserAnswer(last, req.userId, err)
    ensures ErrorSaysWhy(err, last, req.items, 0)
  {
  }

  /** `last` is the last answer of the call, `own` the last one about a product. */
  lemma PricingErrorSaysWhy(last: Option<Exchange>, own: Option<Exchange>, req: CreateOrderRequest, k: nat,
      err: Option<ServiceError>)
    requires if own.Some? then last == own else UserAnswer(last, req.userId, None)
    requires err.None? ==> k == |req.items| && (own.Some? ==> ProductIn(own.value.outcome).Some?)
    requires err == Some(Panic) ==> own.None?
    requires err.Some? && !err.value.Panic? ==> k < |req.items| && LineAnswer(own, req.items[k], err)
    requires own.Some? ==> own.value.req.GetProduct?
    ensures ErrorSaysWhy(err, last, req.items, k)
  {
  }

  predicate IsCharge(last: Option<Exchange>) {
    last.Some? && last.value.req.PostCharge?
  }

  /** The reply in the last answer, if a charge was tried and that answer decodes. */
  function Heard(last: Option<Exchange>): Option<P.Reply> {
    if IsCharge(last) then ReplyIn(last.value.outcome) else None
  }

  /** payment-service's last answer to a charge says that the payment succeeded. */
  predicate SaysPaid(last: Option<Exchange>) {
    && last.Some? && last.value.req.PostCharge?
    && last.value.outcome.Response? && last.value.outcome.status in {200, 201, 402}
    && last.value.outcome.body.PaymentBody? && last.value.outcome.body.reply.payment.status.Succeeded?
  }

  /** An early return: the call ends with the status of its error. */
  predicate EndedWith(s: State, id: nat, e: ServiceError) {
    In(s, id) && s.calls[id].stage == Done(StatusOf(e))
  }

  class OrderService {
    const repo: OrderRepository
    const users: ResilientClient
    const products: ResilientClient
    const payments: ResilientClient

    constructor (repo: OrderRepository, users: ResilientClient, products: ResilientClient, payments: ResilientClient)
      ensures this.repo == repo && this.users == users && this.products == products && this.payments == payments
    {
      this.repo, this.users, this.products, this.payments := repo, users, products, payments;
    }

    /** One line: fetch, check, and price it. */
    method PriceLine(w: World, id: nat, r: ItemRequest, itemId: nat)
        returns (item: OrderItem, err: Option<ServiceError>, ghost info: ProductInfo)
      requires w.Valid()
      modifies w
      ensures w.Valid() && w.Later(old(w.trace)) && SamePlace(old(w.st), w.st, CallOf(id))
      ensures AskedAsOftenAsAllowed(w.log, old(w.log), GetProduct(r.productId), products.retryAttempts, old(w.weather))
      ensures w.open == old(w.open)
      ensures err == Some(Panic) <==> products.retryAttempts < 0
      ensures products.retryAttempts >= 0 ==> LineAnswer(Final(w.log, old(w.log)), r, err)
      ensures err.None? ==> item.id == itemId && PricedFrom(info, r, item) && WasAnswer(w.log, r, info)
    {
      item := OrderItem(itemId, 0, "", 0, 0);
      info := ProductInfo(r.productId, "", 0, 0, false);
      var got := GetProductInfo(products, w, id, r.productId);
      if got.Panicked? {
        err := Some(Panic);
      } else if got.Error? {
        err := Some(if got.err.NotFound? then ErrProductNotFound else ErrUpstreamUnavailable);
      } else {
        var product := got.value;
        info := product;
        if !product.isActive || product.stockQuantity < r.quantity {
          err := Some(ErrProductUnavailable);
        } else if ParseId(product.id).None? {
          err := Some(ErrUpstreamUnavailable);
        } else {
          item := OrderItem(itemId, ParseId(product.id).value, product.sku, r.quantity, product.priceCents);
          err := None;
        }
      }
    }

    /** The pricing loop. All lines are priced, or the first one that is not decides the
        error, by the last answer about its product. */
    method PriceItems(w: World, id: nat, reqs: seq<ItemRequest>, itemIds: seq<nat>)
        returns (items: seq<OrderItem>, total: int, err: Option<ServiceError>, ghost infos: seq<ProductInfo>)
      requires w.Valid() && |reqs| <= |itemIds|
      modifies w
      ensures w.Valid() && w.Later(old(w.trace)) && SamePlace(old(w.st), w.st, CallOf(id))
      ensures old(w.log) <= w.log && w.open == old(w.open)
      ensures total == LoopTotal(items) && AllPricedFrom(w.log, infos, reqs, items)
      ensures forall k :: 0 <= k < |items| ==> items[k].id == itemIds[k]
      ensures err.None? <==> |items| == |reqs|
      ensures err == Some(Panic) <==> products.retryAttempts < 0 && reqs != []
      ensures err.Some? && !err.value.Panic? ==> LineAnswer(Final(w.log, old(w.log)), reqs[|items|], err)
      ensures err == Some(Panic) ==> w.log == old(w.log)
      ensures Final(w.log, old(w.log)).Some? ==> Final(w.log, old(w.log)).value.req.GetProduct?
      ensures err.None? && Final(w.log, old(w.log)).Some? ==> ProductIn(Final(w.log, old(w.log)).value.outcome).Some?
    {
      items, total, err, infos := [], 0, None, [];
      for i := 0 to |reqs|
        invariant w.Valid() && w.Later(old(w.trace)) && SamePlace(old(w.st), w.st, CallOf(id))
        invariant old(w.log) <= w.log && w.open == old(w.open)
        invariant |items| == i && PricedSoFar(w.log, old(w.log), reqs, itemIds, infos, items, total)
        invariant if i == 0 then w.log == old(w.log) else products.retryAttempts >= 0
      {
        var item, e;
        ghost var info;
        ghost var before := w.log;
        item, e, info := PriceLine(w, id, reqs[i], itemIds[i]);
        if e.Some? {
          LongerLog(before, w.log, old(w.log), reqs, itemIds, infos, items, total, reqs[i]);
          err := e;
          return;
        }
        PricedOneMore(before, w.log, old(w.log), reqs, itemIds, infos, items, total, info, item);
        var lineTotal := Wrap(item.unitPriceCents * item.quantity);
        total := Wrap(total + lineTotal);
        items, infos := items + [item], infos + [info];
      }
    }

    /** End the call with an error from before repo.Create. */
    method Refuse(w: World, id: nat, e: ServiceError)
      requires w.Valid() && In(w.st, id) && w.st.calls[id].stage.Begun?
      requires IsRefusal(StatusOf(e)) || e.Panic?
      modifies w`st, w`trace
      ensures w.Valid() && w.Later(old(w.trace)) && EndedWith(w.st, id, e)
      ensures id !in w.st.tables.orders
    {
      w.Facts();
      assert SI.CallMatchesTables(w.st, id, w.st.calls[id]);
      w.Act(if e.Panic? then Crash(id, true) else OrderSaga.Refuse(id, StatusOf(e)));
    }

    /** The user must be known to user-service. */
    method CheckUser(w: World, id: nat, user: IdText) returns (err: Option<ServiceError>)
      requires w.Valid()
      modifies w
      ensures w.Valid() && w.Later(old(w.trace)) && SamePlace(old(w.st), w.st, CallOf(id))
      ensures AskedAsOftenAsAllowed(w.log, old(w.log), GetUser(user), users.retryAttempts, old(w.weather))
      ensures w.open == old(w.open)
      ensures err == Some(Panic) <==> users.retryAttempts < 0
      ensures users.retryAttempts >= 0 ==> UserAnswer(Final(w.log, old(w.log)), user, err)
    {
      var known := VerifyUserExists(users, w, id, user);
      if known.Ok? {
        return None;
      }
      err := Some(if known.Panicked? then Panic
                  else if known.err.NotFound? then ErrUserNotFound
                  else ErrUpstreamUnavailable);
    }

    /** Verify the user and price the lines, for a user id that parses. */
    method CheckAndPrice(w: World, id: nat, userId: nat, req: CreateOrderRequest, itemIds: seq<nat>)
        returns (priced: Option<Order>, err: Option<ServiceError>, ghost infos: seq<ProductInfo>)
      requires w.Valid() && In(w.st, id) && w.st.calls[id].stage.Begun? && |req.items| <= |itemIds|
      requires ParseId(req.userId) == Some(userId)
      modifies w
      ensures w.Valid() && w.Later(old(w.trace)) && old(w.log) <= w.log && w.open == old(w.open)
      ensures priced.Some? <==> err.None?
      ensures err.Some? ==> EndedWith(w.st, id, err.value) && id !in w.st.tables.orders
      ensures err == Some(Panic) ==> users.retryAttempts < 0 || products.retryAttempts < 0
      ensures err.Some? && !err.value.Panic? ==> RefusedBy(Final(w.log, old(w.log)), req, |infos|, err.value)
      ensures err != Some(ErrValidation) && ErrorSaysWhy(err, Final(w.log, old(w.log)), req.items, |infos|)
      ensures LinesPriced(w.log, infos, req.items)
      ensures !IsCharge(Final(w.log, old(w.log)))
      ensures priced.Some? ==>
                && IsPricedOrder(id, priced.value) && PricedFor(w.log, infos, req, priced.value)
                && In(w.st, id) && w.st.calls[id] == OrderCall(Priced, priced, 0)
    {
      infos := [];
      err := CheckUser(w, id, req.userId);
      if err.Some? {
        UserErrorSaysWhy(Final(w.log, old(w.log)), req, err);
        Refuse(w, id, err.value);
        return None, err, infos;
      }
      ghost var checked := w.log;
      var items, total;
      items, total, err, infos := PriceItems(w, id, req.items, itemIds);
      AnswersStay(w.log, w.log, infos, req.items, items);
      PricingErrorSaysWhy(Final(w.log, old(w.log)), Final(w.log, checked), req, |infos|, err);
      if err.Some? {
        Refuse(w, id, err.value);
        return None, err, infos;
      }
      priced := Some(Order(id, userId, OrderPending, total, "USD", items));
      w.Act(Price(id, priced.value));
    }

    /** The user id must parse, the user exist, and every line be priced; nothing is
        stored yet. */
    method PriceOrder(w: World, id: nat, req: CreateOrderRequest, itemIds: seq<nat>)
        returns (priced: Option<Order>, err: Option<ServiceError>, ghost infos: seq<ProductInfo>)
      requires w.Valid() && IsFreshId(w.st, id) && |req.items| <= |itemIds|
      modifies w
      ensures w.Valid() && w.Later(old(w.trace)) && old(w.log) <= w.log && w.open == old(w.open)
      ensures priced.Some? <==> err.None?
      ensures err.Some? ==> EndedWith(w.st, id, err.value) && id !in w.st.tables.orders
                            && (IsRefusal(StatusOf(err.value)) || err.value.Panic?)
      ensures err == Some(ErrValidation) <==> ParseId(req.userId).None?
      ensures err == Some(Panic) ==> users.retryAttempts < 0 || products.retryAttempts < 0
      ensures err.Some? && !err.value.ErrValidation? && !err.value.Panic? ==>
                RefusedBy(Final(w.log, old(w.log)), req, |infos|, err.value)
      ensures ErrorSaysWhy(err, Final(w.log, old(w.log)), req.items, |infos|)
      ensures LinesPriced(w.log, infos, req.items)
      ensures !IsCharge(Final(w.log, old(w.log)))
      ensures priced.Some? ==>
                && IsPricedOrder(id, priced.value) && PricedFor(w.log, infos, req, priced.value)
                && In(w.st, id) && w.st.calls[id] == OrderCall(Priced, priced, 0)
    {
      w.Act(Begin(id));
      if ParseId(req.userId).None? {
        Refuse(w, id, ErrValidation);
        return None, Some(ErrValidation), [];
      }
      priced, err, infos := CheckAndPrice(w, id, ParseId(req.userId).value, req, itemIds);
    }

    /** The final status: CONFIRMED exactly if a reply was decoded and says SUCCEEDED. */
    method Record(w: World, priced: Order, result: CallResult<P.Reply>, update: P.Commit)
        returns (order: Order, err: Option<ServiceError>)
      requires w == repo.pool && w.Valid() && In(w.st, priced.id) && w.st.calls[priced.id].order == Some(priced)
      requires !result.Panicked?
      requires var reply := if result.Ok? then Some(result.value) else None; Enabled(w.st, Decide(priced.id, reply))
      modifies w`st, w`trace, w`schedule
      ensures w.Valid() && w.Later(old(w.trace))
      ensures In(w.st, priced.id) && w.st.calls[priced.id].order == Some(priced)
      ensures EndedAs(w.st, priced, Some(order), err)
      ensures err.None? <==> result.Ok? && result.value.payment.status.Succeeded?
      ensures Decide(priced.id, if result.Ok? then Some(result.value) else None) in w.trace
      ensures StatusStored(w.st.tables, order, update)
    {
      var id := priced.id;
      var finalStatus := OrderConfirmed;
      if result.Error? {
        finalStatus := OrderFailed;
      } else if !result.value.payment.status.Succeeded? {
        finalStatus := OrderFailed;
      }
      w.Act(Decide(id, if result.Ok? then Some(result.value) else None));
      ghost var decided := w.trace;
      w.Interfere(CallOf(id));
      DecidedIsPending(w, id);
      var saved := repo.UpdateStatus(id, finalStatus, update);
      assert w.trace[|decided| - 1] == decided[|decided| - 1];
      order := priced.(status := finalStatus);
      err := if finalStatus.OrderFailed? then Some(ErrPaymentDeclined) else None;
    }

    /** The charge, and what its result makes of the order: no error exactly if the last
        answer says that the payment succeeded, and what was heard is what is decided. */
    method ChargeAndRecord(w: World, priced: Order, update: P.Commit)
        returns (order: Option<Order>, err: Option<ServiceError>)
      requires w == repo.pool && w.Valid() && payments.retryAttempts == w.retries
      requires In(w.st, priced.id) && w.st.calls[priced.id] == OrderCall(Persisted, Some(priced), 0)
      modifies w
      ensures w.Valid() && w.Later(old(w.trace)) && old(w.log) <= w.log && w.open == old(w.open)
      ensures In(w.st, priced.id) && w.st.calls[priced.id].order == Some(priced)
      ensures EndedAs(w.st, priced, order, err)
      ensures err == Some(Panic) <==> payments.retryAttempts < 0
      ensures err != Some(ErrPersisting)
      ensures order.Some? <==> IsCharge(Final(w.log, old(w.log)))
      ensures err.None? <==> SaysPaid(Final(w.log, old(w.log)))
      ensures AskedAsOftenAsAllowed(w.log, old(w.log), PostCharge(ChargeFor(priced)), payments.retryAttempts,
                                    old(w.weather))
      ensures order.Some? ==> Decide(priced.id, Heard(Final(w.log, old(w.log)))) in w.trace
      ensures order.Some? ==> StatusStored(w.st.tables, order.value, update)
    {
      var id := priced.id;
      w.Interfere(CallOf(id));
      var result := Charge(payments, w, id, priced);
      if result.Panicked? {
        w.Act(Crash(id, true));
        return None, Some(Panic);
      }
      assert SaysPaid(Final(w.log, old(w.log))) <==> result.Ok? && result.value.payment.status.Succeeded?;
      assert Heard(Final(w.log, old(w.log))) == if result.Ok? then Some(result.value) else None;
      var recorded;
      recorded, err := Record(w, priced, result, update);
      order := Some(recorded);
    }

    /** From the priced order to the final status. */
    method PersistAndCharge(w: World, priced: Order, tx: TxWeather, update: P.Commit)
        returns (order: Option<Order>, err: Option<ServiceError>)
      requires w == repo.pool && w.Valid() && payments.retryAttempts == w.retries
      requires In(w.st, priced.id) && w.st.calls[priced.id] == OrderCall(Priced, Some(priced), 0)
      modifies w
      ensures w.Valid() && w.Later(old(w.trace)) && old(w.log) <= w.log && w.open == old(w.open)
      ensures In(w.st, priced.id) && w.st.calls[priced.id].order == Some(priced)
      ensures EndedAs(w.st, priced, order, err)
      ensures err == Some(Panic) ==> payments.retryAttempts < 0
      ensures err == Some(ErrPersisting) ==> NotPersisted(w.st.tables, priced, tx)
      ensures order.None? ==> w.log == old(w.log)
      ensures order.Some? <==> IsCharge(Final(w.log, old(w.log)))
      ensures order.Some? ==>
                AskedAsOftenAsAllowed(w.log, old(w.log), PostCharge(ChargeFor(priced)), payments.retryAttempts,
                                      old(w.weather))
      ensures order.Some? ==> Decide(priced.id, Heard(Final(w.log, old(w.log)))) in w.trace
      ensures err.None? <==> SaysPaid(Final(w.log, old(w.log)))
      ensures order.Some? ==> StatusStored(w.st.tables, order.value, update)
    {
      var ok := repo.Create(priced, tx);
      if !ok {
        return None, Some(ErrPersisting);
      }
      order, err := ChargeAndRecord(w, priced, update);
    }

    /** CreateOrder. `id` and `itemIds` are what uuid.New() returns. Every effect is an
        action of the saga, so all its theorems hold of this code: without an error the
        order was paid, exactly once and exactly its total. Which error there is, and
        whether there is one, is read off the last answer and the transaction. */
    method CreateOrder(w: World, id: nat, req: CreateOrderRequest, itemIds: seq<nat>, tx: TxWeather, update: P.Commit)
        returns (order: Option<Order>, err: Option<ServiceError>, ghost infos: seq<ProductInfo>)
      requires w == repo.pool && w.Valid() && payments.retryAttempts == w.retries
      requires IsFreshId(w.st, id) && |req.items| <= |itemIds|
      modifies w
      ensures w.Valid() && w.Later(old(w.trace)) && old(w.log) <= w.log && w.open == old(w.open)
      ensures order.Some? <==> err.None? || err.value.ErrPaymentDeclined?
      ensures In(w.st, id) && w.st.calls[id].stage == Done(if err.None? then 201 else StatusOf(err.value))
      // which result, and why
      ensures order.Some? <==> IsCharge(Final(w.log, old(w.log)))
      ensures err.None? <==> SaysPaid(Final(w.log, old(w.log)))
      ensures order.Some? ==> Decide(id, Heard(Final(w.log, old(w.log)))) in w.trace
      ensures err == Some(ErrValidation) <==> ParseId(req.userId).None?
      ensures err.Some? && IsRefusal(StatusOf(err.value)) && !err.value.ErrValidation? ==>
                RefusedBy(Final(w.log, old(w.log)), req, |infos|, err.value)
      ensures ErrorSaysWhy(err, Final(w.log, old(w.log)), req.items, |infos|)
      ensures LinesPriced(w.log, infos, req.items)
      ensures err == Some(ErrPersisting) ==>
                && w.st.calls[id].order.Some? && PricedFor(w.log, infos, req, w.st.calls[id].order.value)
                && NotPersisted(w.st.tables, w.st.calls[id].order.value, tx)
      ensures err == Some(Panic) ==>
                users.retryAttempts < 0 || products.retryAttempts < 0 || payments.retryAttempts < 0
      // what is stored
      ensures err.Some? && IsRefusal(StatusOf(err.value)) ==> id !in w.st.tables.orders
      ensures order.Some? ==>
                && order.value.id == id && PricedFor(w.log, infos, req, order.value)
                && order.value.status == (if err.None? then OrderConfirmed else OrderFailed)
                && StoredAs(w.st.tables, order.value) && StatusStored(w.st.tables, order.value, update)
      ensures err.None? ==> SI.Paid(w.st.pay, order.value) && ST.CapturedExactlyOnce(w.st.pay, order.value)
    {
      var priced;
      priced, err, infos := PriceOrder(w, id, req, itemIds);
      if priced.None? {
        return None, err, infos;
      }
      ghost var log := w.log;
      order, err := PersistAndCharge(w, priced.value, tx, update);
      AnswersStay(log, w.log, infos, req.items, priced.value.items);
      if order.Some? {
        CompletedOrder(w, priced.value, order.value);
      }
    }
  }

  /** What kept the transaction from being acknowledged. */
  predicate NotPersisted(t: Tables, o: Order, tx: TxWeather) {
    !TxRuns(tx, |o.items|) || !Storable(o) || Clashes(t, o) || !tx.commit.Committed?
  }

  /** The final status is in the table, unless its write was undone. */
  predicate StatusStored(t: Tables, o: Order, update: P.Commit) {
    o.id in t.orders && t.orders[o.id].status == if update.RolledBack? then OrderPending else o.status
  }

  lemma DecidedIsPending(w: World, id: nat)
    requires w.Valid() && In(w.st, id) && w.st.calls[id].stage.Decided?
    ensures id in w.st.tables.orders && w.st.tables.orders[id].status.OrderPending?
  {
    w.Facts();
    assert SI.CallMatchesTables(w.st, id, w.st.calls[id]);
  }

  /** The stage and the results of a call that got past pricing. */
  predicate EndedAs(s: State, priced: Order, order: Option<Order>, err: Option<ServiceError>) {
    && In(s, priced.id)
    && (err.None? || err.value in {ErrPersisting, ErrPaymentDeclined, Panic})
    && (order.Some? <==> err.None? || err.value.ErrPaymentDeclined?)
    && (order.Some? ==> order.value == priced.(status := if err.None? then OrderConfirmed else OrderFailed))
    && s.calls[priced.id].stage == Done(if err.None? then 201 else StatusOf(err.value))
  }

  /** The stored order is this one, except that the status write may have failed. */
  predicate StoredAs(t: Tables, o: Order) {
    HoldsOrder(t, o) && t.orders[o.id].status in {OrderPending, o.status}
  }

  /** What the invariant says about a call that ended with 201 or 402. */
  lemma CompletedOrder(w: World, priced: Order, order: Order)
    requires w.Valid() && In(w.st, order.id) && w.st.calls[order.id].order == Some(priced)
    requires w.st.calls[order.id].stage == Done(if order.status.OrderFailed? then 402 else 201)
    requires order == priced.(status := order.status) && order.status in {OrderConfirmed, OrderFailed}
    ensures StoredAs(w.st.tables, order)
    ensures order.status.OrderConfirmed? ==> SI.Paid(w.st.pay, order) && ST.CapturedExactlyOnce(w.st.pay, order)
  {
    w.Facts();
    CompletedIsStored(w.st, priced, order);
    if order.status.OrderConfirmed? {
      ConfirmedIsCaptured(w.st, priced, order);
    }
  }

  lemma CompletedIsStored(s: State, priced: Order, order: Order)
    requires SI.CallsMatchTables(s) && SI.RowsFollowOrders(s)
    requires In(s, order.id) && s.calls[order.id].order == Some(priced)
    requires s.calls[order.id].stage == Done(if order.status.OrderFailed? then 402 else 201)
    requires order == priced.(status := order.status) && order.status in {OrderConfirmed, OrderFailed}
    ensures StoredAs(s.tables, order)
  {
    assert SI.CallMatchesTables(s, order.id, s.calls[order.id]);
    assert SI.RowMatchesOrder(s.tables, order.id, priced);
    SI.RowMatchesHolds(s.tables, priced);
  }

  lemma ConfirmedIsCaptured(s: State, priced: Order, order: Order)
    requires PI.Inv(s.pay) && SI.ConfirmedIsPaid(s)
    requires In(s, order.id) && s.calls[order.id] == OrderCall(Done(201), Some(priced), s.calls[order.id].sends)
    requires order == priced.(status := order.status)
    ensures SI.Paid(s.pay, order) && ST.CapturedExactlyOnce(s.pay, order)
  {
    assert SI.SaysConfirmed(s, order.id, s.calls[order.id]);
    var p :| p in s.pay.payments && SI.PaidBy(s.pay.payments[p], priced);
    assert SI.PaidBy(s.pay.payments[p], order);
    ST.PaidIsCaptured(s.pay, order);
  }
}
