/**
  PostgresOrderRepository. The tables are those of the world; a transaction
  collects its rows on the side and publishes them in one commit, and others run
  between any two statements.
 */
module OrderRepositories {
  import opened Wrappers
  import opened Orders
  import opened OrderSaga
  import opened Worlds
  import P = PaymentProtocol
  import SI = SagaInvariant
  import ST = SagaTheorems

  datatype RepositoryError = ErrOrderNotFound | ErrDatabase

  /** Which statements of the transaction fail, and how its commit ends. */
  datatype TxWeather = TxWeather(beginFails: bool, orderFails: bool, itemFails: set<nat>, commit: P.Commit)

  /** The order and all its items are there, or nothing of it is. */
  predicate AllOrNothing(t: Tables, o: Order) {
    if o.id in t.orders then HoldsOrder(t, o) && t.orders[o.id].status == o.status else HoldsNothing(t, o.id)
  }

  function Ids(items: seq<OrderItem>): set<nat> {
    set k | 0 <= k < |items| :: items[k].id
  }

  lemma IdsAppend(items: seq<OrderItem>, it: OrderItem)
    ensures Ids(items + [it]) == Ids(items) + {it.id}
  {
    var all := items + [it];
    assert forall k :: 0 <= k < |items| ==> all[k] == items[k];
    assert all[|items|] == it;
  }

  /** `items` lists the rows, each once, in any order. */
  predicate ListsRows(items: seq<OrderItem>, id: nat, rows: map<nat, ItemRow>) {
    && (forall k :: 0 <= k < |items| ==> items[k].id in rows && rows[items[k].id] == ItemRowOf(id, items[k]))
    && Ids(items) == rows.Keys
    && (forall j, k :: 0 <= j < k < |items| ==> items[j].id != items[k].id)
  }

  lemma ListsOneMore(items: seq<OrderItem>, id: nat, rows: map<nat, ItemRow>, rest: set<nat>, it: OrderItem)
    requires ListsRows(items, id, rows - rest) && it.id in rest && rest <= rows.Keys && rows[it.id] == ItemRowOf(id, it)
    ensures ListsRows(items + [it], id, rows - (rest - {it.id}))
  {
    IdsAppend(items, it);
    assert forall k :: 0 <= k < |items| ==> items[k].id in Ids(items);
  }

  /** `o` is the order as these tables hold it. */
  predicate IsOrderIn(t: Tables, o: Order) {
    HoldsOrder(t, o) && t.orders[o.id].status == o.status
  }

  lemma ListedRowsHold(items: seq<OrderItem>, id: nat, t: Tables)
    requires ListsRows(items, id, ItemRowsOf(t, id))
    ensures HoldsItems(t, id, items)
  {
    forall r | r in t.items && t.items[r].orderId == id ensures exists i :: 0 <= i < |items| && items[i].id == r {
      assert r in ItemRowsOf(t, id) && r in Ids(items);
    }
  }

  /** The first n inserts violate no CHECK and repeat no id. */
  predicate ItemsInsertable(o: Order, n: nat)
    requires n <= |o.items|
  {
    && (forall i :: 0 <= i < n ==> ItemRowAllowed(ItemRowOf(o.id, o.items[i])))
    && (forall i, j :: 0 <= i < j < n ==> o.items[i].id != o.items[j].id)
  }

  /** One turn of the insert loop. */
  lemma NextItem(o: Order, i: nat, rows: map<nat, ItemRow>)
    requires i < |o.items| && ItemsInsertable(o, i) && rows == AddItems(map[], o.id, o.items[..i])
    ensures rows[o.items[i].id := ItemRowOf(o.id, o.items[i])] == AddItems(map[], o.id, o.items[..i + 1])
    ensures ItemsInsertable(o, i + 1) <==> ItemRowAllowed(ItemRowOf(o.id, o.items[i])) && o.items[i].id !in rows
  {
    var before := o.items[..i];
    assert o.items[..i + 1] == before + [o.items[i]];
    AddItemsAppends(map[], o.id, before);
    assert forall k :: 0 <= k < i ==> before[k] == o.items[k];
  }

  /** Every statement of the transaction goes through. */
  predicate TxRuns(tx: TxWeather, lines: nat) {
    !tx.beginFails && !tx.orderFails && forall i :: 0 <= i < lines ==> i !in tx.itemFails
  }

  /** The order violates no CHECK, and its item ids are distinct. */
  predicate Storable(o: Order) {
    && 0 <= o.totalCents <= 2147483647 && |o.currency| <= 3
    && (forall i :: 0 <= i < |o.items| ==>
         && 1 <= o.items[i].quantity <= 2147483647 && 0 <= o.items[i].unitPriceCents <= 2147483647
         && |o.items[i].sku| <= 64)
    && DistinctIds(o.items)
  }

  lemma StorableMeaning(o: Order)
    ensures Storable(o) <==> OrderRowAllowed(RowOf(o)) && ItemsInsertable(o, |o.items|)
  {
    assert Storable(o) ==> forall i :: 0 <= i < |o.items| ==> ItemRowAllowed(ItemRowOf(o.id, o.items[i]));
  }

  /** An item id of this order is taken by a row of another order. */
  predicate Clashes(t: Tables, o: Order) {
    exists i :: 0 <= i < |o.items| && o.items[i].id in t.items && t.items[o.items[i].id].orderId != o.id
  }

  /** The rows of this order are accepted exactly if no id is taken. */
  lemma InsertableMeaning(t: Tables, o: Order)
    requires o.id !in t.orders && ItemRowsOf(t, o.id) == map[]
    ensures Insertable(t, o) <==> Storable(o) && !Clashes(t, o)
    ensures Insertable(t, o) ==> !Clashes(WithOrder(t, o), o)
  {
    StorableMeaning(o);
    AddItemsAppends(t.items, o.id, o.items);
    forall i | 0 <= i < |o.items| && o.items[i].id in t.items ensures t.items[o.items[i].id].orderId != o.id {
      assert o.items[i].id !in ItemRowsOf(t, o.id);
    }
  }

  class OrderRepository {
    const pool: World

    constructor (pool: World)
      ensures this.pool == pool
    {
      this.pool := pool;
    }

    /** The end of a transaction that did not fail: its rows appear all at once. */
    method CommitTx(order: Order, rows: map<nat, ItemRow>, commit: P.Commit) returns (ok: bool)
      requires pool.Valid() && In(pool.st, order.id) && pool.st.calls[order.id] == OrderCall(Priced, Some(order), 0)
      requires rows == ItemRowsFor(order)
      modifies pool`st, pool`trace
      ensures pool.Valid() && pool.Later(old(pool.trace))
      ensures In(pool.st, order.id)
      ensures pool.st.calls[order.id] == OrderCall(if ok then Persisted else Done(500), Some(order), 0)
      ensures AllOrNothing(pool.st.tables, order)
      ensures order.id in pool.st.tables.orders <==> Insertable(old(pool.st.tables), order) && !commit.RolledBack?
      ensures pool.st.tables ==
                if order.id !in pool.st.tables.orders then old(pool.st.tables)
                else Tables(old(pool.st.tables.orders)[order.id := RowOf(order)], old(pool.st.tables.items) + rows)
      ensures ok <==> order.id in pool.st.tables.orders && commit.Committed?
    {
      var id := order.id;
      pool.Facts();
      Absent(pool.st, id);
      AddItemsAppends(pool.st.tables.items, id, order.items);
      pool.Act(Persist(id, commit));
      pool.Facts();
      ok := pool.st.calls[id].stage.Persisted?;
      if id in pool.st.tables.orders {
        assert SI.RowMatchesOrder(pool.st.tables, id, order);
        SI.RowMatchesHolds(pool.st.tables, order);
      }
    }

    /** A transaction that is rolled back. */
    method Rollback(order: Order)
      requires pool.Valid() && In(pool.st, order.id) && pool.st.calls[order.id] == OrderCall(Priced, Some(order), 0)
      modifies pool`st, pool`trace
      ensures pool.Valid() && pool.Later(old(pool.trace))
      ensures In(pool.st, order.id) && pool.st.calls[order.id] == OrderCall(Done(500), Some(order), 0)
      ensures pool.st.tables == old(pool.st.tables) && order.id !in pool.st.tables.orders
      ensures AllOrNothing(pool.st.tables, order)
    {
      pool.Facts();
      Absent(pool.st, order.id);
      pool.Act(Persist(order.id, P.RolledBack));
    }

    /** The insert loop: it ends early exactly if a statement fails, a CHECK is violated,
        or an id is taken, by the order itself or by a row that is there now. */
    method InsertItems(order: Order, tx: TxWeather) returns (ok: bool, rows: map<nat, ItemRow>)
      requires pool.Valid() && In(pool.st, order.id) && pool.st.calls[order.id] == OrderCall(Priced, Some(order), 0)
      requires OrderRowAllowed(RowOf(order)) && !tx.beginFails && !tx.orderFails
      modifies pool`st, pool`trace, pool`schedule
      ensures pool.Valid() && pool.Later(old(pool.trace))
      ensures In(pool.st, order.id) && pool.st.calls[order.id] == OrderCall(Priced, Some(order), 0)
      ensures ok ==> rows == ItemRowsFor(order) && TxRuns(tx, |order.items|) && Storable(order)
      ensures !ok ==> !TxRuns(tx, |order.items|) || !Storable(order) || Clashes(pool.st.tables, order)
    {
      rows := map[];
      StorableMeaning(order);
      for i := 0 to |order.items|
        invariant pool.Valid() && pool.Later(old(pool.trace))
        invariant In(pool.st, order.id) && pool.st.calls[order.id] == OrderCall(Priced, Some(order), 0)
        invariant rows == AddItems(map[], order.id, order.items[..i])
        invariant ItemsInsertable(order, i)
        invariant forall k :: 0 <= k < i ==> k !in tx.itemFails
      {
        pool.Interfere(CallOf(order.id));
        var item := order.items[i];
        var row := ItemRowOf(order.id, item);
        NextItem(order, i, rows);
        if i in tx.itemFails || !ItemRowAllowed(row) || item.id in pool.st.tables.items || item.id in rows {
          TakenId(order, i);
          return false, rows;
        }
        rows := rows[item.id := row];
      }
      ok := true;
      assert order.items[..|order.items|] == order.items;
    }

    /** Create. Whatever fails, and wherever in the insert loop, the tables end up with
        all of the order or with nothing of it. It is stored exactly if every statement
        ran, no CHECK was violated, no id was taken and the commit was not undone; the
        caller is told so exactly if the commit was acknowledged as well. */
    method Create(order: Order, tx: TxWeather) returns (ok: bool)
      requires pool.Valid() && In(pool.st, order.id) && pool.st.calls[order.id] == OrderCall(Priced, Some(order), 0)
      modifies pool`st, pool`trace, pool`schedule
      ensures pool.Valid() && pool.Later(old(pool.trace))
      ensures In(pool.st, order.id)
      ensures pool.st.calls[order.id] == OrderCall(if ok then Persisted else Done(500), Some(order), 0)
      ensures AllOrNothing(pool.st.tables, order)
      ensures order.id in pool.st.tables.orders <==>
                && TxRuns(tx, |order.items|) && Storable(order)
                && !Clashes(pool.st.tables, order) && !tx.commit.RolledBack?
      ensures ok <==> order.id in pool.st.tables.orders && tx.commit.Committed?
    {
      pool.Interfere(CallOf(order.id));
      StorableMeaning(order);
      if tx.beginFails || tx.orderFails || !OrderRowAllowed(RowOf(order)) || order.id in pool.st.tables.orders {
        RowIsNew(order);
        Rollback(order);
        return false;
      }
      var inserted, rows := InsertItems(order, tx);
      if !inserted {
        Rollback(order);
        return false;
      }
      pool.Interfere(CallOf(order.id));
      RowIsNew(order);
      InsertableMeaning(pool.st.tables, order);
      AddItemsAppends(pool.st.tables.items, order.id, order.items);
      ok := CommitTx(order, rows, tx.commit);
    }

    lemma RowIsNew(order: Order)
      requires pool.Valid() && In(pool.st, order.id) && pool.st.calls[order.id].stage.Priced?
      ensures order.id !in pool.st.tables.orders && ItemRowsOf(pool.st.tables, order.id) == map[]
    {
      pool.Facts();
      Absent(pool.st, order.id);
    }

    lemma TakenId(order: Order, i: nat)
      requires pool.Valid() && In(pool.st, order.id) && pool.st.calls[order.id].stage.Priced? && i < |order.items|
      ensures order.items[i].id in pool.st.tables.items ==> Clashes(pool.st.tables, order)
    {
      RowIsNew(order);
      InsertableMeaning(pool.st.tables, order);
      assert order.items[i].id !in ItemRowsOf(pool.st.tables, order.id);
    }

    /** getItems: the rows of one order, in whatever order they come. */
    method GetItems(id: nat) returns (items: seq<OrderItem>)
      ensures ListsRows(items, id, ItemRowsOf(pool.st.tables, id))
      ensures HoldsItems(pool.st.tables, id, items)
    {
      var rows := ItemRowsOf(pool.st.tables, id);
      items := [];
      var rest := rows.Keys;
      while rest != {}
        invariant rest <= rows.Keys && ListsRows(items, id, rows - rest)
        decreases |rest|
      {
        var i :| i in rest;
        var row := rows[i];
        var item := OrderItem(i, row.productId, row.sku, row.quantity, row.unitPriceCents);
        ListsOneMore(items, id, rows, rest, item);
        items := items + [item];
        rest := rest - {i};
      }
      assert rows - {} == rows;
      ListedRowsHold(items, id, pool.st.tables);
    }

    /** GetByID reads the order and its items in two queries, and others run in
        between; yet what it returns is the order as one database state held it. */
    method GetByID(id: nat, headerFails: bool, itemsFail: bool) returns (order: Option<Order>, found: bool)
      requires pool.Valid()
      modifies pool`st, pool`trace, pool`schedule
      ensures pool.Valid() && pool.Later(old(pool.trace))
      ensures order.Some? ==> found && order.value.id == id
      ensures order.Some? ==> exists s :: pool.Saw(|old(pool.trace)|, s) && IsOrderIn(s.tables, order.value)
      ensures !headerFails && !found ==> exists s :: pool.Saw(|old(pool.trace)|, s) && id !in s.tables.orders
      ensures headerFails ==> !found
      ensures found && !itemsFail ==> order.Some?
    {
      pool.Interfere(CallOf(id));
      ghost var seen := pool.trace;
      ghost var was := pool.st;
      if headerFails || id !in pool.st.tables.orders {
        pool.SawIt(seen, |old(pool.trace)|);
        return None, false;
      }
      var row := pool.st.tables.orders[id];
      pool.Interfere(CallOf(id));
      found := true;
      if itemsFail {
        return None, true;
      }
      var items := GetItems(id);
      order := Some(Order(id, row.userId, row.status, row.totalCents, row.currency, items));
      pool.Kept(seen);
      pool.SawIt(seen, |old(pool.trace)|);
      assert ST.OrderKept(was.tables, pool.st.tables, id);
      ListedRowsHold(items, id, was.tables);
    }

    /** GetByID after a successful Create finds the order with its exact items, its
        owner and its total, whatever others do in between. */
    method CreateThenGet(order: Order, tx: TxWeather, headerFails: bool, itemsFail: bool)
        returns (ok: bool, got: Option<Order>)
      requires pool.Valid() && In(pool.st, order.id) && pool.st.calls[order.id] == OrderCall(Priced, Some(order), 0)
      modifies pool`st, pool`trace, pool`schedule
      ensures pool.Valid() && pool.Later(old(pool.trace))
      ensures ok && !headerFails && !itemsFail ==> got.Some?
      ensures ok && got.Some? ==>
                && got.value == order.(status := got.value.status, items := got.value.items)
                && multiset(got.value.items) == multiset(order.items)
    {
      ok := Create(order, tx);
      ghost var created := pool.st;
      ghost var from := pool.trace;
      var found;
      got, found := GetByID(order.id, headerFails, itemsFail);
      if ok && !headerFails && (got.Some? || !found) {
        ghost var s :| pool.Saw(|from|, s) &&
          if got.Some? then IsOrderIn(s.tables, got.value) else order.id !in s.tables.orders;
        ghost var n :| |from| <= n <= |pool.trace| && Legal(pool.retries, pool.polly, pool.trace[..n])
          && Run(pool.retries, pool.polly, pool.trace[..n]) == s;
        assert pool.trace[..n][..|from|] == from;
        ST.HistoryIsKept(pool.retries, pool.polly, pool.trace[..n], |from|);
        assert ST.OrderKept(created.tables, s.tables, order.id);
        if got.Some? {
          SameRowsSameItems(s.tables, created.tables, order.id, got.value.items, order.items);
        }
      }
    }

    /** UpdateStatus: no row is ErrOrderNotFound. The orders that CreateOrder gets this
        far with are always there. */
    method UpdateStatus(id: nat, status: OrderStatus, commit: P.Commit) returns (err: Option<RepositoryError>)
      requires pool.Valid()
      requires id in pool.st.tables.orders ==> In(pool.st, id) && pool.st.calls[id].stage == Decided(status)
      modifies pool`st, pool`trace
      ensures pool.Valid() && pool.Later(old(pool.trace))
      ensures id in old(pool.st.tables.orders) ==>
                && In(pool.st, id) && pool.st.calls[id] == old(pool.st.calls[id]).(stage := Done(ResponseTo(status)))
                && pool.st.tables ==
                     if commit.RolledBack? then old(pool.st.tables) else WithStatus(old(pool.st.tables), id, status)
      ensures id !in old(pool.st.tables.orders) ==> pool.st == old(pool.st)
      ensures err.None? <==> commit.Committed? && id in old(pool.st.tables.orders)
      ensures err == Some(ErrOrderNotFound) <==> commit.Committed? && id !in old(pool.st.tables.orders)
    {
      var rowsAffected := if id in pool.st.tables.orders then 1 else 0;
      if rowsAffected == 1 {
        pool.Act(OrderSaga.UpdateStatus(id, commit));
      }
      if !commit.Committed? {
        return Some(ErrDatabase);
      }
      err := if rowsAffected == 0 then Some(ErrOrderNotFound) else None;
    }
  }

  lemma Absent(s: State, id: nat)
    requires SI.Inv(s) && In(s, id) && s.calls[id].stage.Priced?
    ensures HoldsNothing(s.tables, id) && ItemRowsOf(s.tables, id) == map[]
  {
    assert SI.CallMatchesTables(s, id, s.calls[id]);
    assert forall i :: i in s.tables.items ==> s.tables.items[i].orderId != id;
  }
}
