/**
  order-service's data: orders, the two tables that hold them with the
  constraints of the schema, and the arithmetic of the pricing loop.
 */
module Orders {
  import opened Int64

  datatype OrderStatus = OrderPending | OrderConfirmed | OrderFailed | OrderCancelled

  datatype OrderItem = OrderItem(id: nat, productId: nat, sku: string, quantity: int, unitPriceCents: int)

  datatype Order = Order(
    id: nat,
    userId: nat,
    status: OrderStatus,
    totalCents: int,
    currency: string,
    items: seq<OrderItem>)

  datatype OrderRow = OrderRow(userId: nat, status: OrderStatus, totalCents: int, currency: string)

  datatype ItemRow = ItemRow(orderId: nat, productId: nat, sku: string, quantity: int, unitPriceCents: int)

  /** The committed contents of shopstream_orders. */
  datatype Tables = Tables(orders: map<nat, OrderRow>, items: map<nat, ItemRow>)

  const MAX_INTEGER: int := 0x7fff_ffff

  function RowOf(o: Order): OrderRow {
    OrderRow(o.userId, o.status, o.totalCents, o.currency)
  }

  function ItemRowOf(orderId: nat, it: OrderItem): ItemRow {
    ItemRow(orderId, it.productId, it.sku, it.quantity, it.unitPriceCents)
  }

  /** The column types and CHECK clauses. */
  predicate OrderRowAllowed(r: OrderRow) {
    0 <= r.totalCents <= MAX_INTEGER && |r.currency| <= 3
  }

  predicate ItemRowAllowed(r: ItemRow) {
    1 <= r.quantity <= MAX_INTEGER && 0 <= r.unitPriceCents <= MAX_INTEGER && |r.sku| <= 64
  }

  /** The item rows after the first inserts of one transaction. */
  function AddItems(rows: map<nat, ItemRow>, orderId: nat, items: seq<OrderItem>): map<nat, ItemRow> {
    if items == [] then rows
    else
      var last := items[|items| - 1];
      AddItems(rows, orderId, items[..|items| - 1])[last.id := ItemRowOf(orderId, last)]
  }

  /** No insert of this order violates a key or a CHECK. */
  predicate Insertable(t: Tables, o: Order) {
    && o.id !in t.orders
    && OrderRowAllowed(RowOf(o))
    && (forall i :: 0 <= i < |o.items| ==> o.items[i].id !in t.items && ItemRowAllowed(ItemRowOf(o.id, o.items[i])))
    && (forall i, j :: 0 <= i < j < |o.items| ==> o.items[i].id != o.items[j].id)
  }

  /** The tables once the order and all its items are in. */
  function WithOrder(t: Tables, o: Order): Tables {
    Tables(t.orders[o.id := RowOf(o)], AddItems(t.items, o.id, o.items))
  }

  /** SELECT ... FROM order_items WHERE order_id = id */
  function ItemRowsOf(t: Tables, id: nat): map<nat, ItemRow> {
    map i | i in t.items && t.items[i].orderId == id :: t.items[i]
  }

  function WithStatus(t: Tables, id: nat, status: OrderStatus): Tables
    requires id in t.orders
  {
    t.(orders := t.orders[id := t.orders[id].(status := status)])
  }

  /** The rows of one order, by themselves. */
  function ItemRowsFor(o: Order): map<nat, ItemRow> {
    AddItems(map[], o.id, o.items)
  }

  /** The inserts add one row for each item, all of this order. */
  lemma {:induction false} AddItemsKeys(id: nat, items: seq<OrderItem>)
    ensures forall i :: i in AddItems(map[], id, items) ==> AddItems(map[], id, items)[i].orderId == id
    ensures AddItems(map[], id, items).Keys == set k | 0 <= k < |items| :: items[k].id
    decreases |items|
  {
    if items != [] {
      var before, last := items[..|items| - 1], items[|items| - 1];
      AddItemsKeys(id, before);
      assert items == before + [last];
      assert (set k | 0 <= k < |items| :: items[k].id) == (set k | 0 <= k < |before| :: before[k].id) + {last.id};
    }
  }

  lemma {:induction false} AddItemsAppends(rows: map<nat, ItemRow>, id: nat, items: seq<OrderItem>)
    ensures AddItems(rows, id, items) == rows + AddItems(map[], id, items)
    ensures forall i :: i in AddItems(map[], id, items) ==> AddItems(map[], id, items)[i].orderId == id
    ensures AddItems(map[], id, items).Keys == set k | 0 <= k < |items| :: items[k].id
    decreases |items|
  {
    AddItemsKeys(id, items);
    if items != [] {
      AddItemsAppends(rows, id, items[..|items| - 1]);
    }
  }

  /** No item row without its order: the foreign key. */
  predicate ItemsBelong(t: Tables) {
    forall i :: i in t.items ==> t.items[i].orderId in t.orders
  }

  /** Inserting an order adds exactly its rows and leaves those of others alone. */
  lemma WithOrderRows(t: Tables, o: Order)
    requires Insertable(t, o) && ItemsBelong(t)
    ensures ItemsBelong(WithOrder(t, o))
    ensures ItemRowsOf(WithOrder(t, o), o.id) == ItemRowsFor(o)
    ensures forall id :: id != o.id ==> ItemRowsOf(WithOrder(t, o), id) == ItemRowsOf(t, id)
  {
    AddItemsAppends(t.items, o.id, o.items);
    var rows, u := ItemRowsFor(o), WithOrder(t, o);
    assert u.items == t.items + rows;
    assert forall i :: i in rows ==> i !in t.items;
    assert ItemRowsOf(u, o.id) == rows;
    forall id | id != o.id ensures ItemRowsOf(u, id) == ItemRowsOf(t, id) {
      assert forall i :: i in ItemRowsOf(u, id) <==> i in ItemRowsOf(t, id);
    }
  }

  // ---------------------------------------------------------------------------
  // What the tables say about an order, field by field

  predicate DistinctIds(items: seq<OrderItem>) {
    forall i, j :: 0 <= i < j < |items| ==> items[i].id != items[j].id
  }

  predicate SameItem(r: ItemRow, it: OrderItem) {
    r.productId == it.productId && r.sku == it.sku && r.quantity == it.quantity
    && r.unitPriceCents == it.unitPriceCents
  }

  /** Each item has its row under the order's id, and each row under that id its item. */
  predicate HoldsItems(t: Tables, id: nat, items: seq<OrderItem>) {
    && DistinctIds(items)
    && (forall i :: 0 <= i < |items| ==>
         items[i].id in t.items && t.items[items[i].id].orderId == id && SameItem(t.items[items[i].id], items[i]))
    && (forall r :: r in t.items && t.items[r].orderId == id ==> exists i :: 0 <= i < |items| && items[i].id == r)
  }

  /** The tables hold this order, whatever its status, and exactly its items. */
  predicate HoldsOrder(t: Tables, o: Order) {
    && o.id in t.orders && t.orders[o.id].userId == o.userId
    && t.orders[o.id].totalCents == o.totalCents && t.orders[o.id].currency == o.currency
    && HoldsItems(t, o.id, o.items)
  }

  /** Not a row of this order is there. */
  predicate HoldsNothing(t: Tables, id: nat) {
    id !in t.orders && forall r :: r in t.items ==> t.items[r].orderId != id
  }

  lemma {:induction false} AddedRow(id: nat, items: seq<OrderItem>, k: nat)
    requires DistinctIds(items) && k < |items|
    ensures items[k].id in AddItems(map[], id, items)
    ensures AddItems(map[], id, items)[items[k].id] == ItemRowOf(id, items[k])
    decreases |items|
  {
    if k < |items| - 1 {
      AddedRow(id, items[..|items| - 1], k);
    }
  }

  /** Rows that are those of the inserts hold the items. */
  lemma InsertedRowsHold(t: Tables, o: Order)
    requires DistinctIds(o.items) && ItemRowsOf(t, o.id) == ItemRowsFor(o)
    ensures HoldsItems(t, o.id, o.items)
  {
    AddItemsKeys(o.id, o.items);
    forall i | 0 <= i < |o.items|
      ensures o.items[i].id in t.items && t.items[o.items[i].id].orderId == o.id
      ensures SameItem(t.items[o.items[i].id], o.items[i])
    {
      AddedRow(o.id, o.items, i);
      assert o.items[i].id in ItemRowsOf(t, o.id);
    }
    forall r | r in t.items && t.items[r].orderId == o.id ensures exists i :: 0 <= i < |o.items| && o.items[i].id == r {
      assert r in ItemRowsOf(t, o.id);
    }
  }

  /** Two lists of the same rows are the same items, in whatever order. */
  lemma SameRowsSameItems(t: Tables, u: Tables, id: nat, items: seq<OrderItem>, others: seq<OrderItem>)
    requires HoldsItems(t, id, items) && HoldsItems(u, id, others) && ItemRowsOf(t, id) == ItemRowsOf(u, id)
    ensures multiset(items) == multiset(others)
  {
    forall it ensures it in items <==> it in others {
      OneListInOther(t, u, id, items, others, it);
      OneListInOther(u, t, id, others, items, it);
    }
    forall it ensures multiset(items)[it] == multiset(others)[it] {
      OccursOnce(items, it);
      OccursOnce(others, it);
    }
  }

  lemma OneListInOther(t: Tables, u: Tables, id: nat, items: seq<OrderItem>, others: seq<OrderItem>, it: OrderItem)
    requires HoldsItems(t, id, items) && HoldsItems(u, id, others) && ItemRowsOf(t, id) == ItemRowsOf(u, id)
    ensures it in items ==> it in others
  {
    if it in items {
      assert it.id in ItemRowsOf(t, id) && it.id in ItemRowsOf(u, id);
      assert ItemRowsOf(t, id)[it.id] == ItemRowsOf(u, id)[it.id];
      var i :| 0 <= i < |others| && others[i].id == it.id;
      assert others[i] == it;
    }
  }

  lemma {:induction false} OccursOnce(items: seq<OrderItem>, it: OrderItem)
    requires DistinctIds(items)
    ensures multiset(items)[it] == if it in items then 1 else 0
    decreases |items|
  {
    if items != [] {
      var before, last := items[..|items| - 1], items[|items| - 1];
      assert items == before + [last];
      OccursOnce(before, it);
    }
  }

  // ---------------------------------------------------------------------------
  // Pricing

  /** `total` after the loop, in Go's arithmetic. */
  function LoopTotal(items: seq<OrderItem>): int {
    if items == [] then 0
    else
      var last := items[|items| - 1];
      Wrap(LoopTotal(items[..|items| - 1]) + Wrap(last.unitPriceCents * last.quantity))
  }

  /** What the order is worth. */
  function ExactTotal(items: seq<OrderItem>): int {
    if items == [] then 0
    else
      var last := items[|items| - 1];
      ExactTotal(items[..|items| - 1]) + last.unitPriceCents * last.quantity
  }

  /** The loop computes the exact total up to a multiple of 2^64, for any number
      of lines and any prices and quantities. */
  lemma {:induction false} LoopTotalWraps(items: seq<OrderItem>)
    ensures LoopTotal(items) == Wrap(ExactTotal(items))
    decreases |items|
  {
    if items != [] {
      var before, last := items[..|items| - 1], items[|items| - 1];
      LoopTotalWraps(before);
      var line := last.unitPriceCents * last.quantity;
      WrapCongruent(ExactTotal(before));
      WrapCongruent(line);
      CongruentSum(Wrap(ExactTotal(before)), ExactTotal(before), Wrap(line), line);
      WrapEqual(Wrap(ExactTotal(before)) + Wrap(line), ExactTotal(before) + line);
    }
  }
}
