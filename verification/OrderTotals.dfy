/**
  When the total of an order is the sum of its lines: in the pricing loop, whose
  arithmetic wraps at 64 bits, and in the tables, whose columns have 32.
 */
module OrderTotals {
  import opened Int64
  import opened Orders
  import opened Sums
  import OrderSaga
  import SagaInvariant
  import SagaLimits
  import SagaTheorems

  /** Prices and stock are INTEGER columns in product-service, and a line is
      refused unless quantity <= stock. */
  predicate ColumnRange(it: OrderItem) {
    0 <= it.unitPriceCents <= MAX_INTEGER && 0 <= it.quantity <= MAX_INTEGER
  }

  const MAX_LINE: int := MAX_INTEGER * MAX_INTEGER

  lemma LineBound(it: OrderItem)
    requires ColumnRange(it)
    ensures 0 <= it.unitPriceCents * it.quantity <= MAX_LINE
  {
    Product(it.unitPriceCents, it.quantity, MAX_INTEGER);
  }

  lemma Product(a: nat, b: nat, m: nat)
    requires a <= m && b <= m
    ensures 0 <= a * b <= m * m
  {
    assert a * b <= m * b;
    assert m * b <= m * m;
  }

  lemma {:induction false} ExactTotalBound(items: seq<OrderItem>)
    requires forall i :: 0 <= i < |items| ==> ColumnRange(items[i])
    ensures 0 <= ExactTotal(items) <= |items| * MAX_LINE
    decreases |items|
  {
    if items != [] {
      ExactTotalBound(items[..|items| - 1]);
      LineBound(items[|items| - 1]);
    }
  }

  /** The loop is exact whenever the true sum is below 2^63, whatever the number
      of lines; with 32-bit prices and stock that always holds up to two lines. */
  lemma PricingIsExact(items: seq<OrderItem>)
    requires forall i :: 0 <= i < |items| ==> ColumnRange(items[i])
    ensures LoopTotal(items) == ExactTotal(items) <==> ExactTotal(items) < HALF
    ensures |items| <= 2 ==> LoopTotal(items) == ExactTotal(items)
  {
    LoopTotalWraps(items);
    ExactTotalBound(items);
  }

  /** The sum over the stored rows of one order. */
  ghost function RowsTotal(rows: map<nat, ItemRow>): int {
    SetSum(rows.Keys, LineTotals(rows))
  }

  function LineTotals(rows: map<nat, ItemRow>): map<nat, int> {
    map i | i in rows :: rows[i].unitPriceCents * rows[i].quantity
  }

  lemma {:induction false} RowsTotalIsExact(id: nat, items: seq<OrderItem>)
    requires forall i, j :: 0 <= i < j < |items| ==> items[i].id != items[j].id
    ensures RowsTotal(AddItems(map[], id, items)) == ExactTotal(items)
    ensures |AddItems(map[], id, items)| == |items|
    decreases |items|
  {
    if items != [] {
      var before, last := items[..|items| - 1], items[|items| - 1];
      var rows, rows' := AddItems(map[], id, before), AddItems(map[], id, items);
      RowsTotalIsExact(id, before);
      AddItemsAppends(map[], id, before);
      assert last.id !in rows;
      SetSumSplit(rows'.Keys, LineTotals(rows'), last.id);
      assert rows'.Keys - {last.id} == rows.Keys;
      SetSumSame(rows.Keys, LineTotals(rows), LineTotals(rows'));
    }
  }

  lemma RowTotal(t: Tables, o: Order)
    requires SagaInvariant.RowMatchesOrder(t, o.id, o) && OrderSaga.IsPricedOrder(o.id, o)
    ensures var sum := RowsTotal(ItemRowsOf(t, o.id));
      && t.orders[o.id].totalCents == Wrap(sum)
      && (t.orders[o.id].totalCents == sum <==> sum <= MAX_INTEGER)
      && (|ItemRowsOf(t, o.id)| <= 4 ==> t.orders[o.id].totalCents == sum)
  {
    RowsTotalIsExact(o.id, o.items);
    LoopTotalWraps(o.items);
    forall i | 0 <= i < |o.items| ensures ColumnRange(o.items[i]) {
      assert ItemRowAllowed(ItemRowOf(o.id, o.items[i]));
    }
    ExactTotalBound(o.items);
    assert |o.items| <= 4 ==> |o.items| * MAX_LINE <= 4 * MAX_LINE;
    StoredSum(ExactTotal(o.items), |o.items|);
  }

  /** What is stored is not negative, and four lines stay below 2^64, where a
      wrapped sum would be negative. */
  lemma StoredSum(sum: nat, lines: nat)
    requires 0 <= Wrap(sum) <= MAX_INTEGER
    requires lines <= 4 ==> sum <= 4 * MAX_LINE
    ensures Wrap(sum) == sum <==> sum <= MAX_INTEGER
    ensures lines <= 4 ==> Wrap(sum) == sum
  {
    assert HALF <= sum < MODULUS ==> Wrap(sum) == sum - MODULUS;
  }

  /** In every run, the stored total is the sum over the stored rows modulo 2^64.
      It is that sum exactly when the sum fits the INTEGER column, and it is so
      for every order of up to four lines. CANCELLED is never stored. */
  lemma StoredTotal(retries: int, polly: nat, acts: seq<OrderSaga.Action>, id: nat)
    requires OrderSaga.Legal(retries, polly, acts) && id in OrderSaga.Run(retries, polly, acts).tables.orders
    ensures var t := OrderSaga.Run(retries, polly, acts).tables;
      var sum := RowsTotal(ItemRowsOf(t, id));
      && t.orders[id].totalCents == Wrap(sum)
      && (t.orders[id].totalCents == sum <==> sum <= 2147483647)
      && (|ItemRowsOf(t, id)| <= 4 ==> t.orders[id].totalCents == sum)
      && !t.orders[id].status.OrderCancelled?
  {
    SagaTheorems.RunInv(retries, polly, acts);
    var s := OrderSaga.Run(retries, polly, acts);
    assert SagaInvariant.RowMatchesOrder(s.tables, id, s.calls[id].order.value);
    assert SagaInvariant.CallWellFormed(s.retries, id, s.calls[id]);
    assert SagaInvariant.CallMatchesTables(s, id, s.calls[id]);
    RowTotal(s.tables, s.calls[id].order.value);
  }

  /** Five lines can be enough to wrap past 2^64 to a small total: this order is worth
      2^64 + 4 cents, is priced at 4, and satisfies every constraint. */
  lemma FiveLines() returns (o: Order)
    ensures |o.items| == 5 && OrderSaga.IsPricedOrder(o.id, o) && Insertable(Tables(map[], map[]), o)
    ensures ExactTotal(o.items) == MODULUS + 4 && o.totalCents == 4
  {
    var big := MAX_INTEGER;
    var items := [
      OrderItem(1, 1, "A", big, big), OrderItem(2, 2, "B", big, big), OrderItem(3, 3, "C", big, big),
      OrderItem(4, 4, "D", big, big), OrderItem(5, 5, "E", 0x4000_0000, 16)];
    assert items[..4] == items[..5][..4] && items[..3] == items[..4][..3];
    assert items[..2] == items[..3][..2] && items[..1] == items[..2][..1];
    assert ExactTotal(items[..0]) == 0;
    assert ExactTotal(items[..1]) == MAX_LINE;
    assert ExactTotal(items[..2]) == 2 * MAX_LINE;
    assert ExactTotal(items[..3]) == 3 * MAX_LINE;
    assert ExactTotal(items[..4]) == 4 * MAX_LINE;
    assert items[..5] == items;
    LoopTotalWraps(items);
    o := Order(1, 1, OrderPending, 4, "USD", items);
  }

  /** ... and whatever the settings, a run stores it: a total of 4 cents over five rows
      that add up to 2^64 + 4. */
  lemma FiveLinesCanWrap(retries: int, polly: nat) returns (id: nat, acts: seq<OrderSaga.Action>)
    ensures OrderSaga.Legal(retries, polly, acts)
    ensures var t := OrderSaga.Run(retries, polly, acts).tables;
      && id in t.orders && t.orders[id].totalCents == 4
      && |ItemRowsOf(t, id)| == 5 && RowsTotal(ItemRowsOf(t, id)) == MODULUS + 4
  {
    var o := FiveLines();
    id := o.id;
    acts := SagaLimits.Stored(retries, polly, o);
    WithOrderRows(Tables(map[], map[]), o);
    RowsTotalIsExact(id, o.items);
  }
}
