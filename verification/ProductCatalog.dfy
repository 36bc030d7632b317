/**
  product-service's list_products: filter, ORDER BY created_at DESC, OFFSET and
  LIMIT. SQL leaves the order of equal created_at open, and each request is a
  query of its own, so every page may be cut from a different ordering.
 */
module ProductCatalog {
  import opened Sums
  import opened Wrappers

  datatype Product = Product(id: nat, category: string, isActive: bool, createdAt: int)

  /** The rows that the WHERE clauses keep; an empty category filters nothing. */
  function Matching(store: set<Product>, category: Option<string>, activeOnly: bool): set<Product> {
    set p | p in store
      && (category.Some? && category.value != "" ==> p.category == category.value)
      && (activeOnly ==> p.isActive)
  }

  /** A result the database may give for the ordered query: the rows, each once,
      newest first. */
  predicate IsOrdering(q: seq<Product>, rows: set<Product>) {
    && |q| == |rows|
    && (forall i :: 0 <= i < |q| ==> q[i] in rows)
    && (forall i, j :: 0 <= i < j < |q| ==> q[i] != q[j])
    && (forall i, j :: 0 <= i < j < |q| ==> q[i].createdAt >= q[j].createdAt)
  }

  function Min(a: nat, b: nat): nat { if a < b then a else b }

  /** Where page k + 1 begins. */
  function Cut(k: nat, size: nat, total: nat): (c: nat)
    ensures c <= total
  {
    Min(k * size, total)
  }

  lemma CutsGrow(j: nat, k: nat, size: nat, total: nat)
    requires j <= k
    ensures Cut(j, size, total) <= Cut(k, size, total)
  {
    assert j * size <= k * size;
  }

  /** OFFSET (page - 1) * size LIMIT size */
  function PageOf(q: seq<Product>, page: nat, size: nat): seq<Product>
    requires page >= 1
  {
    CutsGrow(page - 1, page, size, |q|);
    q[Cut(page - 1, size, |q|)..Cut(page, size, |q|)]
  }

  /** The product is in the store and passes the filters; an empty category is none. */
  predicate Wanted(store: set<Product>, category: Option<string>, activeOnly: bool, p: Product) {
    && p in store && (activeOnly ==> p.isActive)
    && (category.None? || category.value == "" || p.category == category.value)
  }

  /** OFFSET `from` LIMIT `size` of an ordered result. */
  function Fetch(q: seq<Product>, from: nat, size: nat): (items: seq<Product>)
    ensures |items| == if |q| <= from then 0 else if |q| - from < size then |q| - from else size
    ensures forall i :: 0 <= i < |items| ==> items[i] == q[from + i]
  {
    if |q| <= from then [] else if |q| - from < size then q[from..] else q[from..from + size]
  }

  /** list_products, with the ordering that the database picked for this request. */
  function ListProducts(store: set<Product>, category: Option<string>, activeOnly: bool, page: nat, size: nat,
      q: seq<Product>): (r: (seq<Product>, nat))
    requires page >= 1 && size >= 1 && IsOrdering(q, Matching(store, category, activeOnly))
    ensures |r.0| <= size
    ensures r.1 == |set p | p in store && Wanted(store, category, activeOnly, p)| == |q|
    ensures (page - 1) * size >= r.1 ==> r.0 == []
  {
    MatchingIsWanted(store, category, activeOnly);
    (Fetch(q, (page - 1) * size, size), |Matching(store, category, activeOnly)|)
  }

  lemma MatchingIsWanted(store: set<Product>, category: Option<string>, activeOnly: bool)
    ensures Matching(store, category, activeOnly) == set p | p in store && Wanted(store, category, activeOnly, p)
  {
  }

  /** Item i of a page is row (page - 1) * size + i, for as many as the page holds or are
      left. Every item is in the store, active if asked for, and of the category if one is
      given; newer ones come first, and none twice. */
  lemma ListedItems(store: set<Product>, category: Option<string>, activeOnly: bool, page: nat, size: nat,
      q: seq<Product>)
    requires page >= 1 && size >= 1 && IsOrdering(q, Matching(store, category, activeOnly))
    ensures var items, from := ListProducts(store, category, activeOnly, page, size, q).0, (page - 1) * size;
      && |items| == (if |q| <= from then 0 else if |q| - from < size then |q| - from else size)
      && (forall i :: 0 <= i < |items| ==> 0 <= from + i < |q| && items[i] == q[from + i])
      && (forall x :: x in items ==>
           && x in store && (activeOnly ==> x.isActive)
           && (category.Some? && category.value != "" ==> x.category == category.value))
      && (forall i, j :: 0 <= i < j < |items| ==> items[i].createdAt >= items[j].createdAt && items[i] != items[j])
  {
    FetchedItems(store, category, activeOnly, q, (page - 1) * size, size);
  }

  lemma FetchedItems(store: set<Product>, category: Option<string>, activeOnly: bool, q: seq<Product>, from: nat,
      size: nat)
    requires IsOrdering(q, Matching(store, category, activeOnly))
    ensures var items := Fetch(q, from, size);
      && |items| == (if |q| <= from then 0 else if |q| - from < size then |q| - from else size)
      && (forall i :: 0 <= i < |items| ==> 0 <= from + i < |q| && items[i] == q[from + i])
      && (forall x :: x in items ==>
           && x in store && (activeOnly ==> x.isActive)
           && (category.Some? && category.value != "" ==> x.category == category.value))
      && (forall i, j :: 0 <= i < j < |items| ==> items[i].createdAt >= items[j].createdAt && items[i] != items[j])
  {
    var items := Fetch(q, from, size);
    forall x | x in items ensures x in Matching(store, category, activeOnly) {
      var i :| 0 <= i < |items| && items[i] == x;
      assert x == q[from + i];
    }
    forall i, j | 0 <= i < j < |items|
      ensures items[i].createdAt >= items[j].createdAt && items[i] != items[j]
    {
      assert items[i] == q[from + i] && items[j] == q[from + j];
    }
  }

  /** ... and that is the stretch between two cuts. */
  lemma FetchIsPage(q: seq<Product>, page: nat, size: nat)
    requires page >= 1
    ensures (page - 1) * size >= 0 && Fetch(q, (page - 1) * size, size) == PageOf(q, page, size)
  {
    var from := (page - 1) * size;
    assert page * size == from + size;
    assert Cut(page - 1, size, |q|) == Min(from, |q|) && Cut(page, size, |q|) == Min(from + size, |q|);
  }

  // ---------------------------------------------------------------------------

  /** The rows on the two sides of the cut differ in created_at. */
  predicate CleanAt(q: seq<Product>, cut: nat) {
    0 < cut < |q| ==> q[cut - 1].createdAt > q[cut].createdAt
  }

  /** No group of equal created_at is cut by the end of a page. */
  predicate CleanCuts(q: seq<Product>, size: nat) {
    forall k: nat | k < |q| :: CleanAt(q, Cut(k, size, |q|))
  }

  function Elements(q: seq<Product>): set<Product> {
    set p | p in q
  }

  lemma {:induction false} ElementsSize(q: seq<Product>)
    requires forall i, j :: 0 <= i < j < |q| ==> q[i] != q[j]
    ensures |Elements(q)| == |q|
    decreases |q|
  {
    if q != [] {
      var before, last := q[..|q| - 1], q[|q| - 1];
      ElementsSize(before);
      assert Elements(q) == Elements(before) + {last};
      assert last !in before;
    }
  }

  lemma SubsetOfSameSize(A: set<Product>, B: set<Product>)
    requires A <= B && |A| == |B|
    ensures A == B
  {
    if x :| x in B && x !in A {
      assert A <= B - {x};
      SubsetSize(A, B - {x});
    }
  }

  /** Were an old row at place i of p, every newer row would stand before it. */
  lemma NewerStandsBefore(rows: set<Product>, q: seq<Product>, p: seq<Product>, cut: nat, i: nat, x: Product)
    requires IsOrdering(q, rows) && IsOrdering(p, rows) && i < cut < |q| && CleanAt(q, cut)
    requires p[i].createdAt <= q[cut].createdAt && x in Elements(q[..cut]) && x in p
    ensures x in Elements(p[..i])
  {
    var a :| 0 <= a < cut && q[a] == x;
    assert x.createdAt >= q[cut - 1].createdAt;
    var b :| 0 <= b < |p| && p[b] == x;
    assert p[..i][b] == x;
  }

  /** Everything that an ordering puts before a clean cut of another one is newer
      than the row after it: were an old row there, one of the `cut` newer ones
      would be behind it. */
  lemma RowsBeforeCutAreNewer(rows: set<Product>, q: seq<Product>, p: seq<Product>, cut: nat, i: nat)
    requires IsOrdering(q, rows) && IsOrdering(p, rows) && i < cut < |q| && CleanAt(q, cut)
    ensures p[i].createdAt > q[cut].createdAt
  {
    OrderingHoldsAll(rows, p);
    if p[i].createdAt <= q[cut].createdAt {
      forall x | x in Elements(q[..cut]) ensures x in Elements(p[..i]) {
        NewerStandsBefore(rows, q, p, cut, i, x);
      }
      ElementsSize(q[..cut]);
      ElementsSize(p[..i]);
      SubsetSize(Elements(q[..cut]), Elements(p[..i]));
    }
  }

  /** Before a clean cut, all orderings hold the same rows. */
  lemma SameRowsBeforeCut(rows: set<Product>, q: seq<Product>, p: seq<Product>, cut: nat)
    requires IsOrdering(q, rows) && IsOrdering(p, rows) && cut <= |q| && CleanAt(q, cut)
    ensures Elements(q[..cut]) == Elements(p[..cut])
  {
    ElementsSize(q);
    SubsetOfSameSize(Elements(q), rows);
    ElementsSize(q[..cut]);
    ElementsSize(p[..cut]);
    if cut < |q| {
      forall i | 0 <= i < cut ensures p[i] in Elements(q[..cut]) {
        RowsBeforeCutAreNewer(rows, q, p, cut, i);
        assert p[i] in Elements(q);
        var a :| 0 <= a < |q| && q[a] == p[i];
        assert a < cut;
        assert q[..cut][a] == p[i];
      }
      assert Elements(p[..cut]) <= Elements(q[..cut]);
      SubsetOfSameSize(Elements(p[..cut]), Elements(q[..cut]));
    } else {
      ElementsSize(p);
      SubsetOfSameSize(Elements(p), rows);
      assert q[..cut] == q && p[..cut] == p;
    }
  }

  /** Row x is on page k + 1, cut from the ordering of that request. */
  predicate OnPage(qs: seq<seq<Product>>, k: nat, size: nat, x: Product)
    requires k < |qs|
  {
    x in PageOf(qs[k], k + 1, size)
  }

  /** Every row is on a page, and no row is on two. */
  ghost predicate PagesPartition(rows: set<Product>, size: nat, qs: seq<seq<Product>>) {
    && (forall x :: x in rows ==> exists k: nat :: k < |qs| && OnPage(qs, k, size, x))
    && (forall j: nat, k: nat, x | j < k < |qs| && OnPage(qs, j, size, x) :: !OnPage(qs, k, size, x))
  }

  lemma InPage(q: seq<Product>, page: nat, size: nat, x: Product)
    requires page >= 1 && forall i, j :: 0 <= i < j < |q| ==> q[i] != q[j]
    ensures x in PageOf(q, page, size) <==>
              x in Elements(q[..Cut(page, size, |q|)]) && x !in Elements(q[..Cut(page - 1, size, |q|)])
  {
    CutsGrow(page - 1, page, size, |q|);
    var a, b := Cut(page - 1, size, |q|), Cut(page, size, |q|);
    assert PageOf(q, page, size) == q[a..b];
    if x in q[..b] && x !in q[..a] {
      var i :| 0 <= i < b && q[i] == x;
      assert forall m :: 0 <= m < a ==> q[..a][m] == q[m];
      assert q[a..b][i - a] == x;
    }
    if x in q[a..b] {
      var i :| 0 <= i < b - a && q[a..b][i] == x;
      assert q[a + i] == x && q[..b][a + i] == x;
    }
  }

  lemma CutIsClean(q: seq<Product>, size: nat, k: nat)
    requires CleanCuts(q, size) && size >= 1
    ensures CleanAt(q, Cut(k, size, |q|))
  {
    if k >= |q| {
      assert k * size >= k;
    }
  }

  /** The page that holds row x of a clean ordering. */
  lemma {:induction false} FindPage(q: seq<Product>, size: nat, x: Product, n: nat) returns (k: nat)
    requires x in Elements(q[..Cut(n, size, |q|)])
    ensures k < n && x in Elements(q[..Cut(k + 1, size, |q|)]) && x !in Elements(q[..Cut(k, size, |q|)])
    decreases n
  {
    assert n > 0;
    if x in Elements(q[..Cut(n - 1, size, |q|)]) {
      k := FindPage(q, size, x, n - 1);
    } else {
      k := n - 1;
    }
  }

  lemma CleanPagesCover(rows: set<Product>, size: nat, q: seq<Product>, qs: seq<seq<Product>>, x: Product)
      returns (k: nat)
    requires size >= 1 && |qs| * size >= |rows| && x in rows
    requires IsOrdering(q, rows) && CleanCuts(q, size)
    requires forall k :: 0 <= k < |qs| ==> IsOrdering(qs[k], rows)
    ensures k < |qs| && OnPage(qs, k, size, x)
  {
    ElementsSize(q);
    SubsetOfSameSize(Elements(q), rows);
    assert q[..Cut(|qs|, size, |q|)] == q;
    k := FindPage(q, size, x, |qs|);
    PageRows(rows, size, q, qs[k], k, x);
  }

  lemma CleanPagesDisjoint(rows: set<Product>, size: nat, q: seq<Product>, qs: seq<seq<Product>>, j: nat, k: nat,
      x: Product)
    requires size >= 1 && IsOrdering(q, rows) && CleanCuts(q, size)
    requires forall k :: 0 <= k < |qs| ==> IsOrdering(qs[k], rows)
    requires j < k < |qs| && OnPage(qs, j, size, x)
    ensures !OnPage(qs, k, size, x)
  {
    PageRows(rows, size, q, qs[j], j, x);
    PageRows(rows, size, q, qs[k], k, x);
    CutsGrow(j + 1, k, size, |q|);
    PrefixGrows(q, Cut(j + 1, size, |q|), Cut(k, size, |q|), x);
  }

  /** Clean cuts make the pages a partition, from whatever orderings they come. */
  lemma PartitionWhenClean(rows: set<Product>, size: nat, q: seq<Product>, qs: seq<seq<Product>>)
    requires size >= 1 && |qs| * size >= |rows|
    requires IsOrdering(q, rows) && CleanCuts(q, size)
    requires forall k :: 0 <= k < |qs| ==> IsOrdering(qs[k], rows)
    ensures PagesPartition(rows, size, qs)
  {
    forall x | x in rows ensures exists k: nat :: k < |qs| && OnPage(qs, k, size, x) {
      var k := CleanPagesCover(rows, size, q, qs, x);
    }
    forall j: nat, k: nat, x | j < k < |qs| && OnPage(qs, j, size, x) ensures !OnPage(qs, k, size, x) {
      CleanPagesDisjoint(rows, size, q, qs, j, k, x);
    }
  }

  lemma PrefixGrows(q: seq<Product>, a: nat, b: nat, x: Product)
    requires a <= b <= |q| && x in Elements(q[..a])
    ensures x in Elements(q[..b])
  {
    var i :| 0 <= i < a && q[..a][i] == x;
    assert q[..b][i] == x;
  }

  lemma PageRows(rows: set<Product>, size: nat, q: seq<Product>, p: seq<Product>, k: nat, x: Product)
    requires size >= 1 && IsOrdering(q, rows) && CleanCuts(q, size) && IsOrdering(p, rows)
    ensures x in PageOf(p, k + 1, size) <==>
              x in Elements(q[..Cut(k + 1, size, |q|)]) && x !in Elements(q[..Cut(k, size, |q|)])
  {
    InPage(p, k + 1, size, x);
    CutIsClean(q, size, k);
    CutIsClean(q, size, k + 1);
    SameRowsBeforeCut(rows, q, p, Cut(k, size, |q|));
    SameRowsBeforeCut(rows, q, p, Cut(k + 1, size, |q|));
  }

  /** Two neighbours with the same created_at may come in either order. */
  lemma NeighboursMaySwap(rows: set<Product>, q: seq<Product>, cut: nat)
    requires IsOrdering(q, rows) && 0 < cut < |q| && q[cut - 1].createdAt == q[cut].createdAt
    ensures IsOrdering(Swapped(q, cut), rows)
  {
  }

  function Swapped(q: seq<Product>, cut: nat): seq<Product>
    requires 0 < cut < |q|
  {
    q[cut - 1 := q[cut]][cut := q[cut - 1]]
  }

  lemma PageEnds(q: seq<Product>, size: nat, k: nat)
    requires size >= 1 && 0 < k && 0 < Cut(k, size, |q|) < |q|
    ensures q[Cut(k, size, |q|) - 1] in PageOf(q, k, size)
    ensures q[Cut(k, size, |q|)] in PageOf(q, k + 1, size)
  {
    var a, b, c := Cut(k - 1, size, |q|), Cut(k, size, |q|), Cut(k + 1, size, |q|);
    assert (k - 1) * size + size == k * size && (k + 1) * size == k * size + size;
    assert q[a..b][b - 1 - a] == q[b - 1];
    assert q[b..c][0] == q[b];
  }

  lemma SwappedEnds(q: seq<Product>, size: nat, k: nat)
    requires size >= 1 && 0 < k && 0 < Cut(k, size, |q|) < |q|
    ensures q[Cut(k, size, |q|) - 1] in PageOf(q, k, size)
    ensures q[Cut(k, size, |q|) - 1] in PageOf(Swapped(q, Cut(k, size, |q|)), k + 1, size)
  {
    PageEnds(q, size, k);
    PageEnds(Swapped(q, Cut(k, size, |q|)), size, k);
  }

  /** Page k + 1 is cut from the second ordering, every other page from the first. */
  function OnceSwapped(q: seq<Product>, swapped: seq<Product>, k: nat, n: nat): (qs: seq<seq<Product>>)
    requires k < n
    ensures |qs| == n && qs[k] == swapped && forall i :: 0 <= i < n && i != k ==> qs[i] == q
  {
    seq(n, i => if i == k then swapped else q)
  }

  /** A tie across the end of page k: cut one page from q and the next from q with
      the two rows exchanged, and the same row is on both. */
  lemma TieOnTwoPages(rows: set<Product>, size: nat, q: seq<Product>, k: nat, n: nat)
      returns (qs: seq<seq<Product>>, x: Product)
    requires size >= 1 && IsOrdering(q, rows) && 0 < k < n && !CleanAt(q, Cut(k, size, |q|))
    ensures |qs| == n && (forall i :: 0 <= i < n ==> IsOrdering(qs[i], rows)) && !PagesPartition(rows, size, qs)
    ensures OnPage(qs, k - 1, size, x) && OnPage(qs, k, size, x)
  {
    var cut := Cut(k, size, |q|);
    NeighboursMaySwap(rows, q, cut);
    SwappedEnds(q, size, k);
    qs := OnceSwapped(q, Swapped(q, cut), k, n);
    x := q[cut - 1];
    OnTwoPages(rows, size, qs, k - 1, k, x);
  }

  lemma OnTwoPages(rows: set<Product>, size: nat, qs: seq<seq<Product>>, j: nat, k: nat, x: Product)
    requires j < k < |qs| && OnPage(qs, j, size, x) && OnPage(qs, k, size, x)
    ensures !PagesPartition(rows, size, qs)
  {
  }

  /** Enough pages always partition the rows, whatever orderings they are cut from, if and
      only if all cuts are clean. */
  lemma PartitionExactlyWhenClean(rows: set<Product>, size: nat, n: nat, q: seq<Product>)
    requires size >= 1 && n * size >= |rows| && IsOrdering(q, rows)
    ensures CleanCuts(q, size) <==>
              forall qs: seq<seq<Product>> | |qs| == n && (forall k :: 0 <= k < n ==> IsOrdering(qs[k], rows)) ::
                PagesPartition(rows, size, qs)
  {
    if CleanCuts(q, size) {
      forall qs: seq<seq<Product>> | |qs| == n && (forall k :: 0 <= k < n ==> IsOrdering(qs[k], rows))
        ensures PagesPartition(rows, size, qs)
      {
        PartitionWhenClean(rows, size, q, qs);
      }
    } else {
      var k: nat :| k < |q| && !CleanAt(q, Cut(k, size, |q|));
      assert k < n by {
        if n <= k { CutsGrow(n, k, size, |q|); }
      }
      var qs, x := TieOnTwoPages(rows, size, q, k, n);
    }
  }

  // ---------------------------------------------------------------------------
  // The pages of separate requests

  /** One request for each page, each with an ordering that the database picked. */
  predicate Requests(store: set<Product>, category: Option<string>, activeOnly: bool, qs: seq<seq<Product>>) {
    forall k :: 0 <= k < |qs| ==> IsOrdering(qs[k], Matching(store, category, activeOnly))
  }

  /** Product x is in the answer to the request for page k + 1. */
  predicate Listed(store: set<Product>, category: Option<string>, activeOnly: bool, size: nat, qs: seq<seq<Product>>,
    k: nat, x: Product)
    requires size >= 1 && k < |qs| && Requests(store, category, activeOnly, qs)
  {
    x in ListProducts(store, category, activeOnly, k + 1, size, qs[k]).0
  }

  /** Every wanted product is listed, and none on two pages. */
  ghost predicate ListedOnce(store: set<Product>, category: Option<string>, activeOnly: bool, size: nat,
    qs: seq<seq<Product>>)
    requires size >= 1 && Requests(store, category, activeOnly, qs)
  {
    && (forall x :: Wanted(store, category, activeOnly, x) ==>
         exists k: nat :: k < |qs| && Listed(store, category, activeOnly, size, qs, k, x))
    && (forall j: nat, k: nat, x | j < k < |qs| && Listed(store, category, activeOnly, size, qs, j, x) ::
         !Listed(store, category, activeOnly, size, qs, k, x))
  }

  lemma ListedIsOnPage(store: set<Product>, category: Option<string>, activeOnly: bool, size: nat,
      qs: seq<seq<Product>>)
    requires size >= 1 && Requests(store, category, activeOnly, qs)
    ensures ListedOnce(store, category, activeOnly, size, qs) <==>
              PagesPartition(Matching(store, category, activeOnly), size, qs)
  {
    var rows := Matching(store, category, activeOnly);
    assert forall x :: Wanted(store, category, activeOnly, x) <==> x in rows;
    forall k: nat, x | k < |qs|
      ensures Listed(store, category, activeOnly, size, qs, k, x) <==> OnPage(qs, k, size, x)
    {
      FetchIsPage(qs[k], k + 1, size);
    }
  }

  /** Two neighbours across the end of a page have the same created_at. */
  predicate TieAt(q: seq<Product>, size: nat, k: nat) {
    0 < k * size < |q| && q[k * size - 1].createdAt == q[k * size].createdAt
  }

  lemma TieIsUnclean(rows: set<Product>, q: seq<Product>, size: nat, k: nat)
    requires size >= 1 && IsOrdering(q, rows)
    ensures TieAt(q, size, k) <==> !CleanAt(q, Cut(k, size, |q|))
    ensures TieAt(q, size, k) ==> 0 < k < |q|
  {
    assert k > 0 ==> k * size >= k;
  }

  /** Enough pages always list every wanted product exactly once, whatever orderings the
      database picks for them, if and only if there is no tie across the end of a page. */
  lemma PagesPartitionExactlyWhenClean(store: set<Product>, category: Option<string>, activeOnly: bool, size: nat,
      n: nat, q: seq<Product>)
    requires size >= 1 && n * size >= |Matching(store, category, activeOnly)|
    requires IsOrdering(q, Matching(store, category, activeOnly))
    ensures (forall k: nat :: !TieAt(q, size, k)) <==>
              forall qs: seq<seq<Product>> | |qs| == n && Requests(store, category, activeOnly, qs) ::
                ListedOnce(store, category, activeOnly, size, qs)
  {
    var rows := Matching(store, category, activeOnly);
    PartitionExactlyWhenClean(rows, size, n, q);
    forall k: nat ensures TieAt(q, size, k) <==> !CleanAt(q, Cut(k, size, |q|)) {
      TieIsUnclean(rows, q, size, k);
    }
    forall k: nat ensures TieAt(q, size, k) ==> k < |q| {
      TieIsUnclean(rows, q, size, k);
    }
    forall qs: seq<seq<Product>> | |qs| == n && Requests(store, category, activeOnly, qs)
      ensures ListedOnce(store, category, activeOnly, size, qs) <==> PagesPartition(rows, size, qs)
    {
      ListedIsOnPage(store, category, activeOnly, size, qs);
    }
  }

  /** A tie across the end of page k: the database may answer the requests for page k and
      the next so that one product is on both. */
  lemma TieBreaksPages(store: set<Product>, category: Option<string>, activeOnly: bool, size: nat, q: seq<Product>,
      k: nat, n: nat) returns (qs: seq<seq<Product>>, x: Product)
    requires size >= 1 && IsOrdering(q, Matching(store, category, activeOnly)) && TieAt(q, size, k) && k < n
    ensures |qs| == n && Requests(store, category, activeOnly, qs)
    ensures k > 0 && Listed(store, category, activeOnly, size, qs, k - 1, x)
    ensures Listed(store, category, activeOnly, size, qs, k, x)
  {
    TieIsUnclean(Matching(store, category, activeOnly), q, size, k);
    qs, x := TieOnTwoPages(Matching(store, category, activeOnly), size, q, k, n);
    FetchIsPage(qs[k - 1], k, size);
    FetchIsPage(qs[k], k + 1, size);
  }

  /** The answers for pages 1 to n, one after the other. */
  function Concatenated(store: set<Product>, category: Option<string>, activeOnly: bool, size: nat,
      qs: seq<seq<Product>>): seq<Product>
    requires size >= 1 && Requests(store, category, activeOnly, qs)
  {
    if qs == [] then []
    else Concatenated(store, category, activeOnly, size, qs[..|qs| - 1])
         + ListProducts(store, category, activeOnly, |qs|, size, qs[|qs| - 1]).0
  }

  lemma PrefixPlusSlice(q: seq<Product>, a: nat, b: nat)
    requires a <= b <= |q|
    ensures q[..a] + q[a..b] == q[..b]
  {
  }

  lemma {:induction false} ConcatenatedIsPrefix(store: set<Product>, category: Option<string>, activeOnly: bool,
      size: nat, q: seq<Product>, qs: seq<seq<Product>>)
    requires size >= 1 && Requests(store, category, activeOnly, qs)
    requires forall k :: 0 <= k < |qs| ==> qs[k] == q
    ensures Concatenated(store, category, activeOnly, size, qs) == q[..Cut(|qs|, size, |q|)]
    decreases |qs|
  {
    if qs != [] {
      ConcatenatedIsPrefix(store, category, activeOnly, size, q, qs[..|qs| - 1]);
      CutsGrow(|qs| - 1, |qs|, size, |q|);
      FetchIsPage(q, |qs|, size);
      PrefixPlusSlice(q, Cut(|qs| - 1, size, |q|), Cut(|qs|, size, |q|));
    }
  }

  predicate DistinctTimes(rows: set<Product>) {
    forall x, y :: x in rows && y in rows && x.createdAt == y.createdAt ==> x == y
  }

  /** Distinct times leave the database only one ordering. */
  lemma OrderingIsUnique(rows: set<Product>, q: seq<Product>, p: seq<Product>)
    requires DistinctTimes(rows) && IsOrdering(q, rows) && IsOrdering(p, rows)
    ensures q == p
  {
    forall i | 0 <= i < |q| ensures q[i] == p[i] {
      assert CleanAt(q, i) && CleanAt(q, i + 1);
      SameRowsBeforeCut(rows, q, p, i);
      SameRowsBeforeCut(rows, q, p, i + 1);
      assert q[..i + 1] == q[..i] + [q[i]] && p[..i + 1] == p[..i] + [p[i]];
      assert q[i] in Elements(p[..i + 1]) && q[i] !in Elements(q[..i]);
    }
  }

  lemma OrderingHoldsAll(rows: set<Product>, q: seq<Product>)
    requires IsOrdering(q, rows)
    ensures forall x :: x in q <==> x in rows
  {
    ElementsSize(q);
    SubsetOfSameSize(Elements(q), rows);
    assert forall x :: x in q <==> x in Elements(q);
  }

  /** With distinct created_at, the answers for pages 1 to n of n separate requests, put
      together, are the wanted products, newest first, each once. */
  lemma PagesConcatenate(store: set<Product>, category: Option<string>, activeOnly: bool, size: nat,
      qs: seq<seq<Product>>)
    requires size >= 1 && Requests(store, category, activeOnly, qs) && qs != []
    requires |qs| * size >= ListProducts(store, category, activeOnly, 1, size, qs[0]).1
    requires forall x, y | Wanted(store, category, activeOnly, x) && Wanted(store, category, activeOnly, y) ::
               x.createdAt == y.createdAt ==> x == y
    ensures var all := Concatenated(store, category, activeOnly, size, qs);
      && (forall x :: x in all <==> Wanted(store, category, activeOnly, x))
      && (forall i, j :: 0 <= i < j < |all| ==> all[i].createdAt > all[j].createdAt)
      && |all| == ListProducts(store, category, activeOnly, 1, size, qs[0]).1
  {
    var rows, q := Matching(store, category, activeOnly), qs[0];
    assert forall x :: Wanted(store, category, activeOnly, x) <==> x in rows;
    forall k | 0 <= k < |qs| ensures qs[k] == q {
      OrderingIsUnique(rows, q, qs[k]);
    }
    ConcatenatedIsPrefix(store, category, activeOnly, size, q, qs);
    assert Concatenated(store, category, activeOnly, size, qs) == q;
    OrderingHoldsAll(rows, q);
  }
}
