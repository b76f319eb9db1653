/**
 * The merchant queries: the invoices holding a merchant's items, the top
 * customers by successful transactions, the enabled and disabled merchants
 * and the items still to ship.
 */
module Merchants {
  import opened Records
  import opened Collections
  import opened Invoices

  // invoice_finder

  /** The line item joins to an invoice and its item belongs to the merchant. */
  predicate OnMerchantInvoice(db: Db, merchantId: nat, li: InvoiceItem)
  {
    BelongsTo(li, db.items, merchantId) && li.invoiceId in db.invoices
  }

  function OnMerchantInvoiceTerm(db: Db, merchantId: nat): InvoiceItem -> bool
  {
    (li: InvoiceItem) => OnMerchantInvoice(db, merchantId, li)
  }

  function InvoiceIdOf(li: InvoiceItem): nat
  {
    li.invoiceId
  }

  /**
   * `invoice_finder`: the invoices with a line item of one of the merchant's
   * items, one entry per such line item (the join does not make them distinct).
   */
  function InvoiceFinder(db: Db, merchantId: nat): (r: seq<nat>)
    ensures |r| == Count(db.invoiceItems, OnMerchantInvoiceTerm(db, merchantId))
    ensures forall id :: id in r <==>
              id in db.invoices
              && exists li :: li in db.invoiceItems && li.invoiceId == id && BelongsTo(li, db.items, merchantId)
    ensures forall id :: multiset(r)[id] ==
              Count(db.invoiceItems, Both(OnMerchantInvoiceTerm(db, merchantId), Yields(InvoiceIdOf, id)))
  {
    var rows := Filter(db.invoiceItems, OnMerchantInvoiceTerm(db, merchantId));
    var r := Project(rows, InvoiceIdOf);
    assert forall id :: id in r <==> exists li :: li in rows && li.invoiceId == id;
    forall id
      ensures multiset(r)[id] ==
              Count(db.invoiceItems, Both(OnMerchantInvoiceTerm(db, merchantId), Yields(InvoiceIdOf, id)))
    {
      ProjectFilterOccurrences(db.invoiceItems, OnMerchantInvoiceTerm(db, merchantId), InvoiceIdOf, id);
    }
    r
  }

  // enabled_merchants, disabled_merchants

  /** `enabled_merchants`: the merchants whose status is enabled. */
  function EnabledMerchants(db: Db): (r: set<nat>)
    ensures r <= db.merchants.Keys
    ensures forall id :: id in r ==> db.merchants[id].status == Enabled
    ensures forall id :: id in db.merchants && db.merchants[id].status == Enabled ==> id in r
  {
    set id | id in db.merchants && db.merchants[id].status == Enabled
  }

  /**
   * `disabled_merchants`: the merchants whose status is disabled, which are
   * exactly the merchants that are not enabled.
   */
  function DisabledMerchants(db: Db): (r: set<nat>)
    ensures r == db.merchants.Keys - EnabledMerchants(db)
    ensures forall id :: id in r ==> db.merchants[id].status == Disabled
  {
    var r := set id | id in db.merchants && db.merchants[id].status == Disabled;
    forall id | id in db.merchants && id !in EnabledMerchants(db)
      ensures id in r
    {
      assert db.merchants[id].status != Enabled;
    }
    r
  }

  // items_ready_to_ship

  /** One row of `items_ready_to_ship`: an item and the invoice its unshipped line item is on. */
  datatype ShipRow = ShipRow(itemId: nat, invoiceId: nat)

  /** The merchant's line item, on an existing invoice, not yet shipped. */
  predicate ReadyToShip(db: Db, merchantId: nat, li: InvoiceItem)
  {
    BelongsTo(li, db.items, merchantId) && li.invoiceId in db.invoices && li.status != Shipped
  }

  function ReadyToShipTerm(db: Db, merchantId: nat): InvoiceItem -> bool
  {
    (li: InvoiceItem) => ReadyToShip(db, merchantId, li)
  }

  function InvoiceDate(db: Db, li: InvoiceItem): int
  {
    if li.invoiceId in db.invoices then db.invoices[li.invoiceId].createdAt else 0
  }

  function ByInvoiceDate(db: Db): (InvoiceItem, InvoiceItem) -> bool
  {
    (a: InvoiceItem, b: InvoiceItem) => InvoiceDate(db, a) <= InvoiceDate(db, b)
  }

  function ShipRowOf(li: InvoiceItem): ShipRow
  {
    ShipRow(li.itemId, li.invoiceId)
  }

  /**
   * `items_ready_to_ship`: one row per unshipped line item of one of the
   * merchant's items, oldest invoice first; an item appears once per such
   * line item.
   */
  function ItemsReadyToShip(db: Db, merchantId: nat): (r: seq<ShipRow>)
    ensures |r| == Count(db.invoiceItems, ReadyToShipTerm(db, merchantId))
    ensures forall row :: row in r <==>
              exists li :: li in db.invoiceItems && ReadyToShip(db, merchantId, li) && row == ShipRowOf(li)
    ensures forall row :: row in r ==>
              row.invoiceId in db.invoices && row.itemId in db.items && db.items[row.itemId].merchantId == merchantId
    ensures forall i, j :: 0 <= i < j < |r| ==>
              db.invoices[r[i].invoiceId].createdAt <= db.invoices[r[j].invoiceId].createdAt
    ensures forall row :: multiset(r)[row] ==
              Count(db.invoiceItems, Both(ReadyToShipTerm(db, merchantId), Yields(ShipRowOf, row)))
  {
    var ready := Filter(db.invoiceItems, ReadyToShipTerm(db, merchantId));
    var sorted := SortBy(ready, ByInvoiceDate(db));
    SortBySorted(ready, ByInvoiceDate(db));
    var r := Project(sorted, ShipRowOf);
    ReadyRows(db, merchantId, sorted, r);
    ReadyRowOccurrences(db, merchantId, ready, sorted);
    r
  }

  /** Sorting the ready line items keeps how often each row occurs. */
  lemma ReadyRowOccurrences(db: Db, merchantId: nat, ready: seq<InvoiceItem>, sorted: seq<InvoiceItem>)
    requires ready == Filter(db.invoiceItems, ReadyToShipTerm(db, merchantId))
    requires multiset(sorted) == multiset(ready)
    ensures forall row :: multiset(Project(sorted, ShipRowOf))[row] ==
              Count(db.invoiceItems, Both(ReadyToShipTerm(db, merchantId), Yields(ShipRowOf, row)))
  {
    forall row
      ensures multiset(Project(sorted, ShipRowOf))[row] ==
              Count(db.invoiceItems, Both(ReadyToShipTerm(db, merchantId), Yields(ShipRowOf, row)))
    {
      ProjectOccurrences(sorted, ShipRowOf, row);
      CountPermutation(sorted, ready, Yields(ShipRowOf, row));
      CountFilterBoth(db.invoiceItems, ReadyToShipTerm(db, merchantId), Yields(ShipRowOf, row));
    }
  }

  lemma ReadyRows(db: Db, merchantId: nat, sorted: seq<InvoiceItem>, r: seq<ShipRow>)
    requires forall li :: li in sorted <==> li in db.invoiceItems && ReadyToShip(db, merchantId, li)
    requires SortedBy(sorted, ByInvoiceDate(db))
    requires |r| == |sorted| && forall i :: 0 <= i < |r| ==> r[i] == ShipRowOf(sorted[i])
    ensures forall row :: row in r <==>
              exists li :: li in db.invoiceItems && ReadyToShip(db, merchantId, li) && row == ShipRowOf(li)
    ensures forall row :: row in r ==>
              row.invoiceId in db.invoices && row.itemId in db.items && db.items[row.itemId].merchantId == merchantId
    ensures forall i, j :: 0 <= i < j < |r| ==>
              db.invoices[r[i].invoiceId].createdAt <= db.invoices[r[j].invoiceId].createdAt
  {
    forall row ensures row in r <==>
        exists li :: li in db.invoiceItems && ReadyToShip(db, merchantId, li) && row == ShipRowOf(li)
    {
      if row in r {
        var i :| 0 <= i < |r| && r[i] == row;
        assert sorted[i] in sorted;
      }
      if exists li :: li in db.invoiceItems && ReadyToShip(db, merchantId, li) && row == ShipRowOf(li) {
        var li :| li in db.invoiceItems && ReadyToShip(db, merchantId, li) && row == ShipRowOf(li);
        var i :| 0 <= i < |sorted| && sorted[i] == li;
        assert r[i] == row;
      }
    }
    forall i, j | 0 <= i < j < |r|
      ensures r[i].invoiceId in db.invoices && r[j].invoiceId in db.invoices
              && db.invoices[r[i].invoiceId].createdAt <= db.invoices[r[j].invoiceId].createdAt
    {
      assert sorted[i] in sorted && sorted[j] in sorted;
      assert ByInvoiceDate(db)(sorted[i], sorted[j]);
    }
  }

  // top_customers

  /** A ranked customer: its id and its number of successful transactions. */
  datatype Ranked = Ranked(customerId: nat, count: nat)

  /** The customer the transaction's invoice belongs to (0 when the invoice is missing). */
  function CustomerOf(db: Db, t: Transaction): nat
  {
    if t.invoiceId in db.invoices then db.invoices[t.invoiceId].customerId else 0
  }

  /** The transaction is successful and joins an invoice and that invoice's customer. */
  predicate JoinsSuccessfully(db: Db, t: Transaction)
  {
    t.result == Successful && t.invoiceId in db.invoices && db.invoices[t.invoiceId].customerId in db.customers
  }

  function PaidBy(db: Db, customerId: nat): Transaction -> bool
  {
    (t: Transaction) => JoinsSuccessfully(db, t) && CustomerOf(db, t) == customerId
  }

  /** `count(transactions.id)` of one customer: its successful transactions. */
  function SuccessfulTxCount(db: Db, customerId: nat): nat
  {
    Count(db.transactions, PaidBy(db, customerId))
  }

  function JoinsTerm(db: Db): Transaction -> bool
  {
    (t: Transaction) => JoinsSuccessfully(db, t)
  }

  function CustomerTerm(db: Db): Transaction -> nat
  {
    (t: Transaction) => CustomerOf(db, t)
  }

  function RankTerm(db: Db): nat -> Ranked
  {
    (c: nat) => Ranked(c, SuccessfulTxCount(db, c))
  }

  function ByCountDesc(): (Ranked, Ranked) -> bool
  {
    (a: Ranked, b: Ranked) => a.count >= b.count
  }

  /** The customer of each successful transaction that joins a customer. */
  function CustomerRows(db: Db): seq<nat>
  {
    Project(Filter(db.transactions, JoinsTerm(db)), CustomerTerm(db))
  }

  /** The customers with a successful transaction, grouped by id. */
  function PayingCustomers(db: Db): (r: seq<nat>)
    ensures Distinct(r)
    ensures forall c :: c in r <==> c in db.customers && SuccessfulTxCount(db, c) > 0
  {
    var r := Dedup(CustomerRows(db));
    forall c ensures c in r <==> c in db.customers && SuccessfulTxCount(db, c) > 0 {
      CountPositive(db.transactions, PaidBy(db, c));
    }
    r
  }

  /**
   * Customers joined to their successful transactions, grouped, and ordered by
   * their count of successful transactions, highest first.
   */
  function Ranking(db: Db): (r: seq<Ranked>)
    ensures forall e :: e in r ==> e.customerId in db.customers && e.count == SuccessfulTxCount(db, e.customerId) > 0
    ensures forall c :: c in db.customers && SuccessfulTxCount(db, c) > 0 ==> exists e :: e in r && e.customerId == c
    ensures forall i, j :: 0 <= i < j < |r| ==> r[i].customerId != r[j].customerId
    ensures forall i, j :: 0 <= i < j < |r| ==> r[i].count >= r[j].count
  {
    var grouped := Project(PayingCustomers(db), RankTerm(db));
    var r := SortBy(grouped, ByCountDesc());
    RankedRows(db, grouped, r);
    r
  }

  lemma RankedRows(db: Db, grouped: seq<Ranked>, r: seq<Ranked>)
    requires grouped == Project(PayingCustomers(db), RankTerm(db))
    requires r == SortBy(grouped, ByCountDesc())
    ensures forall e :: e in r ==> e.customerId in db.customers && e.count == SuccessfulTxCount(db, e.customerId) > 0
    ensures forall c :: c in db.customers && SuccessfulTxCount(db, c) > 0 ==> exists e :: e in r && e.customerId == c
    ensures forall i, j :: 0 <= i < j < |r| ==> r[i].customerId != r[j].customerId
    ensures forall i, j :: 0 <= i < j < |r| ==> r[i].count >= r[j].count
  {
    var p := PayingCustomers(db);
    assert forall e :: e in r ==> e.customerId in p && e.count == SuccessfulTxCount(db, e.customerId);
    forall c | c in db.customers && SuccessfulTxCount(db, c) > 0
      ensures exists e :: e in r && e.customerId == c
    {
      var i :| 0 <= i < |p| && p[i] == c;
      assert grouped[i] in r;
    }
    assert Distinct(grouped) by {
      forall i, j | 0 <= i < j < |grouped| ensures grouped[i] != grouped[j] {
        assert grouped[i].customerId == p[i] && grouped[j].customerId == p[j];
      }
    }
    DistinctPermutation(grouped, r);
    forall i, j | 0 <= i < j < |r| ensures r[i].customerId != r[j].customerId {
      assert r[i] in r && r[j] in r;
    }
    SortBySorted(grouped, ByCountDesc());
    assert forall i, j :: 0 <= i < j < |r| ==> ByCountDesc()(r[i], r[j]);
  }

  /** `customers.count` of a merchant: customers reached through its items' line items and their invoices,
      one per joined row. */
  predicate ReachesCustomer(db: Db, merchantId: nat, li: InvoiceItem)
  {
    BelongsTo(li, db.items, merchantId) && li.invoiceId in db.invoices
    && db.invoices[li.invoiceId].customerId in db.customers
  }

  function ReachesCustomerTerm(db: Db, merchantId: nat): InvoiceItem -> bool
  {
    (li: InvoiceItem) => ReachesCustomer(db, merchantId, li)
  }

  /**
   * The merchant's `customers.count`: one per line item of the merchant's that
   * joins through its invoice to a customer (the join does not make them
   * distinct); positive exactly when some line item reaches a customer.
   */
  function MerchantCustomerCount(db: Db, merchantId: nat): (n: nat)
    ensures n <= |db.invoiceItems|
    ensures n > 0 <==> exists li :: li in db.invoiceItems && ReachesCustomer(db, merchantId, li)
  {
    CountPositive(db.invoiceItems, ReachesCustomerTerm(db, merchantId));
    Count(db.invoiceItems, ReachesCustomerTerm(db, merchantId))
  }

  /** The customers with the most successful transactions, at most `limit` of them. */
  function TopOf(db: Db, limit: nat): (r: seq<Ranked>)
    ensures |r| == if limit < |Ranking(db)| then limit else |Ranking(db)|
    ensures r == Ranking(db)[..|r|]
    ensures forall e, c :: e in r && c in db.customers && (forall e' :: e' in r ==> e'.customerId != c) ==>
              e.count >= SuccessfulTxCount(db, c)
  {
    var ranking := Ranking(db);
    var r := Take(ranking, limit);
    PrefixOutranks(db.customers.Keys, (c: nat) => SuccessfulTxCount(db, c), ranking, r);
    r
  }

  /**
   * No customer missing from a prefix of a ranking in descending order
   * outranks anyone in it; `count` gives each customer's number of successful
   * transactions.
   */
  lemma PrefixOutranks(customers: set<nat>, count: nat -> nat, ranking: seq<Ranked>, r: seq<Ranked>)
    requires |r| <= |ranking| && r == ranking[..|r|]
    requires forall e :: e in ranking ==> e.count == count(e.customerId)
    requires forall c :: c in customers && count(c) > 0 ==> exists e :: e in ranking && e.customerId == c
    requires forall i, j :: 0 <= i < j < |ranking| ==> ranking[i].count >= ranking[j].count
    ensures forall e, c :: e in r && c in customers && (forall e' :: e' in r ==> e'.customerId != c) ==>
              e.count >= count(c)
  {
    forall e, c | e in r && c in customers && (forall e' :: e' in r ==> e'.customerId != c)
      ensures e.count >= count(c)
    {
      if count(c) > 0 {
        var i :| 0 <= i < |r| && r[i] == e;
        var k :| 0 <= k < |ranking| && ranking[k].customerId == c;
        assert ranking[k] in ranking;
        assert ranking[i].count >= ranking[k].count;
      }
    }
  }

  /**
   * The instance `top_customers(n)`: the store-wide ranking, cut to n but
   * never to more than the merchant's `customers.count`. The ranking itself is
   * not restricted to the merchant's customers.
   */
  function TopCustomers(db: Db, merchantId: nat, n: nat := 5): (r: seq<Ranked>)
    ensures |r| <= n && |r| <= MerchantCustomerCount(db, merchantId)
    ensures |r| == Min(Min(n, MerchantCustomerCount(db, merchantId)), |Ranking(db)|)
    ensures r == Ranking(db)[..|r|]
    ensures forall e, c :: e in r && c in db.customers && (forall e' :: e' in r ==> e'.customerId != c) ==>
              e.count >= SuccessfulTxCount(db, c)
  {
    var cap := if n > MerchantCustomerCount(db, merchantId) then MerchantCustomerCount(db, merchantId) else n;
    TopOf(db, cap)
  }

  /** The class-level `top_customers(n)`: the same ranking, capped by the number of all customers. */
  function AllTopCustomers(db: Db, n: nat := 5): (r: seq<Ranked>)
    ensures |r| <= n && |r| <= |db.customers|
    ensures |r| == Min(Min(n, |db.customers|), |Ranking(db)|)
    ensures r == Ranking(db)[..|r|]
    ensures forall e, c :: e in r && c in db.customers && (forall e' :: e' in r ==> e'.customerId != c) ==>
              e.count >= SuccessfulTxCount(db, c)
  {
    var cap := if n > |db.customers| then |db.customers| else n;
    TopOf(db, cap)
  }

  function Min(a: nat, b: nat): nat
  {
    if a <= b then a else b
  }

  /** Failed transactions never change the ranking. */
  lemma FailedIgnoredInRanking(db: Db, failed: seq<Transaction>)
    requires forall t :: t in failed ==> t.result == Failed
    ensures Ranking(db.(transactions := db.transactions + failed)) == Ranking(db)
  {
    var db' := db.(transactions := db.transactions + failed);
    FailedIgnoredInPaying(db, failed);
    var p := PayingCustomers(db);
    forall i | 0 <= i < |p| ensures RankTerm(db')(p[i]) == RankTerm(db)(p[i]) {
      FailedIgnoredInCount(db, failed, p[i]);
    }
    assert Project(p, RankTerm(db')) == Project(p, RankTerm(db));
  }

  lemma FailedIgnoredInPaying(db: Db, failed: seq<Transaction>)
    requires forall t :: t in failed ==> t.result == Failed
    ensures PayingCustomers(db.(transactions := db.transactions + failed)) == PayingCustomers(db)
  {
    var db' := db.(transactions := db.transactions + failed);
    FilterCongruent(db'.transactions, JoinsTerm(db'), JoinsTerm(db));
    FilterAppend(db.transactions, failed, JoinsTerm(db));
    NoneJoin(db, failed);
    var rows := Filter(db.transactions, JoinsTerm(db));
    assert Filter(db'.transactions, JoinsTerm(db')) == rows;
    ProjectCongruent(rows, CustomerTerm(db'), CustomerTerm(db));
    assert CustomerRows(db') == CustomerRows(db);
  }

  lemma FailedIgnoredInCount(db: Db, failed: seq<Transaction>, c: nat)
    requires forall t :: t in failed ==> t.result == Failed
    ensures SuccessfulTxCount(db.(transactions := db.transactions + failed), c) == SuccessfulTxCount(db, c)
  {
    var db' := db.(transactions := db.transactions + failed);
    FilterCongruent(db'.transactions, PaidBy(db', c), PaidBy(db, c));
    FilterAppend(db.transactions, failed, PaidBy(db, c));
    NoneCounted(db, c, failed);
  }

  lemma {:induction false} NoneJoin(db: Db, failed: seq<Transaction>)
    requires forall t :: t in failed ==> t.result == Failed
    ensures Filter(failed, JoinsTerm(db)) == []
  {
    if failed != [] {
      NoneJoin(db, failed[1..]);
    }
  }

  lemma {:induction false} NoneCounted(db: Db, c: nat, failed: seq<Transaction>)
    requires forall t :: t in failed ==> t.result == Failed
    ensures Filter(failed, PaidBy(db, c)) == []
  {
    if failed != [] {
      NoneCounted(db, c, failed[1..]);
    }
  }
}
