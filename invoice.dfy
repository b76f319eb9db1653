/**
 * The revenue figures of one invoice: its revenue, its revenue and
 * discounted revenue per merchant, and its whole discounted revenue, plus
 * the listings of a merchant's line items and items and the customer's name.
 */
module Invoices {
  import opened Records
  import opened Collections
  import opened BulkDiscounts
  import opened InvoiceItems

  function OnInvoice(invoiceId: nat): InvoiceItem -> bool
  {
    (li: InvoiceItem) => li.invoiceId == invoiceId
  }

  /** The line item's catalog item exists and belongs to merchant `merchantId`. */
  predicate BelongsTo(li: InvoiceItem, items: map<nat, Item>, merchantId: nat)
  {
    li.itemId in items && items[li.itemId].merchantId == merchantId
  }

  function OfMerchant(items: map<nat, Item>, merchantId: nat): InvoiceItem -> bool
  {
    (li: InvoiceItem) => BelongsTo(li, items, merchantId)
  }

  /** The name of the line item's catalog item (empty when the item is missing). */
  function ItemName(li: InvoiceItem, items: map<nat, Item>): string
  {
    if li.itemId in items then items[li.itemId].name else ""
  }

  function ByItemName(items: map<nat, Item>): (InvoiceItem, InvoiceItem) -> bool
  {
    (a: InvoiceItem, b: InvoiceItem) => LexLeq(ItemName(a, items), ItemName(b, items))
  }

  lemma ByItemNameTotalPreorder(items: map<nat, Item>)
    ensures TotalPreorder(ByItemName(items))
  {
    var leq := ByItemName(items);
    forall a, b ensures leq(a, b) || leq(b, a) {
      LexTotal(ItemName(a, items), ItemName(b, items));
    }
    forall a, b, c | leq(a, b) && leq(b, c) ensures leq(a, c) {
      LexTransitive(ItemName(a, items), ItemName(b, items), ItemName(c, items));
    }
  }

  /** `invoice.invoice_items`: the line items of invoice `invoiceId`. */
  function LineItems(db: Db, invoiceId: nat): (r: seq<InvoiceItem>)
    ensures forall li :: multiset(r)[li] == if li.invoiceId == invoiceId then multiset(db.invoiceItems)[li] else 0
    ensures forall li :: li in r ==> li.invoiceId == invoiceId
  {
    Filter(db.invoiceItems, OnInvoice(invoiceId))
  }

  /** The line items of the invoice whose item belongs to the merchant, in database order. */
  function MerchantLineItems(db: Db, invoiceId: nat, merchantId: nat): seq<InvoiceItem>
  {
    Filter(LineItems(db, invoiceId), OfMerchant(db.items, merchantId))
  }

  /**
   * `merchant_invoice_items`: exactly the invoice's line items whose item
   * belongs to the merchant, ordered by item name ascending.
   */
  function MerchantInvoiceItems(db: Db, invoiceId: nat, merchantId: nat): (r: seq<InvoiceItem>)
    ensures forall li :: multiset(r)[li] ==
              if li.invoiceId == invoiceId && BelongsTo(li, db.items, merchantId)
              then multiset(db.invoiceItems)[li] else 0
    ensures forall li :: li in r ==> li.invoiceId == invoiceId && BelongsTo(li, db.items, merchantId)
    ensures forall i, j :: 0 <= i < j < |r| ==> LexLeq(ItemName(r[i], db.items), ItemName(r[j], db.items))
  {
    var unsorted := MerchantLineItems(db, invoiceId, merchantId);
    ByItemNameTotalPreorder(db.items);
    SortBySorted(unsorted, ByItemName(db.items));
    SortBy(unsorted, ByItemName(db.items))
  }

  /**
   * `revenue`: the class-level revenue of the invoice's line items, that is
   * their quantity * unit_price counted once per successful transaction of
   * the invoice.
   */
  function InvoiceRevenue(db: Db, invoiceId: nat): (r: int)
    ensures r == SuccessCount(db.transactions, invoiceId) * Sum(LineItems(db, invoiceId), GrossTerm())
  {
    var lis := LineItems(db, invoiceId);
    SumScaled(lis, CountedGrossTerm(db.transactions), GrossTerm(), SuccessCount(db.transactions, invoiceId));
    CollectionRevenue(lis, db.transactions)
  }

  /** Without a successful transaction the invoice has no revenue, whatever its line items. */
  lemma InvoiceRevenueUnpaid(db: Db, invoiceId: nat)
    requires forall t :: t in db.transactions ==> !Unlocks(t, invoiceId)
    ensures InvoiceRevenue(db, invoiceId) == 0
  {
  }

  /** With exactly one successful transaction the revenue is the sum of quantity * unit_price. */
  lemma InvoiceRevenueOneTx(db: Db, invoiceId: nat)
    requires SuccessCount(db.transactions, invoiceId) == 1
    ensures InvoiceRevenue(db, invoiceId) == Sum(LineItems(db, invoiceId), GrossTerm())
  {
  }

  /**
   * `revenue_by_merchant`: the class-level revenue of the merchant's line
   * items on the invoice, counted once per successful transaction of the
   * invoice.
   */
  function RevenueByMerchant(db: Db, invoiceId: nat, merchantId: nat): (r: int)
    ensures r == SuccessCount(db.transactions, invoiceId) * Sum(MerchantInvoiceItems(db, invoiceId, merchantId), GrossTerm())
  {
    var lis := MerchantInvoiceItems(db, invoiceId, merchantId);
    SumScaled(lis, CountedGrossTerm(db.transactions), GrossTerm(), SuccessCount(db.transactions, invoiceId));
    CollectionRevenue(lis, db.transactions)
  }

  /** The order of `merchant_invoice_items` does not matter to a sum over it. */
  lemma SumOverMerchantItems(db: Db, invoiceId: nat, merchantId: nat, f: InvoiceItem -> int)
    ensures Sum(MerchantInvoiceItems(db, invoiceId, merchantId), f) == Sum(MerchantLineItems(db, invoiceId, merchantId), f)
  {
    SumPermutation(MerchantInvoiceItems(db, invoiceId, merchantId), MerchantLineItems(db, invoiceId, merchantId), f);
  }

  /** When every line item of the invoice belongs to one of two merchants, their revenues add up to the invoice's. */
  lemma MerchantRevenuesSplit(db: Db, invoiceId: nat, m1: nat, m2: nat)
    requires m1 != m2
    requires forall li :: li in db.invoiceItems && li.invoiceId == invoiceId ==>
                            BelongsTo(li, db.items, m1) || BelongsTo(li, db.items, m2)
    ensures RevenueByMerchant(db, invoiceId, m1) + RevenueByMerchant(db, invoiceId, m2) == InvoiceRevenue(db, invoiceId)
  {
    var f := PairsTerm(db.transactions);
    SumOverMerchantItems(db, invoiceId, m1, f);
    SumOverMerchantItems(db, invoiceId, m2, f);
    SumFilterSplit(LineItems(db, invoiceId), OfMerchant(db.items, m1), OfMerchant(db.items, m2), f);
  }

  /**
   * `discounted_revenue_by_merchant`: the truncated discounted revenues of the
   * merchant's line items, whatever their order; 0 while the invoice is unpaid.
   */
  function DiscountedRevenueByMerchant(db: Db, invoiceId: nat, merchantId: nat): (r: int)
    ensures r == DiscountedSum(MerchantLineItems(db, invoiceId, merchantId), db.items, db.discounts, db.transactions)
    ensures (forall t :: t in db.transactions ==> !Unlocks(t, invoiceId)) ==> r == 0
  {
    var lis := MerchantInvoiceItems(db, invoiceId, merchantId);
    SumOverMerchantItems(db, invoiceId, merchantId, DiscountedTerm(db.items, db.discounts, db.transactions));
    UnpaidDiscountedSum(db, invoiceId, lis);
    DiscountedSum(lis, db.items, db.discounts, db.transactions)
  }

  /** Line items of an unpaid invoice have no discounted revenue. */
  lemma UnpaidDiscountedSum(db: Db, invoiceId: nat, lis: seq<InvoiceItem>)
    requires forall li :: li in lis ==> li.invoiceId == invoiceId
    ensures (forall t :: t in db.transactions ==> !Unlocks(t, invoiceId)) ==>
              DiscountedSum(lis, db.items, db.discounts, db.transactions) == 0
  {
    if forall t :: t in db.transactions ==> !Unlocks(t, invoiceId) {
      DiscountedSumUnpaid(lis, db.items, db.discounts, db.transactions);
    }
  }

  /** When every line item of the invoice belongs to the merchant, its figures are the invoice's. */
  lemma SoleMerchant(db: Db, invoiceId: nat, merchantId: nat)
    requires forall li :: li in db.invoiceItems && li.invoiceId == invoiceId ==> BelongsTo(li, db.items, merchantId)
    ensures RevenueByMerchant(db, invoiceId, merchantId) == InvoiceRevenue(db, invoiceId)
    ensures DiscountedRevenueByMerchant(db, invoiceId, merchantId) == InvoiceDiscountedRevenue(db, invoiceId)
  {
    FilterAll(LineItems(db, invoiceId), OfMerchant(db.items, merchantId));
    SumOverMerchantItems(db, invoiceId, merchantId, PairsTerm(db.transactions));
  }

  /** `invoice_discounted_revenue`: the truncated discounted revenues of all the invoice's line items,
      each with the best discount of its own merchant. */
  function InvoiceDiscountedRevenue(db: Db, invoiceId: nat): (r: int)
    ensures (forall t :: t in db.transactions ==> !Unlocks(t, invoiceId)) ==> r == 0
  {
    var lis := LineItems(db, invoiceId);
    UnpaidDiscountedSum(db, invoiceId, lis);
    DiscountedSum(lis, db.items, db.discounts, db.transactions)
  }

  /** A line item's gated revenue never exceeds what the join counts for it. */
  lemma {:induction false} GatedAtMostJoined(lis: seq<InvoiceItem>, txs: seq<Transaction>)
    requires forall li :: li in lis ==> 0 <= Gross(li)
    ensures Sum(lis, RevenueTerm(txs)) <= CollectionRevenue(lis, txs)
  {
    forall li | li in lis ensures RevenueTerm(txs)(li) <= PairsTerm(txs)(li) {
      PairsRevenueCounts(li, txs);
      var c := SuccessCount(txs, li.invoiceId);
      if c >= 1 {
        assert c * Gross(li) == Gross(li) + (c - 1) * Gross(li);
      }
    }
    SumMonotone(lis, RevenueTerm(txs), PairsTerm(txs));
  }

  /** With valid stored discounts and non-negative prices, discounts only lower the invoice's revenue. */
  lemma InvoiceDiscountedAtMostRevenue(db: Db, invoiceId: nat)
    requires forall d :: d in db.discounts ==> ValidDiscount(d)
    requires forall li :: li in db.invoiceItems ==> 0 <= Gross(li)
    ensures 0 <= InvoiceDiscountedRevenue(db, invoiceId) <= InvoiceRevenue(db, invoiceId)
  {
    var lis := LineItems(db, invoiceId);
    DiscountedSumBounds(lis, db.items, db.discounts, db.transactions);
    GatedAtMostJoined(lis, db.transactions);
  }

  /** With valid stored discounts and non-negative prices, a merchant's discounted revenue never exceeds its revenue. */
  lemma DiscountedByMerchantAtMostRevenue(db: Db, invoiceId: nat, merchantId: nat)
    requires forall d :: d in db.discounts ==> ValidDiscount(d)
    requires forall li :: li in db.invoiceItems ==> 0 <= Gross(li)
    ensures 0 <= DiscountedRevenueByMerchant(db, invoiceId, merchantId) <= RevenueByMerchant(db, invoiceId, merchantId)
  {
    var lis := MerchantInvoiceItems(db, invoiceId, merchantId);
    DiscountedSumBounds(lis, db.items, db.discounts, db.transactions);
    GatedAtMostJoined(lis, db.transactions);
  }

  /** Each line item takes its own merchant's discount, so the invoice's discounted revenue is the
      sum of the two merchants' discounted revenues when every line item belongs to one of them. */
  lemma MerchantDiscountedSplit(db: Db, invoiceId: nat, m1: nat, m2: nat)
    requires m1 != m2
    requires forall li :: li in db.invoiceItems && li.invoiceId == invoiceId ==>
                            BelongsTo(li, db.items, m1) || BelongsTo(li, db.items, m2)
    ensures DiscountedRevenueByMerchant(db, invoiceId, m1) + DiscountedRevenueByMerchant(db, invoiceId, m2)
            == InvoiceDiscountedRevenue(db, invoiceId)
  {
    var f := DiscountedTerm(db.items, db.discounts, db.transactions);
    SumOverMerchantItems(db, invoiceId, m1, f);
    SumOverMerchantItems(db, invoiceId, m2, f);
    SumFilterSplit(LineItems(db, invoiceId), OfMerchant(db.items, m1), OfMerchant(db.items, m2), f);
  }

  /**
   * `merchant_items`: the ids of the merchant's items, one per line item that
   * references one of them, on any invoice.
   */
  function MerchantItems(db: Db, merchantId: nat): (r: seq<nat>)
    ensures |r| == Count(db.invoiceItems, OfMerchant(db.items, merchantId))
    ensures forall id :: id in r <==>
              id in db.items && db.items[id].merchantId == merchantId
              && exists li :: li in db.invoiceItems && li.itemId == id
    ensures forall id :: multiset(r)[id] ==
              Count(db.invoiceItems, Both(OfMerchant(db.items, merchantId), Yields(ItemIdOf, id)))
  {
    var rows := Filter(db.invoiceItems, OfMerchant(db.items, merchantId));
    var r := Project(rows, ItemIdOf);
    MerchantItemsMembers(db, merchantId, rows, r);
    forall id
      ensures multiset(r)[id] == Count(db.invoiceItems, Both(OfMerchant(db.items, merchantId), Yields(ItemIdOf, id)))
    {
      ProjectFilterOccurrences(db.invoiceItems, OfMerchant(db.items, merchantId), ItemIdOf, id);
    }
    r
  }

  function ItemIdOf(li: InvoiceItem): nat
  {
    li.itemId
  }

  lemma MerchantItemsMembers(db: Db, merchantId: nat, rows: seq<InvoiceItem>, r: seq<nat>)
    requires rows == Filter(db.invoiceItems, OfMerchant(db.items, merchantId))
    requires |r| == |rows| && forall i :: 0 <= i < |r| ==> r[i] == rows[i].itemId
    ensures forall id :: id in r <==>
              id in db.items && db.items[id].merchantId == merchantId
              && exists li :: li in db.invoiceItems && li.itemId == id
  {
    forall id | id in db.items && db.items[id].merchantId == merchantId
                && exists li :: li in db.invoiceItems && li.itemId == id
      ensures id in r
    {
      var li :| li in db.invoiceItems && li.itemId == id;
      assert li in rows;
      var k :| 0 <= k < |rows| && rows[k] == li;
      assert r[k] == id;
    }
    forall id | id in r
      ensures id in db.items && db.items[id].merchantId == merchantId
              && exists li :: li in db.invoiceItems && li.itemId == id
    {
      var k :| 0 <= k < |r| && r[k] == id;
      assert rows[k] in rows;
    }
  }

  /** `customer_name`: first name, a space, last name. */
  function CustomerName(c: Customer): (r: string)
    ensures |r| == |c.firstName| + 1 + |c.lastName|
    ensures r[..|c.firstName|] == c.firstName
    ensures r[|c.firstName|] == ' '
    ensures r[|c.firstName| + 1..] == c.lastName
  {
    c.firstName + " " + c.lastName
  }

  /** The text before the first space of `name` (all of it when it has none). */
  function FirstWord(name: string): (r: string)
    ensures |r| <= |name| && r == name[..|r|]
    ensures ' ' !in r
    ensures |r| < |name| ==> name[|r|] == ' '
  {
    if name == [] || name[0] == ' ' then [] else [name[0]] + FirstWord(name[1..])
  }

  /** The first word of the displayed name is the first name when the first name has no space. */
  lemma CustomerNameSplits(c: Customer)
    requires ' ' !in c.firstName
    ensures FirstWord(CustomerName(c)) == c.firstName
  {
  }

  /** The name of the invoice's customer. */
  function InvoiceCustomerName(db: Db, invoiceId: nat): (r: string)
    requires invoiceId in db.invoices && db.invoices[invoiceId].customerId in db.customers
    ensures var c := db.customers[db.invoices[invoiceId].customerId];
            |r| == |c.firstName| + 1 + |c.lastName|
            && r[..|c.firstName|] == c.firstName && r[|c.firstName|] == ' ' && r[|c.firstName| + 1..] == c.lastName
  {
    CustomerName(db.customers[db.invoices[invoiceId].customerId])
  }
}
