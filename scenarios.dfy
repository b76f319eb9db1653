/**
 * Worked figures: small shops on which the revenue rules give the amounts
 * the application's model specs expect.
 */
module Scenarios {
  import opened Records
  import opened Collections
  import opened InvoiceItems
  import opened Invoices

  /** Ten units at 15000 on invoice 1, an item of merchant 1. */
  function TenAt15000(): InvoiceItem
  {
    InvoiceItem(1, 1, 10, 15000, Pending)
  }

  function OneItem(): map<nat, Item>
  {
    map[1 := Item(1, "Toy")]
  }

  /** A paid line item earns quantity * unit_price; a failed payment earns nothing. */
  lemma LineItemRevenue()
    ensures Revenue(TenAt15000(), [Transaction(1, Successful)]) == 150000
    ensures Revenue(TenAt15000(), [Transaction(1, Failed)]) == 0
  {
  }

  /** The discount whose threshold is met wins over one whose threshold is not; among met ones, the highest percent. */
  lemma DiscountChoice()
    ensures DiscountAvailable(TenAt15000(), OneItem(), [BulkDiscount(1, 20, 10), BulkDiscount(1, 25, 15)])
            == Some(BulkDiscount(1, 20, 10))
    ensures DiscountAvailable(TenAt15000(), OneItem(), [BulkDiscount(1, 20, 10), BulkDiscount(1, 25, 10)])
            == Some(BulkDiscount(1, 25, 10))
  {
  }

  /** 20% off 150000 is 120000; the better of 10% and 50% gives 75000; so does 50% at a lower threshold. */
  lemma LineItemDiscountedRevenue()
    ensures DiscountedRevenue(TenAt15000(), OneItem(), [BulkDiscount(1, 20, 10)], [Transaction(1, Successful)])
            == 120000.0
    ensures DiscountedRevenue(TenAt15000(), OneItem(), [BulkDiscount(1, 10, 10), BulkDiscount(1, 50, 10)],
                              [Transaction(1, Successful)]) == 75000.0
    ensures DiscountedRevenue(TenAt15000(), OneItem(), [BulkDiscount(1, 50, 8), BulkDiscount(1, 20, 10)],
                              [Transaction(1, Successful)]) == 75000.0
    ensures DiscountedRevenue(InvoiceItem(1, 1, 5, 15000, Pending), OneItem(), [BulkDiscount(1, 20, 10)],
                              [Transaction(1, Successful)]) == 75000.0
  {
  }

  /** 3 and 5 units at 1000 on invoice 1, 1 unit at 1000 on invoice 2. */
  function ThreeLineItems(): seq<InvoiceItem>
  {
    [InvoiceItem(1, 1, 3, 1000, Pending), InvoiceItem(2, 1, 5, 1000, Pending), InvoiceItem(3, 2, 1, 1000, Pending)]
  }

  /** The collection revenue as payments arrive: none, a failed one, a paid invoice, two paid invoices. */
  lemma CollectionRevenueSteps()
    ensures CollectionRevenue(ThreeLineItems(), [Transaction(3, Successful)]) == 0
    ensures CollectionRevenue(ThreeLineItems(), [Transaction(3, Successful), Transaction(1, Failed)]) == 0
    ensures CollectionRevenue(ThreeLineItems(),
              [Transaction(3, Successful), Transaction(1, Failed), Transaction(1, Successful)]) == 8000
    ensures CollectionRevenue(ThreeLineItems(),
              [Transaction(3, Successful), Transaction(1, Failed), Transaction(1, Successful),
               Transaction(2, Successful)]) == 9000
  {
  }

  /** A shop with one invoice (1), items 1 and 2 given to the merchants `m1` and `m2`. */
  function Shop(m1: nat, m2: nat, lis: seq<InvoiceItem>, ds: seq<BulkDiscount>): Db
  {
    Db(map[1 := Merchant("Bob", Enabled), 2 := Merchant("Ann", Enabled)],
       map[1 := Item(m1, "Toy"), 2 := Item(m2, "Car")],
       map[1 := Invoice(1, 0)],
       map[1 := Customer("Bob", "Dole")],
       lis,
       [Transaction(1, Successful)],
       ds)
  }

  /** An invoice of 3 at 15000 and 5 at 20000 earns nothing after a failed payment and 145000 once paid. */
  lemma InvoiceRevenueFigures()
    ensures InvoiceRevenue(
              Shop(1, 2, [InvoiceItem(1, 1, 3, 15000, Pending), InvoiceItem(2, 1, 5, 20000, Pending)], [])
                .(transactions := [Transaction(1, Failed)]), 1) == 0
    ensures InvoiceRevenue(
              Shop(1, 2, [InvoiceItem(1, 1, 3, 15000, Pending), InvoiceItem(2, 1, 5, 20000, Pending)], [])
                .(transactions := [Transaction(1, Failed), Transaction(1, Successful)]), 1) == 145000
  {
  }

  /** The same invoice seen from its only merchant: `discounted_revenue_by_merchant` is 122 too. */
  lemma EachLineItemItsBestDiscountByMerchant()
    ensures DiscountedRevenueByMerchant(
              Shop(1, 1, [InvoiceItem(1, 1, 8, 10, Pending), InvoiceItem(2, 1, 10, 10, Pending)],
                   [BulkDiscount(1, 10, 8), BulkDiscount(1, 50, 10)]), 1, 1) == 122
  {
    var db := Shop(1, 1, [InvoiceItem(1, 1, 8, 10, Pending), InvoiceItem(2, 1, 10, 10, Pending)],
                   [BulkDiscount(1, 10, 8), BulkDiscount(1, 50, 10)]);
    SoleMerchant(db, 1, 1);
    EachLineItemItsBestDiscount();
  }

  /** 8 units at 10 get 10%, 10 units at 10 get 50%: the discounted revenue is 72 + 50. */
  lemma EachLineItemItsBestDiscount()
    ensures InvoiceDiscountedRevenue(
              Shop(1, 1, [InvoiceItem(1, 1, 8, 10, Pending), InvoiceItem(2, 1, 10, 10, Pending)],
                   [BulkDiscount(1, 10, 8), BulkDiscount(1, 50, 10)]), 1) == 122
  {
    var a, b := InvoiceItem(1, 1, 8, 10, Pending), InvoiceItem(2, 1, 10, 10, Pending);
    var db := Shop(1, 1, [a, b], [BulkDiscount(1, 10, 8), BulkDiscount(1, 50, 10)]);
    assert LineItems(db, 1) == [a, b];
    TwoLineItemsSum(db.items, db.discounts, db.transactions);
  }

  lemma TwoLineItemsSum(items: map<nat, Item>, ds: seq<BulkDiscount>, txs: seq<Transaction>)
    requires items == map[1 := Item(1, "Toy"), 2 := Item(1, "Car")]
    requires ds == [BulkDiscount(1, 10, 8), BulkDiscount(1, 50, 10)]
    requires txs == [Transaction(1, Successful)]
    ensures DiscountedSum([InvoiceItem(1, 1, 8, 10, Pending), InvoiceItem(2, 1, 10, 10, Pending)], items, ds, txs) == 122
  {
    var a, b := InvoiceItem(1, 1, 8, 10, Pending), InvoiceItem(2, 1, 10, 10, Pending);
    var f := DiscountedTerm(items, ds, txs);
    TwoDiscountedLineItems(items, ds, txs);
    assert Sum([a, b], f) == f(a) + Sum([b], f);
  }

  /** The two line items of `EachLineItemItsBestDiscount`, each with its own best discount. */
  lemma TwoDiscountedLineItems(items: map<nat, Item>, ds: seq<BulkDiscount>, txs: seq<Transaction>)
    requires items == map[1 := Item(1, "Toy"), 2 := Item(1, "Car")]
    requires ds == [BulkDiscount(1, 10, 8), BulkDiscount(1, 50, 10)]
    requires txs == [Transaction(1, Successful)]
    ensures DiscountedRevenueToI(InvoiceItem(1, 1, 8, 10, Pending), items, ds, txs) == 72
    ensures DiscountedRevenueToI(InvoiceItem(2, 1, 10, 10, Pending), items, ds, txs) == 50
  {
    assert DiscountAvailable(InvoiceItem(1, 1, 8, 10, Pending), items, ds) == Some(BulkDiscount(1, 10, 8));
    assert DiscountAvailable(InvoiceItem(2, 1, 10, 10, Pending), items, ds) == Some(BulkDiscount(1, 50, 10));
  }

  /** Only the line item that meets the threshold is discounted: 80 + 50. */
  lemma OnlyQualifyingLineItemDiscounted()
    ensures InvoiceDiscountedRevenue(
              Shop(1, 1, [InvoiceItem(1, 1, 10, 10, Pending), InvoiceItem(2, 1, 5, 10, Pending)],
                   [BulkDiscount(1, 20, 10)]), 1) == 130
  {
  }

  /** Another merchant's line item is not discounted by merchant 1's discount: 80 + 100. */
  lemma OtherMerchantNotDiscounted()
    ensures InvoiceDiscountedRevenue(
              Shop(1, 2, [InvoiceItem(1, 1, 10, 10, Pending), InvoiceItem(2, 1, 10, 10, Pending)],
                   [BulkDiscount(1, 20, 10)]), 1) == 180
  {
  }
}
