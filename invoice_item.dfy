/**
 * The revenue of invoice line items: the gate on successful transactions,
 * the choice of the best bulk discount, the discounted revenue of one line
 * item and the two sums over a collection of line items.
 */
module InvoiceItems {
  import opened Records
  import opened Collections
  import opened BulkDiscounts

  /** Quantity times unit price, undiscounted and ungated. */
  function Gross(li: InvoiceItem): int
  {
    li.quantity * li.unitPrice
  }

  /** `t` is a successful transaction (`result = 0`) of invoice `invoiceId`. */
  predicate Unlocks(t: Transaction, invoiceId: nat)
  {
    t.invoiceId == invoiceId && t.result == Successful
  }

  /** The number of successful transactions of invoice `invoiceId`. */
  function SuccessCount(txs: seq<Transaction>, invoiceId: nat): (n: nat)
    ensures n <= |txs|
    ensures n == 0 <==> forall t :: t in txs ==> !Unlocks(t, invoiceId)
  {
    if txs == [] then 0
    else (if Unlocks(txs[0], invoiceId) then 1 else 0) + SuccessCount(txs[1..], invoiceId)
  }

  lemma {:induction false} SuccessCountAppend(a: seq<Transaction>, b: seq<Transaction>, invoiceId: nat)
    ensures SuccessCount(a + b, invoiceId) == SuccessCount(a, invoiceId) + SuccessCount(b, invoiceId)
  {
    if a == [] {
      assert a + b == b;
    } else {
      assert (a + b)[1..] == a[1..] + b;
      SuccessCountAppend(a[1..], b, invoiceId);
    }
  }

  /**
   * The instance `revenue` of a line item: its gross revenue once its invoice
   * has at least one successful transaction, and 0 otherwise.
   */
  function Revenue(li: InvoiceItem, txs: seq<Transaction>): (r: int)
    ensures (exists t :: t in txs && Unlocks(t, li.invoiceId)) ==> r == Gross(li)
    ensures (forall t :: t in txs ==> !Unlocks(t, li.invoiceId)) ==> r == 0
  {
    if SuccessCount(txs, li.invoiceId) >= 1 then Gross(li) else 0
  }

  /** Failed transactions, however many, never unlock a line item's revenue. */
  lemma {:induction false} FailedNeverUnlocks(li: InvoiceItem, txs: seq<Transaction>, failed: seq<Transaction>)
    requires forall t :: t in failed ==> t.result == Failed
    ensures Revenue(li, txs + failed) == Revenue(li, txs)
  {
    SuccessCountAppend(txs, failed, li.invoiceId);
  }

  /** The merchant of the line item's catalog item, when that item exists. */
  function MerchantOf(li: InvoiceItem, items: map<nat, Item>): Option<nat>
  {
    if li.itemId in items then Some(items[li.itemId].merchantId) else None
  }

  /** `d` belongs to merchant `merchantId` and its threshold is met by `quantity`
      (a quantity equal to the threshold qualifies). */
  predicate Qualifies(d: BulkDiscount, merchantId: nat, quantity: int)
  {
    d.merchantId == merchantId && d.threshold <= quantity
  }

  /**
   * Among the discounts of `ds` that qualify, one with the highest percent;
   * none when no discount qualifies. On equal percents the earliest in `ds`
   * is taken, a choice the source leaves to the database.
   */
  function BestDiscount(ds: seq<BulkDiscount>, merchantId: nat, quantity: int): (r: Option<BulkDiscount>)
    ensures r.None? <==> forall d :: d in ds ==> !Qualifies(d, merchantId, quantity)
    ensures r.Some? ==> r.value in ds && Qualifies(r.value, merchantId, quantity)
    ensures r.Some? ==> forall d :: d in ds && Qualifies(d, merchantId, quantity) ==>
                                      d.percentDiscount <= r.value.percentDiscount
  {
    if ds == [] then None
    else
      var rest := BestDiscount(ds[1..], merchantId, quantity);
      if !Qualifies(ds[0], merchantId, quantity) then rest
      else if rest.Some? && rest.value.percentDiscount > ds[0].percentDiscount then rest
      else Some(ds[0])
  }

  /** `discount_available`: the best discount of the line item's own merchant. */
  function DiscountAvailable(li: InvoiceItem, items: map<nat, Item>, ds: seq<BulkDiscount>): (r: Option<BulkDiscount>)
    ensures r.None? <==> MerchantOf(li, items).None?
                         || forall d :: d in ds ==> !Qualifies(d, MerchantOf(li, items).value, li.quantity)
    ensures r.Some? ==> MerchantOf(li, items).Some? && r.value in ds
                        && Qualifies(r.value, MerchantOf(li, items).value, li.quantity)
                        && forall d :: d in ds && Qualifies(d, MerchantOf(li, items).value, li.quantity) ==>
                                         d.percentDiscount <= r.value.percentDiscount
  {
    match MerchantOf(li, items)
    case None => None
    case Some(m) => BestDiscount(ds, m, li.quantity)
  }

  /** Discounts of other merchants never change which discount a line item gets. */
  lemma {:induction false} OtherMerchantsIgnored(ds: seq<BulkDiscount>, others: seq<BulkDiscount>, merchantId: nat, quantity: int)
    requires forall d :: d in others ==> d.merchantId != merchantId
    ensures BestDiscount(ds + others, merchantId, quantity) == BestDiscount(ds, merchantId, quantity)
  {
    if ds == [] {
      assert ds + others == others;
      OthersNeverQualify(others, merchantId, quantity);
    } else {
      assert (ds + others)[1..] == ds[1..] + others;
      OtherMerchantsIgnored(ds[1..], others, merchantId, quantity);
    }
  }

  lemma {:induction false} OthersNeverQualify(others: seq<BulkDiscount>, merchantId: nat, quantity: int)
    requires forall d :: d in others ==> d.merchantId != merchantId
    ensures BestDiscount(others, merchantId, quantity) == None
  {
    if others != [] {
      OthersNeverQualify(others[1..], merchantId, quantity);
    }
  }

  /** The multiplier of a discount, `percent_discount / 100`. */
  function Percentage(d: BulkDiscount): (r: real)
    ensures r * 100.0 == d.percentDiscount as real
    ensures ValidDiscount(d) ==> 0.0 < r < 1.0
  {
    d.percentDiscount as real / 100.0
  }

  /**
   * `discounted_revenue`, as an exact rational: the gated revenue, less the
   * best discount's share of it when there is one.
   */
  function DiscountedRevenue(li: InvoiceItem, items: map<nat, Item>, ds: seq<BulkDiscount>, txs: seq<Transaction>): (r: real)
    ensures DiscountAvailable(li, items, ds).None? ==> r == Revenue(li, txs) as real
    ensures Revenue(li, txs) == 0 ==> r == 0.0
  {
    var rev := Revenue(li, txs) as real;
    match DiscountAvailable(li, items, ds)
    case None => rev
    case Some(d) => rev - rev * Percentage(d)
  }

  /** `to_i` of a number: truncation toward zero. */
  function TruncateToInt(x: real): (n: int)
    ensures 0.0 <= x ==> 0 <= n && n as real <= x < n as real + 1.0
    ensures x < 0.0 ==> n <= 0 && n as real - 1.0 < x <= n as real
  {
    if 0.0 <= x then x.Floor else -((-x).Floor)
  }

  /**
   * `discounted_revenue.to_i`: the revenue itself without a discount, and
   * otherwise revenue * (100 - p) / 100 rounded toward zero, where p is the
   * best discount's percent.
   */
  function DiscountedRevenueToI(li: InvoiceItem, items: map<nat, Item>, ds: seq<BulkDiscount>, txs: seq<Transaction>): (n: int)
    ensures DiscountAvailable(li, items, ds).None? ==> n == Revenue(li, txs)
    ensures DiscountAvailable(li, items, ds).Some? ==>
              var a := Revenue(li, txs) * (100 - DiscountAvailable(li, items, ds).value.percentDiscount);
              n == if a >= 0 then a / 100 else -((-a) / 100)
  {
    var x := DiscountedRevenue(li, items, ds, txs);
    match DiscountAvailable(li, items, ds)
    case None => TruncateToInt(x)
    case Some(d) =>
      DiscountedRevenueValue(li, items, ds, txs);
      var a := Revenue(li, txs) * (100 - d.percentDiscount);
      assert x == a as real / 100.0;
      TruncateHundredths(a);
      TruncateToInt(x)
  }

  /** Truncating a / 100 toward zero is integer division rounded toward zero. */
  lemma TruncateHundredths(a: int)
    ensures TruncateToInt(a as real / 100.0) == if a >= 0 then a / 100 else -((-a) / 100)
  {
    var b := if a >= 0 then a else -a;
    var q, r := b / 100, b % 100;
    assert b == 100 * q + r && 0 <= r < 100;
    assert b as real / 100.0 == q as real + r as real / 100.0;
    assert q as real <= b as real / 100.0 < q as real + 1.0;
    var n := TruncateToInt(a as real / 100.0);
    if a >= 0 {
      assert n as real <= b as real / 100.0 < n as real + 1.0;
    } else {
      assert a as real / 100.0 == -(b as real / 100.0);
      assert -q as real - 1.0 < a as real / 100.0 <= -q as real;
    }
  }

  /** With a discount of percent p, the discounted revenue is the revenue times (100 - p) / 100. */
  lemma DiscountedRevenueValue(li: InvoiceItem, items: map<nat, Item>, ds: seq<BulkDiscount>, txs: seq<Transaction>)
    requires DiscountAvailable(li, items, ds).Some?
    ensures DiscountedRevenue(li, items, ds, txs) * 100.0 ==
              (Revenue(li, txs) * (100 - DiscountAvailable(li, items, ds).value.percentDiscount)) as real
  {
  }

  /** Stored discounts keep 1 < p < 100, so a discount never makes revenue negative or larger. */
  lemma DiscountedRevenueBounds(li: InvoiceItem, items: map<nat, Item>, ds: seq<BulkDiscount>, txs: seq<Transaction>)
    requires forall d :: d in ds ==> ValidDiscount(d)
    requires 0 <= Revenue(li, txs)
    ensures 0.0 <= DiscountedRevenue(li, items, ds, txs) <= Revenue(li, txs) as real
    ensures 0 <= DiscountedRevenueToI(li, items, ds, txs) <= Revenue(li, txs)
  {
    match DiscountAvailable(li, items, ds)
    case None =>
    case Some(d) =>
      var rev := Revenue(li, txs) as real;
      ShareBounds(rev, d);
      var x := DiscountedRevenue(li, items, ds, txs);
      assert x == rev - rev * Percentage(d);
      TruncateWithin(x, Revenue(li, txs));
  }

  lemma TruncateWithin(x: real, bound: int)
    requires 0.0 <= x <= bound as real
    ensures 0 <= TruncateToInt(x) <= bound
  {
  }

  lemma ShareBounds(rev: real, d: BulkDiscount)
    requires 0.0 <= rev && ValidDiscount(d)
    ensures 0.0 <= rev - rev * Percentage(d) <= rev
  {
    var q := Percentage(d);
    assert 0.0 < q < 1.0;
    assert rev - rev * q == rev * (1.0 - q);
  }

  // Sums over a collection of line items.

  /** The successful transactions of a line item's invoice, each contributing its gross revenue once. */
  function PairsRevenue(li: InvoiceItem, txs: seq<Transaction>): int
  {
    if txs == [] then 0
    else (if Unlocks(txs[0], li.invoiceId) then Gross(li) else 0) + PairsRevenue(li, txs[1..])
  }

  /** The join counts a line item once per successful transaction of its invoice. */
  lemma {:induction false} PairsRevenueCounts(li: InvoiceItem, txs: seq<Transaction>)
    ensures PairsRevenue(li, txs) == SuccessCount(txs, li.invoiceId) * Gross(li)
  {
    if txs != [] {
      PairsRevenueCounts(li, txs[1..]);
      var c := SuccessCount(txs[1..], li.invoiceId);
      if Unlocks(txs[0], li.invoiceId) {
        assert (c + 1) * Gross(li) == Gross(li) + c * Gross(li);
      }
    }
  }

  function PairsTerm(txs: seq<Transaction>): InvoiceItem -> int
  {
    li => PairsRevenue(li, txs)
  }

  function CountedGrossTerm(txs: seq<Transaction>): InvoiceItem -> int
  {
    (li: InvoiceItem) => SuccessCount(txs, li.invoiceId) * Gross(li)
  }

  function GrossTerm(): InvoiceItem -> int
  {
    li => Gross(li)
  }

  function RevenueTerm(txs: seq<Transaction>): InvoiceItem -> int
  {
    li => Revenue(li, txs)
  }

  function DiscountedTerm(items: map<nat, Item>, ds: seq<BulkDiscount>, txs: seq<Transaction>): InvoiceItem -> int
  {
    li => DiscountedRevenueToI(li, items, ds, txs)
  }

  /**
   * The class-level `InvoiceItem.revenue` of a collection: line items joined
   * to the successful transactions of their invoices, summing
   * quantity * unit_price over the joined rows.
   */
  function CollectionRevenue(lis: seq<InvoiceItem>, txs: seq<Transaction>): (r: int)
    ensures r == Sum(lis, CountedGrossTerm(txs))
  {
    PairsSumCounts(lis, txs);
    Sum(lis, PairsTerm(txs))
  }

  /** Summed over the join, each line item's gross revenue is weighed by its invoice's count of successful transactions. */
  lemma {:induction false} PairsSumCounts(lis: seq<InvoiceItem>, txs: seq<Transaction>)
    ensures Sum(lis, PairsTerm(txs)) == Sum(lis, CountedGrossTerm(txs))
  {
    if lis != [] {
      PairsRevenueCounts(lis[0], txs);
      PairsSumCounts(lis[1..], txs);
    }
  }

  /** Line items whose invoice has no successful transaction add nothing; failed ones never count. */
  lemma {:induction false} CollectionRevenueUnpaid(lis: seq<InvoiceItem>, txs: seq<Transaction>)
    requires forall li :: li in lis ==> SuccessCount(txs, li.invoiceId) == 0
    ensures CollectionRevenue(lis, txs) == 0
  {
    if lis != [] {
      PairsRevenueCounts(lis[0], txs);
      CollectionRevenueUnpaid(lis[1..], txs);
    }
  }

  /** When no invoice has more than one successful transaction, the join sum is the sum of the gated instance revenues. */
  lemma {:induction false} CollectionRevenueSingleTx(lis: seq<InvoiceItem>, txs: seq<Transaction>)
    requires forall li :: li in lis ==> SuccessCount(txs, li.invoiceId) <= 1
    ensures CollectionRevenue(lis, txs) == Sum(lis, RevenueTerm(txs))
  {
    if lis != [] {
      PairsRevenueCounts(lis[0], txs);
      CollectionRevenueSingleTx(lis[1..], txs);
    }
  }

  /** `merchant_discounted_revenue`: the sum of each line item's truncated discounted revenue. */
  function DiscountedSum(lis: seq<InvoiceItem>, items: map<nat, Item>, ds: seq<BulkDiscount>, txs: seq<Transaction>): (r: int)
    ensures lis == [] ==> r == 0
  {
    Sum(lis, DiscountedTerm(items, ds, txs))
  }

  /** The discounted sum of two collections is the sum of their discounted sums. */
  lemma DiscountedSumAppend(a: seq<InvoiceItem>, b: seq<InvoiceItem>, items: map<nat, Item>, ds: seq<BulkDiscount>, txs: seq<Transaction>)
    ensures DiscountedSum(a + b, items, ds, txs) == DiscountedSum(a, items, ds, txs) + DiscountedSum(b, items, ds, txs)
  {
    SumAppend(a, b, DiscountedTerm(items, ds, txs));
  }

  /** With valid stored discounts and non-negative prices, the discounted sum lies between 0 and the gated revenue. */
  lemma DiscountedSumBounds(lis: seq<InvoiceItem>, items: map<nat, Item>, ds: seq<BulkDiscount>, txs: seq<Transaction>)
    requires forall d :: d in ds ==> ValidDiscount(d)
    requires forall li :: li in lis ==> 0 <= Gross(li)
    ensures 0 <= DiscountedSum(lis, items, ds, txs) <= Sum(lis, RevenueTerm(txs))
  {
    forall li | li in lis
      ensures 0 <= DiscountedTerm(items, ds, txs)(li) <= RevenueTerm(txs)(li)
    {
      DiscountedRevenueBounds(li, items, ds, txs);
    }
    SumMonotone(lis, DiscountedTerm(items, ds, txs), RevenueTerm(txs));
    SumMonotone(lis, (li: InvoiceItem) => 0, DiscountedTerm(items, ds, txs));
    SumOfZeros(lis);
  }

  lemma {:induction false} SumOfZeros(lis: seq<InvoiceItem>)
    ensures Sum(lis, (li: InvoiceItem) => 0) == 0
  {
    if lis != [] {
      SumOfZeros(lis[1..]);
    }
  }

  /** Without any successful transaction on their invoices, line items have no discounted revenue. */
  lemma {:induction false} DiscountedSumUnpaid(lis: seq<InvoiceItem>, items: map<nat, Item>, ds: seq<BulkDiscount>, txs: seq<Transaction>)
    requires forall li :: li in lis ==> SuccessCount(txs, li.invoiceId) == 0
    ensures DiscountedSum(lis, items, ds, txs) == 0
  {
    if lis != [] {
      DiscountedSumUnpaid(lis[1..], items, ds, txs);
    }
  }
}
