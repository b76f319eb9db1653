# Discount-aware revenue of a small online shop

This project models the revenue engine of a Rails shop in which merchants sell
items, customers place invoices, payments are recorded as transactions, and
merchants define bulk (volume) discounts. The engine:

- gates a line item's revenue on its invoice having a successful transaction;
- picks, for each line item, the best bulk discount of the item's own merchant
  whose threshold the quantity meets;
- sums gross and discounted revenue over an invoice, over the whole invoice or
  over one merchant's share of it;
- validates a discount form, collecting every error of both fields;
- ranks customers by their number of successful transactions;
- splits merchants into enabled and disabled;
- lists a merchant's unshipped line items, oldest invoice first.

Each database table is a value. Tables reached through `belongs_to` (items,
invoices, customers, merchants) are maps from primary key to record. Tables the
queries scan (invoice items, transactions, bulk discounts) are sequences. A
query is a function of a `Db` snapshot. Its SQL shape (join, `where`, `group`,
`order`, `limit`) becomes filter, count, sort and take over those sequences.

Files, one module each:

- `records.dfy`: the records and the `Db` snapshot.
- `collections.dfy`: filter, projection, sum, insertion sort, prefix and string order.
- `bulk_discount.dfy`: the discount validations.
- `invoice_item.dfy`: the line-item calculator.
- `invoice.dfy`: the invoice aggregates.
- `merchant.dfy`: the merchant queries.
- `scenarios.dfy`: worked figures taken from the application's model specs.

## Model

| member | source | states |
|---|---|---|
| BulkDiscounts.FieldErrors | app/models/bulk_discount.rb:6-7 | A field has no error iff it is an integer inside the bounds. "can't be blank" appears iff the field is blank. "is not a number" appears iff it is blank or not numeric. "must be an integer" appears iff it has a fractional part. Each bound error appears iff that bound is violated. No other error kind appears. |
| BulkDiscounts.Validate | app/models/bulk_discount.rb:6-7 | A form has no error iff the percent is an integer with 1 < p < 100 and the threshold is an integer > 1. |
| BulkDiscounts.Build | app/models/bulk_discount.rb:6-7 | Saving succeeds iff validation reports nothing. A saved discount satisfies the stored-discount invariant and holds the submitted values. A refusal carries the full non-empty error list. |
| BulkDiscounts.ErrorsCollected | app/models/bulk_discount.rb:6-7 | The errors of the form are exactly the percent's errors plus the threshold's errors; neither field stops the other's validation. |
| BulkDiscounts.BlankFields | app/models/bulk_discount.rb:6-7 | Two blank fields give "can't be blank" and "is not a number" for each field, in that order. |
| BulkDiscounts.NonNumericFields | app/models/bulk_discount.rb:6-7 | Two non-numeric fields give "is not a number" for each field. |
| BulkDiscounts.PercentBounds | app/models/bulk_discount.rb:6 | The percent bounds are strict: 2 and 99 pass, 1 gives "must be greater than 1", 100 gives "must be less than 100". |
| BulkDiscounts.OutOfRangeFields | app/models/bulk_discount.rb:6-7 | Percent 101 with threshold -1, and -10 with -10, report an error on both fields together. |
| InvoiceItems.SuccessCount | app/models/invoice_item.rb:21 | The count of successful transactions of the invoice is 0 iff no transaction is a successful one of that invoice. |
| InvoiceItems.SuccessCountAppend | app/models/invoice_item.rb:21 | Counting over two transaction lists adds their counts. |
| InvoiceItems.Revenue | app/models/invoice_item.rb:20-26 | The instance revenue is quantity * unit_price when the invoice has a successful transaction, and 0 when it has none. |
| InvoiceItems.FailedNeverUnlocks | app/models/invoice_item.rb:20-26 | Adding failed transactions, however many, never changes a line item's revenue. |
| InvoiceItems.BestDiscount | app/models/invoice_item.rb:28-30 | The result is none iff no discount of the merchant has threshold <= quantity. Otherwise it is such a discount, and no qualifying discount has a higher percent. |
| InvoiceItems.DiscountAvailable | app/models/invoice_item.rb:28-30 | The same guarantees, for the discounts of the line item's own merchant. The result is none when the item is missing. |
| InvoiceItems.OtherMerchantsIgnored | app/models/invoice_item.rb:3-4 | Adding discounts of other merchants never changes the discount a line item gets. |
| InvoiceItems.OthersNeverQualify | app/models/invoice_item.rb:3-4 | Discounts of other merchants alone give no discount. |
| InvoiceItems.DiscountedRevenue | app/models/invoice_item.rb:32-38 | Without an available discount the discounted revenue is the revenue. An unpaid line item has discounted revenue 0. |
| InvoiceItems.Percentage | app/models/invoice_item.rb:36 | 100 times the fraction is the stored percent. For a stored discount with 1 < p < 100 the fraction lies strictly between 0 and 1. |
| InvoiceItems.DiscountedRevenueValue | app/models/invoice_item.rb:36 | With a discount of percent p, 100 times the discounted revenue is revenue * (100 - p). |
| InvoiceItems.TruncateToInt | app/models/invoice_item.rb:42 | `to_i` truncates toward zero. For x >= 0 the result n satisfies n <= x < n + 1. For x < 0 it satisfies n - 1 < x <= n. |
| InvoiceItems.TruncateHundredths | app/models/invoice_item.rb:42 | Truncating a / 100 toward zero is integer division of |a| by 100, carrying the sign of a. |
| InvoiceItems.DiscountedRevenueToI | app/models/invoice_item.rb:32-42 | Without an available discount the truncated discounted revenue is the revenue. With a discount of percent p it is revenue * (100 - p) divided by 100, truncated toward zero. |
| InvoiceItems.DiscountedRevenueBounds | app/models/invoice_item.rb:36 | If stored discounts keep 1 < p < 100 and revenue >= 0, then 0 <= discounted revenue <= revenue, both exactly and after truncation. |
| InvoiceItems.PairsRevenueCounts | app/models/invoice_item.rb:15-18 | The join adds a line item's gross revenue once per successful transaction of its invoice. |
| InvoiceItems.PairsSumCounts | app/models/invoice_item.rb:15-18 | Summed over a collection, the join pairs give each line item's quantity * unit_price once per successful transaction of its invoice. |
| InvoiceItems.CollectionRevenue | app/models/invoice_item.rb:15-18 | The class-level revenue of a collection weights each line item's quantity * unit_price by its invoice's count of successful transactions. |
| InvoiceItems.CollectionRevenueUnpaid | app/models/invoice_item.rb:15-18 | Line items whose invoices have no successful transaction contribute 0. |
| InvoiceItems.CollectionRevenueSingleTx | app/models/invoice_item.rb:15-26 | When no invoice has more than one successful transaction, the join sum equals the sum of the gated instance revenues. |
| InvoiceItems.DiscountedSum | app/models/invoice_item.rb:40-44 | `merchant_discounted_revenue` of an empty collection is 0. |
| InvoiceItems.DiscountedSumAppend | app/models/invoice_item.rb:40-44 | The sum of truncated discounted revenues over two collections is the sum of the two sums. Each line item is truncated on its own. |
| InvoiceItems.DiscountedSumBounds | app/models/invoice_item.rb:40-44 | If stored discounts are valid and prices non-negative, the sum of truncated discounted revenues lies between 0 and the sum of gated revenues. |
| InvoiceItems.DiscountedSumUnpaid | app/models/invoice_item.rb:40-44 | Unpaid line items have no discounted revenue. |
| Invoices.LineItems | app/models/invoice.rb:3 | An invoice's line items are exactly the database's line items of that invoice, each with its multiplicity. |
| Invoices.MerchantInvoiceItems | app/models/invoice.rb:18-20 | The result holds exactly the invoice's line items whose item belongs to the merchant, each with its multiplicity, sorted by item name ascending. |
| Invoices.InvoiceRevenue | app/models/invoice.rb:22-24 | Invoice revenue = (number of successful transactions of the invoice) * sum of quantity * unit_price over its line items. |
| Invoices.InvoiceRevenueUnpaid | app/models/invoice.rb:22-24 | Without a successful transaction the invoice's revenue is 0. |
| Invoices.InvoiceRevenueOneTx | app/models/invoice.rb:22-24 | With exactly one successful transaction, revenue is the sum of quantity * unit_price. |
| Invoices.SumOverMerchantItems | app/models/invoice.rb:18-20 | Sorting by name does not change any sum over the merchant's line items. |
| Invoices.RevenueByMerchant | app/models/invoice.rb:26-28 | A merchant's revenue on the invoice = (successful transactions) * the gross sum of only that merchant's line items on this invoice. |
| Invoices.MerchantRevenuesSplit | app/models/invoice.rb:22-28 | If every line item belongs to one of two distinct merchants, their revenues add up to the invoice's revenue. |
| Invoices.DiscountedRevenueByMerchant | app/models/invoice.rb:30-32 | A merchant's discounted revenue is the truncated-discounted sum over its line items, whatever their order. It is 0 while the invoice has no successful transaction. |
| Invoices.SoleMerchant | app/models/invoice.rb:22-38 | If every line item belongs to one merchant, that merchant's revenue and discounted revenue are the invoice's. |
| Invoices.InvoiceDiscountedRevenue | app/models/invoice.rb:34-38 | Without a successful transaction the invoice's discounted revenue is 0. |
| Invoices.UnpaidDiscountedSum | app/models/invoice.rb:30-38 | Line items of an invoice without a successful transaction sum to 0 discounted revenue. |
| Invoices.GatedAtMostJoined | app/models/invoice_item.rb:15-26 | For non-negative prices, the gated sum never exceeds the join sum. |
| Invoices.InvoiceDiscountedAtMostRevenue | app/models/invoice.rb:22-38 | If discounts are valid and prices non-negative, 0 <= `invoice_discounted_revenue` <= `revenue`. |
| Invoices.DiscountedByMerchantAtMostRevenue | app/models/invoice.rb:26-32 | Under the same conditions, 0 <= `discounted_revenue_by_merchant` <= `revenue_by_merchant`. |
| Invoices.MerchantDiscountedSplit | app/models/invoice.rb:30-38 | Each line item uses its own merchant's discounts. So when two merchants cover the invoice, their discounted revenues add up to the invoice's. |
| Invoices.MerchantItems | app/models/invoice.rb:14-16 | The result has one item id per line item of the merchant's items, on any invoice: each id occurs exactly as often as line items of the merchant reference it. An id appears iff it is the merchant's item and some line item references it. |
| Invoices.CustomerName | app/models/invoice.rb:10-12 | The name is the first name, then one space, then the last name, and nothing else. |
| Invoices.CustomerNameSplits | app/models/invoice.rb:10-12 | If the first name has no space, the first word of the name is the first name. |
| Invoices.InvoiceCustomerName | app/models/invoice.rb:10-12 | The name of an invoice is its customer's first name, one space and its customer's last name. |
| Merchants.InvoiceFinder | app/models/merchant.rb:12-14 | One invoice id per line item of the merchant's items: each id occurs exactly as often as the invoice has such line items. An invoice appears iff it has such a line item. |
| Merchants.EnabledMerchants | app/models/merchant.rb:43-45 | The result is exactly the existing merchants whose status is enabled. |
| Merchants.DisabledMerchants | app/models/merchant.rb:47-49 | The disabled merchants are exactly the merchants that are not enabled, so the two lists split all merchants. Every one returned has status disabled. |
| Merchants.ItemsReadyToShip | app/models/merchant.rb:51-56 | One row per unshipped line item of the merchant's items, duplicates kept: each row occurs exactly as often as such line items give it. A row appears iff such a line item has it. Rows are ordered by invoice `created_at` ascending. |
| Merchants.PayingCustomers | app/models/merchant.rb:21-24 | Grouping gives each customer once. A customer appears iff it has a successful transaction. |
| Merchants.Ranking | app/models/merchant.rb:21-25 | Exactly the customers with a successful transaction appear, once each. Each has its count of successful transactions, and counts are in descending order. |
| Merchants.TopOf | app/models/merchant.rb:25-26 | The limit keeps a prefix of the ranking of length min(limit, ranking size). Every customer left out has no more successful transactions than anyone kept. |
| Merchants.MerchantCustomerCount | app/models/merchant.rb:17 | `customers.count` counts one row per line item of the merchant's items that reaches a customer through its invoice. It is at most the number of line items, and positive iff some such line item exists. |
| Merchants.TopCustomers | app/models/merchant.rb:16-27 | The instance list is a prefix of the store-wide ranking. Its length is min(n, the merchant's `customers.count`, ranking size), with n defaulting to 5. Every customer left out has no more successful transactions than anyone kept. |
| Merchants.AllTopCustomers | app/models/merchant.rb:29-41 | The class-level list is the same prefix, capped by the number of all customers. Every customer left out has no more successful transactions than anyone kept. |
| Merchants.FailedIgnoredInRanking | app/models/merchant.rb:21-22 | Adding failed transactions never changes the ranking. |
| Scenarios.LineItemRevenue | spec/models/invoice_item_spec.rb:27-47 | 10 units at 15000 earn 150000 when paid and 0 after a failed payment. |
| Scenarios.DiscountChoice | spec/models/invoice_item_spec.rb:81-104 | An unmet threshold is skipped; among met thresholds the higher percent wins. |
| Scenarios.LineItemDiscountedRevenue | spec/models/invoice_item_spec.rb:107-152 | The discounted revenues are 120000, 75000, 75000, and 75000 when no discount applies. |
| Scenarios.CollectionRevenueSteps | spec/models/invoice_item_spec.rb:50-78 | Collection revenue is 0, 0, 8000 and 9000 as payments arrive. |
| Scenarios.InvoiceRevenueFigures | spec/models/invoice_spec.rb:53-64 | Invoice revenue is 0 after a failed payment and 145000 once paid. |
| Scenarios.EachLineItemItsBestDiscountByMerchant | spec/models/invoice_spec.rb:190-202 | Each line item gets its own best discount: 72 + 50 = 122. |
| Scenarios.OnlyQualifyingLineItemDiscounted | spec/models/invoice_spec.rb:100-110 | Only the line item meeting the threshold is discounted: 130. |
| Scenarios.OtherMerchantNotDiscounted | spec/models/invoice_spec.rb:124-134 | Another merchant's line item keeps full price: 180. |

## Left out

- Persistence, the SQL engine, and association loading. Tables are given as an explicit `Db` value.
- Controllers, routes, flash messages, views and currency or percent formatting. None of them computes revenue.
- `app/models/item.rb` is not part of this model. Its only query repeats `Merchant#invoice_finder`.
- `percentage` is not defined in app/models/bulk_discount.rb. It is modelled as `percent_discount / 100`.
- The source does its arithmetic in floating point. The model uses exact rationals, so rounding effects of floats are not captured. `to_i` is truncation toward zero.
- Ties are decided by position, and only maximality is stated. Among discounts with the same highest percent, the earliest in the table wins. Among customers with equal counts, the customer whose last successful transaction comes earlier in the transactions table wins. The source leaves both choices to the database.
- `ORDER BY items.name` uses code-point lexicographic order. Database collation is not modelled.
- Invoice revenue follows the code: the join counts each line item once per successful transaction of its invoice. It is not gated once per invoice. `InvoiceRevenueOneTx` states the single-transaction case, where both readings agree.
- The ranking in the instance `top_customers` follows the code and is not limited to the merchant's customers. Only its cap uses the merchant's `customers.count`, which counts one row per line item of the merchant's items.
- Merchants.TopCustomers: `customer_count` is a natural number. A negative count passed to `LIMIT` is not modelled.
- Invoices.InvoiceCustomerName: requires the invoice and its customer to exist. A missing customer raises in the source, and that error is not modelled.
- Error messages are error kinds, not message strings. The reason a field is blank, not numeric or fractional is an input of the validator; string parsing is not modelled.
- InvoiceItems.Revenue: the model treats a transaction as belonging to the line item's invoice by its invoice id. It does not also check that the invoice row exists. Every caller reaches the line items through an existing invoice.
- `items_ready_to_ship` returns the item together with the invoice id of the row, instead of the full item record.
- InvoiceItems.CollectionRevenue: integers are unbounded. The SQL sum of quantity * unit_price may overflow a 4-byte database column, while the instance revenue in Ruby does not. The schema is not part of this model, so no column width is modelled.
- InvoiceItems.CollectionRevenue: a transaction is matched to a line item by invoice id alone. The `joins(invoice: :transactions)` also needs the invoice row to exist; the model does not check that.
- InvoiceItems.MerchantOf: the merchant of a line item is the item's merchant id. It does not check that the merchant row exists, which `has_one :merchant, through: :item` would need.
