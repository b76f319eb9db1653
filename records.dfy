/**
 * The records of the shop's database, as plain values.
 *
 * Tables reached through a `belongs_to` association (items, invoices,
 * customers, merchants) are maps from primary key to record, so that a join
 * on a foreign key is a map lookup. Tables that the core iterates (invoice
 * items, transactions, bulk discounts) are sequences.
 */
module Records {

  datatype Option<T> = None | Some(value: T)

  datatype Result<T, E> = Ok(value: T) | Err(error: E)

  /** `transactions.result`: 0 is a successful payment, anything else failed. */
  datatype TxResult = Successful | Failed

  datatype Transaction = Transaction(invoiceId: nat, result: TxResult)

  /** `invoice_items.status`: pending (0), packaged (1), shipped (2). */
  datatype ShipStatus = Pending | Packaged | Shipped

  /** One invoice line item; `unitPrice` is in minor currency units. */
  datatype InvoiceItem = InvoiceItem(
    itemId: nat,
    invoiceId: nat,
    quantity: int,
    unitPrice: int,
    status: ShipStatus)

  /** A catalog item, owned by exactly one merchant. */
  datatype Item = Item(merchantId: nat, name: string)

  /** A volume discount of one merchant: `percentDiscount` off once `threshold` units are bought. */
  datatype BulkDiscount = BulkDiscount(merchantId: nat, percentDiscount: int, threshold: int)

  datatype Invoice = Invoice(customerId: nat, createdAt: int)

  datatype Customer = Customer(firstName: string, lastName: string)

  /** `merchants.status`: Disabled (0), Enabled (1). */
  datatype MerchantStatus = Disabled | Enabled

  datatype Merchant = Merchant(name: string, status: MerchantStatus)

  /** A snapshot of every table the core reads. */
  datatype Db = Db(
    merchants: map<nat, Merchant>,
    items: map<nat, Item>,
    invoices: map<nat, Invoice>,
    customers: map<nat, Customer>,
    invoiceItems: seq<InvoiceItem>,
    transactions: seq<Transaction>,
    discounts: seq<BulkDiscount>)
}
