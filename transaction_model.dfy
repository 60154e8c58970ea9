/** A row of the `transactions` table. */
module TransactionModel {
  import opened Wrappers
  import opened UuidText

  /** The table's columns but `created_at`; `status` is one of "pending",
      "completed", "failed" or whatever status text the gateway returned. */
  datatype Transaction = Transaction(
    id: Uuid,
    amount: real,
    currency: string,
    customerEmail: string,
    customerName: string,
    status: string,
    blumonpayTransactionId: Option<string>)
}
