/** backend/models/Transaction.js: one wallet ledger row. */
module TransactionModel {
  import opened Common

  datatype TxType = Credit | Debit
  datatype TxStatus = Pending | Completed | Failed

  /** `user`, `type`, `amount`, `balance` and `description` are required;
      `orderId` and `paymentId` are optional and sparse but not unique. */
  datatype Transaction = Transaction(
    user: Id,
    kind: TxType,
    amount: int,
    balance: int,
    description: string,
    paymentId: Option<string>,
    orderId: Option<string>,
    status: TxStatus)

  /** A row as the schema fills it in from its required fields. */
  function Entry(user: Id, kind: TxType, amount: int, balance: int, description: string): (t: Transaction)
    ensures t.status == Pending && t.orderId.None? && t.paymentId.None?
    ensures t.user == user && t.kind == kind && t.amount == amount && t.balance == balance
    ensures description != "" ==> ValidTransaction(t)
  {
    Transaction(user, kind, amount, balance, description, None, None, Pending)
  }

  /** A required string must be non-empty for Mongoose; the other required
      fields always have a value here. */
  predicate ValidTransaction(t: Transaction)
  {
    t.description != ""
  }

  predicate LedgerOk(txs: seq<Transaction>)
  {
    forall i :: 0 <= i < |txs| ==> ValidTransaction(txs[i])
  }
}
