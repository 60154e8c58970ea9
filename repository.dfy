/**
  The transaction repository over the `transactions` table: create a
  pending row, update a row's status, fetch one row, list a window of rows.
  The table keeps its rows by id and remembers the order they were added in.
 */
module TransactionRepository {
  import opened Wrappers
  import opened UuidText
  import opened TransactionModel
  import opened PaymentSchemas

  /** The row `create_transaction` builds for `data`: the name is
      "first last", the status "pending", no gateway id yet. */
  function NewRecord(id: Uuid, data: TransactionCreate): Transaction {
    var ci := data.customerInformation;
    Transaction(id, data.amount, data.currency, ci.email, ci.firstName + " " + ci.lastName, "pending", None)
  }

  /** A freshly created row passes the `TransactionResponse` checks exactly
      when the amount is positive, the currency 3 characters long, the e-mail
      well-formed and at least one of the two name parts non-empty: the joined
      name is then at least 2 characters long. */
  lemma CreatedRowResponseValid(id: Uuid, data: TransactionCreate, emailStr: string -> bool)
    ensures ValidTransactionResponse(NewRecord(id, data), emailStr) <==>
      && data.amount > 0.0
      && |data.currency| == 3
      && emailStr(data.customerInformation.email)
      && (data.customerInformation.firstName != "" || data.customerInformation.lastName != "")
  {
  }

  /** A row after `update_transaction_status`: the new status, and the gateway
      id replaced only by a non-empty one. */
  function WithStatus(t: Transaction, status: string, gatewayId: Option<string>): Transaction {
    t.(status := status,
       blumonpayTransactionId := if gatewayId.Some? && gatewayId.value != "" then gatewayId else t.blumonpayTransactionId)
  }

  /** The table after `update_transaction_status(id, status, gatewayId)`. */
  function StatusUpdated(rows: map<Uuid, Transaction>, id: Uuid, status: string, gatewayId: Option<string>): (r: map<Uuid, Transaction>)
    ensures r.Keys == rows.Keys
    ensures id in rows ==> r[id].status == status
    ensures forall k :: k in rows && k != id ==> r[k] == rows[k]
  {
    if id in rows then rows[id := WithStatus(rows[id], status, gatewayId)] else rows
  }

  /** An update changes the status and, when given a non-empty one, the
      gateway id of its own row and nothing else; an update of a missing id
      changes nothing. */
  lemma StatusUpdateEffect(rows: map<Uuid, Transaction>, id: Uuid, status: string, gatewayId: Option<string>)
    ensures id !in rows ==> StatusUpdated(rows, id, status, gatewayId) == rows
    ensures id in rows ==>
      var t, u := rows[id], StatusUpdated(rows, id, status, gatewayId)[id];
      && u.status == status
      && (if gatewayId.Some? && gatewayId.value != "" then u.blumonpayTransactionId == gatewayId
          else u.blumonpayTransactionId == t.blumonpayTransactionId)
      && u.(status := t.status, blumonpayTransactionId := t.blumonpayTransactionId) == t
  {
  }

  function Min(a: int, b: int): int {
    if a < b then a else b
  }

  /** Where a window starts: SQLite reads a negative `OFFSET` as 0. */
  function Offset(skip: int): nat {
    if skip < 0 then 0 else skip
  }

  /** The rows of `ids`, in that order. */
  function RowsOf(rows: map<Uuid, Transaction>, ids: seq<Uuid>): (r: seq<Transaction>)
    requires forall i :: 0 <= i < |ids| ==> ids[i] in rows
    ensures |r| == |ids|
    ensures forall i :: 0 <= i < |ids| ==> r[i] == rows[ids[i]]
  {
    if ids == [] then [] else [rows[ids[0]]] + RowsOf(rows, ids[1..])
  }

  class TransactionTable {
    var rows: map<Uuid, Transaction>
    /** Ids in the order their rows were added. */
    var order: seq<Uuid>

    ghost predicate Valid()
      reads this
    {
      && (forall i :: 0 <= i < |order| ==> order[i] in rows)
      && (forall id :: id in rows ==> id in order)
      && (forall i, j :: 0 <= i < j < |order| ==> order[i] != order[j])
      && (forall id :: id in rows ==> rows[id].id == id)
    }

    constructor ()
      ensures Valid() && rows == map[] && order == []
    {
      rows := map[];
      order := [];
    }

    /** `create_transaction`: adds one pending row under a fresh id and returns it. */
    method CreateTransaction(data: TransactionCreate, id: Uuid) returns (t: Transaction)
      requires Valid() && id !in rows
      modifies this
      ensures Valid()
      ensures t == NewRecord(id, data)
      ensures t.status == "pending" && t.id == id
      ensures rows == old(rows)[id := t] && order == old(order) + [id]
      ensures |rows| == |old(rows)| + 1
      ensures GetTransaction(id) == Some(t)
    {
      t := NewRecord(id, data);
      rows := rows[id := t];
      order := order + [id];
    }

    /** `update_transaction_status`: the updated row, or None (and no change)
        when no row has that id. */
    method UpdateTransactionStatus(id: Uuid, status: string, gatewayId: Option<string>) returns (r: Option<Transaction>)
      requires Valid()
      modifies this
      ensures Valid() && order == old(order)
      ensures rows == StatusUpdated(old(rows), id, status, gatewayId)
      ensures r == if id in old(rows) then Some(rows[id]) else None
    {
      if id in rows {
        var t := WithStatus(rows[id], status, gatewayId);
        rows := rows[id := t];
        r := Some(t);
      } else {
        r := None;
      }
    }

    /** `get_transaction`: the row with that id, if any. */
    function GetTransaction(id: Uuid): (r: Option<Transaction>)
      reads this
      ensures r.Some? <==> id in rows
      ensures r.Some? ==> r.value == rows[id]
    {
      if id in rows then Some(rows[id]) else None
    }

    /** `list_transactions(skip, limit)`: the rows from position `skip` on,
        at most `limit` of them, as SQLite reads `OFFSET` and `LIMIT`: a
        negative offset counts as 0 and a negative limit means no limit. */
    function ListTransactions(skip: int, limit: int): (r: seq<Transaction>)
      reads this
      requires Valid()
      ensures var available := if Offset(skip) < |order| then |order| - Offset(skip) else 0;
        |r| == if limit < 0 then available else Min(limit, available)
      ensures forall i :: 0 <= i < |r| ==> r[i] == rows[order[Offset(skip) + i]]
    {
      var from := Min(Offset(skip), |order|);
      var count := if limit < 0 then |order| - from else Min(limit, |order| - from);
      RowsOf(rows, order[from..][..count])
    }
  }
}
