/**
  The `process_payment` task the worker runs for each queued job: charge the
  gateway, then record its status on the transaction, or mark the
  transaction "failed" when any step raises.
 */
module PaymentTasks {
  import opened Wrappers
  import opened Json
  import opened UuidText
  import opened TransactionModel
  import opened TransactionRepository
  import opened Blumonpay

  /** Opening and closing of a database session. */
  datatype SessionEvent = Opened | Closed

  /** The task returns `{transaction_id, status}`, or re-raises. */
  datatype TaskOutcome = Returned(transactionId: string, status: string) | Raised

  /** `payment_result["status"]`, when it is text. */
  function GatewayStatus(result: Json): Option<string> {
    TextMember(result, "status")
  }

  /** `payment_result.get("blumonpay_transaction_id")`, when it is text. */
  function GatewayTransactionId(result: Json): Option<string> {
    TextMember(result, "blumonpay_transaction_id")
  }

  /** The outcome and the table once the id has parsed: a raised charge, a
      missing status or a missing row marks the transaction "failed" and
      raises; otherwise the row takes the gateway's status and id. */
  function Apply(rows: map<Uuid, Transaction>, id: Uuid, charge: SyncOutcome): (TaskOutcome, map<Uuid, Transaction>) {
    var failed := (Raised, StatusUpdated(rows, id, "failed", None));
    if charge.SyncRaised? || id !in rows then failed
    else match GatewayStatus(charge.result)
      case None => failed
      case Some(status) =>
        (Returned(Format(id), status), StatusUpdated(rows, id, status, GatewayTransactionId(charge.result)))
  }

  /** The outcome and the table after the task, given the gateway's answer;
      an id that does not parse touches nothing. */
  function Settle(rows: map<Uuid, Transaction>, transactionId: string, charge: SyncOutcome): (TaskOutcome, map<Uuid, Transaction>) {
    match Parse(transactionId)
    case None => (Raised, rows)
    case Some(id) => Apply(rows, id, charge)
  }

  /** The sessions opened and closed once the id has parsed: one for a
      successful update or a charge that raised, two when the update path
      raises after opening its session. */
  function ApplyTrace(rows: map<Uuid, Transaction>, id: Uuid, charge: SyncOutcome): seq<SessionEvent> {
    if charge.SyncRaised? then [Opened, Closed]
    else if GatewayStatus(charge.result).Some? && id in rows then [Opened, Closed]
    else [Opened, Closed, Opened, Closed]
  }

  /** The sessions the task opens and closes; an id that does not parse
      gets the one session of the except block. */
  function SessionTrace(rows: map<Uuid, Transaction>, transactionId: string, charge: SyncOutcome): seq<SessionEvent> {
    match Parse(transactionId)
    case None => [Opened, Closed]
    case Some(id) => ApplyTrace(rows, id, charge)
  }

  /** Every session is closed before the next one is opened, and none is
      left open. */
  predicate Balanced(trace: seq<SessionEvent>) {
    |trace| % 2 == 0 && forall i :: 0 <= i < |trace| ==> trace[i] == if i % 2 == 0 then Opened else Closed
  }

  lemma SessionsClosed(rows: map<Uuid, Transaction>, transactionId: string, charge: SyncOutcome)
    ensures |SessionTrace(rows, transactionId, charge)| > 0
    ensures Balanced(SessionTrace(rows, transactionId, charge))
  {
  }

  /** On a stored transaction, the task performs exactly one status update:
      the row takes the gateway's status when the task returns, and "failed"
      when it raises; every other row is unchanged. */
  lemma SettleOutcome(rows: map<Uuid, Transaction>, id: Uuid, charge: SyncOutcome)
    requires id in rows
    ensures var (outcome, after) := Settle(rows, Format(id), charge);
      && after.Keys == rows.Keys
      && (forall k :: k in rows && k != id ==> after[k] == rows[k])
      && (outcome.Returned? ==>
            && charge.Answered?
            && GatewayStatus(charge.result) == Some(outcome.status)
            && outcome.transactionId == Format(id)
            && after[id] == WithStatus(rows[id], outcome.status, GatewayTransactionId(charge.result)))
      && (outcome.Raised? ==> after[id] == WithStatus(rows[id], "failed", None))
      && (after[id].status == "pending" ==> outcome.Returned? && outcome.status == "pending")
      && (charge.Answered? && GatewayStatus(charge.result).Some? ==>
            outcome == Returned(Format(id), GatewayStatus(charge.result).value))
  {
    ParseFormat(id);
  }

  /** A gateway answer without a "status" member ends with the transaction
      marked "failed" and the task raising. */
  lemma MissingStatusFails(rows: map<Uuid, Transaction>, id: Uuid, result: Json)
    requires id in rows
    requires Member(result, "status").None?
    ensures Settle(rows, Format(id), Answered(result)).0 == Raised
    ensures Settle(rows, Format(id), Answered(result)).1[id].status == "failed"
  {
    ParseFormat(id);
  }

  /** The Celery worker: the shared table, the gateway adapter, and the
      sessions it has opened and closed. */
  class Worker {
    const table: TransactionTable
    const service: Service
    var sessions: seq<SessionEvent>

    constructor (table: TransactionTable, service: Service)
      ensures this.table == table && this.service == service && sessions == []
    {
      this.table := table;
      this.service := service;
      sessions := [];
    }

    /** Marks the transaction "failed" in a session of its own. */
    method MarkFailed(id: Uuid)
      requires table.Valid()
      modifies this, table
      ensures table.Valid() && table.order == old(table.order)
      ensures table.rows == StatusUpdated(old(table.rows), id, "failed", None)
      ensures sessions == old(sessions) + [Opened, Closed]
    {
      sessions := sessions + [Opened];
      var _ := table.UpdateTransactionStatus(id, "failed", None);
      sessions := sessions + [Closed];
    }

    /** The task from the gateway's answer on: record the status, or mark
        the transaction "failed". */
    method Record(id: Uuid, charge: SyncOutcome) returns (outcome: TaskOutcome)
      requires table.Valid()
      modifies this, table
      ensures table.Valid() && table.order == old(table.order)
      ensures (outcome, table.rows) == Apply(old(table.rows), id, charge)
      ensures sessions == old(sessions) + ApplyTrace(old(table.rows), id, charge)
    {
      if charge.SyncRaised? {
        MarkFailed(id);
        return Raised;
      }
      sessions := sessions + [Opened];
      var status := GatewayStatus(charge.result);
      if status.None? {
        sessions := sessions + [Closed];
        MarkFailed(id);
        return Raised;
      }
      var updated := table.UpdateTransactionStatus(id, status.value, GatewayTransactionId(charge.result));
      sessions := sessions + [Closed];
      if updated.None? {
        MarkFailed(id);
        return Raised;
      }
      outcome := Returned(Format(updated.value.id), updated.value.status);
    }

    /** `process_payment(transaction_id, payment_data)`, given the gateway's
        replies. */
    method ProcessPayment(transactionId: string, paymentData: Json, tokenReply: HttpResponse, chargeReply: HttpResponse)
      returns (outcome: TaskOutcome)
      requires table.Valid()
      modifies this, table, service
      ensures table.Valid() && table.order == old(table.order)
      ensures (outcome, table.rows)
        == Settle(old(table.rows), transactionId, SyncCharge(old(service.HasToken()), tokenReply, chargeReply))
      ensures sessions
        == old(sessions) + SessionTrace(old(table.rows), transactionId, SyncCharge(old(service.HasToken()), tokenReply, chargeReply))
      ensures Parse(transactionId).None? ==> service.token == old(service.token) && service.sent == old(service.sent)
      ensures Parse(transactionId).Some? ==> service.token == TokenAfter(old(service.token), tokenReply, false)
      ensures Parse(transactionId).Some? && old(service.HasToken()) ==>
        service.sent == old(service.sent) + [ChargePost(service.chargeUrl, paymentData, Bearer(service.token))]
      ensures Parse(transactionId).Some? && !old(service.HasToken()) ==>
        service.sent == old(service.sent)
          + [TokenPost(service.tokenUrl, MultipartForm, service.username, Sha256HexOf(service.password), "password",
                       Basic(BasicCredentialsText))]
          + (if TokenOutcomeOf(tokenReply, false).TokenRaised? then []
             else [ChargePost(service.chargeUrl, paymentData, Bearer(service.token))])
    {
      var parsed := Parse(transactionId);
      if parsed.None? {
        // The except block updates by the raw text, which names no row.
        sessions := sessions + [Opened, Closed];
        return Raised;
      }
      var result := service.ProcessPaymentSync(paymentData, tokenReply, chargeReply);
      outcome := Record(parsed.value, result);
    }
  }
}
