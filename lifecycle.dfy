/**
  One checkout end to end: the endpoint stores a pending transaction and
  queues its job, a worker takes the job and settles the transaction.
 */
module CheckoutLifecycle {
  import opened Wrappers
  import opened Json
  import opened UuidText
  import opened TransactionModel
  import opened PaymentSchemas
  import opened TransactionRepository
  import opened TransactionsEndpoint
  import opened Blumonpay
  import opened PaymentTasks

  /** Settling a freshly inserted row changes that row only, and leaves it
      with the gateway's status when the task returns and "failed" otherwise. */
  lemma SettleNewRow(before: map<Uuid, Transaction>, id: Uuid, created: Transaction, charge: SyncOutcome)
    ensures var (outcome, after) := Settle(before[id := created], Format(id), charge);
      && id in after
      && after == before[id := after[id]]
      && after[id].status == (if outcome.Returned? then outcome.status else "failed")
      && (outcome.Returned? ==> outcome.transactionId == Format(id))
  {
    var rows := before[id := created];
    ParseFormat(id);
    assert Settle(rows, Format(id), charge) == Apply(rows, id, charge);
    var (outcome, after) := Apply(rows, id, charge);
    var status := if outcome.Returned? then outcome.status else "failed";
    var gatewayId := if outcome.Returned? then GatewayTransactionId(charge.result) else None;
    assert after == rows[id := WithStatus(created, status, gatewayId)];
    assert after == before[id := WithStatus(created, status, gatewayId)];
  }

  /** A transaction moves from "pending" to the status the gateway reported,
      or to "failed". */
  method Checkout(api: PaymentsApi, worker: Worker, request: CardPaymentRequest, id: Uuid,
                  tokenReply: HttpResponse, chargeReply: HttpResponse)
    returns (created: Transaction, outcome: TaskOutcome)
    requires api.Valid() && worker.table == api.table
    requires id !in api.table.rows && api.jobs == []
    modifies api, api.table, worker, worker.service
    ensures created.status == "pending" && created.id == id
    ensures api.jobs == []
    ensures id in api.table.rows
    ensures api.table.rows[id].status == if outcome.Returned? then outcome.status else "failed"
    ensures outcome.Returned? ==> outcome.transactionId == Format(id)
    ensures api.table.rows == old(api.table.rows)[id := api.table.rows[id]]
  {
    ghost var before := api.table.rows;
    created := api.CreateTransaction(request, id);
    var job := api.TakeNextJob();
    assert job.transactionId == Format(id);
    ghost var rows := api.table.rows;
    assert rows == before[id := created];
    ghost var charge := SyncCharge(worker.service.HasToken(), tokenReply, chargeReply);
    SettleNewRow(before, id, created, charge);
    outcome := worker.ProcessPayment(job.transactionId, job.paymentData, tokenReply, chargeReply);
  }
}
