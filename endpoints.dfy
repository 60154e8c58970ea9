/**
  The `/transactions` endpoints of the payment backend: create a pending
  transaction and enqueue its payment job, fetch one transaction, list them.
 */
module TransactionsEndpoint {
  import opened Wrappers
  import opened Json
  import opened UuidText
  import opened TransactionModel
  import opened PaymentSchemas
  import opened TransactionRepository

  /** A `process_payment` job on the task queue: the transaction id as text
      and the full request as JSON. */
  datatype Job = ProcessPaymentJob(transactionId: string, paymentData: Json)

  /** An `HTTPException`. */
  datatype ApiError = HttpError(status: int, detail: string)

  class PaymentsApi {
    const table: TransactionTable
    /** Jobs enqueued and not yet taken by a worker, oldest first. */
    var jobs: seq<Job>

    ghost predicate Valid()
      reads this, table
    {
      table.Valid()
    }

    constructor (table: TransactionTable)
      requires table.Valid()
      ensures this.table == table && jobs == [] && Valid()
    {
      this.table := table;
      jobs := [];
    }

    /** `POST /transactions/`: stores the request without its card data as a
        pending row under the fresh id, enqueues one payment job carrying that
        id as text and the whole request, and answers with the new row. */
    method CreateTransaction(request: CardPaymentRequest, id: Uuid) returns (response: Transaction)
      requires Valid() && id !in table.rows
      modifies this, table
      ensures Valid()
      ensures response == NewRecord(id, WithoutCardData(request)) && response.status == "pending"
      ensures table.rows == old(table.rows)[id := response]
      ensures table.order == old(table.order) + [id]
      ensures jobs == old(jobs) + [ProcessPaymentJob(Format(id), RequestJson(request))]
    {
      var data := WithoutCardData(request);
      response := table.CreateTransaction(data, id);
      jobs := jobs + [ProcessPaymentJob(Format(response.id), RequestJson(request))];
    }

    /** `GET /transactions/{id}`: the stored row, or 404 "Transaction not found". */
    function GetTransaction(id: Uuid): (r: Result<Transaction, ApiError>)
      reads table
      ensures r.Err? <==> id !in table.rows
      ensures r.Ok? ==> r.value == table.rows[id]
      ensures r.Err? ==> r.error == HttpError(404, "Transaction not found")
    {
      match table.GetTransaction(id)
      case None => Err(HttpError(404, "Transaction not found"))
      case Some(t) => Ok(t)
    }

    /** `GET /transactions/`, with FastAPI's defaults `skip = 0`, `limit = 100`. */
    function ListTransactions(skip: int := 0, limit: int := 100): (r: seq<Transaction>)
      reads this, table
      requires Valid()
      ensures var available := if Offset(skip) < |table.order| then |table.order| - Offset(skip) else 0;
        |r| == if limit < 0 then available else Min(limit, available)
      ensures forall i :: 0 <= i < |r| ==> r[i] == table.rows[table.order[Offset(skip) + i]]
    {
      table.ListTransactions(skip, limit)
    }

    /** A worker takes the oldest job off the queue. */
    method TakeNextJob() returns (job: Job)
      requires jobs != []
      modifies this
      ensures job == old(jobs)[0] && jobs == old(jobs)[1..]
    {
      job := jobs[0];
      jobs := jobs[1..];
    }
  }

  /** The card data of a request never reaches the stored row: two requests
      that differ only in their card data create the same row. */
  lemma CardDataNotStored(request: CardPaymentRequest, card: CardData, id: Uuid)
    ensures NewRecord(id, WithoutCardData(request)) == NewRecord(id, WithoutCardData(request.(noPresentCardData := card)))
    ensures NewRecord(id, WithoutCardData(request)).status == "pending"
  {
  }

  /** With no query parameters the list is the first hundred rows in
      insertion order, or all of them when there are fewer. */
  lemma ListDefaults(api: PaymentsApi)
    requires api.Valid()
    ensures |api.ListTransactions()| == if |api.table.order| < 100 then |api.table.order| else 100
    ensures forall i :: 0 <= i < |api.ListTransactions()| ==> api.ListTransactions()[i] == api.table.rows[api.table.order[i]]
  {
  }
}
