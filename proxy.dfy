/**
  The Next.js API route `/api/transactions`: it relays POST (create a
  payment) and GET (list transactions) to the backend and answers every
  other method with 405. The backend's answer to the one call it makes is a
  parameter.
 */
module TransactionsProxy {
  import opened Wrappers
  import opened Json
  import opened FormUrlEncoded

  /** The query parameters the route reads, each absent or text. */
  datatype Query = Query(limit: Option<string>, offset: Option<string>, status: Option<string>)

  datatype ProxyRequest = ProxyRequest(verb: string, body: Json, query: Query)

  /** The one backend call the route makes. */
  datatype BackendCall = PostCall(url: string, body: Json) | GetCall(url: string)

  /** The route's answer: a status and a JSON body. */
  datatype Reply = Reply(status: int, body: Json)

  const PostFallback := "An error occurred while processing the payment"
  const GetFallback := "An error occurred while fetching transactions"

  /** JavaScript truthiness of a query value. */
  predicate Present(v: Option<string>) {
    v.Some? && v.value != ""
  }

  /** The tuples `append`ed for a query, in the route's order. */
  function ForwardedParams(q: Query): seq<(string, string)> {
    (if Present(q.limit) then [("limit", q.limit.value)] else [])
    + (if Present(q.offset) then [("offset", q.offset.value)] else [])
    + (if Present(q.status) then [("status", q.status.value)] else [])
  }

  /** Position of a forwarded name in the order limit, offset, status. */
  function Rank(name: string): int {
    if name == "limit" then 0 else if name == "offset" then 1 else 2
  }

  /** The query value the route reads under a forwarded name. */
  function ValueOf(q: Query, name: string): Option<string> {
    if name == "limit" then q.limit
    else if name == "offset" then q.offset
    else if name == "status" then q.status
    else None
  }

  /** A tuple is forwarded exactly when its name is one the route reads and
      the query holds that value and it is truthy; the forwarded names keep
      the order limit, offset, status. */
  lemma ForwardedParamsSpec(q: Query, name: string, value: string)
    ensures (exists i :: 0 <= i < |ForwardedParams(q)| && ForwardedParams(q)[i] == (name, value))
      <==> ValueOf(q, name) == Some(value) && value != ""
    ensures forall i, j :: 0 <= i < j < |ForwardedParams(q)| ==>
      Rank(ForwardedParams(q)[i].0) < Rank(ForwardedParams(q)[j].0)
  {
    var p := ForwardedParams(q);
    if ValueOf(q, name) == Some(value) && value != "" {
      if name == "limit" {
        assert p[0] == (name, value);
      } else if name == "offset" {
        assert p[if Present(q.limit) then 1 else 0] == (name, value);
      } else {
        assert p[|p| - 1] == (name, value);
      }
    }
  }

  /** The backend URL of a list request: `{base}/transactions`, followed by
      "?" and the serialized parameters exactly when at least one is present. */
  function ListUrl(base: string, q: Query): (url: string)
    ensures ForwardedParams(q) == [] ==> url == base + "/transactions"
    ensures ForwardedParams(q) != [] ==>
      var prefix := base + "/transactions?";
      |url| > |prefix| && url[..|prefix|] == prefix && Parse(url[|prefix|..]) == Some(ForwardedParams(q))
  {
    var prefix := base + "/transactions";
    var query := Serialize(ForwardedParams(q));
    ParseSerialize(ForwardedParams(q));
    if query != "" then
      assert (prefix + "?" + query)[|prefix| + 1..] == query;
      prefix + "?" + query
    else prefix
  }

  /** Builds the list URL as the route does, appending each present
      parameter to a `URLSearchParams`. */
  method BuildListUrl(base: string, q: Query) returns (url: string)
    ensures url == ListUrl(base, q)
  {
    var params := new SearchParams();
    if Present(q.limit) {
      params.Append("limit", q.limit.value);
    }
    if Present(q.offset) {
      params.Append("offset", q.offset.value);
    }
    if Present(q.status) {
      params.Append("status", q.status.value);
    }
    assert params.list == ForwardedParams(q);
    var query := params.ToString();
    if query != "" {
      url := base + "/transactions" + "?" + query;
    } else {
      url := base + "/transactions";
    }
  }

  /** `response.data`: parsed JSON, or the raw text as a JSON string. */
  function Data(body: Body): Json {
    match body
    case Parsed(j) => j
    case Text(t) => JStr(t)
  }

  /** `error.response?.data?.detail || fallback` */
  function Detail(answer: HttpResponse, fallback: string): Json {
    if answer.Response? && answer.body.Parsed? then
      match Member(answer.body.json, "detail")
      case Some(d) => if JsTruthy(d) then d else JStr(fallback)
      case None => JStr(fallback)
    else JStr(fallback)
  }

  /** The route's answer to the backend's answer. axios rejects every status
      outside 2xx; the route then answers with the backend's status, or 500
      when there is none, and a body holding only a `detail`. */
  function Relay(answer: HttpResponse, fallback: string): (r: Reply)
    ensures r.status == 200 <==> answer.Response? && 200 <= answer.status < 300
    ensures r.status == 200 ==> r.body == Data(answer.body)
    ensures r.status != 200 ==>
      && r.status == (if answer.Response? && answer.status != 0 then answer.status else 500)
      && r.body.JObj? && r.body.fields.Keys == {"detail"}
      && var d := r.body.fields["detail"];
         (d != JStr(fallback) ==> answer.Response? && Member(Data(answer.body), "detail") == Some(d) && JsTruthy(d))
  {
    match answer
    case Response(status, body) =>
      if 200 <= status < 300 then Reply(200, Data(body))
      else Reply(if status != 0 then status else 500, JObj(map["detail" := Detail(answer, fallback)]))
    case ConnectionError => Reply(500, JObj(map["detail" := Detail(answer, fallback)]))
  }

  /** A backend error that carries a truthy `detail` passes it through; one
      that carries none gets the fallback. */
  lemma RelayDetail(status: int, data: Json, fallback: string)
    requires !(200 <= status < 300)
    ensures var r := Relay(Response(status, Parsed(data)), fallback);
      r.body.fields["detail"] ==
        if Member(data, "detail").Some? && JsTruthy(Member(data, "detail").value) then Member(data, "detail").value
        else JStr(fallback)
  {
  }

  /** `handler(req, res)`: the backend call it makes, if any, and its answer. */
  method Handler(req: ProxyRequest, base: string, answer: HttpResponse) returns (call: Option<BackendCall>, reply: Reply)
    ensures req.verb == "POST" ==>
      call == Some(PostCall(base + "/transactions", req.body)) && reply == Relay(answer, PostFallback)
    ensures req.verb == "GET" ==>
      call == Some(GetCall(ListUrl(base, req.query))) && reply == Relay(answer, GetFallback)
    ensures req.verb != "POST" && req.verb != "GET" ==>
      call == None && reply == Reply(405, JObj(map["detail" := JStr("Method not allowed")]))
  {
    if req.verb == "POST" {
      call := Some(PostCall(base + "/transactions", req.body));
      reply := Relay(answer, PostFallback);
    } else if req.verb == "GET" {
      var url := BuildListUrl(base, req.query);
      call := Some(GetCall(url));
      reply := Relay(answer, GetFallback);
    } else {
      call := None;
      reply := Reply(405, JObj(map["detail" := JStr("Method not allowed")]));
    }
  }
}
