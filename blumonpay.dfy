/**
  The adapter for the Blumonpay card gateway: the HTTP Basic credential, the
  access token it fetches once and keeps, the charge payload it builds, and
  how it reads the gateway's answers. Every HTTP reply is a parameter.
 */
module Blumonpay {
  import opened Wrappers
  import opened Json
  import Utf8
  import Base64
  import PaymentShape
  import Config

  /** The fixed `user-id ":" password` text of the Basic credential (section 2
      of RFC 7617); the configured username and password are not used. */
  const BasicUserId := "blumon_pay_ecommerce_api"
  const BasicPassword := "blumon_pay_ecommerce_api_password"
  const BasicCredentialsText := BasicUserId + ":" + BasicPassword

  /** The Base64 (section 4 of RFC 4648) encoding of the UTF-8 octets of
      `text`, which decodes back to `text`. */
  function EncodeCredentials(text: string): (token: string)
    ensures Base64.Decode(token).Some?
    ensures Utf8.Decode(Base64.Decode(token).value) == Some(text)
  {
    var octets := Utf8.Encode(text);
    Base64.DecodeEncode(octets);
    Utf8.DecodeEncode(text);
    Base64.Encode(octets)
  }

  /** `generate_basic_token`: the encoded fixed credential text, the same for
      every configuration. */
  function GenerateBasicToken(): (token: string)
    ensures Base64.Decode(token).Some?
    ensures Utf8.Decode(Base64.Decode(token).value) == Some(BasicCredentialsText)
  {
    EncodeCredentials(BasicCredentialsText)
  }

  /** An `Authorization` header: Basic with the credential text it encodes,
      or Bearer with the kept token. */
  datatype Authorization = Basic(credentials: string) | Bearer(token: Option<string>)

  /** The header's text; `f"Bearer {self.token}"` renders a missing token as "None". */
  function HeaderText(a: Authorization): string {
    match a
    case Basic(credentials) => "Basic " + EncodeCredentials(credentials)
    case Bearer(token) => "Bearer " + (if token.Some? then token.value else "None")
  }

  /** The token request's header is "Basic " and `generate_basic_token()`;
      a charge made without a token sends "Bearer None". */
  lemma HeaderTexts(token: string)
    ensures HeaderText(Basic(BasicCredentialsText)) == "Basic " + GenerateBasicToken()
    ensures HeaderText(Bearer(Some(token))) == "Bearer " + token
    ensures HeaderText(Bearer(None)) == "Bearer None"
  {
  }

  /** Python truthiness of `self.token`. */
  predicate Present(token: Option<string>) {
    token.Some? && token.value != ""
  }

  /** The password field of a token request: the plain password (async) or the
      SHA-256 hex digest of it (sync), which is not computed here. */
  datatype PasswordField = PlainPassword(text: string) | Sha256HexOf(text: string)

  datatype FormEncoding = UrlEncodedForm | MultipartForm

  /** The requests the adapter sends, in order. */
  datatype OutboundRequest =
    | TokenPost(url: string, encoding: FormEncoding, username: string, password: PasswordField,
                grantType: string, authorization: Authorization)
    | ChargePost(url: string, body: Json, authorization: Authorization)

  /** Whether `raise_for_status` raises: `requests` raises on 4xx and 5xx,
      `httpx` on every status outside 2xx. */
  predicate RaisesForStatus(status: int, viaHttpx: bool) {
    if viaHttpx then !(200 <= status < 300) else 400 <= status < 600
  }

  /** `data.get("access_token")`, when it is text. */
  function AccessToken(data: Json): Option<string> {
    TextMember(data, "access_token")
  }

  /** A token request either raises or yields the reply's `access_token`. */
  datatype TokenOutcome = Fetched(token: Option<string>) | TokenRaised

  /** A token reply as `get_token` (`viaHttpx`) or `get_token_sync` reads it:
      no reply, a raising status, a body that is not JSON or a JSON value that
      is not an object all raise. */
  function TokenOutcomeOf(reply: HttpResponse, viaHttpx: bool): (r: TokenOutcome)
    ensures r.Fetched? <==>
      reply.Response? && !RaisesForStatus(reply.status, viaHttpx) && reply.body.Parsed? && reply.body.json.JObj?
    ensures r.Fetched? ==> r.token == AccessToken(reply.body.json)
  {
    match reply
    case ConnectionError => TokenRaised
    case Response(status, body) =>
      if RaisesForStatus(status, viaHttpx) then TokenRaised
      else match body
        case Text(_) => TokenRaised
        case Parsed(data) => if data.JObj? then Fetched(AccessToken(data)) else TokenRaised
  }

  /** `self.token` after one payment: kept when present, otherwise replaced by
      a successfully fetched one. */
  function TokenAfter(token: Option<string>, tokenReply: HttpResponse, viaHttpx: bool): Option<string> {
    if Present(token) then token
    else match TokenOutcomeOf(tokenReply, viaHttpx)
      case Fetched(t) => t
      case TokenRaised => token
  }

  /** What `process_payment_sync` does: return the gateway's JSON, or raise. */
  datatype SyncOutcome = Answered(result: Json) | SyncRaised

  /** The charge reply as `process_payment_sync` reads it: whatever JSON the
      gateway sent, with no status check. */
  function ChargeAnswer(reply: HttpResponse): SyncOutcome {
    match reply
    case ConnectionError => SyncRaised
    case Response(_, Text(_)) => SyncRaised
    case Response(_, Parsed(result)) => Answered(result)
  }

  /** `process_payment_sync`, given whether a token was present and both replies. */
  function SyncCharge(hadToken: bool, tokenReply: HttpResponse, chargeReply: HttpResponse): SyncOutcome {
    if !hadToken && TokenOutcomeOf(tokenReply, false).TokenRaised? then SyncRaised
    else ChargeAnswer(chargeReply)
  }

  /** `process_payment_sync` hands back the gateway's JSON exactly as sent,
      whatever the HTTP status, and raises only when there is no token reply
      to use or no JSON. */
  lemma SyncReturnsRawJson(hadToken: bool, tokenReply: HttpResponse, chargeReply: HttpResponse)
    ensures SyncCharge(hadToken, tokenReply, chargeReply).Answered? ==>
      chargeReply.Response? && chargeReply.body == Parsed(SyncCharge(hadToken, tokenReply, chargeReply).result)
    ensures SyncCharge(hadToken, tokenReply, chargeReply).SyncRaised? <==>
      (!hadToken && TokenOutcomeOf(tokenReply, false).TokenRaised?) || chargeReply.ConnectionError? || chargeReply.body.Text?
  {
  }

  /** The gateway status mapped to the transaction status. */
  function MapStatus(result: Json): (s: string)
    ensures s == "completed" || s == "failed"
    ensures s == "completed" <==> Member(result, "status") == Some(JStr("succeeded"))
  {
    if Member(result, "status") == Some(JStr("succeeded")) then "completed" else "failed"
  }

  /** The dict `process_payment` returns: the mapped status, the gateway's
      `id` and the whole gateway answer, or a failure with an error text
      (which is not modelled). */
  datatype ChargeResult =
    | Normalised(status: string, gatewayId: Option<Json>, details: Json)
    | FailedWithError

  function ResultStatus(c: ChargeResult): string {
    if c.Normalised? then c.status else "failed"
  }

  /** The charge reply as `process_payment` reads it: any error becomes a
      failed result. */
  function ChargeResultOf(reply: HttpResponse): ChargeResult {
    match reply
    case ConnectionError => FailedWithError
    case Response(status, body) =>
      if RaisesForStatus(status, true) then FailedWithError
      else match body
        case Text(_) => FailedWithError
        case Parsed(result) =>
          if result.JObj? then Normalised(MapStatus(result), Member(result, "id"), result)
          else FailedWithError
  }

  /** What the async `process_payment` does: settle on a result, or let the
      token request's exception through. */
  datatype AsyncOutcome = Settled(result: ChargeResult) | TokenFetchRaised

  function AsyncCharge(hadToken: bool, tokenReply: HttpResponse, chargeReply: HttpResponse): AsyncOutcome {
    if !hadToken && TokenOutcomeOf(tokenReply, true).TokenRaised? then TokenFetchRaised
    else Settled(ChargeResultOf(chargeReply))
  }

  /** The charge stage of `process_payment` never raises: it settles on
      "completed" exactly when the gateway answered 2xx with an object whose
      status is "succeeded", and on "failed" otherwise. Only the token request
      made before it can raise. */
  lemma AsyncChargeOutcome(hadToken: bool, tokenReply: HttpResponse, chargeReply: HttpResponse)
    ensures AsyncCharge(hadToken, tokenReply, chargeReply).TokenFetchRaised? <==>
      !hadToken && TokenOutcomeOf(tokenReply, true).TokenRaised?
    ensures hadToken ==> AsyncCharge(hadToken, tokenReply, chargeReply).Settled?
    ensures AsyncCharge(hadToken, tokenReply, chargeReply).Settled? ==>
      var r := AsyncCharge(hadToken, tokenReply, chargeReply).result;
      && (ResultStatus(r) == "completed" || ResultStatus(r) == "failed")
      && (ResultStatus(r) == "completed" <==>
           chargeReply.Response? && 200 <= chargeReply.status < 300 && chargeReply.body.Parsed?
           && Member(chargeReply.body.json, "status") == Some(JStr("succeeded")))
      && (r.Normalised? ==> chargeReply.body == Parsed(r.details) && r.gatewayId == Member(r.details, "id"))
  {
    if !(!hadToken && TokenOutcomeOf(tokenReply, true).TokenRaised?) {
      var r := ChargeResultOf(chargeReply);
      if ResultStatus(r) == "completed" {
        assert r.Normalised?;
      }
    }
  }

  function AmountJson(amount: Option<real>): Json {
    if amount.Some? then JNum(amount.value) else JNull
  }

  /** The `card` object of a charge body. */
  function CardJson(card: PaymentShape.CardInfo): Json {
    JObj(map[
      "number" := JStr(card.cardNumber),
      "exp_month" := JStr(card.cardExpiryMonth),
      "exp_year" := JStr(card.cardExpiryYear),
      "cvv" := JStr(card.cardCvv),
      "holder_name" := JStr(card.cardHolderName)])
  }

  /** The JSON body of a charge request. */
  function ChargePayload(p: PaymentShape.PaymentData): Json {
    JObj(map[
      "amount" := AmountJson(p.amount),
      "currency" := JStr(p.currency),
      "card" := CardJson(p.cardInfo),
      "customer" := JObj(map["email" := JStr(p.customerEmail), "name" := JStr(p.customerName)])])
  }

  function ReadAmount(j: Json): Option<Option<real>> {
    match j
    case JNull => Some(None)
    case JNum(n) => Some(Some(n))
    case _ => None
  }

  function ReadCard(j: Json): Option<PaymentShape.CardInfo> {
    match (TextMember(j, "number"), TextMember(j, "exp_month"), TextMember(j, "exp_year"),
           TextMember(j, "cvv"), TextMember(j, "holder_name"))
    case (Some(number), Some(month), Some(year), Some(cvv), Some(holder)) =>
      Some(PaymentShape.CardInfo(number, month, year, cvv, holder))
    case _ => None
  }

  /** How the gateway reads a charge body: the inverse of `ChargePayload`. */
  function ReadChargePayload(j: Json): Option<PaymentShape.PaymentData> {
    match (Member(j, "amount"), TextMember(j, "currency"), Member(j, "card"), Member(j, "customer"))
    case (Some(amount), Some(currency), Some(card), Some(customer)) =>
      (match (ReadAmount(amount), ReadCard(card), TextMember(customer, "email"), TextMember(customer, "name"))
       case (Some(a), Some(c), Some(email), Some(name)) => Some(PaymentShape.PaymentData(a, currency, email, name, c))
       case _ => None)
    case _ => None
  }

  lemma ReadCardOf(card: PaymentShape.CardInfo)
    ensures ReadCard(CardJson(card)) == Some(card)
  {
    var j := CardJson(card);
    assert TextMember(j, "number") == Some(card.cardNumber);
    assert TextMember(j, "exp_month") == Some(card.cardExpiryMonth);
    assert TextMember(j, "exp_year") == Some(card.cardExpiryYear);
    assert TextMember(j, "cvv") == Some(card.cardCvv);
    assert TextMember(j, "holder_name") == Some(card.cardHolderName);
  }

  /** The charge payload carries the amount, the currency, the five card
      fields and the customer's email and name unaltered. */
  lemma ReadChargePayloadOf(p: PaymentShape.PaymentData)
    ensures ReadChargePayload(ChargePayload(p)) == Some(p)
  {
    var j := ChargePayload(p);
    var customer := JObj(map["email" := JStr(p.customerEmail), "name" := JStr(p.customerName)]);
    assert Member(j, "amount") == Some(AmountJson(p.amount));
    assert TextMember(j, "currency") == Some(p.currency);
    assert Member(j, "card") == Some(CardJson(p.cardInfo));
    assert Member(j, "customer") == Some(customer);
    assert ReadAmount(AmountJson(p.amount)) == Some(p.amount);
    ReadCardOf(p.cardInfo);
    assert TextMember(customer, "email") == Some(p.customerEmail);
    assert TextMember(customer, "name") == Some(p.customerName);
  }

  /** `BlumonpayService`: the gateway endpoints and credentials from the
      settings, the cached access token, and the requests sent so far. */
  class Service {
    const tokenUrl: string
    const chargeUrl: string
    const username: string
    const password: string
    var token: Option<string>
    var sent: seq<OutboundRequest>

    constructor (settings: Config.Settings)
      ensures tokenUrl == settings.blumonpayTokenHost && chargeUrl == settings.blumonpayChargeHost
      ensures username == settings.blumonpayUsername && password == settings.blumonpayPassword
      ensures token == None && sent == []
    {
      tokenUrl := settings.blumonpayTokenHost;
      chargeUrl := settings.blumonpayChargeHost;
      username := settings.blumonpayUsername;
      password := settings.blumonpayPassword;
      token := None;
      sent := [];
    }

    predicate HasToken()
      reads this
    {
      Present(token)
    }

    /** `get_token` (async, form-encoded, plain password). */
    method GetToken(reply: HttpResponse) returns (outcome: TokenOutcome)
      modifies this
      ensures outcome == TokenOutcomeOf(reply, true)
      ensures token == if outcome.Fetched? then outcome.token else old(token)
      ensures sent == old(sent) + [TokenPost(tokenUrl, UrlEncodedForm, username, PlainPassword(password), "password", Basic(BasicCredentialsText))]
    {
      sent := sent + [TokenPost(tokenUrl, UrlEncodedForm, username, PlainPassword(password), "password", Basic(BasicCredentialsText))];
      outcome := TokenOutcomeOf(reply, true);
      if outcome.Fetched? {
        token := outcome.token;
      }
    }

    /** `get_token_sync` (multipart, hashed password). */
    method GetTokenSync(reply: HttpResponse) returns (outcome: TokenOutcome)
      modifies this
      ensures outcome == TokenOutcomeOf(reply, false)
      ensures token == if outcome.Fetched? then outcome.token else old(token)
      ensures sent == old(sent) + [TokenPost(tokenUrl, MultipartForm, username, Sha256HexOf(password), "password", Basic(BasicCredentialsText))]
    {
      sent := sent + [TokenPost(tokenUrl, MultipartForm, username, Sha256HexOf(password), "password", Basic(BasicCredentialsText))];
      outcome := TokenOutcomeOf(reply, false);
      if outcome.Fetched? {
        token := outcome.token;
      }
    }

    /** `process_payment_sync`: fetch a token only when none is kept, then
        post the payment data as is and return the gateway's JSON. */
    method ProcessPaymentSync(paymentData: Json, tokenReply: HttpResponse, chargeReply: HttpResponse) returns (outcome: SyncOutcome)
      modifies this
      ensures outcome == SyncCharge(old(HasToken()), tokenReply, chargeReply)
      ensures token == TokenAfter(old(token), tokenReply, false)
      ensures old(HasToken()) ==> sent == old(sent) + [ChargePost(chargeUrl, paymentData, Bearer(token))]
      ensures !old(HasToken()) ==>
        sent == old(sent)
          + [TokenPost(tokenUrl, MultipartForm, username, Sha256HexOf(password), "password", Basic(BasicCredentialsText))]
          + (if TokenOutcomeOf(tokenReply, false).TokenRaised? then [] else [ChargePost(chargeUrl, paymentData, Bearer(token))])
    {
      if !HasToken() {
        var fetched := GetTokenSync(tokenReply);
        if fetched.TokenRaised? {
          return SyncRaised;
        }
      }
      sent := sent + [ChargePost(chargeUrl, paymentData, Bearer(token))];
      outcome := ChargeAnswer(chargeReply);
    }

    /** `process_payment`: fetch a token only when none is kept (letting its
        error through), then post the charge payload and map the answer. */
    method ProcessPayment(p: PaymentShape.PaymentData, tokenReply: HttpResponse, chargeReply: HttpResponse) returns (outcome: AsyncOutcome)
      modifies this
      ensures outcome == AsyncCharge(old(HasToken()), tokenReply, chargeReply)
      ensures token == TokenAfter(old(token), tokenReply, true)
      ensures old(HasToken()) ==> sent == old(sent) + [ChargePost(chargeUrl, ChargePayload(p), Bearer(token))]
      ensures !old(HasToken()) ==>
        sent == old(sent)
          + [TokenPost(tokenUrl, UrlEncodedForm, username, PlainPassword(password), "password", Basic(BasicCredentialsText))]
          + (if TokenOutcomeOf(tokenReply, true).TokenRaised? then [] else [ChargePost(chargeUrl, ChargePayload(p), Bearer(token))])
    {
      if !HasToken() {
        var fetched := GetToken(tokenReply);
        if fetched.TokenRaised? {
          return TokenFetchRaised;
        }
      }
      sent := sent + [ChargePost(chargeUrl, ChargePayload(p), Bearer(token))];
      outcome := Settled(ChargeResultOf(chargeReply));
    }
  }

  /** Once a payment has fetched a usable token, the next payment requests
      none: it sends the charge alone, with the kept token. */
  lemma TokenKept(token: Option<string>, firstReply: HttpResponse, secondReply: HttpResponse, viaHttpx: bool)
    requires !Present(token)
    requires TokenOutcomeOf(firstReply, viaHttpx).Fetched? && Present(TokenOutcomeOf(firstReply, viaHttpx).token)
    ensures TokenAfter(token, firstReply, viaHttpx) == TokenOutcomeOf(firstReply, viaHttpx).token
    ensures Present(TokenAfter(token, firstReply, viaHttpx))
    ensures TokenAfter(TokenAfter(token, firstReply, viaHttpx), secondReply, viaHttpx) == TokenAfter(token, firstReply, viaHttpx)
  {
  }
}
