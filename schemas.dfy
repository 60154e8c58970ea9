/**
  The backend's request and response schemas (pydantic models). Each field
  carries a constraint; pydantic reports every field that breaks its
  constraint, and a model is valid when none does. Lengths are Python
  lengths, i.e. code points.
 */
module PaymentSchemas {
  import opened Wrappers
  import opened Numerals
  import opened PaymentShape
  import opened TransactionModel
  import ClientValidation
  import opened Json

  /** `TransactionBase`: `amount > 0`, a 3-character currency, an e-mail
      address, a name of at least 2 characters. */
  predicate ValidTransactionBase(p: PaymentData, emailStr: string -> bool) {
    && p.amount.Some? && p.amount.value > 0.0
    && |p.currency| == 3
    && emailStr(p.customerEmail)
    && |p.customerName| >= 2
  }

  /** `CardInfo`: only lengths are constrained. */
  predicate ValidCardInfo(c: CardInfo) {
    && |c.cardNumber| == 16
    && |c.cardExpiryMonth| == 2
    && |c.cardExpiryYear| == 2
    && |c.cardCvv| == 3
    && |c.cardHolderName| >= 2
  }

  /** Whether field `f` meets its own `Field(...)` constraint. */
  predicate Meets(p: PaymentData, f: Field, emailStr: string -> bool) {
    var c := p.cardInfo;
    match f
    case Amount => p.amount.Some? && p.amount.value > 0.0
    case Currency => |p.currency| == 3
    case CustomerEmail => emailStr(p.customerEmail)
    case CustomerName => |p.customerName| >= 2
    case CardNumber => |c.cardNumber| == 16
    case CardExpiryMonth => |c.cardExpiryMonth| == 2
    case CardExpiryYear => |c.cardExpiryYear| == 2
    case CardCvv => |c.cardCvv| == 3
    case CardHolderName => |c.cardHolderName| >= 2
  }

  /** The locations pydantic reports for a `PaymentRequest` body. */
  function Violations(p: PaymentData, emailStr: string -> bool): (v: set<Field>)
    ensures v <= AllFields
  {
    set f | f in AllFields && !Meets(p, f, emailStr)
  }

  /** A `PaymentRequest` is valid iff its `TransactionBase` fields are valid
      and its `card_info` is a valid `CardInfo`. */
  lemma PaymentRequestValid(p: PaymentData, emailStr: string -> bool)
    ensures Violations(p, emailStr) == {} <==> ValidTransactionBase(p, emailStr) && ValidCardInfo(p.cardInfo)
  {
    if Violations(p, emailStr) == {} {
      forall f | f in AllFields ensures Meets(p, f, emailStr) {
        assert f !in Violations(p, emailStr);
      }
    }
  }

  /** The card number is checked for length only: sixteen letters pass here
      although the client validator wants digits. */
  lemma CardNumberLengthOnly(p: PaymentData, emailStr: string -> bool, isEmail: string -> bool)
    requires p.cardInfo.cardNumber == "abcdefghijklmnop"
    ensures CardNumber !in Violations(p, emailStr)
    ensures CardNumber in ClientValidation.Validate(p, isEmail)
  {
    assert !('0' <= p.cardInfo.cardNumber[0] <= '9');
  }

  /** Expiry month and year are checked for length only: "13" and "00"
      pass here, the client validator rejects them. */
  lemma MonthLengthOnly(p: PaymentData, emailStr: string -> bool, isEmail: string -> bool)
    requires p.cardInfo.cardExpiryMonth == "13" || p.cardInfo.cardExpiryMonth == "00"
    ensures CardExpiryMonth !in Violations(p, emailStr)
    ensures CardExpiryMonth in ClientValidation.Validate(p, isEmail)
  {
  }

  /** The two validators disagree on a CVV exactly when it is four digits:
      the client accepts it, the backend wants exactly 3 characters. */
  lemma CvvDisagreement(p: PaymentData, emailStr: string -> bool, isEmail: string -> bool)
    ensures (CardCvv !in ClientValidation.Validate(p, isEmail) && CardCvv in Violations(p, emailStr))
        <==> |p.cardInfo.cardCvv| == 4 && AllDigits(p.cardInfo.cardCvv)
  {
  }

  /** Client-side lengths count UTF-16 code units, the backend's count code
      points: a currency made of a dollar-banknote emoji and one letter is 3
      long on the client and 2 long on the backend. */
  lemma CurrencyLengthsDiffer(p: PaymentData, emailStr: string -> bool, isEmail: string -> bool)
    requires p.currency == ['\U{1F4B5}', 'A']
    ensures Currency !in ClientValidation.Validate(p, isEmail)
    ensures Currency in Violations(p, emailStr)
  {
    var tail: string := ['A'];
    assert ClientValidation.JsLength(tail) == 1 by {
      assert tail[1..] == [];
    }
    assert p.currency[1..] == tail;
    assert ClientValidation.JsLength(p.currency) == 3;
  }

  /** Everything the client accepts the backend accepts too, provided the
      CVV has 3 digits, the text fields stay in the Basic Multilingual Plane
      and the backend's e-mail check admits the address the client admitted. */
  lemma ClientAcceptedIsBackendValid(p: PaymentData, emailStr: string -> bool, isEmail: string -> bool)
    requires ClientValidation.Validate(p, isEmail) == map[]
    requires |p.cardInfo.cardCvv| == 3
    requires ClientValidation.InBmp(p.currency) && ClientValidation.InBmp(p.customerName)
    requires ClientValidation.InBmp(p.cardInfo.cardHolderName)
    requires isEmail(p.customerEmail) ==> emailStr(p.customerEmail)
    ensures Violations(p, emailStr) == {}
  {
    ClientValidation.JsLengthInBmp(p.currency);
    ClientValidation.JsLengthInBmp(p.customerName);
    ClientValidation.JsLengthInBmp(p.cardInfo.cardHolderName);
    PaymentRequestValid(p, emailStr);
  }

  /** `TransactionResponse`: the `TransactionBase` constraints, checked again
      on a stored record. */
  predicate ValidTransactionResponse(t: Transaction, emailStr: string -> bool) {
    && t.amount > 0.0
    && |t.currency| == 3
    && emailStr(t.customerEmail)
    && |t.customerName| >= 2
  }

  datatype CustomerInformation = CustomerInformation(firstName: string, lastName: string, email: string)

  datatype CardData = CardData(
    cardNumber: string,
    expirationMonth: string,
    expirationYear: string,
    cvv: string,
    cardholderName: string)

  /** `CardPaymentRequest`, the body the create endpoint takes, with the
      fields the endpoint and the repository read. */
  datatype CardPaymentRequest = CardPaymentRequest(
    amount: real,
    currency: string,
    customerInformation: CustomerInformation,
    noPresentCardData: CardData)

  /** `TransactionCreate`: what is left of the request once its card data is excluded. */
  datatype TransactionCreate = TransactionCreate(
    amount: real,
    currency: string,
    customerInformation: CustomerInformation)

  /** `TransactionCreate(**payment_data.model_dump(exclude={"noPresentCardData"}))` */
  function WithoutCardData(r: CardPaymentRequest): TransactionCreate
  {
    TransactionCreate(r.amount, r.currency, r.customerInformation)
  }

  /** `payment_data.model_dump(mode='json')`: the whole request, card data included. */
  function RequestJson(r: CardPaymentRequest): Json {
    var ci := r.customerInformation;
    var card := r.noPresentCardData;
    JObj(map[
      "amount" := JNum(r.amount),
      "currency" := JStr(r.currency),
      "customerInformation" := JObj(map[
        "firstName" := JStr(ci.firstName),
        "lastName" := JStr(ci.lastName),
        "email" := JStr(ci.email)]),
      "noPresentCardData" := JObj(map[
        "cardNumber" := JStr(card.cardNumber),
        "expirationMonth" := JStr(card.expirationMonth),
        "expirationYear" := JStr(card.expirationYear),
        "cvv" := JStr(card.cvv),
        "cardholderName" := JStr(card.cardholderName)])])
  }
}
