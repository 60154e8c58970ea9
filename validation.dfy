/**
  The checkout form's client-side validation schema (`PaymentSchema`, a Yup
  object schema run by Formik): every field has a chain of rules, and the
  first rule a field breaks gives the message stored under that field's
  path. Formik hands Yup an empty field as absent, so "required" is the
  first rule an empty field breaks.
 */
module ClientValidation {
  import opened Wrappers
  import opened Numerals
  import opened PaymentShape

  /** JavaScript's `length`: UTF-16 code units, two for a character outside
      the Basic Multilingual Plane. */
  function JsLength(s: string): (n: nat)
    ensures n >= |s|
  {
    if s == [] then 0 else (if s[0] as int >= 0x1_0000 then 2 else 1) + JsLength(s[1..])
  }

  predicate InBmp(s: string) {
    forall i :: 0 <= i < |s| ==> s[i] as int < 0x1_0000
  }

  lemma {:induction false} JsLengthInBmp(s: string)
    requires InBmp(s)
    ensures JsLength(s) == |s|
  {
    if s != [] {
      JsLengthInBmp(s[1..]);
    }
  }

  /** `/^\d{16}$/` */
  predicate IsCardNumber(s: string) {
    |s| == 16 && AllDigits(s)
  }

  /** `/^(0[1-9]|1[0-2])$/` */
  predicate IsMonth(s: string) {
    |s| == 2 && ((s[0] == '0' && '1' <= s[1] <= '9') || (s[0] == '1' && '0' <= s[1] <= '2'))
  }

  /** `/^\d{2}$/` */
  predicate IsYear(s: string) {
    |s| == 2 && AllDigits(s)
  }

  /** `/^\d{3,4}$/` */
  predicate IsCvv(s: string) {
    3 <= |s| <= 4 && AllDigits(s)
  }

  function AmountRule(amount: Option<real>): Option<string> {
    if amount.None? then Some("Amount is required")
    else if amount.value <= 0.0 then Some("Amount must be positive")
    else None
  }

  function CurrencyRule(s: string): Option<string> {
    if s == "" then Some("Currency is required")
    else if JsLength(s) != 3 then Some("Currency must be 3 characters")
    else None
  }

  /** `.email()` comes before `.required()` but lets an empty value through. */
  function EmailRule(s: string, isEmail: string -> bool): Option<string> {
    if s != "" && !isEmail(s) then Some("Invalid email")
    else if s == "" then Some("Email is required")
    else None
  }

  function NameRule(s: string, requiredMessage: string): Option<string> {
    if s == "" then Some(requiredMessage)
    else if JsLength(s) < 2 then Some("Name must be at least 2 characters")
    else None
  }

  function PatternRule(s: string, matches: bool, requiredMessage: string, patternMessage: string): Option<string> {
    if s == "" then Some(requiredMessage)
    else if !matches then Some(patternMessage)
    else None
  }

  /** The message for field `f`, if it breaks one of its rules. */
  function Message(p: PaymentData, f: Field, isEmail: string -> bool): Option<string> {
    var c := p.cardInfo;
    match f
    case Amount => AmountRule(p.amount)
    case Currency => CurrencyRule(p.currency)
    case CustomerEmail => EmailRule(p.customerEmail, isEmail)
    case CustomerName => NameRule(p.customerName, "Name is required")
    case CardNumber =>
      PatternRule(c.cardNumber, IsCardNumber(c.cardNumber), "Card number is required", "Card number must be 16 digits")
    case CardExpiryMonth =>
      PatternRule(c.cardExpiryMonth, IsMonth(c.cardExpiryMonth), "Expiry month is required", "Month must be between 01-12")
    case CardExpiryYear =>
      PatternRule(c.cardExpiryYear, IsYear(c.cardExpiryYear), "Expiry year is required", "Year must be 2 digits")
    case CardCvv =>
      PatternRule(c.cardCvv, IsCvv(c.cardCvv), "CVV is required", "CVV must be 3 or 4 digits")
    case CardHolderName => NameRule(c.cardHolderName, "Card holder name is required")
  }

  /** Every rule of the schema, stated field by field as a reference for `Validate`. */
  predicate AcceptsAll(p: PaymentData, isEmail: string -> bool) {
    && p.amount.Some? && p.amount.value > 0.0
    && JsLength(p.currency) == 3
    && p.customerEmail != "" && isEmail(p.customerEmail)
    && JsLength(p.customerName) >= 2
    && IsCardNumber(p.cardInfo.cardNumber)
    && IsMonth(p.cardInfo.cardExpiryMonth)
    && IsYear(p.cardInfo.cardExpiryYear)
    && IsCvv(p.cardInfo.cardCvv)
    && JsLength(p.cardInfo.cardHolderName) >= 2
  }

  /** A form meets every rule exactly when no field has a message. */
  lemma AcceptsAllIffNoMessage(p: PaymentData, isEmail: string -> bool)
    ensures AcceptsAll(p, isEmail) <==> forall f :: Message(p, f, isEmail).None?
  {
    if !AcceptsAll(p, isEmail) {
      var c := p.cardInfo;
      var f :=
        if AmountRule(p.amount).Some? then Amount
        else if CurrencyRule(p.currency).Some? then Currency
        else if EmailRule(p.customerEmail, isEmail).Some? then CustomerEmail
        else if NameRule(p.customerName, "Name is required").Some? then CustomerName
        else if !IsCardNumber(c.cardNumber) then CardNumber
        else if !IsMonth(c.cardExpiryMonth) then CardExpiryMonth
        else if !IsYear(c.cardExpiryYear) then CardExpiryYear
        else if !IsCvv(c.cardCvv) then CardCvv
        else CardHolderName;
      assert Message(p, f, isEmail).Some?;
    }
  }

  /** Validation: the field paths with their messages; empty when the form may be submitted. */
  function Validate(p: PaymentData, isEmail: string -> bool): (errors: map<Field, string>)
    ensures errors == map[] <==> AcceptsAll(p, isEmail)
  {
    var errors := map f | f in AllFields && Message(p, f, isEmail).Some? :: Message(p, f, isEmail).value;
    AcceptsAllIffNoMessage(p, isEmail);
    assert errors == map[] ==> forall f :: Message(p, f, isEmail).None? by {
      if errors == map[] {
        forall f ensures Message(p, f, isEmail).None? {
          InAllFields(f);
          assert f !in errors;
        }
      }
    }
    errors
  }

  /** The amount is accepted only when present and strictly positive; otherwise
      the error sits under `amount`. */
  lemma AmountAccepted(p: PaymentData, isEmail: string -> bool)
    ensures Amount !in Validate(p, isEmail) <==> p.amount.Some? && p.amount.value > 0.0
    ensures p.amount.None? ==> Validate(p, isEmail)[Amount] == "Amount is required"
  {
  }

  /** The currency is accepted only when non-empty and exactly 3 characters
      (UTF-16 code units) long. */
  lemma CurrencyAccepted(p: PaymentData, isEmail: string -> bool)
    ensures Currency !in Validate(p, isEmail) <==> p.currency != "" && JsLength(p.currency) == 3
  {
  }

  /** The e-mail is accepted only when non-empty and well-formed; an empty
      one is reported as missing, a malformed one as invalid. */
  lemma EmailAccepted(p: PaymentData, isEmail: string -> bool)
    ensures CustomerEmail !in Validate(p, isEmail) <==> p.customerEmail != "" && isEmail(p.customerEmail)
    ensures p.customerEmail == "" ==> Validate(p, isEmail)[CustomerEmail] == "Email is required"
    ensures p.customerEmail != "" && !isEmail(p.customerEmail) ==> Validate(p, isEmail)[CustomerEmail] == "Invalid email"
  {
  }

  /** Both name fields are rejected exactly when shorter than 2 characters
      (the empty name included). */
  lemma NamesRejected(p: PaymentData, isEmail: string -> bool)
    ensures CustomerName in Validate(p, isEmail) <==> JsLength(p.customerName) < 2
    ensures CardHolderName in Validate(p, isEmail) <==> JsLength(p.cardInfo.cardHolderName) < 2
  {
    if JsLength(p.customerName) < 2 && p.customerName != "" {
      assert Message(p, CustomerName, isEmail).Some?;
    }
  }

  /** The card number is accepted iff it is exactly 16 decimal digits. */
  lemma CardNumberAccepted(p: PaymentData, isEmail: string -> bool)
    ensures CardNumber !in Validate(p, isEmail)
        <==> |p.cardInfo.cardNumber| == 16
             && forall i :: 0 <= i < 16 ==> '0' <= p.cardInfo.cardNumber[i] <= '9'
  {
  }

  const Months: set<string> :=
    {"01", "02", "03", "04", "05", "06", "07", "08", "09", "10", "11", "12"}

  lemma MonthPattern(s: string)
    ensures IsMonth(s) <==> s in Months
  {
    if IsMonth(s) {
      assert s == [s[0], s[1]];
    }
  }

  /** The expiry month is accepted iff it is one of "01" .. "12"; so "00",
      "13" and "1" are all rejected. */
  lemma MonthAccepted(p: PaymentData, isEmail: string -> bool)
    ensures CardExpiryMonth !in Validate(p, isEmail) <==> p.cardInfo.cardExpiryMonth in Months
    ensures "00" !in Months && "13" !in Months && "1" !in Months
  {
    MonthPattern(p.cardInfo.cardExpiryMonth);
  }

  /** The year is accepted iff it is exactly 2 digits, the CVV iff it is 3 or 4 digits. */
  lemma YearAndCvvAccepted(p: PaymentData, isEmail: string -> bool)
    ensures CardExpiryYear !in Validate(p, isEmail) <==> |p.cardInfo.cardExpiryYear| == 2 && AllDigits(p.cardInfo.cardExpiryYear)
    ensures CardCvv !in Validate(p, isEmail) <==> (|p.cardInfo.cardCvv| == 3 || |p.cardInfo.cardCvv| == 4) && AllDigits(p.cardInfo.cardCvv)
  {
  }

  /** Errors are field-local: two inputs that agree on a field get the same
      verdict and message for that field, whatever the other fields hold. */
  lemma ErrorsAreFieldLocal(p: PaymentData, q: PaymentData, f: Field, isEmail: string -> bool)
    requires ValueAt(p, f) == ValueAt(q, f)
    ensures f in Validate(p, isEmail) <==> f in Validate(q, isEmail)
    ensures f in Validate(p, isEmail) ==> Validate(p, isEmail)[f] == Validate(q, isEmail)[f]
  {
    assert Message(p, f, isEmail) == Message(q, f, isEmail);
  }
}
