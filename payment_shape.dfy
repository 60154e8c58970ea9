/**
  The JSON body the checkout form submits (customer fields at the top, card
  fields nested under `card_info`), and the fields it is validated by.
 */
module PaymentShape {
  import opened Wrappers

  datatype CardInfo = CardInfo(
    cardNumber: string,
    cardExpiryMonth: string,
    cardExpiryYear: string,
    cardCvv: string,
    cardHolderName: string)

  /** `amount` is None when the field is absent or empty. */
  datatype PaymentData = PaymentData(
    amount: Option<real>,
    currency: string,
    customerEmail: string,
    customerName: string,
    cardInfo: CardInfo)

  /** One constructor per validated field, i.e. per error path: `amount`,
      `currency`, `customer_email`, `customer_name`, `card_info.card_number`,
      `card_info.card_expiry_month`, `card_info.card_expiry_year`,
      `card_info.card_cvv`, `card_info.card_holder_name`. */
  datatype Field =
    | Amount | Currency | CustomerEmail | CustomerName
    | CardNumber | CardExpiryMonth | CardExpiryYear | CardCvv | CardHolderName

  const AllFields: set<Field> :=
    {Amount, Currency, CustomerEmail, CustomerName,
     CardNumber, CardExpiryMonth, CardExpiryYear, CardCvv, CardHolderName}

  lemma InAllFields(f: Field)
    ensures f in AllFields
  {
    match f
    case Amount =>
    case Currency =>
    case CustomerEmail =>
    case CustomerName =>
    case CardNumber =>
    case CardExpiryMonth =>
    case CardExpiryYear =>
    case CardCvv =>
    case CardHolderName =>
  }

  /** What a field holds: the amount is a number, every other field text. */
  datatype FieldValue = Number(n: Option<real>) | Text(s: string)

  function ValueAt(p: PaymentData, f: Field): FieldValue {
    match f
    case Amount => Number(p.amount)
    case Currency => Text(p.currency)
    case CustomerEmail => Text(p.customerEmail)
    case CustomerName => Text(p.customerName)
    case CardNumber => Text(p.cardInfo.cardNumber)
    case CardExpiryMonth => Text(p.cardInfo.cardExpiryMonth)
    case CardExpiryYear => Text(p.cardInfo.cardExpiryYear)
    case CardCvv => Text(p.cardInfo.cardCvv)
    case CardHolderName => Text(p.cardInfo.cardHolderName)
  }
}
