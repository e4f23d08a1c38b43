/** The payment-intent dictionaries that the parsers produce and
    `execute_payment` consumes. A key that is absent is `None`; for the keys
    the service only reads with `.get` or passes along, JSON `null` is
    folded into absence, except `amount`, which may be present and `null`. */
module Intents {
  import opened Wrappers
  import opened Storage

  /** `{"alias": ...}`, one recipient. */
  datatype Recipient = Recipient(alias: Option<string>)

  /** `{"frequency": ..., "start_date": ...}`. */
  datatype Schedule = Schedule(frequency: Option<string>, startDate: Option<string>)

  /** The `intent` dictionary. */
  datatype IntentData = IntentData(
    action: Option<string>,
    amount: Option<Amount>,
    currency: Option<string>,
    recipient: Option<Recipient>,
    memo: Option<string>,
    subscription: Option<Schedule>,
    recipients: Option<seq<Recipient>>)

  /** `{}` */
  const EmptyIntent := IntentData(None, None, None, None, None, None, None)

  /** The `error` dictionary. */
  datatype IntentError = IntentError(code: string, message: string, suggestions: Option<seq<string>>)

  /** A parsed intent; `requires_confirmation` is absent in some replies of
      agent.py, and `payment_type` is `None` in its error replies. */
  datatype PaymentIntent = PaymentIntent(
    paymentType: Option<string>,
    intent: IntentData,
    confidence: real,
    requiresConfirmation: Option<bool>,
    confirmationText: Option<string>,
    error: Option<IntentError>)

  /** How Python formats an amount inside an f-string: the float formatting
      itself is a parameter, `None` prints as `None`. */
  function ShowAmount(amount: Option<real>, show: real -> string): (s: string)
    ensures amount.None? ==> s == "None"
    ensures amount.Some? ==> s == show(amount.value)
  {
    if amount.None? then "None" else show(amount.value)
  }

  /** The amount a parser writes into the intent: a number, or `null`. */
  function AmountValue(amount: Option<real>): (a: Amount)
    ensures amount.None? <==> a.Null?
    ensures amount.Some? ==> a == Number(amount.value)
  {
    if amount.None? then Null else Number(amount.value)
  }
}
