/** agent.py: the alias check and the post-processing applied to an
    intent, the error reply, and `MockAIParser`, the keyword parser used
    when no language model is configured. The model call itself is not part
    of this model. */
module Agent {
  import opened Wrappers
  import opened PyText
  import opened Storage
  import opened Intents
  import Utils
  import MockAgent

  /** `_is_valid_alias`: the same pattern as utils.py, so the same grammar. */
  function IsValidAlias(alias: string): (r: bool)
    ensures r <==> Utils.AliasGrammar(alias)
  {
    Utils.IsValidAlias(alias)
  }

  /** The recipient alias, when there is one and it is not empty (Python
      truthiness), and it fails the alias check. */
  predicate HasInvalidAlias(intent: IntentData) {
    intent.recipient.Some? && intent.recipient.value.alias.Some?
    && intent.recipient.value.alias.value != "" && !IsValidAlias(intent.recipient.value.alias.value)
  }

  /** `max(0, confidence - 0.2)`, an absent confidence counting as 0. */
  function Penalised(confidence: Option<real>): (r: real)
    ensures r >= 0.0
    ensures r == 0.0 || r == confidence.GetOr(0.0) - 0.2
    ensures r <= confidence.GetOr(0.0) || confidence.GetOr(0.0) < 0.0
    ensures confidence.GetOr(0.0) >= 0.2 ==> r == confidence.GetOr(0.0) - 0.2
  {
    var c := confidence.GetOr(0.0) - 0.2;
    if c < 0.0 then 0.0 else c
  }

  /** The confidence after `_validate_and_enhance`. */
  function EnhancedConfidence(intent: IntentData, confidence: Option<real>): (r: Option<real>)
    ensures HasInvalidAlias(intent) ==> r == Some(Penalised(confidence))
    ensures !HasInvalidAlias(intent) ==> r == confidence
  {
    if HasInvalidAlias(intent) then Some(Penalised(confidence)) else confidence
  }

  /** The confirmation text after `_validate_and_enhance`. */
  function EnhancedConfirmation(text: Option<string>): (r: Option<string>)
    ensures text.Some? && text.value != "" ==> r == text
    ensures text.None? || text.value == "" ==> r == Some("Confirm payment?")
  {
    if text.None? || text.value == "" then Some("Confirm payment?") else text
  }

  /** A confidence in `[0, 1]` stays in `[0, 1]` and never rises; it drops
      by exactly 0.2 when that stays non-negative. */
  lemma ConfidenceStaysInRange(intent: IntentData, c: real)
    requires 0.0 <= c <= 1.0
    ensures var r := EnhancedConfidence(intent, Some(c));
            r.Some? && 0.0 <= r.value <= c
            && (HasInvalidAlias(intent) && c >= 0.2 ==> r.value == c - 0.2)
            && (HasInvalidAlias(intent) && c < 0.2 ==> r.value == 0.0)
  {
  }

  /** A well-formed recipient never costs confidence. */
  lemma ValidAliasKeepsConfidence(intent: IntentData, confidence: Option<real>)
    requires intent.recipient.Some? && intent.recipient.value.alias.Some?
    requires Utils.AliasGrammar(intent.recipient.value.alias.value)
    ensures EnhancedConfidence(intent, confidence) == confidence
  {
  }

  /** After enhancement there is always a non-empty confirmation text, and a
      second pass leaves it alone. */
  lemma ConfirmationSettles(text: Option<string>)
    ensures EnhancedConfirmation(text).Some? && EnhancedConfirmation(text).value != ""
    ensures EnhancedConfirmation(EnhancedConfirmation(text)) == EnhancedConfirmation(text)
  {
  }

  /** The JSON object a model returns, as `_validate_and_enhance` sees it: a
      dictionary whose `confidence` and `confirmation_text` it rewrites in
      place. */
  class Reply {
    var paymentType: Option<string>
    var intent: IntentData
    var confidence: Option<real>
    var requiresConfirmation: Option<bool>
    var confirmationText: Option<string>
    var error: Option<IntentError>

    constructor(paymentType: Option<string>, intent: IntentData, confidence: Option<real>,
                requiresConfirmation: Option<bool>, confirmationText: Option<string>, error: Option<IntentError>)
      ensures this.paymentType == paymentType && this.intent == intent && this.confidence == confidence
      ensures this.requiresConfirmation == requiresConfirmation && this.confirmationText == confirmationText
      ensures this.error == error
    {
      this.paymentType, this.intent, this.confidence := paymentType, intent, confidence;
      this.requiresConfirmation, this.confirmationText, this.error := requiresConfirmation, confirmationText, error;
    }

    /** `_validate_and_enhance`: lower the confidence for an invalid alias,
        fill in a missing confirmation text, touch nothing else. */
    method ValidateAndEnhance()
      modifies this`confidence, this`confirmationText
      ensures confidence == EnhancedConfidence(intent, old(confidence))
      ensures confirmationText == EnhancedConfirmation(old(confirmationText))
    {
      if intent.recipient.Some? {
        var alias := intent.recipient.value.alias;
        if alias.Some? && alias.value != "" && !IsValidAlias(alias.value) {
          confidence := Some(Penalised(confidence));
        }
      }
      if confirmationText.None? || confirmationText.value == "" {
        confirmationText := Some("Confirm payment?");
      }
    }
  }

  /** `_error_response`: no payment type, no intent, no confidence, no
      confirmation, and the error with its suggestions. */
  function ErrorResponse(code: string, message: string, suggestions: seq<string>): (p: PaymentIntent)
    ensures p.paymentType.None? && p.intent == EmptyIntent && p.confidence == 0.0
    ensures p.requiresConfirmation == Some(false) && p.confirmationText.None?
    ensures p.error == Some(IntentError(code, message, Some(suggestions)))
  {
    PaymentIntent(None, EmptyIntent, 0.0, Some(false), None, Some(IntentError(code, message, Some(suggestions))))
  }

  /** `MockAIParser._parse_single`: one error for a missing amount or a
      missing recipient alike; otherwise the first alias, a fixed memo. */
  function ParseSingle(amount: Option<real>, currency: string, names: seq<string>, show: real -> string)
    : (p: PaymentIntent)
    ensures p.paymentType == Some("single")
    ensures p.error.Some? <==> MockAgent.NoAmount(amount) || names == []
    ensures p.error.Some? ==>
              p.error.value == IntentError("missing_info", "Need amount and recipient", None)
              && p.confidence == 0.3 && p.intent == EmptyIntent && p.requiresConfirmation.None?
    ensures p.error.None? ==>
              p.confidence == 0.85 && p.requiresConfirmation == Some(true)
              && p.intent == IntentData(Some("send"), Some(Number(amount.value)), Some(currency),
                                        Some(Recipient(Some("@" + names[0]))), Some("Mocked payment"), None, None)
  {
    if MockAgent.NoAmount(amount) || names == [] then
      PaymentIntent(Some("single"), EmptyIntent, 0.3, None, None,
                    Some(IntentError("missing_info", "Need amount and recipient", None)))
    else
      var alias := "@" + names[0];
      PaymentIntent(Some("single"),
                    IntentData(Some("send"), Some(Number(amount.value)), Some(currency), Some(Recipient(Some(alias))),
                               Some("Mocked payment"), None, None),
                    0.85, Some(true), Some("Send " + currency + " " + show(amount.value) + " to " + alias + "?"), None)
  }

  /** `MockAIParser._parse_subscription`: the first alias or `@recipient`,
      always monthly, and no start date. */
  function ParseSubscription(amount: Option<real>, currency: string, names: seq<string>, show: real -> string)
    : (p: PaymentIntent)
    ensures p.paymentType == Some("subscription") && p.error.None?
    ensures p.confidence == 0.80 && p.requiresConfirmation == Some(true)
    ensures p.intent.recipient == Some(Recipient(Some(if names == [] then "@recipient" else "@" + names[0])))
    ensures p.intent.subscription == Some(Schedule(Some("monthly"), None))
    ensures p.intent.amount == Some(AmountValue(amount)) && p.intent.currency == Some(currency)
  {
    var alias := if names == [] then "@recipient" else "@" + names[0];
    PaymentIntent(Some("subscription"),
                  IntentData(Some("send"), Some(AmountValue(amount)), Some(currency), Some(Recipient(Some(alias))),
                             None, Some(Schedule(Some("monthly"), None)), None),
                  0.80, Some(true),
                  Some("Set up monthly " + currency + " " + ShowAmount(amount, show) + " to " + alias + "?"),
                  None)
  }

  /** `MockAIParser._parse_split`: one `@` recipient per name, in order,
      however many there are. */
  function ParseSplit(amount: Option<real>, currency: string, names: seq<string>, show: real -> string)
    : (p: PaymentIntent)
    ensures p.paymentType == Some("split") && p.error.None?
    ensures p.confidence == 0.78 && p.requiresConfirmation == Some(true)
    ensures p.intent.recipients.Some? && |p.intent.recipients.value| == |names|
    ensures forall j :: 0 <= j < |names| ==> p.intent.recipients.value[j] == Recipient(Some("@" + names[j]))
    ensures p.intent.amount == Some(AmountValue(amount)) && p.intent.currency == Some(currency)
  {
    PaymentIntent(Some("split"),
                  IntentData(Some("split"), Some(AmountValue(amount)), Some(currency), None, None, None,
                             Some(MockAgent.AtRecipients(names))),
                  0.78, Some(true),
                  Some("Split " + currency + " " + ShowAmount(amount, show) + " between "
                       + NatToString(|names|) + " people?"),
                  None)
  }

  /** `MockAIParser.parse_payment`: split on the keyword or on more than one
      alias, then subscription on `every`/`monthly`, else single; the
      currency is always `USD`. */
  function ParsePayment(text: string, amount: Option<real>, names: seq<string>, show: real -> string)
    : (p: PaymentIntent)
    ensures var t := Lower(text);
            (p.paymentType == Some("split") <==> Contains(t, "split") || |names| > 1)
            && (p.paymentType == Some("subscription") <==>
                  !Contains(t, "split") && |names| <= 1 && (Contains(t, "every") || Contains(t, "monthly")))
            && (p.paymentType == Some("single") <==>
                  !Contains(t, "split") && |names| <= 1 && !Contains(t, "every") && !Contains(t, "monthly"))
    ensures p.error.None? ==> p.intent.currency == Some("USD")
  {
    var t := Lower(text);
    if Contains(t, "split") || |names| > 1 then ParseSplit(amount, "USD", names, show)
    else if Contains(t, "every") || Contains(t, "monthly") then ParseSubscription(amount, "USD", names, show)
    else ParseSingle(amount, "USD", names, show)
  }
}
