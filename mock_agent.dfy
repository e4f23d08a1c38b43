/** main.py's `MockAIAgent`: keyword routing over the lowercased command
    and the three intent builders. The regex-extracted amount (`None` when
    no number matched) and the names after each `@` (in order of occurrence)
    are inputs, and so are the float formatting and the clock. */
module MockAgent {
  import opened Wrappers
  import opened PyText
  import opened Storage
  import opened Intents

  /** The intent the parser returns, or the exception it raises (there is
      no `try` around it in `process_command`). */
  datatype ParseOutcome = Parsed(intent: PaymentIntent) | Raised(error: string)

  /** What `amount / len(aliases)` raises when no amount was found. */
  const NoneDivision := "unsupported operand type(s) for /: 'NoneType' and 'int'"

  /** The currency keyword rules: `arc` wins over `eth`, else `USD`. */
  function CurrencyOf(textLower: string): (c: string)
    ensures Contains(textLower, "arc") ==> c == "ARC"
    ensures !Contains(textLower, "arc") && Contains(textLower, "eth") ==> c == "ETH"
    ensures !Contains(textLower, "arc") && !Contains(textLower, "eth") ==> c == "USD"
  {
    if Contains(textLower, "arc") then "ARC"
    else if Contains(textLower, "eth") then "ETH"
    else "USD"
  }

  /** The three payment types. */
  datatype Route = SingleRoute | SubscriptionRoute | SplitRoute

  function RouteName(r: Route): string {
    match r
    case SingleRoute => "single"
    case SubscriptionRoute => "subscription"
    case SplitRoute => "split"
  }

  /** The routing rules of `parse_payment`: split words first, then
      recurrence words, else a single payment. */
  function RouteOf(textLower: string): (r: Route)
    ensures r == SplitRoute <==> Contains(textLower, "split") || Contains(textLower, "divide")
    ensures r == SubscriptionRoute <==>
              !Contains(textLower, "split") && !Contains(textLower, "divide")
              && (Contains(textLower, "every") || Contains(textLower, "monthly") || Contains(textLower, "subscription"))
  {
    if Contains(textLower, "split") || Contains(textLower, "divide") then SplitRoute
    else if Contains(textLower, "every") || Contains(textLower, "monthly") || Contains(textLower, "subscription") then SubscriptionRoute
    else SingleRoute
  }

  /** Python's `not amount`: no amount, or zero. */
  predicate NoAmount(amount: Option<real>) {
    amount.None? || amount.value == 0.0
  }

  /** The memo: the lowercased text after the first `for`, stripped. */
  function MemoOf(text: string): (r: Option<string>)
    ensures r.Some? <==> Contains(Lower(text), "for")
    ensures r.Some? ==> IndexOf(Lower(text), "for").Some?
                        && r.value == Strip(Lower(text)[IndexOf(Lower(text), "for").value + 3..])
    ensures r.Some? ==> |r.value| < |text| && (r.value == [] || (!IsSpace(r.value[0]) && !IsSpace(r.value[|r.value| - 1])))
  {
    var t := Lower(text);
    var i := IndexOf(t, "for");
    if i.None? then None else Some(Strip(t[i.value + 3..]))
  }

  /** An error intent of `MockAIAgent`: no intent, confidence `c`, to be
      confirmed. */
  function ErrorIntent(paymentType: string, confidence: real, code: string, message: string): PaymentIntent {
    PaymentIntent(Some(paymentType), EmptyIntent, confidence, Some(true), None, Some(IntentError(code, message, None)))
  }

  /** `_parse_single`: a missing (or zero) amount is reported before a
      missing recipient; otherwise a confirmed single payment. */
  function ParseSingle(text: string, amount: Option<real>, currency: string, alias: Option<string>,
                       show: real -> string)
    : (p: PaymentIntent)
    ensures p.paymentType == Some("single") && p.requiresConfirmation == Some(true)
    ensures NoAmount(amount) ==> p.error == Some(IntentError("missing_amount", "Could not determine amount", None))
    ensures !NoAmount(amount) && alias.None? ==>
              p.error == Some(IntentError("missing_recipient", "Could not determine recipient", None))
    ensures p.error.Some? ==> p.intent == EmptyIntent && p.confidence == 0.3
    ensures p.error.None? <==> !NoAmount(amount) && alias.Some?
    ensures p.error.None? ==>
              p.confidence == 0.92
              && p.intent == IntentData(Some("send"), Some(Number(amount.value)), Some(currency),
                                        Some(Recipient(alias)), MemoOf(text), None, None)
              && p.confirmationText == Some("Send " + currency + " " + show(amount.value) + " to " + alias.value + "?")
  {
    if NoAmount(amount) then ErrorIntent("single", 0.3, "missing_amount", "Could not determine amount")
    else if alias.None? then ErrorIntent("single", 0.3, "missing_recipient", "Could not determine recipient")
    else
      PaymentIntent(Some("single"),
                    IntentData(Some("send"), Some(Number(amount.value)), Some(currency), Some(Recipient(alias)),
                               MemoOf(text), None, None),
                    0.92, Some(true),
                    Some("Send " + currency + " " + show(amount.value) + " to " + alias.value + "?"),
                    None)
  }

  /** The frequency keyword rules: weekly, daily, yearly, else monthly. */
  function FrequencyOf(textLower: string): (f: string)
    ensures f in {"weekly", "daily", "yearly", "monthly"}
    ensures f == "weekly" <==> Contains(textLower, "weekly")
    ensures f == "daily" <==> !Contains(textLower, "weekly") && Contains(textLower, "daily")
    ensures f == "yearly" <==>
              !Contains(textLower, "weekly") && !Contains(textLower, "daily") && Contains(textLower, "yearly")
    ensures f == "monthly" <==>
              !Contains(textLower, "weekly") && !Contains(textLower, "daily") && !Contains(textLower, "yearly")
  {
    if Contains(textLower, "weekly") then "weekly"
    else if Contains(textLower, "daily") then "daily"
    else if Contains(textLower, "yearly") then "yearly"
    else "monthly"
  }

  /** `_parse_subscription`: never an error; the amount and the alias may be
      `None`, and the start date is the clock. */
  function ParseSubscription(text: string, amount: Option<real>, currency: string, alias: Option<string>,
                             show: real -> string, now: string)
    : (p: PaymentIntent)
    ensures p.paymentType == Some("subscription") && p.error.None?
    ensures p.confidence == 0.88 && p.requiresConfirmation == Some(true)
    ensures p.intent.recipient == Some(Recipient(alias)) && p.intent.amount == Some(AmountValue(amount))
    ensures p.intent.subscription == Some(Schedule(Some(FrequencyOf(Lower(text))), Some(now)))
    ensures p.intent.currency == Some(currency) && p.intent.recipients.None?
  {
    var frequency := FrequencyOf(Lower(text));
    PaymentIntent(Some("subscription"),
                  IntentData(Some("send"), Some(AmountValue(amount)), Some(currency), Some(Recipient(alias)),
                             None, Some(Schedule(Some(frequency), Some(now))), None),
                  0.88, Some(true),
                  Some("Set up " + frequency + " payment of " + currency + " " + ShowAmount(amount, show)
                       + " to " + ShowStr(alias) + "?"),
                  None)
  }

  /** `{"alias": "@" + name}` for each name, in order. */
  function AtRecipients(names: seq<string>): (rs: seq<Recipient>)
    ensures |rs| == |names|
    ensures forall j :: 0 <= j < |names| ==> rs[j] == Recipient(Some("@" + names[j]))
  {
    seq(|names|, j requires 0 <= j < |names| => Recipient(Some("@" + names[j])))
  }

  /** `_parse_split`: fewer than two names is an error; with two or more and
      no amount, the equal split raises. */
  function ParseSplit(text: string, amount: Option<real>, currency: string, names: seq<string>, show: real -> string)
    : (r: ParseOutcome)
    ensures |names| < 2 ==>
              r == Parsed(ErrorIntent("split", 0.4, "insufficient_recipients", "Need at least 2 recipients"))
    ensures r.Raised? <==> |names| >= 2 && amount.None?
    ensures r.Raised? ==> r.error == NoneDivision
    ensures |names| >= 2 && amount.Some? ==>
              r.Parsed? && r.intent.error.None? && r.intent.paymentType == Some("split")
              && r.intent.confidence == 0.85 && r.intent.requiresConfirmation == Some(true)
              && r.intent.intent == IntentData(Some("split"), Some(Number(amount.value)), Some(currency), None, None, None,
                                               Some(AtRecipients(names)))
  {
    if |names| < 2 then Parsed(ErrorIntent("split", 0.4, "insufficient_recipients", "Need at least 2 recipients"))
    else if amount.None? then Raised(NoneDivision)
    else
      Parsed(PaymentIntent(Some("split"),
                           IntentData(Some("split"), Some(Number(amount.value)), Some(currency), None, None, None,
                                      Some(AtRecipients(names))),
                           0.85, Some(true),
                           Some("Split " + currency + " " + show(amount.value) + " between "
                                + NatToString(|names|) + " people?"),
                           None))
  }

  /** `parse_payment`: every parse is labelled with the route the keywords
      pick, only a split without an amount raises, a complete intent carries
      the keyword currency, and a single or subscription payment goes to the
      first name behind an `@`. */
  function ParsePayment(text: string, amount: Option<real>, names: seq<string>, show: real -> string, now: string)
    : (r: ParseOutcome)
    ensures r.Raised? <==> RouteOf(Lower(text)) == SplitRoute && |names| >= 2 && amount.None?
    ensures r.Parsed? ==> r.intent.paymentType == Some(RouteName(RouteOf(Lower(text))))
    ensures r.Parsed? && r.intent.error.None? ==> r.intent.intent.currency == Some(CurrencyOf(Lower(text)))
    ensures r.Parsed? && r.intent.error.None? && RouteOf(Lower(text)) != SplitRoute ==>
              r.intent.intent.recipient == Some(Recipient(if names == [] then None else Some("@" + names[0])))
  {
    var t := Lower(text);
    var currency := CurrencyOf(t);
    var alias := if names == [] then None else Some("@" + names[0]);
    match RouteOf(t)
    case SplitRoute => ParseSplit(text, amount, currency, names, show)
    case SubscriptionRoute => Parsed(ParseSubscription(text, amount, currency, alias, show, now))
    case SingleRoute => Parsed(ParseSingle(text, amount, currency, alias, show))
  }

  /** A single payment with no usable amount reports `missing_amount`,
      whether or not a recipient was found. */
  lemma MissingAmountReportedFirst(text: string, amount: Option<real>, names: seq<string>, show: real -> string, now: string)
    requires RouteOf(Lower(text)) == SingleRoute && NoAmount(amount)
    ensures ParsePayment(text, amount, names, show, now).Parsed?
    ensures ParsePayment(text, amount, names, show, now).intent.error.value.code == "missing_amount"
  {
  }

  /** A complete single command names the first `@` alias as its recipient. */
  lemma SingleNamesFirstAlias(text: string, amount: Option<real>, names: seq<string>, show: real -> string, now: string)
    requires RouteOf(Lower(text)) == SingleRoute && !NoAmount(amount) && names != []
    ensures var r := ParsePayment(text, amount, names, show, now);
            r.Parsed? && r.intent.error.None?
            && r.intent.intent.recipient == Some(Recipient(Some("@" + names[0])))
  {
  }
}
