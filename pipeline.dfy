/** What becomes of a parsed intent when it is sent back to
    `execute_payment`: the parsers' output run through the dispatch plan. */
module Pipeline {
  import opened Wrappers
  import opened PyText
  import opened Storage
  import opened Intents
  import opened MockChain
  import opened Dispatch
  import MockAgent
  import Agent

  /** A complete single command of main.py's parser pays the first `@`
      alias at its resolved address, with the parsed amount, currency and
      memo, from the body's address. */
  lemma MockSinglePaysFirstAlias(a2d: map<string, string>, headerAddress: string, intentId: string,
                                 signature: string, user: string, text: string, amount: Option<real>,
                                 names: seq<string>, show: real -> string, now: string)
    requires Lower(headerAddress) == Lower(user)
    requires MockAgent.RouteOf(Lower(text)) == MockAgent.SingleRoute && !MockAgent.NoAmount(amount) && names != []
    requires Lookup(a2d, "@" + names[0]).Some?
    ensures var r := MockAgent.ParsePayment(text, amount, names, show, now);
            r.Parsed?
            && PlanPayment(a2d, headerAddress, ExecuteRequest(intentId, "single", r.intent.intent, signature, user)).call
               == Success(Send(user, Lookup(a2d, "@" + names[0]).value, Number(amount.value),
                               MockAgent.CurrencyOf(Lower(text)), MockAgent.MemoOf(text), signature))
  {
  }

  /** A subscription command of main.py's parser whose first alias resolves
      is set up with the parsed frequency, starting at the parse time, even
      when no amount was found (the amount is then `null`). */
  lemma MockSubscriptionGoesThrough(a2d: map<string, string>, headerAddress: string, intentId: string,
                                    signature: string, user: string, text: string, amount: Option<real>,
                                    names: seq<string>, show: real -> string, now: string)
    requires Lower(headerAddress) == Lower(user)
    requires MockAgent.RouteOf(Lower(text)) == MockAgent.SubscriptionRoute && names != []
    requires Lookup(a2d, "@" + names[0]).Some?
    ensures var r := MockAgent.ParsePayment(text, amount, names, show, now);
            r.Parsed?
            && PlanPayment(a2d, headerAddress, ExecuteRequest(intentId, "subscription", r.intent.intent, signature, user)).call
               == Success(Subscribe(user, Lookup(a2d, "@" + names[0]).value, AmountValue(amount),
                                    MockAgent.FrequencyOf(Lower(text)), now, signature))
  {
  }

  /** A split command of main.py's parser with an amount and every alias
      registered pays all of them, in the order written, each at its
      resolved address. */
  lemma MockSplitPaysEveryone(a2d: map<string, string>, headerAddress: string, intentId: string,
                              signature: string, user: string, text: string, amount: Option<real>,
                              names: seq<string>, show: real -> string, now: string)
    requires Lower(headerAddress) == Lower(user)
    requires MockAgent.RouteOf(Lower(text)) == MockAgent.SplitRoute && |names| >= 2 && amount.Some?
    requires forall j :: 0 <= j < |names| ==> Lookup(a2d, "@" + names[j]).Some?
    ensures var r := MockAgent.ParsePayment(text, amount, names, show, now);
            r.Parsed?
            && var call := PlanPayment(a2d, headerAddress, ExecuteRequest(intentId, "split", r.intent.intent, signature, user)).call;
               call.Success? && call.value.Split? && |call.value.recipients| == |names|
               && forall j :: 0 <= j < |names| ==>
                    call.value.recipients[j] == ResolvedRecipient("@" + names[j], Lookup(a2d, "@" + names[j]).value)
  {
    var rs := MockAgent.AtRecipients(names);
    ResolveAllSucceedsIff(a2d, rs);
    ResolveAllSound(a2d, rs);
  }

  /** agent.py's subscriptions carry no start date, so `execute_payment`
      never sets one up: the recipient is not found, or the missing
      `start_date` key ends the request. */
  lemma AgentSubscriptionNeverExecutes(a2d: map<string, string>, headerAddress: string, intentId: string,
                                       signature: string, user: string, amount: Option<real>,
                                       names: seq<string>, show: real -> string)
    requires Lower(headerAddress) == Lower(user)
    ensures var p := Agent.ParseSubscription(amount, "USD", names, show);
            var alias := if names == [] then "@recipient" else "@" + names[0];
            var plan := PlanPayment(a2d, headerAddress, ExecuteRequest(intentId, "subscription", p.intent, signature, user));
            plan.call.Failure?
            && (Lookup(a2d, alias).Some? ==> plan.call.error == Crash(KeyErr("start_date")))
            && (Lookup(a2d, alias).None? ==> plan.call.error == Reject(404, "recipient_not_found", "Recipient not found"))
  {
  }
}
