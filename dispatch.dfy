/** The `execute_payment` route of main.py: the address check, the routing
    on `payment_type`, recipient resolution, one rail call and one ledger
    record. The rail is abstract: a function from the call to the hash it
    answers with. */
module Dispatch {
  import opened Wrappers
  import opened PyText
  import opened Storage
  import opened AliasService
  import opened Ledger
  import opened Intents
  import opened MockChain

  /** The request body; `intent_id` is never read. */
  datatype ExecuteRequest = ExecuteRequest(
    intentId: string,
    paymentType: string,
    intent: IntentData,
    userSignature: string,
    userAddress: string)

  /** `TransactionResponse`, with `blockchain` always `"arc"`. */
  datatype TransactionResponse = TransactionResponse(
    success: bool,
    transactionHash: Option<string>,
    blockchain: string,
    timestamp: string,
    amount: Option<Amount>,
    fromAddress: Option<string>,
    toAddress: Option<string>,
    error: Option<string>)

  /** What the route answers: a response body, or a raised `HTTPException`
      with its status and detail. */
  datatype Outcome =
    | Responded(response: TransactionResponse)
    | HttpError(status: int, error: string, message: string)

  /** Why no rail call is made: an `HTTPException` raised inside the route,
      or a `KeyError` caught by its `except Exception`. */
  datatype Refusal =
    | Reject(status: int, error: string, message: string)
    | Crash(error: string)

  /** `str(KeyError(key))`. */
  function KeyErr(key: string): (e: string)
    ensures |e| == |key| + 2 && e[0] == '\'' && e[|e| - 1] == '\'' && e[1..|e| - 1] == key
  {
    "'" + key + "'"
  }

  /** `resolve` followed by `if not address`: the address when the alias is
      known and its address is not empty. */
  function Lookup(a2d: map<string, string>, alias: string): (r: Option<string>)
    ensures r.Some? <==> ResolveKey(alias) in a2d && a2d[ResolveKey(alias)] != ""
    ensures r.Some? ==> r.value == a2d[ResolveKey(alias)]
  {
    var found := MapGet(a2d, ResolveKey(alias));
    if found.Some? && found.value != "" then found else None
  }

  /** The split loop: the recipients resolved in order, and the refusal at
      the first one whose alias is missing or unknown. */
  datatype Resolution = Resolution(resolved: seq<ResolvedRecipient>, failure: Option<Refusal>)

  function ResolveAll(a2d: map<string, string>, rs: seq<Recipient>): (r: Resolution)
    ensures |r.resolved| <= |rs|
    ensures r.failure.Some? ==>
              r.failure.value == Crash(KeyErr("alias"))
              || (r.failure.value.Reject? && r.failure.value.status == 404 && r.failure.value.error == "recipient_not_found")
  {
    if rs == [] then Resolution([], None)
    else if rs[0].alias.None? then Resolution([], Some(Crash(KeyErr("alias"))))
    else
      var alias := rs[0].alias.value;
      var address := Lookup(a2d, alias);
      if address.None? then
        Resolution([], Some(Reject(404, "recipient_not_found", "Recipient " + alias + " not found")))
      else
        var rest := ResolveAll(a2d, rs[1..]);
        Resolution([ResolvedRecipient(alias, address.value)] + rest.resolved, rest.failure)
  }

  /** Each resolved recipient is the listed one, at the address its alias
      resolves to; the list is complete unless it stopped, and it stops
      exactly at a recipient without an alias (a `KeyError`) or with one
      that does not resolve (a 404 naming it). */
  lemma {:induction false} ResolveAllSound(a2d: map<string, string>, rs: seq<Recipient>)
    ensures var r := ResolveAll(a2d, rs);
            (forall j :: 0 <= j < |r.resolved| ==>
               rs[j].alias == Some(r.resolved[j].alias) && Lookup(a2d, r.resolved[j].alias) == Some(r.resolved[j].address))
            && (r.failure.None? ==> |r.resolved| == |rs|)
            && (r.failure.Some? ==>
                  var k := |r.resolved|;
                  k < |rs|
                  && (rs[k].alias.None? ==> r.failure.value == Crash(KeyErr("alias")))
                  && (rs[k].alias.Some? ==>
                        Lookup(a2d, rs[k].alias.value).None?
                        && r.failure.value == Reject(404, "recipient_not_found", "Recipient " + rs[k].alias.value + " not found")))
  {
    if rs != [] && rs[0].alias.Some? && Lookup(a2d, rs[0].alias.value).Some? {
      ResolveAllSound(a2d, rs[1..]);
      var r := ResolveAll(a2d, rs);
      var t := ResolveAll(a2d, rs[1..]);
      assert forall j :: 1 <= j < |r.resolved| ==> r.resolved[j] == t.resolved[j - 1] && rs[j] == rs[1..][j - 1];
    }
  }

  /** A split goes ahead iff every recipient has an alias that resolves. */
  lemma {:induction false} ResolveAllSucceedsIff(a2d: map<string, string>, rs: seq<Recipient>)
    ensures ResolveAll(a2d, rs).failure.None? <==>
              forall j :: 0 <= j < |rs| ==> rs[j].alias.Some? && Lookup(a2d, rs[j].alias.value).Some?
  {
    if rs != [] && rs[0].alias.Some? && Lookup(a2d, rs[0].alias.value).Some? {
      ResolveAllSucceedsIff(a2d, rs[1..]);
      assert forall j :: 1 <= j < |rs| ==> rs[j] == rs[1..][j - 1];
    }
  }

  /** The keys whose `last_used` a run of `resolve` calls stamped. */
  function StampedKeys(resolved: seq<ResolvedRecipient>): set<string> {
    set j | 0 <= j < |resolved| :: ResolveKey(resolved[j].alias)
  }

  lemma StampedKeysAppend(resolved: seq<ResolvedRecipient>, next: ResolvedRecipient)
    ensures StampedKeys(resolved + [next]) == StampedKeys(resolved) + {ResolveKey(next.alias)}
  {
    var s := resolved + [next];
    assert forall j :: 0 <= j < |resolved| ==> s[j] == resolved[j];
    assert s[|resolved|] == next;
  }

  /** What the route does short of the clock and the rail: the call it makes
      or the refusal, and the aliases whose `last_used` it stamps on the way. */
  datatype Plan = Plan(call: Result<RailCall, Refusal>, stamped: set<string>)

  /** The single-payment branch: `KeyError` on a missing `recipient` or
      `alias`, a 404 naming an alias that does not resolve, `KeyError` on a
      missing amount after the resolve; otherwise a transfer to the resolved
      address, in `"ARC"` unless the intent names a currency. */
  function PlanSingle(a2d: map<string, string>, req: ExecuteRequest): (r: Plan)
    ensures var i := req.intent;
            var named := i.recipient.Some? && i.recipient.value.alias.Some?;
            var found := named && Lookup(a2d, i.recipient.value.alias.value).Some?;
            (r.call.Success? <==> found && i.amount.Some?)
            && (r.stamped == if found then {ResolveKey(i.recipient.value.alias.value)} else {})
            && (i.recipient.None? ==> r.call == Failure(Crash(KeyErr("recipient"))))
            && (i.recipient.Some? && i.recipient.value.alias.None? ==> r.call == Failure(Crash(KeyErr("alias"))))
            && (named && !found ==>
                  r.call == Failure(Reject(404, "recipient_not_found",
                                           "Recipient " + i.recipient.value.alias.value + " not found")))
            && (found && i.amount.None? ==> r.call == Failure(Crash(KeyErr("amount"))))
            && (r.call.Success? ==>
                  r.call.value.Send? && r.call.value.fromAddress == req.userAddress
                  && r.call.value.toAddress == Lookup(a2d, i.recipient.value.alias.value).value
                  && r.call.value.amount == i.amount.value && r.call.value.currency == i.currency.GetOr("ARC")
                  && r.call.value.memo == i.memo && r.call.value.signature == req.userSignature)
  {
    var i := req.intent;
    if i.recipient.None? then Plan(Failure(Crash(KeyErr("recipient"))), {})
    else if i.recipient.value.alias.None? then Plan(Failure(Crash(KeyErr("alias"))), {})
    else
      var alias := i.recipient.value.alias.value;
      var to := Lookup(a2d, alias);
      if to.None? then
        Plan(Failure(Reject(404, "recipient_not_found", "Recipient " + alias + " not found")), {})
      else if i.amount.None? then Plan(Failure(Crash(KeyErr("amount"))), {ResolveKey(alias)})
      else
        Plan(Success(Send(req.userAddress, to.value, i.amount.value, i.currency.GetOr("ARC"), i.memo,
                          req.userSignature)),
             {ResolveKey(alias)})
  }

  /** The subscription branch: like a single payment, but its 404 does not
      name the alias, and it also needs the schedule's `frequency` and
      `start_date`. */
  function PlanSubscription(a2d: map<string, string>, req: ExecuteRequest): (r: Plan)
    ensures var i := req.intent;
            var named := i.recipient.Some? && i.recipient.value.alias.Some?;
            var found := named && Lookup(a2d, i.recipient.value.alias.value).Some?;
            var scheduled := i.subscription.Some? && i.subscription.value.frequency.Some?
                             && i.subscription.value.startDate.Some?;
            (r.call.Success? <==> found && i.amount.Some? && scheduled)
            && (r.stamped == if found then {ResolveKey(i.recipient.value.alias.value)} else {})
            && (i.recipient.None? ==> r.call == Failure(Crash(KeyErr("recipient"))))
            && (i.recipient.Some? && i.recipient.value.alias.None? ==> r.call == Failure(Crash(KeyErr("alias"))))
            && (named && !found ==> r.call == Failure(Reject(404, "recipient_not_found", "Recipient not found")))
            && (found && i.amount.None? ==> r.call == Failure(Crash(KeyErr("amount"))))
            && (found && i.amount.Some? && i.subscription.None? ==> r.call == Failure(Crash(KeyErr("subscription"))))
            && (found && i.amount.Some? && i.subscription.Some? && i.subscription.value.frequency.None? ==>
                  r.call == Failure(Crash(KeyErr("frequency"))))
            && (found && i.amount.Some? && i.subscription.Some? && i.subscription.value.frequency.Some?
                && i.subscription.value.startDate.None? ==>
                  r.call == Failure(Crash(KeyErr("start_date"))))
            && (r.call.Success? ==>
                  r.call.value.Subscribe? && r.call.value.fromAddress == req.userAddress
                  && r.call.value.toAddress == Lookup(a2d, i.recipient.value.alias.value).value
                  && r.call.value.amount == i.amount.value
                  && r.call.value.frequency == i.subscription.value.frequency.value
                  && r.call.value.startDate == i.subscription.value.startDate.value)
  {
    var i := req.intent;
    if i.recipient.None? then Plan(Failure(Crash(KeyErr("recipient"))), {})
    else if i.recipient.value.alias.None? then Plan(Failure(Crash(KeyErr("alias"))), {})
    else
      var alias := i.recipient.value.alias.value;
      var to := Lookup(a2d, alias);
      var stamped := {ResolveKey(alias)};
      if to.None? then Plan(Failure(Reject(404, "recipient_not_found", "Recipient not found")), {})
      else if i.amount.None? then Plan(Failure(Crash(KeyErr("amount"))), stamped)
      else if i.subscription.None? then Plan(Failure(Crash(KeyErr("subscription"))), stamped)
      else if i.subscription.value.frequency.None? then Plan(Failure(Crash(KeyErr("frequency"))), stamped)
      else if i.subscription.value.startDate.None? then Plan(Failure(Crash(KeyErr("start_date"))), stamped)
      else
        Plan(Success(Subscribe(req.userAddress, to.value, i.amount.value, i.subscription.value.frequency.value,
                               i.subscription.value.startDate.value, req.userSignature)),
             stamped)
  }

  /** The split branch: `KeyError` on a missing `recipients`, then every
      recipient resolved in order (stopping at the first failure), then
      `KeyError` on a missing amount. */
  function PlanSplit(a2d: map<string, string>, req: ExecuteRequest): (r: Plan)
    ensures var i := req.intent;
            (i.recipients.None? ==> r == Plan(Failure(Crash(KeyErr("recipients"))), {}))
            && (i.recipients.Some? ==>
                  var res := ResolveAll(a2d, i.recipients.value);
                  r.stamped == StampedKeys(res.resolved)
                  && (r.call.Success? <==> res.failure.None? && i.amount.Some?)
                  && (res.failure.Some? ==> r.call == Failure(res.failure.value))
                  && (res.failure.None? && i.amount.None? ==> r.call == Failure(Crash(KeyErr("amount"))))
                  && (r.call.Success? ==>
                        r.call.value == Split(req.userAddress, res.resolved, i.amount.value, i.memo, req.userSignature)))
  {
    var i := req.intent;
    if i.recipients.None? then Plan(Failure(Crash(KeyErr("recipients"))), {})
    else
      var res := ResolveAll(a2d, i.recipients.value);
      var stamped := StampedKeys(res.resolved);
      if res.failure.Some? then Plan(Failure(res.failure.value), stamped)
      else if i.amount.None? then Plan(Failure(Crash(KeyErr("amount"))), stamped)
      else Plan(Success(Split(req.userAddress, res.resolved, i.amount.value, i.memo, req.userSignature)), stamped)
  }

  /** The whole decision of `execute_payment` over the directory `a2d`: the
      kind of rail call follows `payment_type`, an `HTTPException` is a 401,
      404 or 400, and a `KeyError` only arises once the address check and
      the type check have passed. */
  function PlanPayment(a2d: map<string, string>, headerAddress: string, req: ExecuteRequest): (r: Plan)
    ensures r.call.Success? ==>
              (r.call.value.Send? <==> req.paymentType == "single")
              && (r.call.value.Subscribe? <==> req.paymentType == "subscription")
              && (r.call.value.Split? <==> req.paymentType == "split")
    ensures r.call.Failure? && r.call.error.Reject? ==> r.call.error.status in {400, 401, 404}
    ensures r.call.Failure? && r.call.error.Crash? ==>
              Lower(headerAddress) == Lower(req.userAddress) && req.paymentType in {"single", "subscription", "split"}
  {
    if Lower(headerAddress) != Lower(req.userAddress) then
      Plan(Failure(Reject(401, "address_mismatch", "Address mismatch")), {})
    else if req.paymentType == "single" then PlanSingle(a2d, req)
    else if req.paymentType == "subscription" then PlanSubscription(a2d, req)
    else if req.paymentType == "split" then PlanSplit(a2d, req)
    else Plan(Failure(Reject(400, "invalid_payment_type", "Invalid payment type")), {})
  }

  /** The record `log` receives for a call answered with `txHash`: the
      payer, the rail's hash and the amount always; a single payment keeps
      its payee, currency and memo with status `"success"`; a subscription
      its payee with status `"active"`; a split goes to `"multiple"`. */
  function LedgerEntry(call: RailCall, txHash: string): (e: TxData)
    ensures e.fromAddress == call.fromAddress && e.transactionHash == Some(txHash)
    ensures call.Send? ==>
              e.toAddress == call.toAddress && e.amount == call.amount && e.paymentType == "single"
              && e.status == "success" && e.currency == Some(call.currency) && e.memo == call.memo
    ensures call.Subscribe? ==>
              e.toAddress == call.toAddress && e.amount == call.amount && e.paymentType == "subscription"
              && e.status == "active" && e.currency.None? && e.memo.None?
    ensures call.Split? ==>
              e.toAddress == "multiple" && e.amount == call.totalAmount && e.paymentType == "split"
              && e.status == "success" && e.currency.None? && e.memo.None?
  {
    match call
    case Send(f, t, a, c, m, _) => TxData(f, t, a, Some(c), "single", Some(txHash), "success", m)
    case Subscribe(f, t, a, _, _, _) => TxData(f, t, a, None, "subscription", Some(txHash), "active", None)
    case Split(f, _, a, _, _) => TxData(f, "multiple", a, None, "split", Some(txHash), "success", None)
  }

  /** The success response: the rail's hash, `"arc"`, the clock and the
      amount; only a single payment names its two parties. */
  function Confirmation(call: RailCall, txHash: string, now: string): (c: TransactionResponse)
    ensures c.success && c.transactionHash == Some(txHash) && c.blockchain == "arc" && c.timestamp == now
    ensures c.error.None?
    ensures c.amount == Some(if call.Split? then call.totalAmount else call.amount)
    ensures (c.fromAddress.Some? <==> call.Send?) && (c.toAddress.Some? <==> call.Send?)
    ensures call.Send? ==> c.fromAddress == Some(call.fromAddress) && c.toAddress == Some(call.toAddress)
  {
    match call
    case Send(f, t, a, _, _, _) => TransactionResponse(true, Some(txHash), "arc", now, Some(a), Some(f), Some(t), None)
    case Subscribe(_, _, a, _, _, _) => TransactionResponse(true, Some(txHash), "arc", now, Some(a), None, None, None)
    case Split(_, _, a, _, _) => TransactionResponse(true, Some(txHash), "arc", now, Some(a), None, None, None)
  }

  /** A refusal as the client sees it: an HTTP error, or a failed response. */
  function Refused(f: Refusal, now: string): Outcome {
    match f
    case Reject(s, e, m) => HttpError(s, e, m)
    case Crash(e) => Responded(TransactionResponse(false, None, "arc", now, None, None, None, Some(e)))
  }

  /** The header address is compared before anything else: a mismatch is a
      401 whatever the body holds, and resolves nothing. */
  lemma MismatchComesFirst(a2d: map<string, string>, headerAddress: string, req: ExecuteRequest)
    requires Lower(headerAddress) != Lower(req.userAddress)
    ensures PlanPayment(a2d, headerAddress, req) == Plan(Failure(Reject(401, "address_mismatch", "Address mismatch")), {})
  {
  }

  /** Any payment type other than the three is a 400 and resolves nothing. */
  lemma UnknownTypeRejected(a2d: map<string, string>, headerAddress: string, req: ExecuteRequest)
    requires Lower(headerAddress) == Lower(req.userAddress)
    requires req.paymentType !in {"single", "subscription", "split"}
    ensures PlanPayment(a2d, headerAddress, req) == Plan(Failure(Reject(400, "invalid_payment_type", "Invalid payment type")), {})
  {
  }

  /** A call is made only for a matching address and a known payment type,
      and always goes from the body's address. */
  lemma CallsComeFromTheUser(a2d: map<string, string>, headerAddress: string, req: ExecuteRequest)
    requires PlanPayment(a2d, headerAddress, req).call.Success?
    ensures Lower(headerAddress) == Lower(req.userAddress)
    ensures req.paymentType in {"single", "subscription", "split"}
    ensures PlanPayment(a2d, headerAddress, req).call.value.fromAddress == req.userAddress
  {
  }

  /** A single payment or a subscription is sent to the address its
      recipient's alias resolves to. */
  lemma RecipientResolved(a2d: map<string, string>, headerAddress: string, req: ExecuteRequest)
    requires PlanPayment(a2d, headerAddress, req).call.Success?
    requires req.paymentType in {"single", "subscription"}
    ensures req.intent.recipient.Some? && req.intent.recipient.value.alias.Some?
    ensures Lookup(a2d, req.intent.recipient.value.alias.value)
            == Some(PlanPayment(a2d, headerAddress, req).call.value.toAddress)
  {
  }

  /** A split is sent to every listed recipient, in order, each at the
      address its alias resolves to, and to no one else. */
  lemma SplitRecipientsResolved(a2d: map<string, string>, headerAddress: string, req: ExecuteRequest)
    requires PlanPayment(a2d, headerAddress, req).call.Success?
    requires req.paymentType == "split"
    ensures req.intent.recipients.Some?
    ensures var call := PlanPayment(a2d, headerAddress, req).call.value;
            var rs := req.intent.recipients.value;
            call.Split? && |call.recipients| == |rs|
            && forall j :: 0 <= j < |rs| ==>
                 rs[j].alias == Some(call.recipients[j].alias)
                 && Lookup(a2d, call.recipients[j].alias) == Some(call.recipients[j].address)
  {
    ResolveAllSound(a2d, req.intent.recipients.value);
  }

  /** One recipient of a split that has no alias, or whose alias does not
      resolve, stops the whole split before the rail. */
  lemma UnresolvedRecipientStopsSplit(a2d: map<string, string>, headerAddress: string, req: ExecuteRequest, j: nat)
    requires req.paymentType == "split" && req.intent.recipients.Some?
    requires j < |req.intent.recipients.value|
    requires var r := req.intent.recipients.value[j]; r.alias.None? || Lookup(a2d, r.alias.value).None?
    ensures PlanPayment(a2d, headerAddress, req).call.Failure?
  {
    ResolveAllSucceedsIff(a2d, req.intent.recipients.value);
  }

  /** The metadata after stamping `keys`: only `last_used` of those aliases
      changes. */
  ghost predicate StampedFrom(meta: map<string, AliasMeta>, before: map<string, AliasMeta>, keys: set<string>, now: string) {
    meta.Keys == before.Keys
    && forall k :: k in meta ==> meta[k] == if k in keys then before[k].(lastUsed := now) else before[k]
  }

  /** One `resolve` call on top of earlier stamps: a hit adds its key. */
  lemma StampedAfterResolve(before: map<string, AliasMeta>, mid: map<string, AliasMeta>, after: map<string, AliasMeta>,
                            keys: set<string>, key: string, hit: bool, now: string)
    requires StampedFrom(mid, before, keys, now)
    requires after.Keys == mid.Keys
    requires forall k :: k in after ==> after[k] == if k == key && hit then mid[k].(lastUsed := now) else mid[k]
    ensures StampedFrom(after, before, if hit then keys + {key} else keys, now)
  {
  }

  /** The clock, and the digest the ledger id is cut from. */
  datatype Fresh = Fresh(ledgerDigest: string, now: string)

  /** The rail call and the ledger record that follow a successful plan. */
  method Settle(store: Store, call: RailCall, rail: RailCall -> string, gen: Fresh)
    returns (out: Outcome, calls: seq<RailCall>)
    requires store.Valid()
    modifies store`transactions, store`transactionIndex
    ensures store.Valid()
    ensures calls == [call]
    ensures var tx := Tx(TxId(gen.ledgerDigest), gen.now, LedgerEntry(call, rail(call)));
            store.transactions == old(store.transactions) + [tx]
            && store.transactionIndex == old(store.transactionIndex)[rail(call) := tx]
    ensures out == Responded(Confirmation(call, rail(call), gen.now))
  {
    var txHash := rail(call);
    calls := [call];
    var _ := Log(store, LedgerEntry(call, txHash), gen.ledgerDigest, gen.now);
    out := Responded(Confirmation(call, txHash, gen.now));
  }

  /** The effect `execute_payment` must have: the outcome, the rail calls and
      the ledger after the plan for the directory as it was. */
  ghost predicate Executed(store: Store, oldTxs: seq<Tx>, oldIndex: map<string, Tx>, plan: Plan,
                           rail: RailCall -> string, gen: Fresh, out: Outcome, calls: seq<RailCall>)
    reads store
  {
    (plan.call.Failure? ==>
       out == Refused(plan.call.error, gen.now) && calls == []
       && store.transactions == oldTxs && store.transactionIndex == oldIndex)
    && (plan.call.Success? ==>
          var call := plan.call.value;
          var tx := Tx(TxId(gen.ledgerDigest), gen.now, LedgerEntry(call, rail(call)));
          out == Responded(Confirmation(call, rail(call), gen.now)) && calls == [call]
          && store.transactions == oldTxs + [tx]
          && store.transactionIndex == oldIndex[rail(call) := tx])
  }

  /** The single branch: resolve the recipient, then send. */
  method ExecuteSingle(store: Store, req: ExecuteRequest, rail: RailCall -> string, gen: Fresh)
    returns (out: Outcome, calls: seq<RailCall>)
    requires store.Valid()
    modifies store`aliasMetadata, store`transactions, store`transactionIndex
    ensures store.Valid()
    ensures var plan := PlanSingle(old(store.aliasToAddress), req);
            Executed(store, old(store.transactions), old(store.transactionIndex), plan, rail, gen, out, calls)
            && StampedFrom(store.aliasMetadata, old(store.aliasMetadata), plan.stamped, gen.now)
  {
    var i := req.intent;
    calls := [];
    if i.recipient.None? {
      return Refused(Crash(KeyErr("recipient")), gen.now), calls;
    }
    if i.recipient.value.alias.None? {
      return Refused(Crash(KeyErr("alias")), gen.now), calls;
    }
    var alias := i.recipient.value.alias.value;
    var to := Resolve(store, alias, gen.now);
    StampedAfterResolve(old(store.aliasMetadata), old(store.aliasMetadata), store.aliasMetadata, {},
                        ResolveKey(alias), to.Some? && to.value != "", gen.now);
    if to.None? || to.value == "" {
      return Refused(Reject(404, "recipient_not_found", "Recipient " + alias + " not found"), gen.now), calls;
    }
    if i.amount.None? {
      return Refused(Crash(KeyErr("amount")), gen.now), calls;
    }
    var call := Send(req.userAddress, to.value, i.amount.value, i.currency.GetOr("ARC"), i.memo, req.userSignature);
    out, calls := Settle(store, call, rail, gen);
  }

  /** The subscription branch: resolve the recipient, read the schedule,
      then subscribe. */
  method ExecuteSubscription(store: Store, req: ExecuteRequest, rail: RailCall -> string, gen: Fresh)
    returns (out: Outcome, calls: seq<RailCall>)
    requires store.Valid()
    modifies store`aliasMetadata, store`transactions, store`transactionIndex
    ensures store.Valid()
    ensures var plan := PlanSubscription(old(store.aliasToAddress), req);
            Executed(store, old(store.transactions), old(store.transactionIndex), plan, rail, gen, out, calls)
            && StampedFrom(store.aliasMetadata, old(store.aliasMetadata), plan.stamped, gen.now)
  {
    var i := req.intent;
    calls := [];
    if i.recipient.None? {
      return Refused(Crash(KeyErr("recipient")), gen.now), calls;
    }
    if i.recipient.value.alias.None? {
      return Refused(Crash(KeyErr("alias")), gen.now), calls;
    }
    var alias := i.recipient.value.alias.value;
    var to := Resolve(store, alias, gen.now);
    StampedAfterResolve(old(store.aliasMetadata), old(store.aliasMetadata), store.aliasMetadata, {},
                        ResolveKey(alias), to.Some? && to.value != "", gen.now);
    if to.None? || to.value == "" {
      return Refused(Reject(404, "recipient_not_found", "Recipient not found"), gen.now), calls;
    }
    if i.amount.None? {
      return Refused(Crash(KeyErr("amount")), gen.now), calls;
    }
    if i.subscription.None? {
      return Refused(Crash(KeyErr("subscription")), gen.now), calls;
    }
    var schedule := i.subscription.value;
    if schedule.frequency.None? {
      return Refused(Crash(KeyErr("frequency")), gen.now), calls;
    }
    if schedule.startDate.None? {
      return Refused(Crash(KeyErr("start_date")), gen.now), calls;
    }
    var call := Subscribe(req.userAddress, to.value, i.amount.value, schedule.frequency.value,
                          schedule.startDate.value, req.userSignature);
    out, calls := Settle(store, call, rail, gen);
  }

  /** One step of the split loop, seen from the remaining recipients. */
  lemma ResolveAllStep(a2d: map<string, string>, rs: seq<Recipient>, k: nat)
    requires k < |rs| && rs[k].alias.Some? && Lookup(a2d, rs[k].alias.value).Some?
    ensures ResolveAll(a2d, rs[k..])
            == Resolution([ResolvedRecipient(rs[k].alias.value, Lookup(a2d, rs[k].alias.value).value)]
                            + ResolveAll(a2d, rs[k + 1..]).resolved,
                          ResolveAll(a2d, rs[k + 1..]).failure)
  {
    assert rs[k..][1..] == rs[k + 1..];
  }

  /** The split loop stops at the recipient it cannot resolve. */
  lemma ResolveAllStop(a2d: map<string, string>, rs: seq<Recipient>, k: nat)
    requires k < |rs| && (rs[k].alias.None? || Lookup(a2d, rs[k].alias.value).None?)
    ensures ResolveAll(a2d, rs[k..]).resolved == []
    ensures ResolveAll(a2d, rs[k..]).failure
            == Some(if rs[k].alias.None? then Crash(KeyErr("alias"))
                    else Reject(404, "recipient_not_found", "Recipient " + rs[k].alias.value + " not found"))
  {
    assert rs[k..][0] == rs[k];
  }

  /** The loop of the split branch: `resolve` each recipient in order and
      stop at the first one missing an alias or not found. */
  method ResolveRecipients(store: Store, rs: seq<Recipient>, now: string) returns (res: Resolution)
    requires store.Valid()
    modifies store`aliasMetadata
    ensures store.Valid()
    ensures res == ResolveAll(old(store.aliasToAddress), rs)
    ensures StampedFrom(store.aliasMetadata, old(store.aliasMetadata), StampedKeys(res.resolved), now)
  {
    ghost var a2d := store.aliasToAddress;
    var resolved: seq<ResolvedRecipient> := [];
    var k := 0;
    while k < |rs|
      invariant 0 <= k <= |rs|
      invariant store.Valid() && store.aliasToAddress == a2d
      invariant ResolveAll(a2d, rs) == Resolution(resolved + ResolveAll(a2d, rs[k..]).resolved, ResolveAll(a2d, rs[k..]).failure)
      invariant StampedFrom(store.aliasMetadata, old(store.aliasMetadata), StampedKeys(resolved), now)
    {
      var recipient := rs[k];
      if recipient.alias.None? {
        ResolveAllStop(a2d, rs, k);
        return Resolution(resolved, Some(Crash(KeyErr("alias"))));
      }
      var alias := recipient.alias.value;
      ghost var metaBefore := store.aliasMetadata;
      var address := Resolve(store, alias, now);
      StampedAfterResolve(old(store.aliasMetadata), metaBefore, store.aliasMetadata, StampedKeys(resolved),
                          ResolveKey(alias), address.Some? && address.value != "", now);
      if address.None? || address.value == "" {
        ResolveAllStop(a2d, rs, k);
        return Resolution(resolved, Some(Reject(404, "recipient_not_found", "Recipient " + alias + " not found")));
      }
      var next := ResolvedRecipient(alias, address.value);
      ghost var rest := ResolveAll(a2d, rs[k + 1..]);
      assert Lookup(a2d, alias) == address;
      ResolveAllStep(a2d, rs, k);
      assert resolved + ([next] + rest.resolved) == (resolved + [next]) + rest.resolved;
      StampedKeysAppend(resolved, next);
      resolved := resolved + [next];
      k := k + 1;
    }
    assert rs[k..] == [];
    res := Resolution(resolved, None);
  }

  /** The split branch: resolve every recipient, then split. */
  method ExecuteSplit(store: Store, req: ExecuteRequest, rail: RailCall -> string, gen: Fresh)
    returns (out: Outcome, calls: seq<RailCall>)
    requires store.Valid()
    modifies store`aliasMetadata, store`transactions, store`transactionIndex
    ensures store.Valid()
    ensures var plan := PlanSplit(old(store.aliasToAddress), req);
            Executed(store, old(store.transactions), old(store.transactionIndex), plan, rail, gen, out, calls)
            && StampedFrom(store.aliasMetadata, old(store.aliasMetadata), plan.stamped, gen.now)
  {
    var i := req.intent;
    calls := [];
    if i.recipients.None? {
      return Refused(Crash(KeyErr("recipients")), gen.now), calls;
    }
    var res := ResolveRecipients(store, i.recipients.value, gen.now);
    if res.failure.Some? {
      return Refused(res.failure.value, gen.now), calls;
    }
    if i.amount.None? {
      return Refused(Crash(KeyErr("amount")), gen.now), calls;
    }
    out, calls := Settle(store, Split(req.userAddress, res.resolved, i.amount.value, i.memo, req.userSignature), rail, gen);
  }

  /** `execute_payment`: exactly the plan for the directory as it was. A
      refusal calls no rail and writes no record; a payment calls the rail
      once and logs exactly one record, under the hash the rail answered.
      Only the directory's `last_used` stamps change besides the ledger. */
  method ExecutePayment(store: Store, headerAddress: string, req: ExecuteRequest, rail: RailCall -> string, gen: Fresh)
    returns (out: Outcome, calls: seq<RailCall>)
    requires store.Valid()
    modifies store`aliasMetadata, store`transactions, store`transactionIndex
    ensures store.Valid()
    ensures var plan := PlanPayment(old(store.aliasToAddress), headerAddress, req);
            Executed(store, old(store.transactions), old(store.transactionIndex), plan, rail, gen, out, calls)
            && StampedFrom(store.aliasMetadata, old(store.aliasMetadata), plan.stamped, gen.now)
  {
    if Lower(headerAddress) != Lower(req.userAddress) {
      return Refused(Reject(401, "address_mismatch", "Address mismatch"), gen.now), [];
    }
    if req.paymentType == "single" {
      out, calls := ExecuteSingle(store, req, rail, gen);
    } else if req.paymentType == "subscription" {
      out, calls := ExecuteSubscription(store, req, rail, gen);
    } else if req.paymentType == "split" {
      out, calls := ExecuteSplit(store, req, rail, gen);
    } else {
      out, calls := Refused(Reject(400, "invalid_payment_type", "Invalid payment type"), gen.now), [];
    }
  }

  /** main.py's mock rail as a function: whatever the call, it answers with
      the hash cut from the fresh digest. */
  function MockRail(txDigest: string): (rail: RailCall -> string)
    ensures forall call :: rail(call) == TxHash(txDigest)
  {
    (call: RailCall) => TxHash(txDigest)
  }

  /** `execute_payment` wired to main.py's mock `BlockchainService`: the
      dispatch above with the mock's hash, and, for a subscription that goes
      ahead, the one subscription record the mock writes. */
  method ExecuteOnMockRail(store: Store, headerAddress: string, req: ExecuteRequest, gen: Fresh,
                           subDigest: string, txDigest: string)
    returns (out: Outcome, calls: seq<RailCall>)
    requires store.Valid()
    modifies store`aliasMetadata, store`transactions, store`transactionIndex, store`subscriptions
    ensures store.Valid()
    ensures var plan := PlanPayment(old(store.aliasToAddress), headerAddress, req);
            Executed(store, old(store.transactions), old(store.transactionIndex), plan, MockRail(txDigest), gen, out, calls)
            && StampedFrom(store.aliasMetadata, old(store.aliasMetadata), plan.stamped, gen.now)
            && (plan.call.Success? && plan.call.value.Subscribe? ==>
                  var c := plan.call.value;
                  var id := SubscriptionId(subDigest);
                  store.subscriptions == old(store.subscriptions)[id :=
                    Subscription(id, c.fromAddress, c.toAddress, c.amount, c.frequency, c.startDate, "active", gen.now)])
            && (!(plan.call.Success? && plan.call.value.Subscribe?) ==> store.subscriptions == old(store.subscriptions))
  {
    out, calls := ExecutePayment(store, headerAddress, req, MockRail(txDigest), gen);
    if calls != [] {
      var reply := Perform(store, calls[0], subDigest, txDigest, gen.now);
      assert reply.transactionHash == MockRail(txDigest)(calls[0]);
    }
  }
}
