/** main.py's mock `BlockchainService`: the three rail operations
    `execute_payment` calls, each answering with a fresh hash; only
    `create_subscription` writes anything, into the subscription table. */
module MockChain {
  import opened Wrappers
  import opened PyText
  import opened Storage

  /** A split recipient after resolution: the alias it was given by and the
      address its `"address"` key was set to. */
  datatype ResolvedRecipient = ResolvedRecipient(alias: string, address: string)

  /** A call into the rail, with the arguments `execute_payment` passes. */
  datatype RailCall =
    | Send(fromAddress: string, toAddress: string, amount: Amount, currency: string,
           memo: Option<string>, signature: string)
    | Subscribe(fromAddress: string, toAddress: string, amount: Amount, frequency: string,
                startDate: string, signature: string)
    | Split(fromAddress: string, recipients: seq<ResolvedRecipient>, totalAmount: Amount,
            memo: Option<string>, signature: string)

  /** `_generate_tx_hash`: `"0x"` and a hex digest of the clock and a uuid,
      the digest being a parameter. */
  function TxHash(digest: string): (h: string)
    ensures |h| == |digest| + 2
    ensures StartsWith(h, "0x") && h[2..] == digest
  {
    var h := "0x" + digest;
    assert h[..2] == "0x";
    h
  }

  /** The dictionaries the mock returns, all with `success: True`. */
  datatype MockReply =
    | Sent(transactionHash: string, blockNumber: int, gasUsed: string, status: string, timestamp: string)
    | Subscribed(subscriptionId: string, transactionHash: string, status: string)
    | SplitSent(transactionHash: string, recipientCount: nat, totalAmount: Amount, status: string)

  /** `send_payment`: nothing is checked and nothing is stored; the reply is
      a confirmed transfer with a fixed block number and gas figure. */
  function SendPayment(fromAddress: string, toAddress: string, amount: Amount, currency: string,
                       memo: Option<string>, signature: string, digest: string, now: string)
    : (r: MockReply)
    ensures r.Sent? && r.transactionHash == TxHash(digest) && r.status == "confirmed"
    ensures r.blockNumber == 12345678 && r.gasUsed == "21000" && r.timestamp == now
  {
    Sent(TxHash(digest), 12345678, "21000", "confirmed", now)
  }

  /** `create_subscription`: exactly one subscription record is written,
      active, under the id it returns. */
  method CreateSubscription(store: Store, fromAddress: string, toAddress: string, amount: Amount,
                            frequency: string, startDate: string, signature: string,
                            subDigest: string, txDigest: string, now: string)
    returns (r: MockReply)
    modifies store`subscriptions
    ensures r == Subscribed(SubscriptionId(subDigest), TxHash(txDigest), "active")
    ensures store.subscriptions == old(store.subscriptions)[r.subscriptionId :=
              Subscription(r.subscriptionId, fromAddress, toAddress, amount, frequency, startDate, "active", now)]
  {
    var subId := SubscriptionId(subDigest);
    var txHash := TxHash(txDigest);
    store.subscriptions := store.subscriptions[subId :=
      Subscription(subId, fromAddress, toAddress, amount, frequency, startDate, "active", now)];
    r := Subscribed(subId, txHash, "active");
  }

  /** `split_payment`: one simulated transaction; the count is the number of
      recipients and the total is passed through. */
  function SplitPayment(fromAddress: string, recipients: seq<ResolvedRecipient>, totalAmount: Amount,
                        memo: Option<string>, signature: string, digest: string)
    : (r: MockReply)
    ensures r.SplitSent? && r.transactionHash == TxHash(digest) && r.status == "confirmed"
    ensures r.recipientCount == |recipients| && r.totalAmount == totalAmount
  {
    SplitSent(TxHash(digest), |recipients|, totalAmount, "confirmed")
  }

  /** Perform one rail call: every reply carries the fresh hash, and only a
      subscription touches the store. */
  method Perform(store: Store, call: RailCall, subDigest: string, txDigest: string, now: string)
    returns (r: MockReply)
    modifies store`subscriptions
    ensures r.transactionHash == TxHash(txDigest)
    ensures !call.Subscribe? ==> store.subscriptions == old(store.subscriptions)
    ensures call.Subscribe? ==>
              r.Subscribed? && r.subscriptionId == SubscriptionId(subDigest)
              && store.subscriptions == old(store.subscriptions)[r.subscriptionId :=
                   Subscription(r.subscriptionId, call.fromAddress, call.toAddress, call.amount,
                                call.frequency, call.startDate, "active", now)]
  {
    match call
    case Send(f, t, a, c, m, s) =>
      r := SendPayment(f, t, a, c, m, s, txDigest, now);
    case Subscribe(f, t, a, fr, sd, s) =>
      r := CreateSubscription(store, f, t, a, fr, sd, s, subDigest, txDigest, now);
    case Split(f, rs, a, m, s) =>
      r := SplitPayment(f, rs, a, m, s, txDigest);
  }
}
