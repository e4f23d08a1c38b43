/** blockchain_service.py: payments delegated to an optional Circle rail
    and mapped onto the service's own reply, simulated subscriptions written
    into the shared storage, and simulated split payments. The Web3
    connection is outside the model. */
module ArcChain {
  import opened Wrappers
  import opened PyText
  import opened Storage
  import opened CircleService

  /** The default of `ARC_EXPLORER_URL`. */
  const ExplorerBase := "https://explorer.arc.network"

  const Unavailable := "Circle Payment Service is unavailable."
  const ExecutionFailed := "Circle Execution Failed: "

  /** `_get_explorer_url`: the explorer's `/tx/` page of the hash. */
  function ExplorerUrl(txHash: string): (url: string)
    ensures |url| == |ExplorerBase| + 4 + |txHash|
    ensures StartsWith(url, ExplorerBase + "/tx/") && url[|ExplorerBase| + 4..] == txHash
  {
    ExplorerBase + "/tx/" + txHash
  }

  /** Different hashes have different explorer pages. */
  lemma ExplorerUrlInjective(a: string, b: string)
    requires ExplorerUrl(a) == ExplorerUrl(b)
    ensures a == b
  {
    assert a == ExplorerUrl(a)[|ExplorerBase| + 4..];
  }

  /** What `send_payment` hands to the rail: four of its six arguments. */
  datatype TransferCall = TransferCall(fromAddress: string, toAddress: string, amount: real, memo: Option<string>)

  /** The reply of `send_payment`. */
  datatype PaymentResult =
    | Paid(transactionHash: Option<string>, status: string, explorerUrl: string, timestamp: string)
    | Unpaid(error: string, failedAt: Option<string>)

  /** `send_payment` over the injected rail (`circle_service`, absent when
      `None`): without a rail, a fixed failure; otherwise the rail's result
      mapped onto the reply, the status forced to `"confirmed"` on success. */
  function SendPayment(circle: Option<TransferCall -> TransferResult>, fromAddress: string, toAddress: string,
                       amount: real, currency: string, memo: Option<string>, signature: Option<string>, now: string)
    : (r: PaymentResult)
    ensures circle.None? ==> r == Unpaid(Unavailable, None)
    ensures circle.Some? ==>
              var reply := circle.value(TransferCall(fromAddress, toAddress, amount, memo));
              (reply.Transferred? ==>
                 r.Paid? && r.transactionHash == reply.transactionHash && r.status == "confirmed"
                 && r.explorerUrl == ExplorerUrl(ShowStr(reply.transactionHash)) && r.timestamp == now)
              && (reply.TransferFailed? ==>
                    r.Unpaid? && r.failedAt == Some(now)
                    && StartsWith(r.error, ExecutionFailed) && r.error[|ExecutionFailed|..] == reply.error)
  {
    if circle.None? then Unpaid(Unavailable, None)
    else
      var reply := circle.value(TransferCall(fromAddress, toAddress, amount, memo));
      if reply.Transferred? then
        Paid(reply.transactionHash, "confirmed", ExplorerUrl(ShowStr(reply.transactionHash)), now)
      else
        var e := ExecutionFailed + reply.error;
        assert e[..|ExecutionFailed|] == ExecutionFailed;
        Unpaid(e, Some(now))
  }

  /** The currency and the signature never reach the rail and never change
      the reply. */
  lemma SendPaymentIgnoresCurrencyAndSignature(
    circle: Option<TransferCall -> TransferResult>, fromAddress: string, toAddress: string, amount: real,
    currency1: string, currency2: string, memo: Option<string>, signature1: Option<string>,
    signature2: Option<string>, now: string)
    ensures SendPayment(circle, fromAddress, toAddress, amount, currency1, memo, signature1, now)
            == SendPayment(circle, fromAddress, toAddress, amount, currency2, memo, signature2, now)
  {
  }

  /** The reply of `create_subscription`. */
  datatype SubscriptionCreated = SubscriptionCreated(subscriptionId: string, transactionHash: string, explorerUrl: string)

  /** `create_subscription`: exactly one entry of `subscriptions` is set,
      active, under the fresh id it returns. The digest, the uuid hex and the
      clock are parameters. */
  method CreateSubscription(store: Store, fromAddress: string, toAddress: string, amount: Amount,
                            frequency: string, startDate: string, signature: string,
                            digest: string, uuidHex: string, now: string)
    returns (r: SubscriptionCreated)
    modifies store`subscriptions
    ensures r.subscriptionId == SubscriptionId(digest)
    ensures r.transactionHash == "0x" + uuidHex && r.explorerUrl == ExplorerUrl(r.transactionHash)
    ensures store.subscriptions == old(store.subscriptions)[r.subscriptionId :=
              Subscription(r.subscriptionId, fromAddress, toAddress, amount, frequency, startDate, "active", now)]
  {
    var subId := SubscriptionId(digest);
    var txHash := "0x" + uuidHex;
    store.subscriptions := store.subscriptions[subId :=
      Subscription(subId, fromAddress, toAddress, amount, frequency, startDate, "active", now)];
    r := SubscriptionCreated(subId, txHash, ExplorerUrl(txHash));
  }

  /** The reply of `split_payment`. */
  datatype SplitResult = SplitResult(transactionHash: string, recipientCount: nat, totalAmount: Amount,
                                     status: string, explorerUrl: string)

  /** `split_payment`: one simulated transaction for all recipients. */
  function SplitPayment<R>(fromAddress: string, recipients: seq<R>, totalAmount: Amount,
                           memo: Option<string>, signature: string, uuidHex: string)
    : (r: SplitResult)
    ensures r.recipientCount == |recipients| && r.totalAmount == totalAmount
    ensures r.status == "confirmed" && r.explorerUrl == ExplorerUrl(r.transactionHash)
    ensures StartsWith(r.transactionHash, "0x")
  {
    var h := "0x" + uuidHex;
    assert h[..2] == "0x";
    SplitResult(h, |recipients|, totalAmount, "confirmed", ExplorerUrl(h))
  }
}
