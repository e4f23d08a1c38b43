/** The logic inside main.py's alias, history, transaction and subscription
    routes: the `@` prefix the alias routes add, the 404s they raise, the
    clamp on the history page size and the active-subscription filter. */
module Routes {
  import opened Wrappers
  import opened PyText
  import opened Storage
  import opened AliasService
  import opened Ledger

  /** The `detail` of a 404. */
  datatype NotFound = NotFound(error: string, message: string)

  /** `if not alias.startswith('@'): alias = '@' + alias`. */
  function WithAt(alias: string): (r: string)
    ensures |r| > 0 && r[0] == '@'
    ensures StartsWith(alias, "@") ==> r == alias
    ensures !StartsWith(alias, "@") ==> r == "@" + alias
  {
    if StartsWith(alias, "@") then alias else "@" + alias
  }

  /** The route's own `@` does not change which alias `resolve` looks up. */
  lemma WithAtKeepsKey(alias: string)
    ensures ResolveKey(WithAt(alias)) == ResolveKey(alias)
  {
    if !StartsWith(alias, "@") {
      ResolveKeyAddsAt(alias, alias);
    }
  }

  /** The body of `GET /alias/{alias}`. */
  datatype AliasBody = AliasBody(alias: string, address: string)

  /** `GET /alias/{alias}`: the prefixed alias and its address, or a 404
      naming it when it is unknown or maps to an empty address. */
  method GetAliasRoute(store: Store, alias: string, now: string) returns (r: Result<AliasBody, NotFound>)
    requires store.Valid()
    modifies store`aliasMetadata
    ensures store.Valid()
    ensures var a := WithAt(alias);
            var found := MapGet(store.aliasToAddress, ResolveKey(alias));
            (r.Success? <==> found.Some? && found.value != "")
            && (r.Success? ==> r.value == AliasBody(a, found.value))
            && (r.Failure? ==> r.error == NotFound("alias_not_found", "Alias " + a + " not found"))
    ensures store.aliasToAddress == old(store.aliasToAddress) && store.addressToAlias == old(store.addressToAlias)
    ensures store.aliasMetadata.Keys == old(store.aliasMetadata).Keys
    ensures forall k :: k in store.aliasMetadata ==>
              store.aliasMetadata[k] ==
                if k == ResolveKey(alias) && r.Success? then old(store.aliasMetadata[k]).(lastUsed := now)
                else old(store.aliasMetadata[k])
  {
    var a := WithAt(alias);
    WithAtKeepsKey(alias);
    var address := Resolve(store, a, now);
    if address.None? || address.value == "" {
      return Failure(NotFound("alias_not_found", "Alias " + a + " not found"));
    }
    r := Success(AliasBody(a, address.value));
  }

  /** The body of `GET /address/{address}/alias`: the address as given, and
      its alias or `null`. */
  datatype AddressAliasBody = AddressAliasBody(address: string, alias: Option<string>)

  function GetAddressAliasRoute(store: Store, address: string): (r: AddressAliasBody)
    reads store
    ensures r.address == address
    ensures r.alias.Some? <==> Lower(address) in store.addressToAlias
    ensures store.Valid() && r.alias.Some? ==>
              r.alias.value in store.aliasToAddress && store.aliasToAddress[r.alias.value] == Lower(address)
  {
    AddressAliasBody(address, GetAlias(store, address))
  }

  /** `DELETE /alias/{alias}`: the prefixed alias is deleted, or a 404. The
      `X-Signature` header is required but never checked, and no ownership
      is checked either. */
  method DeleteAliasRoute(store: Store, alias: string, signature: string) returns (r: Result<string, NotFound>)
    requires store.Valid()
    modifies store`aliasToAddress, store`addressToAlias, store`aliasMetadata
    ensures store.Valid()
    ensures var a := Lower(WithAt(alias));
            (r.Success? <==> a in old(store.aliasToAddress))
            && (r.Success? ==> r.value == "Alias " + WithAt(alias) + " deleted"
                               && store.aliasToAddress == old(store.aliasToAddress) - {a}
                               && store.addressToAlias == old(store.addressToAlias) - {old(store.aliasToAddress)[a]}
                               && store.aliasMetadata == old(store.aliasMetadata) - {a})
            && (r.Failure? ==> r.error == NotFound("alias_not_found", "Alias not found")
                               && store.aliasToAddress == old(store.aliasToAddress)
                               && store.addressToAlias == old(store.addressToAlias)
                               && store.aliasMetadata == old(store.aliasMetadata))
  {
    var a := WithAt(alias);
    var ok := Delete(store, a);
    if !ok {
      return Failure(NotFound("alias_not_found", "Alias not found"));
    }
    r := Success("Alias " + a + " deleted");
  }

  /** The page-size clamp as main.py writes it: only from above. */
  function ClampAsWritten(limit: int): (r: int)
    ensures r <= 100
    ensures limit <= 100 ==> r == limit
    ensures limit > 100 ==> r == 100
  {
    if limit > 100 then 100 else limit
  }

  /** `GET /history/{address}` as written. */
  function HistoryRouteAsWritten(store: Store, address: string, limit: int, offset: int): (p: HistoryPage)
    reads store
    ensures p.limit <= 100 && (limit <= 100 ==> p.limit == limit) && p.offset == offset
    ensures limit > 100 ==> p.limit == 100
    ensures p.totalCount == |Matching(store.transactions, Lower(address))|
    ensures p.transactions == Slice(SortByTimestampDesc(Matching(store.transactions, Lower(address))), offset, offset + p.limit)
    ensures p.count == |p.transactions|
  {
    GetHistory(store, address, ClampAsWritten(limit), offset)
  }

  /** A negative `limit` passes the clamp and becomes a negative slice end,
      which drops records from the end instead of bounding the page: with
      102 matching records, `limit=-1` returns a page of 101. */
  lemma NegativeLimitExceedsCap(store: Store, address: string)
    requires |Matching(store.transactions, Lower(address))| >= 102
    ensures HistoryRouteAsWritten(store, address, -1, 0).count > 100
  {
    var sorted := SortByTimestampDesc(Matching(store.transactions, Lower(address)));
    assert |Slice(sorted, 0, -1)| == |sorted| - 1;
  }

  /** The clamp the cap evidently intends: into `[0, 100]`. */
  function ClampLimit(limit: int): (r: nat)
    ensures r <= 100
    ensures 0 <= limit <= 100 ==> r == limit
    ensures limit > 100 ==> r == 100
    ensures limit < 0 ==> r == 0
  {
    if limit > 100 then 100 else if limit < 0 then 0 else limit
  }

  /** `GET /history/{address}` with the corrected clamp: never more than 100
      records, all of them the address's, newest first. */
  function HistoryRoute(store: Store, address: string, limit: int, offset: int): (p: HistoryPage)
    reads store
    ensures p.count <= 100 && p.count == |p.transactions|
    ensures p.limit == ClampLimit(limit) && p.offset == offset
    ensures p.totalCount == |Matching(store.transactions, Lower(address))|
    ensures forall t :: t in p.transactions ==> t in store.transactions && Involves(t, Lower(address))
    ensures SortedDesc(p.transactions)
    ensures p.transactions == Slice(SortByTimestampDesc(Matching(store.transactions, Lower(address))), offset, offset + p.limit)
    ensures offset >= 0 ==>
              p.count == if p.totalCount <= offset then 0
                         else if p.limit < p.totalCount - offset then p.limit else p.totalCount - offset
  {
    GetHistory(store, address, ClampLimit(limit), offset)
  }

  /** `GET /transaction/{tx_hash}`: the indexed record, or a 404. */
  function GetTransactionRoute(store: Store, txHash: string): (r: Result<Tx, NotFound>)
    reads store
    ensures r.Success? <==> txHash in store.transactionIndex
    ensures r.Success? ==> r.value == store.transactionIndex[txHash]
    ensures store.Valid() && r.Success? ==> r.value in store.transactions
    ensures r.Failure? ==> r.error == NotFound("transaction_not_found", "Transaction not found")
  {
    var tx := GetTransaction(store, txHash);
    if tx.None? then Failure(NotFound("transaction_not_found", "Transaction not found")) else Success(tx.value)
  }

  /** `GET /subscriptions/{address}`: the active subscriptions paid from the
      address, compared case-insensitively, keyed by their ids. */
  function ActiveSubscriptions(subs: map<string, Subscription>, address: string): (r: map<string, Subscription>)
    ensures forall id :: id in r <==> id in subs && Lower(subs[id].fromAddress) == Lower(address) && subs[id].status == "active"
    ensures forall id :: id in r ==> r[id] == subs[id]
  {
    map id | id in subs && Lower(subs[id].fromAddress) == Lower(address) && subs[id].status == "active" :: subs[id]
  }

  /** The body of `GET /subscriptions/{address}`. */
  datatype SubscriptionsBody = SubscriptionsBody(address: string, count: nat, subscriptions: map<string, Subscription>)

  function GetSubscriptionsRoute(store: Store, address: string): (r: SubscriptionsBody)
    reads store
    ensures r.address == address && r.count == |r.subscriptions|
    ensures r.subscriptions == ActiveSubscriptions(store.subscriptions, address)
  {
    var subs := ActiveSubscriptions(store.subscriptions, address);
    SubscriptionsBody(address, |subs|, subs)
  }

  /** A subscription just written is listed for its payer, under any casing
      of the payer's address, and the other entries of the list stay as they
      were. */
  lemma NewSubscriptionListed(subs: map<string, Subscription>, s: Subscription, address: string)
    requires s.status == "active" && Lower(s.fromAddress) == Lower(address)
    ensures var after := ActiveSubscriptions(subs[s.id := s], address);
            s.id in after && after[s.id] == s
            && forall id :: id != s.id ==> (id in after <==> id in ActiveSubscriptions(subs, address))
  {
  }
}
