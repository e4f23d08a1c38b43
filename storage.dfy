/** main.py's `InMemoryStorage`: the alias directory (two dictionaries and
    per-alias metadata), the transaction list with its hash index, and the
    subscription table, filled with the four demo aliases on construction. */
module Storage {
  import opened Wrappers
  import opened PyText

  /** A JSON value the service only passes along, such as `amount`: it may be
      a number or `null`. */
  datatype Amount = Null | Number(value: real)

  /** `alias_metadata[alias]`; demo entries carry no signature. */
  datatype AliasMeta = AliasMeta(registeredAt: string, lastUsed: string, signature: Option<string>)

  /** The `tx_data` dictionary given to `TransactionService.log`. */
  datatype TxData = TxData(
    fromAddress: string,
    toAddress: string,
    amount: Amount,
    currency: Option<string>,
    paymentType: string,
    transactionHash: Option<string>,
    status: string,
    memo: Option<string>)

  /** A logged transaction: a fresh id and a timestamp in front of `tx_data`. */
  datatype Tx = Tx(id: string, timestamp: string, data: TxData)

  /** A record of `subscriptions`. */
  datatype Subscription = Subscription(
    id: string,
    fromAddress: string,
    toAddress: string,
    amount: Amount,
    frequency: string,
    startDate: string,
    status: string,
    createdAt: string)

  /** A subscription id: `"sub_"` and the first 16 characters of a hex
      digest (the SHA-256 of the parties and the clock, a parameter). */
  function SubscriptionId(digest: string): (id: string)
    ensures |id| == 4 + (if |digest| < 16 then |digest| else 16)
    ensures StartsWith(id, "sub_") && id[4..] == digest[..|id| - 4]
  {
    "sub_" + Slice(digest, 0, 16)
  }

  /** The two directions of the directory are exact inverses. */
  ghost predicate Inverse(a2d: map<string, string>, d2a: map<string, string>) {
    (forall a :: a in a2d ==> a2d[a] in d2a && d2a[a2d[a]] == a)
    && (forall d :: d in d2a ==> d2a[d] in a2d && a2d[d2a[d]] == d)
  }

  /** The demo aliases of `_init_demo_data`, addresses in mixed case. */
  const DemoAliases: seq<(string, string)> := [
    ("@alice", "0x742d35Cc6634C0532925a3b844Bc9e7595f0bEb"),
    ("@bob", "0x8626f6940E2eb28930eFb4CeF49B2d1F2C9C1199"),
    ("@charlie", "0xdD870fA1b7C4700F2BD7f44238821C26f7392148"),
    ("@demo", "0x4E5B2ea1F6E7eA1e5e5E5e5e5e5e5e5e5e5e5e5")
  ]

  /** No alias and no address occurs twice in a list of pairs. */
  predicate DistinctPairs(pairs: seq<(string, string)>) {
    forall i, j :: 0 <= i < j < |pairs| ==> pairs[i].0 != pairs[j].0 && pairs[i].1 != pairs[j].1
  }

  /** The alias-to-address dictionary after inserting `pairs` in order. */
  function AliasMapOf(pairs: seq<(string, string)>): (m: map<string, string>)
    ensures forall a :: a in m <==> exists i :: 0 <= i < |pairs| && pairs[i].0 == a
  {
    if pairs == [] then map[]
    else
      var last := pairs[|pairs| - 1];
      var m := AliasMapOf(pairs[..|pairs| - 1])[last.0 := last.1];
      assert forall i :: 0 <= i < |pairs| - 1 ==> pairs[..|pairs| - 1][i] == pairs[i];
      m
  }

  /** The address-to-alias dictionary after inserting `pairs` in order. */
  function AddressMapOf(pairs: seq<(string, string)>): (m: map<string, string>)
    ensures forall d :: d in m <==> exists i :: 0 <= i < |pairs| && pairs[i].1 == d
  {
    if pairs == [] then map[]
    else
      var last := pairs[|pairs| - 1];
      var m := AddressMapOf(pairs[..|pairs| - 1])[last.1 := last.0];
      assert forall i :: 0 <= i < |pairs| - 1 ==> pairs[..|pairs| - 1][i] == pairs[i];
      m
  }

  /** Adding a fresh alias with a fresh address keeps the two directions
      inverse. */
  lemma InverseInsert(a2d: map<string, string>, d2a: map<string, string>, a: string, d: string)
    requires Inverse(a2d, d2a) && a !in a2d && d !in d2a
    ensures Inverse(a2d[a := d], d2a[d := a])
  {
  }

  /** Removing an alias and its address keeps the two directions inverse. */
  lemma InverseRemove(a2d: map<string, string>, d2a: map<string, string>, a: string)
    requires Inverse(a2d, d2a) && a in a2d
    ensures Inverse(a2d - {a}, d2a - {a2d[a]})
  {
  }

  /** Inserting distinct pairs yields two inverse dictionaries. */
  lemma {:induction false} PairMapsInverse(pairs: seq<(string, string)>)
    requires DistinctPairs(pairs)
    ensures Inverse(AliasMapOf(pairs), AddressMapOf(pairs))
  {
    if pairs != [] {
      var init := pairs[..|pairs| - 1];
      assert forall i :: 0 <= i < |init| ==> init[i] == pairs[i];
      assert DistinctPairs(init);
      PairMapsInverse(init);
      var last := pairs[|pairs| - 1];
      assert last.0 !in AliasMapOf(init) && last.1 !in AddressMapOf(init);
      InverseInsert(AliasMapOf(init), AddressMapOf(init), last.0, last.1);
    }
  }

  /** With distinct pairs, each alias maps to its own address and each
      address back to its own alias. */
  lemma PairMapsHold(pairs: seq<(string, string)>, i: int)
    requires DistinctPairs(pairs) && 0 <= i < |pairs|
    ensures AliasMapOf(pairs)[pairs[i].0] == pairs[i].1
    ensures AddressMapOf(pairs)[pairs[i].1] == pairs[i].0
  {
    AliasMapHolds(pairs, i);
    AddressMapHolds(pairs, i);
  }

  lemma {:induction false} AliasMapHolds(pairs: seq<(string, string)>, i: int)
    requires DistinctPairs(pairs) && 0 <= i < |pairs|
    ensures AliasMapOf(pairs)[pairs[i].0] == pairs[i].1
    decreases |pairs|
  {
    var init := pairs[..|pairs| - 1];
    if i < |pairs| - 1 {
      assert forall j :: 0 <= j < |init| ==> init[j] == pairs[j];
      AliasMapHolds(init, i);
    }
  }

  lemma {:induction false} AddressMapHolds(pairs: seq<(string, string)>, i: int)
    requires DistinctPairs(pairs) && 0 <= i < |pairs|
    ensures AddressMapOf(pairs)[pairs[i].1] == pairs[i].0
    decreases |pairs|
  {
    var init := pairs[..|pairs| - 1];
    if i < |pairs| - 1 {
      assert forall j :: 0 <= j < |init| ==> init[j] == pairs[j];
      AddressMapHolds(init, i);
    }
  }

  /** One more pair inserts one more entry into each dictionary. */
  lemma PairMapsStep(pairs: seq<(string, string)>, i: nat)
    requires i < |pairs|
    ensures AliasMapOf(pairs[..i + 1]) == AliasMapOf(pairs[..i])[pairs[i].0 := pairs[i].1]
    ensures AddressMapOf(pairs[..i + 1]) == AddressMapOf(pairs[..i])[pairs[i].1 := pairs[i].0]
  {
    assert pairs[..i + 1][..i] == pairs[..i];
  }

  lemma DemoAliasesDistinct()
    ensures DistinctPairs(DemoAliases)
  {
    var d := DemoAliases;
    assert d[0].0[1] == 'a' && d[1].0[1] == 'b' && d[2].0[1] == 'c' && d[3].0[1] == 'd';
    assert d[0].1[2] == '7' && d[1].1[2] == '8' && d[2].1[2] == 'd' && d[3].1[2] == '4';
  }

  class Store {
    var aliasToAddress: map<string, string>
    var addressToAlias: map<string, string>
    var aliasMetadata: map<string, AliasMeta>
    var transactions: seq<Tx>
    var transactionIndex: map<string, Tx>
    var subscriptions: map<string, Subscription>

    /** The directory is a bijection, every alias has metadata and nothing
        else does, and the hash index only points at logged records. */
    ghost predicate Valid()
      reads this
    {
      Inverse(aliasToAddress, addressToAlias)
      && aliasMetadata.Keys == aliasToAddress.Keys
      && forall h :: h in transactionIndex ==> transactionIndex[h] in transactions
    }

    /** `InMemoryStorage()`: empty tables, then the demo aliases. */
    constructor(now: string)
      ensures Valid()
      ensures aliasToAddress == AliasMapOf(DemoAliases)
      ensures addressToAlias == AddressMapOf(DemoAliases)
      ensures forall a :: a in aliasMetadata ==> aliasMetadata[a] == AliasMeta(now, now, None)
      ensures transactions == [] && transactionIndex == map[] && subscriptions == map[]
    {
      aliasToAddress, addressToAlias, aliasMetadata := map[], map[], map[];
      transactions, transactionIndex, subscriptions := [], map[], map[];
      new;
      InitDemoData(now);
    }

    /** `_init_demo_data`: one insertion into each table per demo alias. */
    method InitDemoData(now: string)
      requires aliasToAddress == map[] && addressToAlias == map[] && aliasMetadata == map[]
      modifies this`aliasToAddress, this`addressToAlias, this`aliasMetadata
      ensures aliasToAddress == AliasMapOf(DemoAliases)
      ensures addressToAlias == AddressMapOf(DemoAliases)
      ensures aliasMetadata.Keys == aliasToAddress.Keys
      ensures forall a :: a in aliasMetadata ==> aliasMetadata[a] == AliasMeta(now, now, None)
      ensures Inverse(aliasToAddress, addressToAlias)
    {
      var i := 0;
      while i < |DemoAliases|
        invariant 0 <= i <= |DemoAliases|
        invariant aliasToAddress == AliasMapOf(DemoAliases[..i])
        invariant addressToAlias == AddressMapOf(DemoAliases[..i])
        invariant aliasMetadata.Keys == aliasToAddress.Keys
        invariant forall a :: a in aliasMetadata ==> aliasMetadata[a] == AliasMeta(now, now, None)
      {
        var (alias, address) := DemoAliases[i];
        PairMapsStep(DemoAliases, i);
        aliasToAddress := aliasToAddress[alias := address];
        addressToAlias := addressToAlias[address := alias];
        aliasMetadata := aliasMetadata[alias := AliasMeta(now, now, None)];
        i := i + 1;
      }
      assert DemoAliases[..i] == DemoAliases;
      DemoAliasesDistinct();
      PairMapsInverse(DemoAliases);
    }
  }
}
