/** circle_service.py in simulation mode: a table of mock wallets keyed by
    lowercased address, and a transfer that succeeds exactly when the source
    address has a wallet. The real mode's HTTP client is outside the model;
    its reply enters as a parameter. */
module CircleService {
  import opened Wrappers
  import opened PyText

  /** A mock wallet record. */
  datatype Wallet = Wallet(walletId: string, address: string, userId: string, status: string)

  /** The dictionary `initiate_transfer` returns: a success carries the
      rail's hash, id, status and time, a failure its message. */
  datatype TransferResult =
    | Transferred(transactionHash: Option<string>, circleId: Option<string>, status: Option<string>, timestamp: Option<string>)
    | TransferFailed(error: string)

  /** The demo owners of `_init_demo_wallets`, addresses in mixed case. */
  const DemoOwners: seq<(string, string)> := [
    ("@alice", "0x742d35Cc6634C0532925a3b844Bc9e7595f0bEb"),
    ("@bob", "0x8626f6940E2eb28930eFb4CeF49B2d1F2C9C1199")
  ]

  const NoSourceWallet := "Simulación: Billetera de origen no encontrada en Circle."
  const MockTxPrefix := "0xCircleMockTx"

  /** `is_real`: both credentials are present (non-empty). */
  function IsReal(apiKey: string, entityId: string): (r: bool)
    ensures r <==> |apiKey| > 0 && |entityId| > 0
  {
    apiKey != "" && entityId != ""
  }

  /** The record stored for one demo owner: its id is `"wal_mock_"` and the
      alias without its first character. */
  function DemoWallet(alias: string, address: string): (w: Wallet)
    ensures StartsWith(w.walletId, "wal_mock_")
    ensures |alias| > 0 ==> w.walletId[9..] == alias[1..]
    ensures w.address == address && w.userId == alias && w.status == "active"
  {
    Wallet("wal_mock_" + Slice(alias, 1, |alias|), address, alias, "active")
  }

  /** The wallet table after inserting `owners` in order, keyed by the
      lowercased address. */
  function WalletTable(owners: seq<(string, string)>): (m: map<string, Wallet>)
    ensures forall k :: k in m <==> exists i :: 0 <= i < |owners| && Lower(owners[i].1) == k
  {
    if owners == [] then map[]
    else
      var last := owners[|owners| - 1];
      var m := WalletTable(owners[..|owners| - 1])[Lower(last.1) := DemoWallet(last.0, last.1)];
      assert forall i :: 0 <= i < |owners| - 1 ==> owners[..|owners| - 1][i] == owners[i];
      m
  }

  lemma WalletTableStep(owners: seq<(string, string)>, i: nat)
    requires i < |owners|
    ensures WalletTable(owners[..i + 1])
            == WalletTable(owners[..i])[Lower(owners[i].1) := DemoWallet(owners[i].0, owners[i].1)]
  {
    assert owners[..i + 1][..i] == owners[..i];
  }

  /** With addresses distinct after lowering, every owner's wallet is found
      under its lowercased address. */
  lemma {:induction false} WalletTableHolds(owners: seq<(string, string)>, i: nat)
    requires i < |owners|
    requires forall j, k :: 0 <= j < k < |owners| ==> Lower(owners[j].1) != Lower(owners[k].1)
    ensures WalletTable(owners)[Lower(owners[i].1)] == DemoWallet(owners[i].0, owners[i].1)
    decreases |owners|
  {
    var n := |owners|;
    var init := owners[..n - 1];
    var last := owners[n - 1];
    assert WalletTable(owners) == WalletTable(init)[Lower(last.1) := DemoWallet(last.0, last.1)];
    if i < n - 1 {
      assert init[i] == owners[i];
      assert Lower(owners[i].1) != Lower(last.1);
      assert forall j, k :: 0 <= j < k < |init| ==> init[j] == owners[j] && init[k] == owners[k];
      WalletTableHolds(init, i);
    }
  }

  /** The two demo wallets: `wal_mock_alice` and `wal_mock_bob`, found under
      their lowercased addresses. */
  lemma DemoWalletsPresent()
    ensures forall i :: 0 <= i < |DemoOwners| ==>
              WalletTable(DemoOwners)[Lower(DemoOwners[i].1)] == DemoWallet(DemoOwners[i].0, DemoOwners[i].1)
  {
    var o := DemoOwners;
    assert Lower(o[0].1)[2] == '7' && Lower(o[1].1)[2] == '8';
    forall i | 0 <= i < |o| ensures WalletTable(o)[Lower(o[i].1)] == DemoWallet(o[i].0, o[i].1) {
      WalletTableHolds(o, i);
    }
  }

  class Circle {
    const apiKey: string
    const baseUrl: string
    const entityId: string
    const isReal: bool
    var mockWallets: map<string, Wallet>

    /** `CircleService(...)`: in simulation mode, the demo wallet table; in
        real mode no table (the HTTP client is outside the model). */
    constructor(apiKey: string, baseUrl: string, entityId: string)
      ensures this.apiKey == apiKey && this.baseUrl == baseUrl && this.entityId == entityId
      ensures isReal == IsReal(apiKey, entityId)
      ensures mockWallets == if isReal then map[] else WalletTable(DemoOwners)
    {
      this.apiKey, this.baseUrl, this.entityId := apiKey, baseUrl, entityId;
      isReal := IsReal(apiKey, entityId);
      mockWallets := map[];
      new;
      if !isReal {
        InitDemoWallets();
      }
    }

    /** `_init_demo_wallets`: one wallet per demo owner, under the lowercased
        address. */
    method InitDemoWallets()
      requires mockWallets == map[]
      modifies this`mockWallets
      ensures mockWallets == WalletTable(DemoOwners)
    {
      var i := 0;
      while i < |DemoOwners|
        invariant 0 <= i <= |DemoOwners|
        invariant mockWallets == WalletTable(DemoOwners[..i])
      {
        var (alias, address) := DemoOwners[i];
        WalletTableStep(DemoOwners, i);
        mockWallets := mockWallets[Lower(address) := DemoWallet(alias, address)];
        i := i + 1;
      }
      assert DemoOwners[..i] == DemoOwners;
    }

    /** `get_wallet_by_address`: a case-insensitive lookup in simulation
        mode, and never a wallet in real mode. */
    function GetWalletByAddress(address: string): (r: Option<Wallet>)
      reads this
      ensures isReal ==> r.None?
      ensures !isReal ==> (r.Some? <==> Lower(address) in mockWallets)
      ensures r.Some? ==> r.value == mockWallets[Lower(address)]
    {
      if !isReal then MapGet(mockWallets, Lower(address)) else None
    }

    /** `initiate_transfer`. In simulation mode only the source address is
        checked; the recipient, amount and memo are not looked at. The
        uuid hex strings and the clock are parameters, and so is the real
        mode's reply. The wallet table is only read. */
    function InitiateTransfer(fromAddress: string, toAddress: string, amount: real, memo: Option<string>,
                              realReply: TransferResult, hashHex: string, idHex: string, now: string)
      : (r: TransferResult)
      reads this
      ensures isReal ==> r == realReply
      ensures !isReal ==> (r.TransferFailed? <==> GetWalletByAddress(fromAddress).None?)
      ensures !isReal && r.TransferFailed? ==> r.error == NoSourceWallet
      ensures !isReal && r.Transferred? ==>
                r.status == Some("confirmed") && r.timestamp == Some(now)
                && r.transactionHash.Some? && StartsWith(r.transactionHash.value, MockTxPrefix)
                && r.circleId.Some? && StartsWith(r.circleId.value, "mock_tx_")
    {
      if isReal then realReply
      else if GetWalletByAddress(fromAddress).None? then TransferFailed(NoSourceWallet)
      else
        var h := MockTxPrefix + Slice(hashHex, 0, 20);
        var c := "mock_tx_" + Slice(idHex, 0, 10);
        assert h[..|MockTxPrefix|] == MockTxPrefix && c[..8] == "mock_tx_";
        Transferred(Some(h), Some(c), Some("confirmed"), Some(now))
    }
  }
}
