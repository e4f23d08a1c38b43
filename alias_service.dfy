/** main.py's `AliasService`: registering, resolving, reverse lookup and
    deletion of aliases over the directory held by `Storage.Store`. */
module AliasService {
  import opened Wrappers
  import opened PyText
  import opened Storage

  /** The two 409 conflicts `register` raises, with their messages. */
  datatype RegisterError =
    | AliasExists(message: string)
    | AddressHasAlias(message: string)

  /** The body `register` returns on success. */
  datatype Registered = Registered(alias: string, address: string, registeredAt: string)

  /** The conflict `register` reports for the lowered alias `a` and address
      `d`, checked in the source's order: the alias first, then the address. */
  function RegisterConflict(a2d: map<string, string>, d2a: map<string, string>, a: string, d: string)
    : (r: Option<RegisterError>)
    ensures a in a2d ==> r == Some(AliasExists("Alias " + a + " already registered"))
    ensures a !in a2d && d in d2a ==> r == Some(AddressHasAlias("Address already has alias " + d2a[d]))
    ensures r.None? <==> a !in a2d && d !in d2a
  {
    if a in a2d then Some(AliasExists("Alias " + a + " already registered"))
    else if d in d2a then Some(AddressHasAlias("Address already has alias " + d2a[d]))
    else None
  }

  /** `register`: lowercase both, reject on a conflict without writing
      anything, otherwise write both directions and the metadata together. */
  method Register(store: Store, alias: string, address: string, signature: string, now: string)
    returns (r: Result<Registered, RegisterError>)
    requires store.Valid()
    modifies store`aliasToAddress, store`addressToAlias, store`aliasMetadata
    ensures store.Valid()
    ensures var a, d := Lower(alias), Lower(address);
            var conflict := RegisterConflict(old(store.aliasToAddress), old(store.addressToAlias), a, d);
            (conflict.Some? ==> r == Failure(conflict.value)
                                && store.aliasToAddress == old(store.aliasToAddress)
                                && store.addressToAlias == old(store.addressToAlias)
                                && store.aliasMetadata == old(store.aliasMetadata))
            && (conflict.None? ==> r == Success(Registered(a, d, now))
                                   && store.aliasToAddress == old(store.aliasToAddress)[a := d]
                                   && store.addressToAlias == old(store.addressToAlias)[d := a]
                                   && store.aliasMetadata == old(store.aliasMetadata)[a := AliasMeta(now, now, Some(signature))])
  {
    var a, d := Lower(alias), Lower(address);
    var conflict := RegisterConflict(store.aliasToAddress, store.addressToAlias, a, d);
    if conflict.Some? {
      return Failure(conflict.value);
    }
    InverseInsert(store.aliasToAddress, store.addressToAlias, a, d);
    store.aliasToAddress := store.aliasToAddress[a := d];
    store.addressToAlias := store.addressToAlias[d := a];
    store.aliasMetadata := store.aliasMetadata[a := AliasMeta(now, now, Some(signature))];
    r := Success(Registered(a, d, now));
  }

  /** The directory key `resolve` looks up: lowercased, with `@` in front
      unless it already starts with one. */
  function ResolveKey(alias: string): (k: string)
    ensures |k| > 0 && k[0] == '@'
    ensures k == Lower(alias) || k == "@" + Lower(alias)
    ensures |alias| > 0 && alias[0] == '@' ==> k == Lower(alias)
    ensures forall i :: 0 <= i < |k| ==> !IsUpper(k[i])
  {
    var a := Lower(alias);
    if StartsWith(a, "@") then a else "@" + a
  }

  /** A name and the same name behind an `@` resolve to the same key, in any
      case: `"Alice"` and `"@ALICE"` are one alias. */
  lemma ResolveKeyAddsAt(w: string, v: string)
    requires Lower(w) == Lower(v) && (|w| == 0 || w[0] != '@')
    ensures ResolveKey(w) == ResolveKey("@" + v)
  {
    var at := "@";
    assert Lower(at) == at by { assert Lower(at)[0] == LowerChar('@'); }
    LowerConcat(at, v);
    assert !StartsWith(Lower(w), "@") by {
      if |w| > 0 { assert Lower(w)[0] == LowerChar(w[0]); }
    }
  }

  /** `resolve`: the address stored under the key. A non-empty hit stamps the
      alias's `last_used`; nothing else changes. */
  method Resolve(store: Store, alias: string, now: string) returns (r: Option<string>)
    requires store.Valid()
    modifies store`aliasMetadata
    ensures store.Valid()
    ensures r == MapGet(store.aliasToAddress, ResolveKey(alias))
    ensures store.aliasMetadata.Keys == old(store.aliasMetadata).Keys
    ensures forall k :: k in store.aliasMetadata ==>
              store.aliasMetadata[k] ==
                if k == ResolveKey(alias) && r.Some? && r.value != "" then old(store.aliasMetadata[k]).(lastUsed := now)
                else old(store.aliasMetadata[k])
  {
    var key := ResolveKey(alias);
    r := MapGet(store.aliasToAddress, key);
    if r.Some? && r.value != "" && key in store.aliasMetadata {
      store.aliasMetadata := store.aliasMetadata[key := store.aliasMetadata[key].(lastUsed := now)];
    }
  }

  /** `get_alias`: reverse lookup of the lowercased address. */
  function GetAlias(store: Store, address: string): (r: Option<string>)
    reads store
    ensures r.Some? <==> Lower(address) in store.addressToAlias
    ensures store.Valid() && r.Some? ==>
              r.value in store.aliasToAddress && store.aliasToAddress[r.value] == Lower(address)
  {
    MapGet(store.addressToAlias, Lower(address))
  }

  /** A lowercased string never equals a string that holds a capital. */
  lemma LowerMissesCapitals(x: string, d: string, i: nat)
    requires i < |d| && IsUpper(d[i])
    ensures Lower(x) != d
  {
    if |Lower(x)| == |d| { assert Lower(x)[i] == LowerChar(x[i]); }
  }

  /** The demo addresses are stored in mixed case, so `get_alias` on the
      freshly initialised directory finds none of them, whatever case the
      caller uses. */
  lemma DemoAddressesHiddenFromGetAlias(x: string)
    ensures Lower(x) !in AddressMapOf(DemoAliases)
  {
    DemoAddressesCapitalised(x);
  }

  lemma DemoAddressesCapitalised(x: string)
    ensures forall i :: 0 <= i < |DemoAliases| ==> Lower(x) != DemoAliases[i].1
  {
    var d := DemoAliases;
    LowerMissesCapitals(x, d[0].1, 8);
    LowerMissesCapitals(x, d[1].1, 11);
    LowerMissesCapitals(x, d[2].1, 3);
    LowerMissesCapitals(x, d[3].1, 3);
  }

  /** `delete`: an unknown alias changes nothing; a known one leaves both
      directions and the metadata together. */
  method Delete(store: Store, alias: string) returns (ok: bool)
    requires store.Valid()
    modifies store`aliasToAddress, store`addressToAlias, store`aliasMetadata
    ensures store.Valid()
    ensures ok <==> Lower(alias) in old(store.aliasToAddress)
    ensures !ok ==> store.aliasToAddress == old(store.aliasToAddress)
                    && store.addressToAlias == old(store.addressToAlias)
                    && store.aliasMetadata == old(store.aliasMetadata)
    ensures ok ==> var a := Lower(alias);
                   store.aliasToAddress == old(store.aliasToAddress) - {a}
                   && store.addressToAlias == old(store.addressToAlias) - {old(store.aliasToAddress)[a]}
                   && store.aliasMetadata == old(store.aliasMetadata) - {a}
  {
    var a := Lower(alias);
    if a !in store.aliasToAddress {
      return false;
    }
    var address := store.aliasToAddress[a];
    InverseRemove(store.aliasToAddress, store.addressToAlias, a);
    store.aliasToAddress := store.aliasToAddress - {a};
    store.addressToAlias := store.addressToAlias - {address};
    if a in store.aliasMetadata {
      store.aliasMetadata := store.aliasMetadata - {a};
    }
    ok := true;
  }
}
