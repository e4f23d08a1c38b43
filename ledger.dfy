/** main.py's `TransactionService`: an append-only list of transactions with
    a hash index, and the per-address history query (filter, newest first,
    one page). */
module Ledger {
  import opened Wrappers
  import opened PyText
  import opened Storage

  /** `"tx_"` and the first 16 characters of the hex digest; the SHA-256 of
      the record and the clock is the parameter `digest`. */
  function TxId(digest: string): (id: string)
    ensures |id| == 3 + (if |digest| < 16 then |digest| else 16)
    ensures StartsWith(id, "tx_") && id[3..] == digest[..|id| - 3]
  {
    "tx_" + Slice(digest, 0, 16)
  }

  /** The key `log` indexes a record under: its transaction hash when the
      data carries one, else its id. */
  function IndexKey(data: TxData, id: string): (k: string)
    ensures data.transactionHash.Some? ==> k == data.transactionHash.value
    ensures data.transactionHash.None? ==> k == id
  {
    data.transactionHash.GetOr(id)
  }

  /** `log`: append exactly one record and index it; earlier records and
      other index entries stay as they were. */
  method Log(store: Store, data: TxData, digest: string, now: string) returns (txId: string)
    requires store.Valid()
    modifies store`transactions, store`transactionIndex
    ensures store.Valid()
    ensures txId == TxId(digest)
    ensures store.transactions == old(store.transactions) + [Tx(txId, now, data)]
    ensures store.transactionIndex == old(store.transactionIndex)[IndexKey(data, txId) := Tx(txId, now, data)]
  {
    txId := TxId(digest);
    var tx := Tx(txId, now, data);
    store.transactions := store.transactions + [tx];
    store.transactionIndex := store.transactionIndex[IndexKey(data, txId) := tx];
  }

  /** `get_transaction`: a lookup in the index, which only ever points at
      logged records. */
  function GetTransaction(store: Store, txHash: string): (r: Option<Tx>)
    reads store
    ensures r.Some? <==> txHash in store.transactionIndex
    ensures r.Some? ==> r.value == store.transactionIndex[txHash]
    ensures store.Valid() && r.Some? ==> r.value in store.transactions
  {
    MapGet(store.transactionIndex, txHash)
  }

  /** Either side of the record is the (lowercased) address. */
  predicate Involves(tx: Tx, address: string) {
    Lower(tx.data.fromAddress) == address || Lower(tx.data.toAddress) == address
  }

  /** The comprehension of `get_history`: the records involving `address`,
      in logging order. */
  function Matching(txs: seq<Tx>, address: string): (r: seq<Tx>)
    ensures |r| <= |txs|
    ensures forall t :: t in r <==> t in txs && Involves(t, address)
  {
    if txs == [] then []
    else (if Involves(txs[0], address) then [txs[0]] else []) + Matching(txs[1..], address)
  }

  /** A logged record joins, at the end, exactly the histories of the
      addresses it involves; the other histories are unchanged. */
  lemma {:induction false} MatchingAppend(txs: seq<Tx>, tx: Tx, address: string)
    ensures Matching(txs + [tx], address) == Matching(txs, address) + (if Involves(tx, address) then [tx] else [])
  {
    if txs == [] {
      assert [tx][1..] == [];
    } else {
      assert (txs + [tx])[1..] == txs[1..] + [tx];
      MatchingAppend(txs[1..], tx, address);
    }
  }

  /** Newest first: no record is older than one after it. */
  predicate SortedDesc(s: seq<Tx>) {
    forall i, j :: 0 <= i < j < |s| ==> !StrLess(s[i].timestamp, s[j].timestamp)
  }

  /** Place `x` before the first record that is not newer than it, so equal
      timestamps keep their order as in Python's stable sort. */
  function InsertDesc(x: Tx, s: seq<Tx>): (r: seq<Tx>)
    ensures multiset(r) == multiset(s) + multiset{x}
    ensures |r| == |s| + 1
  {
    if s == [] || !StrLess(x.timestamp, s[0].timestamp) then [x] + s
    else
      assert s == [s[0]] + s[1..];
      [s[0]] + InsertDesc(x, s[1..])
  }

  lemma {:induction false} InsertDescSorted(x: Tx, s: seq<Tx>)
    requires SortedDesc(s)
    ensures SortedDesc(InsertDesc(x, s))
  {
    if s == [] || !StrLess(x.timestamp, s[0].timestamp) {
      var r := [x] + s;
      forall j | 0 < j < |r| ensures !StrLess(x.timestamp, r[j].timestamp) {
        if j > 1 {
          StrLessTotal(s[0].timestamp, s[j - 1].timestamp);
          if StrLess(x.timestamp, s[j - 1].timestamp) {
            if s[0].timestamp != s[j - 1].timestamp {
              StrLessTotal(x.timestamp, s[0].timestamp);
              if x.timestamp != s[0].timestamp {
                StrLessTransitive(s[0].timestamp, x.timestamp, s[j - 1].timestamp);
              }
            }
          }
        }
      }
    } else {
      var t := s[1..];
      assert SortedDesc(t);
      InsertDescSorted(x, t);
      var r := [s[0]] + InsertDesc(x, t);
      forall j | 0 < j < |r| ensures !StrLess(s[0].timestamp, r[j].timestamp) {
        var y := r[j];
        assert y in multiset(InsertDesc(x, t));
        assert y == x || y in multiset(t);
        if y == x {
          StrLessAsymmetric(x.timestamp, s[0].timestamp);
        }
      }
    }
  }

  /** `sort(key=timestamp, reverse=True)`, as an insertion sort. */
  function SortByTimestampDesc(s: seq<Tx>): (r: seq<Tx>)
    ensures multiset(r) == multiset(s)
    ensures |r| == |s|
  {
    if s == [] then []
    else
      assert s == [s[0]] + s[1..];
      InsertDesc(s[0], SortByTimestampDesc(s[1..]))
  }

  lemma {:induction false} SortByTimestampDescSorted(s: seq<Tx>)
    ensures SortedDesc(SortByTimestampDesc(s))
  {
    if s != [] {
      SortByTimestampDescSorted(s[1..]);
      InsertDescSorted(s[0], SortByTimestampDesc(s[1..]));
    }
  }

  /** `[x]` when `x` is stamped `t`, else nothing. */
  function Ties(x: Tx, t: string): seq<Tx> {
    if x.timestamp == t then [x] else []
  }

  /** The records stamped `t`, in list order. */
  function WithTimestamp(s: seq<Tx>, t: string): seq<Tx> {
    if s == [] then [] else Ties(s[0], t) + WithTimestamp(s[1..], t)
  }

  lemma WithTimestampCons(a: Tx, s: seq<Tx>, t: string)
    ensures WithTimestamp([a] + s, t) == Ties(a, t) + WithTimestamp(s, t)
  {
    assert ([a] + s)[0] == a && ([a] + s)[1..] == s;
  }

  /** Inserting `x` puts it ahead of every record with its timestamp and
      leaves those records in their order. */
  lemma {:induction false} InsertDescKeepsTies(x: Tx, s: seq<Tx>, t: string)
    ensures WithTimestamp(InsertDesc(x, s), t) == Ties(x, t) + WithTimestamp(s, t)
  {
    if s == [] || !StrLess(x.timestamp, s[0].timestamp) {
      WithTimestampCons(x, s, t);
    } else {
      InsertDescKeepsTies(x, s[1..], t);
      PassNewer(x, s, t);
    }
  }

  /** One step past a strictly newer head. */
  lemma PassNewer(x: Tx, s: seq<Tx>, t: string)
    requires s != [] && StrLess(x.timestamp, s[0].timestamp)
    requires WithTimestamp(InsertDesc(x, s[1..]), t) == Ties(x, t) + WithTimestamp(s[1..], t)
    ensures WithTimestamp(InsertDesc(x, s), t) == Ties(x, t) + WithTimestamp(s, t)
  {
    InsertDescPasses(x, s);
    TieSwap(s[0], x, InsertDesc(x, s[1..]), WithTimestamp(s[1..], t), t);
    assert [s[0]] + s[1..] == s;
    WithTimestampCons(s[0], s[1..], t);
  }

  /** A record older than the head goes behind it, and its timestamp
      differs from the head's. */
  lemma InsertDescPasses(x: Tx, s: seq<Tx>)
    requires s != [] && StrLess(x.timestamp, s[0].timestamp)
    ensures InsertDesc(x, s) == [s[0]] + InsertDesc(x, s[1..])
    ensures s[0].timestamp != x.timestamp
  {
    StrLessIrreflexive(x.timestamp);
  }

  /** Records with different timestamps never both count as ties of `t`,
      so one of them can pass the other. */
  lemma TieSwap(a: Tx, x: Tx, rest: seq<Tx>, tail: seq<Tx>, t: string)
    requires a.timestamp != x.timestamp
    requires WithTimestamp(rest, t) == Ties(x, t) + tail
    ensures WithTimestamp([a] + rest, t) == Ties(x, t) + (Ties(a, t) + tail)
  {
    WithTimestampCons(a, rest, t);
    if x.timestamp == t {
      assert Ties(a, t) == [];
      assert [] + WithTimestamp(rest, t) == WithTimestamp(rest, t);
      assert [] + tail == tail;
    } else {
      assert Ties(x, t) == [];
      assert [] + tail == tail;
      assert [] + (Ties(a, t) + tail) == Ties(a, t) + tail;
    }
  }

  /** The sort is stable: records with equal timestamps keep their log
      order, as Python's `sort` with `reverse=True` does. */
  lemma {:induction false} SortKeepsTiesInOrder(s: seq<Tx>, t: string)
    ensures WithTimestamp(SortByTimestampDesc(s), t) == WithTimestamp(s, t)
  {
    if s != [] {
      SortKeepsTiesInOrder(s[1..], t);
      InsertDescKeepsTies(s[0], SortByTimestampDesc(s[1..]), t);
    }
  }

  /** A slice of a newest-first list is newest first. */
  lemma SliceSorted(s: seq<Tx>, start: int, stop: int)
    requires SortedDesc(s)
    ensures SortedDesc(Slice(s, start, stop))
  {
    var lo, hi := SliceBound(start, |s|), SliceBound(stop, |s|);
    if lo < hi {
      var r := s[lo..hi];
      assert forall i :: 0 <= i < |r| ==> r[i] == s[lo + i];
    }
  }

  /** A page `[offset:offset + limit]` never holds more than `limit` items
      when `limit` is not negative, whatever the offset; from a non-negative
      offset it holds what is left after the offset, up to `limit`. */
  lemma PageBound<T>(s: seq<T>, offset: int, limit: int)
    ensures limit >= 0 ==> |Slice(s, offset, offset + limit)| <= limit
    ensures offset >= 0 && limit >= 0 ==>
              |Slice(s, offset, offset + limit)| == if |s| <= offset then 0
                                                    else if limit < |s| - offset then limit else |s| - offset
  {
  }

  /** The body of `get_history`. */
  datatype HistoryPage = HistoryPage(
    address: string,
    totalCount: nat,
    count: nat,
    offset: int,
    limit: int,
    transactions: seq<Tx>)

  /** `get_history`: the matching records newest first, then the page
      `[offset:offset + limit]` with Python's slice semantics. */
  function GetHistory(store: Store, address: string, limit: int, offset: int): (p: HistoryPage)
    reads store
    ensures p.address == Lower(address) && p.offset == offset && p.limit == limit
    ensures p.totalCount == |Matching(store.transactions, Lower(address))|
    ensures p.count == |p.transactions| <= p.totalCount
    ensures limit >= 0 ==> p.count <= limit
    ensures forall t :: t in p.transactions ==> t in store.transactions && Involves(t, Lower(address))
    ensures SortedDesc(p.transactions)
    ensures p.transactions == Slice(SortByTimestampDesc(Matching(store.transactions, Lower(address))), offset, offset + limit)
    ensures offset >= 0 && limit >= 0 ==>
              p.count == if p.totalCount <= offset then 0
                         else if limit < p.totalCount - offset then limit else p.totalCount - offset
  {
    var a := Lower(address);
    var matching := Matching(store.transactions, a);
    var page := Slice(SortByTimestampDesc(matching), offset, offset + limit);
    PageOfMatches(store.transactions, a, offset, limit);
    PageBound(SortByTimestampDesc(matching), offset, limit);
    HistoryPage(a, |matching|, |page|, offset, limit, page)
  }

  /** A page of the sorted matches is newest first and holds only
      matching logged records. */
  lemma PageOfMatches(txs: seq<Tx>, a: string, offset: int, limit: int)
    ensures var page := Slice(SortByTimestampDesc(Matching(txs, a)), offset, offset + limit);
            |page| <= |Matching(txs, a)| && SortedDesc(page)
            && forall t :: t in page ==> t in txs && Involves(t, a)
  {
    var sorted := SortByTimestampDesc(Matching(txs, a));
    SortByTimestampDescSorted(Matching(txs, a));
    SliceSorted(sorted, offset, offset + limit);
    var page := Slice(sorted, offset, offset + limit);
    assert forall t :: t in page ==> t in multiset(sorted);
  }
}
