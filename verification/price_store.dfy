/** The price table of `data_collector.py` as an abstract store: one price per
    (asset, timestamp) key. The UNIQUE constraint rejects a second row for a key and the
    loader swallows that rejection, so the first write of a key wins and later ones vanish. */
module PriceStore {
  import Collation

  type Asset = string

  /** The ISO-8601 text a fetched timestamp is stored as. */
  type Timestamp = string

  datatype Key = Key(asset: Asset, timestamp: Timestamp)

  type Store = map<Key, real>

  /** One fetched `(timestamp, price)` pair. */
  datatype Row = Row(timestamp: Timestamp, price: real)

  /** The assets `update_all_cryptos` visits, in order. */
  const Cryptos: seq<Asset> := ["bitcoin", "ethereum", "solana", "cardano", "polkadot"]

  /** One INSERT: a present key leaves the store as it is (the duplicate is ignored), an
      absent key gains the row. */
  function Insert(s: Store, k: Key, price: real): (r: Store)
    ensures r.Keys == s.Keys + {k}
    ensures forall k' :: k' in s ==> r[k'] == s[k']
    ensures k !in s ==> r[k] == price
  {
    if k in s then s else s[k := price]
  }

  /** The keys a batch for `asset` writes. */
  function BatchKeys(asset: Asset, rows: seq<Row>): set<Key>
  {
    set row | row in rows :: Key(asset, row.timestamp)
  }

  /** Whether the batch holds a row with this timestamp. */
  predicate Mentions(rows: seq<Row>, t: Timestamp)
  {
    exists j :: 0 <= j < |rows| && rows[j].timestamp == t
  }

  /** The price of the first row with timestamp `t`. */
  function FirstPrice(rows: seq<Row>, t: Timestamp): real
    requires Mentions(rows, t)
  {
    if rows[0].timestamp == t then rows[0].price else FirstPrice(rows[1..], t)
  }

  /** `store_historical_prices`: the rows inserted one after the other. Existing rows are
      never overwritten, new keys take the price of their first row in the batch, and
      nothing outside the batch's keys changes. */
  function StoreBatch(s: Store, asset: Asset, rows: seq<Row>): (r: Store)
    ensures r.Keys == s.Keys + BatchKeys(asset, rows)
    ensures forall k :: k in s ==> r[k] == s[k]
    ensures forall k :: k in r && k !in s ==> Mentions(rows, k.timestamp) && r[k] == FirstPrice(rows, k.timestamp)
    decreases |rows|
  {
    if |rows| == 0 then s
    else
      var r := StoreBatch(Insert(s, Key(asset, rows[0].timestamp), rows[0].price), asset, rows[1..]);
      BatchKeysOfTail(asset, rows);
      MentionsOfTail(rows);
      r
  }

  /** The keys of a batch: its first row's and those of the rest. */
  lemma BatchKeysOfTail(asset: Asset, rows: seq<Row>)
    requires |rows| > 0
    ensures BatchKeys(asset, rows) == {Key(asset, rows[0].timestamp)} + BatchKeys(asset, rows[1..])
  {
    assert forall row :: row in rows <==> row == rows[0] || row in rows[1..];
  }

  /** A timestamp the rest of a batch mentions is mentioned by the batch. */
  lemma MentionsOfTail(rows: seq<Row>)
    requires |rows| > 0
    ensures forall t :: Mentions(rows[1..], t) ==> Mentions(rows, t)
  {
    forall t | Mentions(rows[1..], t)
      ensures Mentions(rows, t)
    {
      var j :| 0 <= j < |rows[1..]| && rows[1..][j].timestamp == t;
      assert rows[j + 1].timestamp == t;
    }
  }

  /** A batch repeating a timestamp keeps the first price; a later batch cannot change it. */
  lemma FirstWriteWinsExample()
    ensures var once := StoreBatch(map[], "bitcoin", [Row("t0", 1.0), Row("t0", 2.0)]);
      && once == map[Key("bitcoin", "t0") := 1.0]
      && StoreBatch(once, "bitcoin", [Row("t0", 3.0), Row("t1", 4.0)])
         == map[Key("bitcoin", "t0") := 1.0, Key("bitcoin", "t1") := 4.0]
  {
    FirstBatchOfExample();
    SecondBatchOfExample();
  }

  lemma FirstBatchOfExample()
    ensures StoreBatch(map[], "bitcoin", [Row("t0", 1.0), Row("t0", 2.0)]) == map[Key("bitcoin", "t0") := 1.0]
  {
    var once := StoreBatch(map[], "bitcoin", [Row("t0", 1.0), Row("t0", 2.0)]);
    assert once.Keys == {Key("bitcoin", "t0")};
  }

  lemma SecondBatchOfExample()
    ensures StoreBatch(map[Key("bitcoin", "t0") := 1.0], "bitcoin", [Row("t0", 3.0), Row("t1", 4.0)])
         == map[Key("bitcoin", "t0") := 1.0, Key("bitcoin", "t1") := 4.0]
  {
    var twice := StoreBatch(map[Key("bitcoin", "t0") := 1.0], "bitcoin", [Row("t0", 3.0), Row("t1", 4.0)]);
    assert twice.Keys == {Key("bitcoin", "t0"), Key("bitcoin", "t1")};
  }

  /** Replaying a batch changes nothing: every key it writes is already present. */
  lemma {:induction false} StoreBatchIdempotent(s: Store, asset: Asset, rows: seq<Row>)
    ensures StoreBatch(StoreBatch(s, asset, rows), asset, rows) == StoreBatch(s, asset, rows)
  {
    var once := StoreBatch(s, asset, rows);
    StoreBatchOfPresentKeys(once, asset, rows);
  }

  /** A batch whose keys are all present leaves the store as it is. */
  lemma {:induction false} StoreBatchOfPresentKeys(s: Store, asset: Asset, rows: seq<Row>)
    requires BatchKeys(asset, rows) <= s.Keys
    ensures StoreBatch(s, asset, rows) == s
    decreases |rows|
  {
    if |rows| > 0 {
      assert rows[0] in rows;
      assert Insert(s, Key(asset, rows[0].timestamp), rows[0].price) == s;
      assert BatchKeys(asset, rows[1..]) <= BatchKeys(asset, rows) by {
        assert forall row :: row in rows[1..] ==> row in rows;
      }
      StoreBatchOfPresentKeys(s, asset, rows[1..]);
    }
  }

  /** A batch for one asset leaves every other asset's rows as they were. */
  lemma OtherAssetsUnchanged(s: Store, asset: Asset, rows: seq<Row>, k: Key)
    requires k.asset != asset
    ensures var r := StoreBatch(s, asset, rows);
      (k in r <==> k in s) && (k in s ==> r[k] == s[k])
  {
  }

  /** The row count grows by the number of distinct batch keys not already stored. */
  lemma RowCount(s: Store, asset: Asset, rows: seq<Row>)
    ensures |StoreBatch(s, asset, rows).Keys| == |s.Keys| + |BatchKeys(asset, rows) - s.Keys|
  {
    var added := BatchKeys(asset, rows) - s.Keys;
    assert StoreBatch(s, asset, rows).Keys == s.Keys + added;
    assert s.Keys * added == {};
  }

  // ---------------------------------------------------------------------------------------
  // The update loop

  /** `update_all_cryptos` over a list of assets. `fetch` stands for
      `fetch_historical_prices`; a failed download is the empty list and the asset is
      skipped. */
  function UpdateAssets(s: Store, assets: seq<Asset>, fetch: Asset -> seq<Row>): (r: Store)
    ensures forall k :: k in s ==> k in r && r[k] == s[k]
    ensures forall k :: k !in s && k in r ==> k.asset in assets && |fetch(k.asset)| > 0
    decreases |assets|
  {
    if |assets| == 0 then s
    else
      var rows := fetch(assets[0]);
      var next := if |rows| > 0 then StoreBatch(s, assets[0], rows) else s;
      UpdateAssets(next, assets[1..], fetch)
  }

  function UpdateAll(s: Store, fetch: Asset -> seq<Row>): Store
  {
    UpdateAssets(s, Cryptos, fetch)
  }

  /** One asset's rows. */
  function Restrict(s: Store, asset: Asset): (r: Store)
    ensures forall k :: k in r <==> k in s && k.asset == asset
    ensures forall k :: k in r ==> r[k] == s[k]
  {
    map k | k in s && k.asset == asset :: s[k]
  }

  /** Over distinct assets, each asset ends as if its own batch alone had been stored: a
      failed or partial download of one asset does not affect another. */
  lemma {:induction false} UpdateIsPerAsset(s: Store, assets: seq<Asset>, fetch: Asset -> seq<Row>, a: Asset)
    requires forall i, j :: 0 <= i < j < |assets| ==> assets[i] != assets[j]
    ensures Restrict(UpdateAssets(s, assets, fetch), a)
         == if a in assets then Restrict(StoreBatch(s, a, fetch(a)), a) else Restrict(s, a)
    decreases |assets|
  {
    if |assets| > 0 {
      var b := assets[0];
      var rows := fetch(b);
      var next := if |rows| > 0 then StoreBatch(s, b, rows) else s;
      UpdateIsPerAsset(next, assets[1..], fetch, a);
      if a == b {
        assert a !in assets[1..];
        if |rows| == 0 {
          assert StoreBatch(s, a, rows) == s;
        }
      } else {
        assert a in assets <==> a in assets[1..];
        RestrictIgnoresOthers(s, b, rows, a);
        assert Restrict(next, a) == Restrict(s, a);
        if a in assets[1..] {
          BatchSeesOwnRows(next, s, a, fetch(a));
        }
      }
    }
  }

  /** Two stores hold the same keys, at the same prices, for the asset. */
  ghost predicate SameOn(x: Store, y: Store, a: Asset)
  {
    forall k: Key :: k.asset == a ==> (k in x <==> k in y) && (k in x ==> x[k] == y[k])
  }

  /** What a batch does to its asset's rows depends only on that asset's rows. */
  lemma BatchSeesOwnRows(x: Store, y: Store, a: Asset, rows: seq<Row>)
    requires Restrict(x, a) == Restrict(y, a)
    ensures Restrict(StoreBatch(x, a, rows), a) == Restrict(StoreBatch(y, a, rows), a)
  {
    SameOnOfRestrict(x, y, a);
    var x', y' := StoreBatch(x, a, rows), StoreBatch(y, a, rows);
    assert SameOn(x', y', a);
    RestrictOfSameOn(x', y', a);
  }

  lemma SameOnOfRestrict(x: Store, y: Store, a: Asset)
    requires Restrict(x, a) == Restrict(y, a)
    ensures SameOn(x, y, a)
  {
    forall k: Key | k.asset == a
      ensures (k in x <==> k in y) && (k in x ==> x[k] == y[k])
    {
      assert k in x <==> k in Restrict(x, a);
      assert k in y <==> k in Restrict(y, a);
    }
  }

  lemma RestrictOfSameOn(x: Store, y: Store, a: Asset)
    requires SameOn(x, y, a)
    ensures Restrict(x, a) == Restrict(y, a)
  {
    var rx, ry := Restrict(x, a), Restrict(y, a);
    assert rx.Keys == ry.Keys;
  }

  lemma RestrictIgnoresOthers(s: Store, b: Asset, rows: seq<Row>, a: Asset)
    requires a != b
    ensures Restrict(StoreBatch(s, b, rows), a) == Restrict(s, a)
  {
  }

  /** The five assets are distinct, so each ends as if stored alone; an asset whose
      download failed keeps exactly the rows it had. */
  lemma UpdateAllPerAsset(s: Store, fetch: Asset -> seq<Row>, a: Asset)
    ensures a in Cryptos ==> Restrict(UpdateAll(s, fetch), a) == Restrict(StoreBatch(s, a, fetch(a)), a)
    ensures a in Cryptos && fetch(a) == [] ==> Restrict(UpdateAll(s, fetch), a) == Restrict(s, a)
    ensures a !in Cryptos ==> Restrict(UpdateAll(s, fetch), a) == Restrict(s, a)
  {
    UpdateIsPerAsset(s, Cryptos, fetch, a);
  }

  // ---------------------------------------------------------------------------------------
  // Reading a series

  /** The timestamps stored for an asset. */
  function Timestamps(s: Store, asset: Asset): set<Timestamp>
  {
    set k | k in s && k.asset == asset :: k.timestamp
  }

  /** Rows in strictly ascending text order of their timestamps. */
  predicate Ascending(rows: seq<Row>)
  {
    forall i, j :: 0 <= i < j < |rows| ==> Collation.Below(rows[i].timestamp, rows[j].timestamp)
  }

  /** Every row is the stored price of the asset at its timestamp. */
  predicate FromStore(rows: seq<Row>, s: Store, asset: Asset)
  {
    forall i :: 0 <= i < |rows| ==> Key(asset, rows[i].timestamp) in s && rows[i].price == s[Key(asset, rows[i].timestamp)]
  }

  /** Every row sorts before every timestamp still to be read. */
  predicate AllBefore(rows: seq<Row>, rest: set<Timestamp>)
  {
    forall i, u :: 0 <= i < |rows| && u in rest ==> Collation.Below(rows[i].timestamp, u)
  }

  /** Every timestamp of `all` is either still to be read or already has a row. */
  predicate Covers(rows: seq<Row>, all: set<Timestamp>, rest: set<Timestamp>)
  {
    forall t :: t in all ==> t in rest || exists i :: 0 <= i < |rows| && rows[i].timestamp == t
  }

  /** `SELECT * FROM prices WHERE crypto = asset ORDER BY timestamp`: the asset's rows,
      each once, in ascending text order of their timestamps. */
  method ReadSeries(s: Store, asset: Asset) returns (rows: seq<Row>)
    ensures forall i, j :: 0 <= i < j < |rows| ==> Collation.Below(rows[i].timestamp, rows[j].timestamp)
    ensures forall i :: 0 <= i < |rows| ==>
      Key(asset, rows[i].timestamp) in s && rows[i].price == s[Key(asset, rows[i].timestamp)]
    ensures forall t :: t in Timestamps(s, asset) ==> exists i :: 0 <= i < |rows| && rows[i].timestamp == t
  {
    var all := Timestamps(s, asset);
    var remaining := all;
    rows := [];
    while remaining != {}
      invariant remaining <= all
      invariant Ascending(rows) && FromStore(rows, s, asset)
      invariant AllBefore(rows, remaining) && Covers(rows, all, remaining)
      decreases |remaining|
    {
      Collation.HasFirst(remaining);
      var t :| t in remaining && forall u :: u in remaining ==> !Collation.Below(u, t);
      assert Key(asset, t) in s;
      var row := Row(t, s[Key(asset, t)]);
      TakeFirst(rows, row, all, remaining);
      rows := rows + [row];
      remaining := remaining - {t};
    }
  }

  /** Appending the first remaining timestamp keeps the rows ascending, ahead of the rest,
      and covering everything read so far. */
  lemma TakeFirst(rows: seq<Row>, row: Row, all: set<Timestamp>, rest: set<Timestamp>)
    requires row.timestamp in rest && forall u :: u in rest ==> !Collation.Below(u, row.timestamp)
    requires Ascending(rows) && AllBefore(rows, rest) && Covers(rows, all, rest)
    ensures Ascending(rows + [row]) && AllBefore(rows + [row], rest - {row.timestamp})
    ensures Covers(rows + [row], all, rest - {row.timestamp})
  {
    var t := row.timestamp;
    forall u | u in rest - {t}
      ensures Collation.Below(t, u)
    {
      Collation.Total(t, u);
    }
    var after := rows + [row];
    forall u | u in all && u !in rest - {t}
      ensures exists i :: 0 <= i < |after| && after[i].timestamp == u
    {
      if u == t {
        assert after[|after| - 1].timestamp == u;
      } else {
        var i :| 0 <= i < |rows| && rows[i].timestamp == u;
        assert after[i].timestamp == u;
      }
    }
  }

  /** The chronological price column the indicators are computed from. */
  function Prices(rows: seq<Row>): (r: seq<real>)
    ensures |r| == |rows|
    ensures forall i :: 0 <= i < |rows| ==> r[i] == rows[i].price
  {
    seq(|rows|, i requires 0 <= i < |rows| => rows[i].price)
  }
}
