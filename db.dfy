/**
 * The three SQLite tables of `db.py` as abstract state: group rows keyed by group id, a
 * cursor per pool address, and an append-only log of buys; plus the windowed leaderboard
 * query as a pure function over the log.
 */
module Db {
  import opened Wrappers
  import opened Json

  /** SQLite binds a Python int only when it fits in a signed 64-bit integer. */
  predicate FitsSqliteInteger(i: int)
  {
    -0x8000_0000_0000_0000 <= i < 0x8000_0000_0000_0000
  }

  /** A decoded JSON value that SQLite can bind as a parameter: no list, no dict, no out-of-range int. */
  predicate Bindable(j: Json)
  {
    match j
    case JInt(i) => FitsSqliteInteger(i)
    case JArr(_) => false
    case JObj(_) => false
    case _ => true
  }

  // ---------------------------------------------------------------------------------------
  // groups

  /** One row of the `groups` table (its key, `group_id`, is the map key). */
  datatype GroupRow = GroupRow(
    enabled: int,
    approved: int,
    minBuyTon: real,
    tokenSymbol: Option<string>,
    jettonAddress: Option<string>,
    stonfiPool: Option<string>,
    dedustPool: Option<string>)

  /** The column defaults a freshly inserted group gets. */
  const NewGroupRow: GroupRow := GroupRow(0, 0, 0.0, None, None, None, None)

  /** `GroupConfig`: a row as `get_group` hands it out, with the integer flags read as booleans. */
  datatype GroupConfig = GroupConfig(
    groupId: int,
    enabled: bool,
    approved: bool,
    minBuyTon: real,
    tokenSymbol: Option<string>,
    jettonAddress: Option<string>,
    stonfiPool: Option<string>,
    dedustPool: Option<string>)

  function ConfigOf(gid: int, row: GroupRow): (cfg: GroupConfig)
    ensures cfg.groupId == gid
    ensures cfg.enabled <==> row.enabled != 0
    ensures cfg.approved <==> row.approved != 0
    ensures cfg.minBuyTon == row.minBuyTon
    ensures cfg.tokenSymbol == row.tokenSymbol && cfg.jettonAddress == row.jettonAddress
    ensures cfg.stonfiPool == row.stonfiPool && cfg.dedustPool == row.dedustPool
  {
    GroupConfig(gid, row.enabled != 0, row.approved != 0, row.minBuyTon,
                row.tokenSymbol, row.jettonAddress, row.stonfiPool, row.dedustPool)
  }

  /** One keyword argument of `set_group_fields`: a column and its new value. */
  datatype FieldUpdate =
    | SetEnabled(enabled: int)
    | SetApproved(approved: int)
    | SetMinBuyTon(minBuyTon: real)
    | SetTokenSymbol(tokenSymbol: Option<string>)
    | SetJettonAddress(jettonAddress: Option<string>)
    | SetStonfiPool(stonfiPool: Option<string>)
    | SetDedustPool(dedustPool: Option<string>)

  function Apply(row: GroupRow, u: FieldUpdate): GroupRow
  {
    match u
    case SetEnabled(v) => row.(enabled := v)
    case SetApproved(v) => row.(approved := v)
    case SetMinBuyTon(v) => row.(minBuyTon := v)
    case SetTokenSymbol(v) => row.(tokenSymbol := v)
    case SetJettonAddress(v) => row.(jettonAddress := v)
    case SetStonfiPool(v) => row.(stonfiPool := v)
    case SetDedustPool(v) => row.(dedustPool := v)
  }

  /** `UPDATE groups SET k1=?, k2=?, ...`: the assignments in order (a later one for the same column wins). */
  function ApplyAll(row: GroupRow, us: seq<FieldUpdate>): GroupRow
    decreases us
  {
    if us == [] then row else ApplyAll(Apply(row, us[0]), us[1..])
  }

  predicate TouchesStonfiPool(us: seq<FieldUpdate>)
  {
    exists i | 0 <= i < |us| :: us[i].SetStonfiPool?
  }

  predicate TouchesDedustPool(us: seq<FieldUpdate>)
  {
    exists i | 0 <= i < |us| :: us[i].SetDedustPool?
  }

  predicate TouchesEnabled(us: seq<FieldUpdate>)
  {
    exists i | 0 <= i < |us| :: us[i].SetEnabled?
  }

  /** Columns not named in the update keep their values. */
  lemma {:induction false} ApplyAllKeepsOthers(row: GroupRow, us: seq<FieldUpdate>)
    ensures !TouchesStonfiPool(us) ==> ApplyAll(row, us).stonfiPool == row.stonfiPool
    ensures !TouchesDedustPool(us) ==> ApplyAll(row, us).dedustPool == row.dedustPool
    ensures !TouchesEnabled(us) ==> ApplyAll(row, us).enabled == row.enabled
    decreases us
  {
    if us != [] {
      ApplyAllKeepsOthers(Apply(row, us[0]), us[1..]);
      assert forall i | 0 <= i < |us[1..]| :: us[1..][i] == us[i + 1];
    }
  }

  /** A single assignment sets exactly its column. */
  lemma {:induction false} ApplyOne(row: GroupRow, u: FieldUpdate)
    ensures u.SetStonfiPool? ==> ApplyAll(row, [u]) == row.(stonfiPool := u.stonfiPool)
    ensures u.SetDedustPool? ==> ApplyAll(row, [u]) == row.(dedustPool := u.dedustPool)
    ensures u.SetEnabled? ==> ApplyAll(row, [u]) == row.(enabled := u.enabled)
  {
    assert [u][1..] == [];
  }

  /** `INSERT OR IGNORE INTO groups (group_id)`: adds a default row only when the id is new. */
  function Ensured(groups: map<int, GroupRow>, gid: int): (g: map<int, GroupRow>)
    ensures gid in g && g.Keys == groups.Keys + {gid}
    ensures gid in groups ==> g == groups
    ensures gid !in groups ==> g[gid] == NewGroupRow
    ensures forall h | h in groups :: g[h] == groups[h]
  {
    if gid in groups then groups else groups[gid := NewGroupRow]
  }

  /** `ensure_group` is idempotent. */
  lemma {:induction false} EnsuredIdempotent(groups: map<int, GroupRow>, gid: int)
    ensures Ensured(Ensured(groups, gid), gid) == Ensured(groups, gid)
  {
  }

  // ---------------------------------------------------------------------------------------
  // buys and the leaderboard query

  /** One row of the `buys` table; the buyer and the tx hash are whatever the payload held. */
  datatype BuyRow = BuyRow(
    ts: int,
    groupId: int,
    dex: string,
    tokenSymbol: Option<string>,
    jettonAddress: Option<string>,
    poolAddress: string,
    buyerAddress: Json,
    tonAmount: Option<real>,
    usdAmount: Option<real>,
    jettonAmount: Option<real>,
    txHash: Json)

  /** Every parameter of the `INSERT INTO buys` can be bound. */
  predicate RowBindable(b: BuyRow)
  {
    FitsSqliteInteger(b.ts) && FitsSqliteInteger(b.groupId) && Bindable(b.buyerAddress) && Bindable(b.txHash)
  }

  /** `COALESCE(token_symbol, jetton_address, 'UNKNOWN')`: only NULL is skipped, an empty text is kept. */
  function BuyKey(b: BuyRow): string
  {
    if b.tokenSymbol.Some? then b.tokenSymbol.value
    else if b.jettonAddress.Some? then b.jettonAddress.value
    else "UNKNOWN"
  }

  /** `COALESCE(usd_amount, 0)`. */
  function UsdOrZero(b: BuyRow): real
  {
    if b.usdAmount.Some? then b.usdAmount.value else 0.0
  }

  /** `ts >= strftime('%s','now') - window`. */
  predicate InWindow(b: BuyRow, now: int, window: int)
  {
    b.ts >= now - window
  }

  /** The rows the `WHERE` clause keeps, in table order. */
  function Recent(buys: seq<BuyRow>, now: int, window: int): (r: seq<BuyRow>)
    ensures forall b | b in r :: b in buys && InWindow(b, now, window)
    ensures forall b | b in buys && InWindow(b, now, window) :: b in r
  {
    if buys == [] then []
    else
      var init := Recent(buys[..|buys| - 1], now, window);
      var last := buys[|buys| - 1];
      assert forall b | b in buys :: b in buys[..|buys| - 1] || b == last;
      init + (if InWindow(last, now, window) then [last] else [])
  }

  /** Each row is kept as many times as the table holds it when it is in the window, else never. */
  lemma {:induction false} RecentCounts(buys: seq<BuyRow>, now: int, window: int, b: BuyRow)
    ensures multiset(Recent(buys, now, window))[b] == if InWindow(b, now, window) then multiset(buys)[b] else 0
  {
    if buys != [] {
      var init, last := buys[..|buys| - 1], buys[|buys| - 1];
      assert buys == init + [last];
      RecentCounts(init, now, window, b);
    }
  }

  /** The filter keeps table order: filtering two runs of rows concatenates their filtered runs. */
  lemma {:induction false} RecentAppend(a: seq<BuyRow>, c: seq<BuyRow>, now: int, window: int)
    ensures Recent(a + c, now, window) == Recent(a, now, window) + Recent(c, now, window)
    decreases |c|
  {
    if c == [] {
      assert a + c == a;
    } else {
      var c', last := c[..|c| - 1], c[|c| - 1];
      assert a + c == (a + c') + [last];
      assert c == c' + [last];
      RecentSnoc(a + c', last, now, window);
      RecentSnoc(c', last, now, window);
      RecentAppend(a, c', now, window);
    }
  }

  /** One more row at the end of the table is kept or not on its own. */
  lemma RecentSnoc(buys: seq<BuyRow>, b: BuyRow, now: int, window: int)
    ensures Recent(buys + [b], now, window) == Recent(buys, now, window) + if InWindow(b, now, window) then [b] else []
  {
    assert (buys + [b])[..|buys + [b]| - 1] == buys;
  }

  predicate HasKey(rs: seq<BuyRow>, k: string)
  {
    exists i | 0 <= i < |rs| :: BuyKey(rs[i]) == k
  }

  lemma {:induction false} HasKeySnoc(rs: seq<BuyRow>, k: string)
    requires rs != []
    ensures HasKey(rs, k) <==> HasKey(rs[..|rs| - 1], k) || BuyKey(rs[|rs| - 1]) == k
  {
    if HasKey(rs, k) && BuyKey(rs[|rs| - 1]) != k {
      var i :| 0 <= i < |rs| && BuyKey(rs[i]) == k;
      assert rs[..|rs| - 1][i] == rs[i];
    }
    if HasKey(rs[..|rs| - 1], k) {
      var i :| 0 <= i < |rs| - 1 && BuyKey(rs[..|rs| - 1][i]) == k;
      assert rs[i] == rs[..|rs| - 1][i];
    }
  }

  predicate DistinctStrings(ks: seq<string>)
  {
    forall i, j | 0 <= i < j < |ks| :: ks[i] != ks[j]
  }

  /** The `GROUP BY key` groups, each once, in order of first appearance. */
  function DistinctKeys(rs: seq<BuyRow>): (ks: seq<string>)
    ensures DistinctStrings(ks)
    ensures forall k :: k in ks <==> HasKey(rs, k)
  {
    if rs == [] then []
    else
      var init := DistinctKeys(rs[..|rs| - 1]);
      var k := BuyKey(rs[|rs| - 1]);
      forall k' ensures HasKey(rs, k') <==> HasKey(rs[..|rs| - 1], k') || k == k' {
        HasKeySnoc(rs, k');
      }
      if k in init then init else init + [k]
  }

  /** `SUM(COALESCE(usd_amount, 0))` over the rows with key `k`. */
  function VolumeOf(rs: seq<BuyRow>, k: string): real
  {
    if rs == [] then 0.0
    else VolumeOf(rs[..|rs| - 1], k) + (if BuyKey(rs[|rs| - 1]) == k then UsdOrZero(rs[|rs| - 1]) else 0.0)
  }

  /** `COUNT(*)` over the rows with key `k`. */
  function CountOf(rs: seq<BuyRow>, k: string): nat
  {
    if rs == [] then 0
    else CountOf(rs[..|rs| - 1], k) + (if BuyKey(rs[|rs| - 1]) == k then 1 else 0)
  }

  /** A group is non-empty: its count is positive exactly for the keys that occur. */
  lemma {:induction false} CountOfPositive(rs: seq<BuyRow>, k: string)
    ensures CountOf(rs, k) > 0 <==> HasKey(rs, k)
  {
    if rs != [] {
      CountOfPositive(rs[..|rs| - 1], k);
      HasKeySnoc(rs, k);
    }
  }

  /** One result row of the leaderboard query. */
  datatype LeaderRow = LeaderRow(key: string, volUsd: real, buys: nat)

  function KeysOf(rows: seq<LeaderRow>): (ks: seq<string>)
    ensures |ks| == |rows| && forall i | 0 <= i < |rows| :: ks[i] == rows[i].key
  {
    seq(|rows|, i requires 0 <= i < |rows| => rows[i].key)
  }

  /** The grouped rows, one per key, in order of first appearance. */
  function Grouped(rs: seq<BuyRow>): (rows: seq<LeaderRow>)
    ensures KeysOf(rows) == DistinctKeys(rs)
    ensures forall i | 0 <= i < |rows| :: rows[i].volUsd == VolumeOf(rs, rows[i].key) && rows[i].buys == CountOf(rs, rows[i].key)
  {
    var ks := DistinctKeys(rs);
    seq(|ks|, i requires 0 <= i < |ks| => LeaderRow(ks[i], VolumeOf(rs, ks[i]), CountOf(rs, ks[i])))
  }

  /** `ORDER BY vol_usd DESC, buys DESC`: `a` may come before `b`. */
  predicate RanksAtLeast(a: LeaderRow, b: LeaderRow)
  {
    a.volUsd > b.volUsd || (a.volUsd == b.volUsd && a.buys >= b.buys)
  }

  predicate Ordered(rows: seq<LeaderRow>)
  {
    forall i, j | 0 <= i < j < |rows| :: RanksAtLeast(rows[i], rows[j])
  }

  predicate KeysDistinct(rows: seq<LeaderRow>)
  {
    forall i, j | 0 <= i < j < |rows| :: rows[i].key != rows[j].key
  }

  /** Puts `r` in front of the first row it ranks at least as high as. */
  function Insert(r: LeaderRow, sorted: seq<LeaderRow>): (s: seq<LeaderRow>)
    ensures multiset(s) == multiset(sorted) + multiset{r}
  {
    if sorted == [] then [r]
    else if RanksAtLeast(r, sorted[0]) then [r] + sorted
    else
      assert sorted == [sorted[0]] + sorted[1..];
      [sorted[0]] + Insert(r, sorted[1..])
  }

  lemma {:induction false} InsertOrdered(r: LeaderRow, sorted: seq<LeaderRow>)
    requires Ordered(sorted)
    ensures Ordered(Insert(r, sorted))
  {
    if sorted != [] && !RanksAtLeast(r, sorted[0]) {
      var rest := sorted[1..];
      assert Ordered(rest) by {
        forall i, j | 0 <= i < j < |rest| ensures RanksAtLeast(rest[i], rest[j]) {
          assert rest[i] == sorted[i + 1] && rest[j] == sorted[j + 1];
        }
      }
      InsertOrdered(r, rest);
      var tail := Insert(r, rest);
      var s := [sorted[0]] + tail;
      forall i, j | 0 <= i < j < |s| ensures RanksAtLeast(s[i], s[j]) {
        if i == 0 {
          assert s[j] in multiset(tail);
          assert s[j] == r || s[j] in multiset(rest);
          if s[j] != r {
            var k :| 0 <= k < |rest| && rest[k] == s[j];
            assert sorted[k + 1] == s[j];
          }
        } else {
          assert s[i] == tail[i - 1] && s[j] == tail[j - 1];
        }
      }
    }
  }

  lemma {:induction false} InsertKeysDistinct(r: LeaderRow, sorted: seq<LeaderRow>)
    requires KeysDistinct(sorted)
    requires forall x | x in sorted :: x.key != r.key
    ensures KeysDistinct(Insert(r, sorted))
  {
    var s := Insert(r, sorted);
    if sorted == [] {
    } else if RanksAtLeast(r, sorted[0]) {
      forall i, j | 0 <= i < j < |s| ensures s[i].key != s[j].key {
        if i == 0 {
          assert s[j] == sorted[j - 1];
        } else {
          assert s[i] == sorted[i - 1] && s[j] == sorted[j - 1];
        }
      }
    } else {
      var rest := sorted[1..];
      assert KeysDistinct(rest) by {
        forall i, j | 0 <= i < j < |rest| ensures rest[i].key != rest[j].key {
          assert rest[i] == sorted[i + 1] && rest[j] == sorted[j + 1];
        }
      }
      InsertKeysDistinct(r, rest);
      var tail := Insert(r, rest);
      forall i, j | 0 <= i < j < |s| ensures s[i].key != s[j].key {
        if i == 0 {
          assert s[j] in multiset(tail);
          if s[j] != r {
            assert s[j] in multiset(rest);
            var k :| 0 <= k < |rest| && rest[k] == s[j];
            assert sorted[k + 1] == s[j];
          }
        } else {
          assert s[i] == tail[i - 1] && s[j] == tail[j - 1];
        }
      }
    }
  }

  /**
   * The query's ordering as a stable insertion sort: ties in both volume and count keep their
   * order of first appearance.
   */
  function SortRows(rows: seq<LeaderRow>): (s: seq<LeaderRow>)
    ensures multiset(s) == multiset(rows)
  {
    if rows == [] then []
    else
      assert rows == [rows[0]] + rows[1..];
      Insert(rows[0], SortRows(rows[1..]))
  }

  lemma {:induction false} SortRowsOrdered(rows: seq<LeaderRow>)
    ensures Ordered(SortRows(rows))
  {
    if rows != [] {
      SortRowsOrdered(rows[1..]);
      InsertOrdered(rows[0], SortRows(rows[1..]));
    }
  }

  lemma {:induction false} SortRowsKeysDistinct(rows: seq<LeaderRow>)
    requires KeysDistinct(rows)
    ensures KeysDistinct(SortRows(rows))
  {
    if rows != [] {
      var rest := rows[1..];
      assert KeysDistinct(rest) by {
        forall i, j | 0 <= i < j < |rest| ensures rest[i].key != rest[j].key {
          assert rest[i] == rows[i + 1] && rest[j] == rows[j + 1];
        }
      }
      SortRowsKeysDistinct(rest);
      forall x | x in SortRows(rest) ensures x.key != rows[0].key {
        assert x in multiset(SortRows(rest));
        var k :| 0 <= k < |rest| && rest[k] == x;
        assert rows[k + 1] == x;
      }
      InsertKeysDistinct(rows[0], SortRows(rest));
    }
  }

  /** `LIMIT n`: a negative limit places no bound. */
  function Take(rows: seq<LeaderRow>, limit: int): (r: seq<LeaderRow>)
    ensures limit < 0 || limit >= |rows| ==> r == rows
    ensures 0 <= limit < |rows| ==> |r| == limit
    ensures r == rows[..|r|]
  {
    if limit < 0 || limit >= |rows| then rows else rows[..limit]
  }

  /** `get_recent_leaderboard(window, limit)` evaluated at time `now` over the buy log. */
  function Leaderboard(buys: seq<BuyRow>, now: int, window: int, limit: int): seq<LeaderRow>
  {
    Take(SortRows(Grouped(Recent(buys, now, window))), limit)
  }

  /** The query result: distinct keys, ordered, at most `limit` rows, each the exact sum and count of its key. */
  lemma {:induction false} LeaderboardRows(buys: seq<BuyRow>, now: int, window: int, limit: int)
    ensures var rows := Leaderboard(buys, now, window, limit);
      && KeysDistinct(rows)
      && Ordered(rows)
      && (limit >= 0 ==> |rows| <= limit)
      && forall i | 0 <= i < |rows| ::
           HasKey(Recent(buys, now, window), rows[i].key)
           && rows[i].volUsd == VolumeOf(Recent(buys, now, window), rows[i].key)
           && rows[i].buys == CountOf(Recent(buys, now, window), rows[i].key)
           && rows[i].buys >= 1
  {
    var rs := Recent(buys, now, window);
    var g := Grouped(rs);
    var s := SortRows(g);
    var rows := Take(s, limit);
    GroupedKeysDistinct(rs);
    SortRowsKeysDistinct(g);
    SortRowsOrdered(g);
    TakeKeeps(s, limit);
    forall i | 0 <= i < |rows|
      ensures HasKey(rs, rows[i].key) && rows[i].volUsd == VolumeOf(rs, rows[i].key)
        && rows[i].buys == CountOf(rs, rows[i].key) && rows[i].buys >= 1
    {
      assert rows[i] == s[i];
      SortedGroupRow(rs, i);
    }
  }

  lemma {:induction false} GroupedKeysDistinct(rs: seq<BuyRow>)
    ensures KeysDistinct(Grouped(rs))
  {
    var g := Grouped(rs);
    forall i, j | 0 <= i < j < |g| ensures g[i].key != g[j].key {
      assert KeysOf(g)[i] == g[i].key && KeysOf(g)[j] == g[j].key;
    }
  }

  /** Each sorted group is the sum and count, at least 1, of a key that occurs. */
  lemma {:induction false} SortedGroupRow(rs: seq<BuyRow>, i: int)
    requires 0 <= i < |SortRows(Grouped(rs))|
    ensures var r := SortRows(Grouped(rs))[i];
      HasKey(rs, r.key) && r.volUsd == VolumeOf(rs, r.key) && r.buys == CountOf(rs, r.key) && r.buys >= 1
  {
    var g := Grouped(rs);
    var s := SortRows(g);
    assert s[i] in multiset(g);
    var k :| 0 <= k < |g| && g[k] == s[i];
    assert KeysOf(g)[k] == g[k].key;
    assert g[k].key in DistinctKeys(rs);
    CountOfPositive(rs, g[k].key);
  }

  /** A prefix keeps distinct keys and order. */
  lemma {:induction false} TakeKeeps(s: seq<LeaderRow>, limit: int)
    ensures KeysDistinct(s) ==> KeysDistinct(Take(s, limit))
    ensures Ordered(s) ==> Ordered(Take(s, limit))
  {
    var rows := Take(s, limit);
    assert forall i | 0 <= i < |rows| :: rows[i] == s[i];
  }

  /** The grouped row of a recent key is somewhere in the sorted rows, which are one per key. */
  lemma {:induction false} KeyRowSorted(rs: seq<BuyRow>, k: string) returns (si: int)
    requires HasKey(rs, k)
    ensures var s := SortRows(Grouped(rs));
      && |s| == |DistinctKeys(rs)|
      && 0 <= si < |s| && s[si] == LeaderRow(k, VolumeOf(rs, k), CountOf(rs, k))
  {
    var g := Grouped(rs);
    var s := SortRows(g);
    var kr := LeaderRow(k, VolumeOf(rs, k), CountOf(rs, k));
    assert k in DistinctKeys(rs);
    var gi :| 0 <= gi < |DistinctKeys(rs)| && DistinctKeys(rs)[gi] == k;
    assert KeysOf(g)[gi] == g[gi].key;
    assert g[gi] == kr;
    assert kr in multiset(s) by { assert kr in multiset(g); }
    si :| 0 <= si < |s| && s[si] == kr;
    assert |s| == |g| by { assert |multiset(s)| == |multiset(g)|; }
  }

  /** A sorted row cut off by the limit ranks no higher than every row kept. */
  lemma {:induction false} TakeRanksAbove(s: seq<LeaderRow>, limit: int, si: int)
    requires Ordered(s) && 0 <= si < |s| && s[si].key !in KeysOf(Take(s, limit))
    ensures forall i | 0 <= i < |Take(s, limit)| :: RanksAtLeast(Take(s, limit)[i], s[si])
  {
    var rows := Take(s, limit);
    if si < |rows| {
      assert false;
    }
    forall i | 0 <= i < |rows| ensures RanksAtLeast(rows[i], s[si]) {
      assert rows[i] == s[i];
    }
  }

  /**
   * Top-N: a key of a recent buy that has no row ranks no higher than every row shown; with no
   * limit, or a limit of at least the number of keys, every recent key has a row.
   */
  lemma {:induction false} LeaderboardTopN(buys: seq<BuyRow>, now: int, window: int, limit: int, k: string)
    requires HasKey(Recent(buys, now, window), k)
    ensures var rows := Leaderboard(buys, now, window, limit);
      var rs := Recent(buys, now, window);
      (k !in KeysOf(rows) ==>
         forall i | 0 <= i < |rows| :: RanksAtLeast(rows[i], LeaderRow(k, VolumeOf(rs, k), CountOf(rs, k))))
      && (limit < 0 || limit >= |DistinctKeys(rs)| ==> k in KeysOf(rows))
  {
    var rs := Recent(buys, now, window);
    var s := SortRows(Grouped(rs));
    var si := KeyRowSorted(rs, k);
    SortRowsOrdered(Grouped(rs));
    if k !in KeysOf(Take(s, limit)) {
      TakeRanksAbove(s, limit, si);
    }
    if limit < 0 || limit >= |DistinctKeys(rs)| {
      assert KeysOf(Take(s, limit))[si] == k;
    }
  }

  /** The database: its three tables. */
  class Database {
    var groups: map<int, GroupRow>
    var cursors: map<string, int>
    var buys: seq<BuyRow>

    /** `connect()` on a fresh file: the schema creates three empty tables. */
    constructor ()
      ensures groups == map[] && cursors == map[] && buys == []
    {
      groups := map[];
      cursors := map[];
      buys := [];
    }

    /** `get_pool_cursor(pool)`: the stored `last_lt`, or 0 for a pool never written. */
    method GetPoolCursor(pool: string) returns (lt: int)
      ensures pool !in cursors ==> lt == 0
      ensures pool in cursors ==> lt == cursors[pool]
    {
      if pool in cursors {
        lt := cursors[pool];
      } else {
        lt := 0;
      }
    }

    /**
     * `set_pool_cursor(pool, lt)`: an upsert. The pool reads back `lt` and every other pool is
     * unchanged; nothing forces the value to grow. A value SQLite cannot bind raises instead.
     */
    method SetPoolCursor(pool: string, lt: int) returns (ok: bool)
      modifies this
      ensures ok <==> FitsSqliteInteger(lt)
      ensures cursors == if ok then old(cursors)[pool := lt] else old(cursors)
      ensures groups == old(groups) && buys == old(buys)
    {
      ok := FitsSqliteInteger(lt);
      if ok {
        cursors := cursors[pool := lt];
      }
    }

    /** `ensure_group(gid)`: `INSERT OR IGNORE` of a row with the column defaults. */
    method EnsureGroup(gid: int)
      modifies this
      ensures groups == Ensured(old(groups), gid)
      ensures cursors == old(cursors) && buys == old(buys)
    {
      if gid !in groups {
        groups := groups[gid := NewGroupRow];
      }
    }

    /** `get_group(gid)`: ensures the row, then reads it back as a `GroupConfig`. */
    method GetGroup(gid: int) returns (cfg: GroupConfig)
      modifies this
      ensures groups == Ensured(old(groups), gid)
      ensures cursors == old(cursors) && buys == old(buys)
      ensures cfg == ConfigOf(gid, groups[gid])
    {
      EnsureGroup(gid);
      cfg := ConfigOf(gid, groups[gid]);
    }

    /**
     * `set_group_fields(gid, **fields)`: ensures the row, then updates only the named columns of
     * that one row. With no fields the generated `UPDATE groups SET  WHERE ...` is a syntax
     * error: the row has been ensured but the call raises.
     */
    method SetGroupFields(gid: int, updates: seq<FieldUpdate>) returns (ok: bool)
      modifies this
      ensures ok <==> updates != []
      ensures var ensured := Ensured(old(groups), gid);
        groups == if ok then ensured[gid := ApplyAll(ensured[gid], updates)] else ensured
      ensures cursors == old(cursors) && buys == old(buys)
    {
      EnsureGroup(gid);
      ok := updates != [];
      if ok {
        groups := groups[gid := ApplyAll(groups[gid], updates)];
      }
    }

    /** `add_buy(...)`: appends one row and changes no existing row; a row SQLite cannot bind raises. */
    method AddBuy(row: BuyRow) returns (ok: bool)
      modifies this
      ensures ok <==> RowBindable(row)
      ensures buys == if ok then old(buys) + [row] else old(buys)
      ensures groups == old(groups) && cursors == old(cursors)
    {
      ok := RowBindable(row);
      if ok {
        buys := buys + [row];
      }
    }

    /** `get_recent_leaderboard(window, limit)` at time `now`. */
    method GetRecentLeaderboard(now: int, window: int, limit: int) returns (rows: seq<LeaderRow>)
      ensures rows == Leaderboard(buys, now, window, limit)
      ensures KeysDistinct(rows) && Ordered(rows)
      ensures limit >= 0 ==> |rows| <= limit
      ensures forall i | 0 <= i < |rows| ::
        rows[i].volUsd == VolumeOf(Recent(buys, now, window), rows[i].key)
        && rows[i].buys == CountOf(Recent(buys, now, window), rows[i].key) && rows[i].buys >= 1
    {
      rows := Leaderboard(buys, now, window, limit);
      LeaderboardRows(buys, now, window, limit);
    }

    /**
     * `get_enabled_groups()`: exactly the groups whose `enabled` column is 1, in ascending id
     * order (the order in which SQLite scans a table keyed by an integer primary key).
     */
    method GetEnabledGroups() returns (ids: seq<int>)
      ensures forall i, j | 0 <= i < j < |ids| :: ids[i] < ids[j]
      ensures forall i | 0 <= i < |ids| :: ids[i] in groups && groups[ids[i]].enabled == 1
      ensures forall g | g in groups && groups[g].enabled == 1 :: g in ids
    {
      var remaining := groups.Keys;
      ids := [];
      while remaining != {}
        invariant remaining <= groups.Keys
        invariant forall i, j | 0 <= i < j < |ids| :: ids[i] < ids[j]
        invariant forall i, r | 0 <= i < |ids| && r in remaining :: ids[i] < r
        invariant forall i | 0 <= i < |ids| :: ids[i] in groups && groups[ids[i]].enabled == 1
        invariant forall g | g in groups && g !in remaining && groups[g].enabled == 1 :: g in ids
        decreases |remaining|
      {
        SmallestExists(remaining);
        var g :| g in remaining && forall x | x in remaining :: g <= x;
        if groups[g].enabled == 1 {
          ids := ids + [g];
        }
        remaining := remaining - {g};
      }
    }
  }

  lemma {:induction false} NonEmptyHasElement(s: set<int>)
    requires s != {}
    ensures exists y :: y in s
  {
    if forall y :: y !in s {
      assert false;
    }
  }

  /** Every non-empty finite set of ids has a smallest one. */
  lemma {:induction false} SmallestExists(s: set<int>)
    requires s != {}
    ensures exists m | m in s :: forall x | x in s :: m <= x
    decreases |s|
  {
    NonEmptyHasElement(s);
    var y :| y in s;
    if s != {y} {
      SmallestExists(s - {y});
      var m :| m in s - {y} && forall x | x in s - {y} :: m <= x;
      assert forall x | x in s :: x == y || x in s - {y};
      if y < m {
        assert forall x | x in s :: y <= x;
      } else {
        assert forall x | x in s :: m <= x;
      }
    } else {
      assert forall x | x in s :: y <= x;
    }
  }
}
