/**
 * `metrics.py`: a TTL cache of token snapshots and `fetch_token_metrics`, which reuses a fresh
 * snapshot or assembles a new one best-effort from TonAPI jetton info and DexScreener pairs.
 * The clock is the parameter `now`; each HTTP answer is an input, `None` standing for a call
 * that raised or answered with a non-200 status.
 */
module Metrics {
  import opened Wrappers
  import opened Json
  import opened DexScreener

  /**
   * The keys `fetch_token_metrics` writes: eight fixed names and one `"<dex>_pool"` per
   * discovered pool. `Name` gives the dict key; distinct fields have distinct names
   * (`NameInjective`), so a map over fields is the dict the function builds.
   */
  datatype Field =
    | Holders | Symbol | Decimals
    | PriceUsd | LiquidityUsd | McapUsd | DexUrl | BestPairAddress
    | Pool(dex: string)

  function Name(f: Field): string
  {
    match f
    case Holders => "holders"
    case Symbol => "symbol"
    case Decimals => "decimals"
    case PriceUsd => "price_usd"
    case LiquidityUsd => "liquidity_usd"
    case McapUsd => "mcap_usd"
    case DexUrl => "dex_url"
    case BestPairAddress => "best_pair_address"
    case Pool(d) => d + "_pool"
  }

  /** Third character from the end of a name: `o` exactly for the `"_pool"` names. */
  lemma {:induction false} NameMark(f: Field)
    ensures |Name(f)| >= 5
    ensures Name(f)[|Name(f)| - 3] == 'o' <==> f.Pool?
  {
    if f.Pool? {
      var n := Name(f);
      assert n[|n| - 3] == "_pool"[2];
    }
  }

  /** Different fields are different dict keys. */
  lemma {:induction false} NameInjective(f: Field, g: Field)
    requires Name(f) == Name(g)
    ensures f == g
  {
    NameMark(f);
    NameMark(g);
    if f.Pool? && g.Pool? {
      var a, b := f.dex, g.dex;
      assert |a| == |b|;
      assert a == (a + "_pool")[..|a|] && b == (b + "_pool")[..|b|];
    }
  }

  type Snapshot = map<Field, Json>

  /** `MetricsCache`: key ↦ (time stored, snapshot). */
  class MetricsCache {
    var ttl: int
    var entries: map<string, (real, Snapshot)>

    /** `MetricsCache(ttl_seconds)`: an empty cache. */
    constructor(ttlSeconds: int)
      ensures ttl == ttlSeconds && entries == map[]
    {
      ttl := ttlSeconds;
      entries := map[];
    }

    /** The snapshot `get(key)` returns at time `now`: one stored at most `ttl` seconds ago. */
    function Live(key: string, now: real): (r: Option<Snapshot>)
      reads this
    {
      if key in entries && now - entries[key].0 <= ttl as real then Some(entries[key].1) else None
    }

    /** `get(key)`: `None` for an absent or expired key; an entry exactly `ttl` old is still returned. */
    method Get(key: string, now: real) returns (r: Option<Snapshot>)
      ensures key !in entries ==> r.None?
      ensures key in entries ==> (r.Some? <==> now - entries[key].0 <= ttl as real)
      ensures r.Some? ==> r.value == entries[key].1
    {
      if key !in entries {
        return None;
      }
      var item := entries[key];
      if now - item.0 > ttl as real {
        return None;
      }
      return Some(item.1);
    }

    /** `set(key, val)`: overwrites the entry for `key` with the current time; other keys are untouched. */
    method Set(key: string, val: Snapshot, now: real)
      modifies this
      ensures entries == old(entries)[key := (now, val)] && ttl == old(ttl)
    {
      entries := entries[key := (now, val)];
    }
  }

  // ---------------------------------------------------------------------------------------
  // fetch_token_metrics

  /**
   * The TonAPI block of `fetch_token_metrics`, inside its `try`: `holders`, then `symbol` and
   * `decimals` from `metadata` or the top level. A missing answer or one that is not a dict sets
   * nothing; a truthy `metadata` that is not a dict raises after `holders` has been set.
   */
  function InfoFields(info: Option<Json>): (out: Snapshot)
    ensures out.Keys <= {Holders, Symbol, Decimals}
    ensures info.None? || !info.value.JObj? ==> out == map[]
    ensures info.Some? && info.value.JObj? ==> Holders in out
  {
    if info.None? || !info.value.JObj? then map[]
    else
      var j := info.value;
      var holders := map[Holders := PyOr(PyOr(Get(j, "holders_count"), Get(j, "holders")), Get(j, "holdersCount"))];
      var meta := PyOr(Get(j, "metadata"), EmptyObj);
      if !meta.JObj? then holders
      else
        holders[Symbol := PyOr(Get(meta, "symbol"), Get(j, "symbol"))][Decimals := PyOr(Get(meta, "decimals"), Get(j, "decimals"))]
  }

  /** `data = pairs answer`, and only when that is falsy, `data = latest answer`. */
  function MarketData(pairsAnswer: Option<Json>, latestAnswer: Option<Json>): (data: Json)
    ensures pairsAnswer.Some? && Truthy(pairsAnswer.value) ==> data == pairsAnswer.value
  {
    var first := pairsAnswer.GetOr(JNull);
    if Truthy(first) then first else latestAnswer.GetOr(JNull)
  }

  /** The fields taken from the best pair. */
  function PairFields(pair: Json): (out: Snapshot)
    requires LiquidityKey(pair).Ok?
    ensures out.Keys == {PriceUsd, LiquidityUsd, McapUsd, DexUrl, BestPairAddress}
    ensures out[LiquidityUsd] == Get(PyOr(Get(pair, "liquidity"), EmptyObj), "usd")
  {
    var liq := PyOr(Get(pair, "liquidity"), EmptyObj);
    assert liq.JObj?;
    map[PriceUsd := Get(pair, "priceUsd"),
        LiquidityUsd := Get(liq, "usd"),
        McapUsd := PyOr(Get(pair, "marketCap"), Get(pair, "fdv")),
        DexUrl := Get(pair, "url"),
        BestPairAddress := PyOr(Get(pair, "pairAddress"), Get(pair, "pair"))]
  }

  /** `{f"{k}_pool": v for k, v in pools.items()}`. */
  function PoolFields(pools: map<string, string>): (out: Snapshot)
    ensures forall d | d in pools :: Pool(d) in out && out[Pool(d)] == JStr(pools[d])
    ensures forall f | f in out :: f.Pool? && f.dex in pools
  {
    map d | d in pools :: Pool(d) := JStr(pools[d])
  }

  /**
   * The DexScreener block, inside its `try`: the pair fields when a truthy best pair is found,
   * then the pool keys; an exception skips what follows it.
   */
  function MarketFields(data: Json): Snapshot
  {
    match ExtractBestPair(data)
    case Err => map[]
    case Ok(pair) =>
      var withPair := if pair.Some? && Truthy(pair.value) then PairFields(pair.value) else map[];
      match PoolsOf(data)
      case Err => withPair
      case Ok(pools) => withPair + PoolFields(pools)
  }

  /** The snapshot assembled on a cache miss. */
  function Assemble(info: Option<Json>, pairsAnswer: Option<Json>, latestAnswer: Option<Json>): Snapshot
  {
    InfoFields(info) + MarketFields(MarketData(pairsAnswer, latestAnswer))
  }

  /**
   * A failed source leaves its fields absent: without jetton info there is no `holders`,
   * `symbol` or `decimals`; without any market answer there are no market fields at all.
   */
  lemma {:induction false} FailedSourcesLeaveFieldsAbsent(info: Option<Json>, pairsAnswer: Option<Json>, latestAnswer: Option<Json>)
    ensures info.None? ==> Assemble(info, pairsAnswer, latestAnswer) == MarketFields(MarketData(pairsAnswer, latestAnswer))
    ensures pairsAnswer.None? && latestAnswer.None? ==> Assemble(info, pairsAnswer, latestAnswer) == InfoFields(info)
  {
    if info.None? {
      InfoMissing(pairsAnswer, latestAnswer);
    }
    if pairsAnswer.None? && latestAnswer.None? {
      MarketMissing(info);
    }
  }

  lemma {:induction false} InfoMissing(pairsAnswer: Option<Json>, latestAnswer: Option<Json>)
    ensures Assemble(None, pairsAnswer, latestAnswer) == MarketFields(MarketData(pairsAnswer, latestAnswer))
  {
    var e: Snapshot := map[];
    var market := MarketFields(MarketData(pairsAnswer, latestAnswer));
    assert Assemble(None, pairsAnswer, latestAnswer) == e + market;
    assert e + market == market;
  }

  lemma {:induction false} MarketMissing(info: Option<Json>)
    ensures Assemble(info, None, None) == InfoFields(info)
  {
    var e: Snapshot := map[];
    assert MarketData(None, None) == JNull;
    NoMarketNoFields();
    assert Assemble(info, None, None) == InfoFields(info) + e;
    assert InfoFields(info) + e == InfoFields(info);
  }

  /** A market answer of `None` yields no best pair and no pools, hence no market fields. */
  lemma {:induction false} NoMarketNoFields()
    ensures MarketFields(JNull) == map[]
  {
    var e: Snapshot := map[];
    assert ExtractBestPair(JNull) == Ok(None);
    assert PoolsOf(JNull) == Ok(map[]);
    assert PoolFields(map[]) == e;
    assert MarketFields(JNull) == e + PoolFields(map[]);
    assert e + e == e;
  }

  /** Pools discovered in the market answer appear under `"<dex>_pool"` when nothing raised. */
  lemma {:induction false} PoolsAppearInSnapshot(info: Option<Json>, pairsAnswer: Option<Json>, latestAnswer: Option<Json>, dex: string)
    ensures var data := MarketData(pairsAnswer, latestAnswer);
      var out := Assemble(info, pairsAnswer, latestAnswer);
      ExtractBestPair(data).Ok? && PoolsOf(data).Ok? && dex in PoolsOf(data).value ==>
        Pool(dex) in out && out[Pool(dex)] == JStr(PoolsOf(data).value[dex])
  {
  }

  /**
   * `fetch_token_metrics(jetton_address, ...)`: a fresh non-empty snapshot is returned without
   * any request; otherwise the snapshot is assembled from the answers and stored. `usedLatest`
   * tells whether the `latest` endpoint was consulted.
   */
  method FetchTokenMetrics(cache: MetricsCache, jettonAddress: string, now: real,
                           info: Option<Json>, pairsAnswer: Option<Json>, latestAnswer: Option<Json>)
    returns (out: Snapshot, usedLatest: bool)
    modifies cache
    ensures
      && (old(cache.Live(jettonAddress, now)).Some? && old(cache.Live(jettonAddress, now)).value != map[] ==>
            out == old(cache.Live(jettonAddress, now)).value && cache.entries == old(cache.entries) && !usedLatest)
      && (old(cache.Live(jettonAddress, now)).None? || old(cache.Live(jettonAddress, now)).value == map[] ==>
            out == Assemble(info, pairsAnswer, latestAnswer)
            && cache.entries == old(cache.entries)[jettonAddress := (now, out)]
            && (usedLatest <==> !Truthy(pairsAnswer.GetOr(JNull))))
    ensures cache.ttl == old(cache.ttl)
  {
    var cached := cache.Get(jettonAddress, now);
    if cached.Some? && cached.value != map[] {
      return cached.value, false;
    }
    out, usedLatest := AssembleOf(info, pairsAnswer, latestAnswer);
    cache.Set(jettonAddress, out, now);
  }

  /** The miss path of `fetch_token_metrics`: the TonAPI block, then the DexScreener block. */
  method AssembleOf(info: Option<Json>, pairsAnswer: Option<Json>, latestAnswer: Option<Json>)
    returns (out: Snapshot, usedLatest: bool)
    ensures out == Assemble(info, pairsAnswer, latestAnswer)
    ensures usedLatest <==> !Truthy(pairsAnswer.GetOr(JNull))
  {
    out := InfoFieldsOf(info);
    // DexScreener pairs, then the latest endpoint only when they yield nothing
    var data := pairsAnswer.GetOr(JNull);
    usedLatest := !Truthy(data);
    if usedLatest {
      data := latestAnswer.GetOr(JNull);
    }
    var market := MarketFieldsOf(data);
    out := out + market;
  }

  /** The TonAPI block as statements: `holders`, then `symbol` and `decimals` when `metadata` is a dict. */
  method InfoFieldsOf(info: Option<Json>) returns (out: Snapshot)
    ensures out == InfoFields(info)
  {
    out := map[];
    if info.Some? && info.value.JObj? {
      var j := info.value;
      out := out[Holders := PyOr(PyOr(Get(j, "holders_count"), Get(j, "holders")), Get(j, "holdersCount"))];
      var meta := PyOr(Get(j, "metadata"), EmptyObj);
      if meta.JObj? {
        out := out[Symbol := PyOr(Get(meta, "symbol"), Get(j, "symbol"))];
        out := out[Decimals := PyOr(Get(meta, "decimals"), Get(j, "decimals"))];
      }
    }
  }

  /** The DexScreener block as statements: pair fields, then pool keys, stopping at an exception. */
  method MarketFieldsOf(data: Json) returns (out: Snapshot)
    ensures out == MarketFields(data)
  {
    out := map[];
    var best := ExtractBestPair(data);
    if best.Err? {
      return;
    }
    var pair := best.value;
    if pair.Some? && Truthy(pair.value) {
      out := PairFieldsOf(pair.value);
    }
    var pools := FindPoolsForDexes(data);
    if pools.Err? {
      return;
    }
    out := out + PoolFields(pools.value);
  }

  /** The five assignments from the best pair. */
  method PairFieldsOf(p: Json) returns (out: Snapshot)
    requires LiquidityKey(p).Ok?
    ensures out == PairFields(p)
  {
    out := map[];
    out := out[PriceUsd := Get(p, "priceUsd")];
    var liq := PyOr(Get(p, "liquidity"), EmptyObj);
    out := out[LiquidityUsd := Get(liq, "usd")];
    out := out[McapUsd := PyOr(Get(p, "marketCap"), Get(p, "fdv"))];
    out := out[DexUrl := Get(p, "url")];
    out := out[BestPairAddress := PyOr(Get(p, "pairAddress"), Get(p, "pair"))];
  }
}
