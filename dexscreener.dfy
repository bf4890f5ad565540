/**
 * The two pure readers of DexScreener answers: `extract_best_pair` (the pair with the most USD
 * liquidity) and `find_pools_for_dexes` (the STONfi and DeDust pool addresses). The HTTP calls
 * that fetch those answers are inputs of the model.
 */
module DexScreener {
  import opened Wrappers
  import opened Text
  import opened Json

  /**
   * The sort key `(p.get("liquidity", {}) or {}).get("usd") or 0`; it raises for a pair that is
   * not a dict or whose liquidity is a truthy non-dict.
   */
  function LiquidityKey(p: Json): (r: Result<Json>)
    ensures r.Ok? <==> p.JObj? && PyOr(GetOr(p, "liquidity", EmptyObj), EmptyObj).JObj?
    ensures r.Ok? ==> Truthy(r.value) || r.value == JInt(0)
  {
    if !p.JObj? then Err
    else
      var liq := PyOr(GetOr(p, "liquidity", EmptyObj), EmptyObj);
      if !liq.JObj? then Err else Ok(PyOr(Get(liq, "usd"), JInt(0)))
  }

  /** The keys of all pairs, computed before any comparison; `Err` when one of them raises. */
  function LiquidityKeys(ps: seq<Json>): (r: Result<seq<Json>>)
    ensures r.Ok? <==> forall k | 0 <= k < |ps| :: LiquidityKey(ps[k]).Ok?
    ensures r.Ok? ==> |r.value| == |ps| && forall k | 0 <= k < |ps| :: r.value[k] == LiquidityKey(ps[k]).value
  {
    if ps == [] then Ok([])
    else
      match (LiquidityKey(ps[0]), LiquidityKeys(ps[1..]))
      case (Ok(k), Ok(ks)) =>
        assert forall k | 1 <= k < |ps| :: ps[1..][k - 1] == ps[k];
        Ok([k] + ks)
      case _ =>
        assert forall k | 1 <= k < |ps| :: ps[1..][k - 1] == ps[k];
        Err
  }

  predicate AllNumbers(ks: seq<Json>)
  {
    forall k | 0 <= k < |ks| :: IsNumber(ks[k])
  }

  /** The position of the first largest value. */
  function FirstMaxIndex(vs: seq<real>): (i: nat)
    requires vs != []
    ensures i < |vs| && (forall j | 0 <= j < |vs| :: vs[j] <= vs[i]) && (forall j | 0 <= j < i :: vs[j] < vs[i])
  {
    if |vs| == 1 then 0
    else
      var k := FirstMaxIndex(vs[1..]);
      assert forall j | 1 <= j < |vs| :: vs[1..][j - 1] == vs[j];
      if vs[0] >= vs[k + 1] then 0 else k + 1
  }

  function NumberValues(ks: seq<Json>): (vs: seq<real>)
    requires AllNumbers(ks)
    ensures |vs| == |ks| && forall k | 0 <= k < |ks| :: vs[k] == NumberValue(ks[k])
  {
    seq(|ks|, k requires 0 <= k < |ks| => NumberValue(ks[k]))
  }

  /** The pair list of an answer: a list is used as it is, a dict through its `"pairs"` entry. */
  function PairsValue(data: Json): Json
  {
    if data.JArr? then data
    else if data.JObj? then PyOr(Get(data, "pairs"), EmptyArr)
    else EmptyArr
  }

  /**
   * `extract_best_pair(data)`: `None` for a falsy answer or an empty pair list; otherwise the
   * first element of the pairs sorted by descending liquidity. Python's sort is stable, so that
   * element is the first pair whose key is largest.
   */
  function ExtractBestPair(data: Json): (r: Result<Option<Json>>)
    ensures !Truthy(data) || !Truthy(PairsValue(data)) ==> r == Ok(None)
    ensures !data.JArr? && !data.JObj? ==> r == Ok(None)
    ensures r.Ok? && r.value.Some? ==> LiquidityKey(r.value.value).Ok?
  {
    if !Truthy(data) then Ok(None)
    else
      var pairs := PairsValue(data);
      if !Truthy(pairs) then Ok(None)
      else
        match PyIter(pairs)
        case Err => Err
        case Ok(ps) =>
          match LiquidityKeys(ps)
          case Err => Err
          case Ok(ks) =>
            if |ps| == 1 then Ok(Some(ps[0]))
            else if !AllNumbers(ks) then Err
            else
              var vs := NumberValues(ks);
              var i := FirstMaxIndex(vs);
              Ok(Some(ps[i]))
  }

  /**
   * A pair is returned only when the pair list iterates and every key is computed; it is a pair
   * of the list whose liquidity is largest (every key a number once there are two or more pairs),
   * and no earlier pair has as much: the first of the best, as the stable sort leaves it.
   */
  lemma {:induction false} ExtractBestPairIsBest(data: Json)
    ensures var r := ExtractBestPair(data);
      r.Ok? && r.value.Some? ==>
      && PyIter(PairsValue(data)).Ok? && LiquidityKeys(PyIter(PairsValue(data)).value).Ok?
      && var ps := PyIter(PairsValue(data)).value;
         var ks := LiquidityKeys(ps).value;
         exists i | 0 <= i < |ps| :: r.value.value == ps[i] &&
           (|ps| > 1 ==> (AllNumbers(ks) &&
              (forall j | 0 <= j < |ps| :: NumberValue(ks[j]) <= NumberValue(ks[i])) &&
              (forall j | 0 <= j < i :: NumberValue(ks[j]) < NumberValue(ks[i]))))
  {
    var r := ExtractBestPair(data);
    if r.Ok? && r.value.Some? {
      var ps := PyIter(PairsValue(data)).value;
      var ks := LiquidityKeys(ps).value;
      if |ps| > 1 {
        var vs := NumberValues(ks);
        var i := FirstMaxIndex(vs);
        assert r.value.value == ps[i];
      } else {
        assert r.value.value == ps[0];
      }
    }
  }

  /** A single-pair list gives that pair; of two pairs with equal liquidity the first wins. */
  lemma {:induction false} BestPairExamples(a: Json, b: Json)
    requires a.JObj? && b.JObj?
    requires Get(a, "liquidity") == JObj([("usd", JInt(5))]) && Get(b, "liquidity") == JObj([("usd", JInt(5))])
    ensures ExtractBestPair(JArr([a])) == Ok(Some(a))
    ensures ExtractBestPair(JArr([a, b])) == Ok(Some(a))
  {
    var ps := [a, b];
    assert LiquidityKey(a) == Ok(JInt(5)) && LiquidityKey(b) == Ok(JInt(5));
    assert LiquidityKeys(ps).value == [JInt(5), JInt(5)];
    assert NumberValues([JInt(5), JInt(5)]) == [5.0, 5.0];
  }

  // ---------------------------------------------------------------------------------------
  // find_pools_for_dexes

  /**
   * `(x or "").lower()` for a value that must be a string once falsy values are replaced;
   * `.lower()` on anything else raises.
   */
  function LowerOrEmpty(x: Json): (r: Result<string>)
    ensures r.Ok? <==> !Truthy(x) || x.JStr?
    ensures r.Ok? && x.JStr? ==> r.value == Lower(x.s)
    ensures r.Ok? && !Truthy(x) ==> r.value == []
  {
    var v := PyOr(x, JStr([]));
    if v.JStr? then Ok(Lower(v.s)) else Err
  }

  /**
   * The dex id of a pair: `dexId`, `dex` or `dex_name` lowercased, else `labels.dex` lowercased.
   * It raises for a pair that is not a dict, a truthy non-string id, or `labels` that is not a dict.
   */
  function DexIdOf(p: Json): Result<string>
  {
    if !p.JObj? then Err
    else
      match LowerOrEmpty(PyOr(PyOr(Get(p, "dexId"), Get(p, "dex")), Get(p, "dex_name")))
      case Err => Err
      case Ok(d) =>
        if d != [] then Ok(d)
        else
          var labels := GetOr(p, "labels", EmptyObj);
          if !labels.JObj? then Err else LowerOrEmpty(Get(labels, "dex"))
  }

  /** `p.get("pairAddress") or p.get("pair") or p.get("pair_id")` when it is a non-empty string. */
  function PairAddressOf(p: Json): (r: Option<string>)
    requires p.JObj?
    ensures r.Some? ==> r.value != []
  {
    var a := PyOr(PyOr(Get(p, "pairAddress"), Get(p, "pair")), Get(p, "pair_id"));
    if a.JStr? && a.s != [] then Some(a.s) else None
  }

  /**
   * The first truthy of `pairAddress`, `pair` and `pair_id` decides: the address is found exactly
   * when that value is a string, and a later key is never consulted once an earlier one is truthy.
   */
  lemma PairAddressOrder(p: Json)
    requires p.JObj?
    ensures Truthy(Get(p, "pairAddress")) ==>
      PairAddressOf(p) == if Get(p, "pairAddress").JStr? then Some(Get(p, "pairAddress").s) else None
    ensures !Truthy(Get(p, "pairAddress")) && Truthy(Get(p, "pair")) ==>
      PairAddressOf(p) == if Get(p, "pair").JStr? then Some(Get(p, "pair").s) else None
    ensures !Truthy(Get(p, "pairAddress")) && !Truthy(Get(p, "pair")) ==>
      PairAddressOf(p) == if Get(p, "pair_id").JStr? && Get(p, "pair_id").s != [] then Some(Get(p, "pair_id").s) else None
  {
  }

  predicate IsStonDex(d: string)
  {
    Contains(d, "ston")
  }

  predicate IsDedustDex(d: string)
  {
    Contains(d, "dedust") || Contains(d, "de_dust") || Contains(d, "de dust")
  }

  /** `pools.setdefault(k, v)`. */
  function SetDefault(m: map<string, string>, k: string, v: string): (r: map<string, string>)
    ensures k in r && (k in m ==> r == m) && (k !in m ==> r == m[k := v])
  {
    if k in m then m else m[k := v]
  }

  /** One iteration of the loop over the pairs. */
  function PoolsStep(pools: map<string, string>, p: Json): Result<map<string, string>>
  {
    match DexIdOf(p)
    case Err => Err
    case Ok(d) =>
      var addr := PairAddressOf(p);
      if addr.None? then Ok(pools)
      else
        var afterSton := if IsStonDex(d) then SetDefault(pools, "stonfi", addr.value) else pools;
        Ok(if IsDedustDex(d) then SetDefault(afterSton, "dedust", addr.value) else afterSton)
  }

  /** The loop over `ps`, from an empty dict; `Err` as soon as one pair raises. */
  function PoolsFrom(ps: seq<Json>): Result<map<string, string>>
  {
    if ps == [] then Ok(map[])
    else
      match PoolsFrom(ps[..|ps| - 1])
      case Err => Err
      case Ok(m) => PoolsStep(m, ps[|ps| - 1])
  }

  /** The pairs `find_pools_for_dexes` iterates: a list, a dict's `"pairs"` entry, or nothing. */
  function PoolPairs(pairsData: Json): Result<seq<Json>>
  {
    if pairsData.JArr? then Ok(pairsData.items)
    else if pairsData.JObj? then PyIter(PyOr(Get(pairsData, "pairs"), EmptyArr))
    else Ok([])
  }

  function PoolsOf(pairsData: Json): Result<map<string, string>>
  {
    match PoolPairs(pairsData)
    case Err => Err
    case Ok(ps) => PoolsFrom(ps)
  }

  /** The pair fills the dex slot `dex` ("stonfi" or "dedust"): it has an address and its id matches. */
  predicate Fills(p: Json, dex: string)
  {
    p.JObj? && DexIdOf(p).Ok? && PairAddressOf(p).Some? &&
    ((dex == "stonfi" && IsStonDex(DexIdOf(p).value)) || (dex == "dedust" && IsDedustDex(DexIdOf(p).value)))
  }

  /** The dex slots hold only "stonfi" and "dedust", each with a non-empty address. */
  predicate SlotsWellFormed(m: map<string, string>)
  {
    forall k | k in m :: (k == "stonfi" || k == "dedust") && m[k] != []
  }

  /** One pair keeps the slots well formed. */
  lemma {:induction false} PoolsStepSlots(m0: map<string, string>, p: Json)
    requires PoolsStep(m0, p).Ok? && SlotsWellFormed(m0)
    ensures SlotsWellFormed(PoolsStep(m0, p).value)
  {
  }

  /** One pair: a filled slot keeps its address; an empty one is filled exactly when the pair fills it. */
  lemma {:induction false} PoolsStepSlot(m0: map<string, string>, p: Json, dex: string)
    requires PoolsStep(m0, p).Ok?
    requires dex == "stonfi" || dex == "dedust"
    ensures var m := PoolsStep(m0, p).value;
      && (dex in m0 ==> dex in m && m[dex] == m0[dex])
      && (dex !in m0 ==> (dex in m <==> Fills(p, dex)))
      && (dex !in m0 && dex in m ==> m[dex] == PairAddressOf(p).value)
  {
  }

  /** A run that does not raise has a prefix that does not raise. */
  lemma {:induction false} PoolsFromInit(ps: seq<Json>)
    requires ps != [] && PoolsFrom(ps).Ok?
    ensures PoolsFrom(ps[..|ps| - 1]).Ok?
    ensures PoolsStep(PoolsFrom(ps[..|ps| - 1]).value, ps[|ps| - 1]) == PoolsFrom(ps)
  {
  }

  /** Only the two dex slots are ever filled, each with a non-empty address. */
  lemma {:induction false} PoolsFromSlots(ps: seq<Json>)
    requires PoolsFrom(ps).Ok?
    ensures SlotsWellFormed(PoolsFrom(ps).value)
  {
    if ps != [] {
      PoolsFromInit(ps);
      PoolsFromSlots(ps[..|ps| - 1]);
      PoolsStepSlots(PoolsFrom(ps[..|ps| - 1]).value, ps[|ps| - 1]);
    }
  }

  /** A slot that some pair fills is filled. */
  lemma {:induction false} PoolsFromFilled(ps: seq<Json>, dex: string, i: int)
    requires PoolsFrom(ps).Ok?
    requires dex == "stonfi" || dex == "dedust"
    requires 0 <= i < |ps| && Fills(ps[i], dex)
    ensures dex in PoolsFrom(ps).value
  {
    var init := ps[..|ps| - 1];
    PoolsFromInit(ps);
    PoolsStepSlot(PoolsFrom(init).value, ps[|ps| - 1], dex);
    if i < |init| {
      assert init[i] == ps[i];
      PoolsFromFilled(init, dex, i);
    }
  }

  /** A filled slot holds the address of the first pair that fills it. */
  lemma {:induction false} PoolsFromFirst(ps: seq<Json>, dex: string)
    requires PoolsFrom(ps).Ok?
    requires dex == "stonfi" || dex == "dedust"
    ensures var m := PoolsFrom(ps).value;
      dex in m ==> exists i | 0 <= i < |ps| :: Fills(ps[i], dex) && m[dex] == PairAddressOf(ps[i]).value &&
                     forall j | 0 <= j < i :: !Fills(ps[j], dex)
  {
    if ps != [] {
      var init := ps[..|ps| - 1];
      var p := ps[|ps| - 1];
      PoolsFromInit(ps);
      PoolsFromFirst(init, dex);
      var m0 := PoolsFrom(init).value;
      PoolsStepSlot(m0, p, dex);
      assert forall i | 0 <= i < |init| :: init[i] == ps[i];
      if dex in m0 {
        var i :| 0 <= i < |init| && Fills(init[i], dex) && m0[dex] == PairAddressOf(init[i]).value &&
                 forall j | 0 <= j < i :: !Fills(init[j], dex);
        assert Fills(ps[i], dex);
      } else {
        forall j | 0 <= j < |init| ensures !Fills(ps[j], dex) {
          if Fills(ps[j], dex) {
            PoolsFromFilled(init, dex, j);
          }
        }
        assert ps[|ps| - 1] == p;
      }
    }
  }

  /**
   * Only the two dex slots are ever filled, each with a non-empty address; a slot is filled iff
   * some pair fills it, and then it holds the address of the first such pair (`setdefault`).
   */
  lemma {:induction false} PoolsFromFirstWins(ps: seq<Json>, dex: string)
    requires PoolsFrom(ps).Ok?
    requires dex == "stonfi" || dex == "dedust"
    ensures var m := PoolsFrom(ps).value;
      && (forall k | k in m :: (k == "stonfi" || k == "dedust") && m[k] != [])
      && (dex in m <==> exists i | 0 <= i < |ps| :: Fills(ps[i], dex))
      && (dex in m ==> exists i | 0 <= i < |ps| :: Fills(ps[i], dex) && m[dex] == PairAddressOf(ps[i]).value &&
                         forall j | 0 <= j < i :: !Fills(ps[j], dex))
  {
    PoolsFromSlots(ps);
    PoolsFromFirst(ps, dex);
    forall i | 0 <= i < |ps| && Fills(ps[i], dex) ensures dex in PoolsFrom(ps).value {
      PoolsFromFilled(ps, dex, i);
    }
  }

  /** `find_pools_for_dexes(pairs_data)`: the loop that fills the dex slots with `setdefault`. */
  method FindPoolsForDexes(pairsData: Json) returns (r: Result<map<string, string>>)
    ensures r == PoolsOf(pairsData)
  {
    var listed := PoolPairs(pairsData);
    if listed.Err? {
      return Err;
    }
    var ps := listed.value;
    var pools: map<string, string> := map[];
    var i := 0;
    while i < |ps|
      invariant 0 <= i <= |ps|
      invariant PoolsFrom(ps[..i]) == Ok(pools)
    {
      assert ps[..i + 1][..i] == ps[..i];
      var d := DexIdOf(ps[i]);
      if d.Err? {
        assert PoolsFrom(ps[..i + 1]) == Err;
        PoolsFromErr(ps, i + 1);
        return Err;
      }
      var addr := PairAddressOf(ps[i]);
      if addr.Some? {
        if IsStonDex(d.value) {
          pools := SetDefault(pools, "stonfi", addr.value);
        }
        if IsDedustDex(d.value) {
          pools := SetDefault(pools, "dedust", addr.value);
        }
      }
      i := i + 1;
    }
    assert ps[..|ps|] == ps;
    return Ok(pools);
  }

  /** Once the loop raises it stays raised: a later pair cannot undo an exception. */
  lemma {:induction false} PoolsFromErr(ps: seq<Json>, n: nat)
    requires n <= |ps| && PoolsFrom(ps[..n]).Err?
    ensures PoolsFrom(ps).Err?
    decreases |ps| - n
  {
    if n < |ps| {
      assert ps[..n + 1][..n] == ps[..n];
      PoolsFromErr(ps, n + 1);
    } else {
      assert ps[..n] == ps;
    }
  }
}
