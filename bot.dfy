/**
 * The decisions `main.py` takes around the watcher: the channel de-duplication map, the
 * fingerprint and rank key computed for each buy in `polling_loop`, the group/channel delivery
 * of each buy, the `parse_chat_id` parser and the argument handling of `/setpool`. Telegram
 * sends are not modelled; what the loop decides to post is the result. The event-loop clock is
 * an input, one reading per buy.
 */
module Bot {
  import opened Wrappers
  import opened Text
  import opened Json
  import opened Utils
  import opened Db
  import opened Formatters
  import opened Poller
  import LB = Leaderboard

  // ---------------------------------------------------------------------------------------
  // _channel_seen / _channel_recent

  /** `CHANNEL_DEDUPE_TTL`, in seconds. */
  const ChannelDedupeTtl: real := 120.0

  /**
   * The de-duplication key of a buy: its tx hash, or, for a buy without one, the tuple the
   * fallback f-string is built from (dex, pool, buyer, TON amount, jetton amount, whole seconds).
   */
  datatype Fingerprint =
    | HashKey(hash: Json)
    | Composite(dex: string, pool: Option<string>, buyer: Json, ton: Option<real>, jetton: Option<real>, ts: int)

  /** The cleanup at the top of `_channel_seen`: entries more than 120 s old are dropped. */
  function Sweep(m: map<Fingerprint, real>, now: real): (r: map<Fingerprint, real>)
    ensures r.Keys <= m.Keys
    ensures forall k | k in r :: r[k] == m[k] && now - m[k] <= ChannelDedupeTtl
    ensures forall k | k in m && now - m[k] <= ChannelDedupeTtl :: k in r
  {
    map k | k in m && now - m[k] <= ChannelDedupeTtl :: m[k]
  }

  /**
   * `_channel_seen(key, now)` on the map `m`: whether the key was already there (after the
   * sweep), and the map afterwards. A seen key keeps its first timestamp; an unseen one is
   * recorded at `now`.
   */
  function SeenStep(m: map<Fingerprint, real>, key: Fingerprint, now: real): (r: (bool, map<Fingerprint, real>))
    ensures r.0 <==> key in m && now - m[key] <= ChannelDedupeTtl
    ensures r.0 ==> r.1 == Sweep(m, now)
    ensures !r.0 ==> r.1 == Sweep(m, now)[key := now]
    ensures key in r.1 && forall k | k in r.1 :: now - r.1[k] <= ChannelDedupeTtl
  {
    var live := Sweep(m, now);
    if key in live then (true, live) else (false, live[key := now])
  }

  /** An entry exactly 120 s old still counts as seen; one a moment older does not. */
  lemma {:induction false} DedupBoundary(key: Fingerprint, t: real)
    ensures SeenStep(map[key := t], key, t + 120.0).0
    ensures !SeenStep(map[key := t], key, t + 120.5).0
  {
  }

  /** The module-level `_channel_recent` dict. */
  class ChannelDedup {
    var recent: map<Fingerprint, real>

    constructor()
      ensures recent == map[]
    {
      recent := map[];
    }

    /** `_channel_seen(key, now)`: the expired keys are collected, then popped one by one. */
    method Seen(key: Fingerprint, now: real) returns (seen: bool)
      modifies this
      ensures (seen, recent) == SeenStep(old(recent), key, now)
    {
      ghost var before := recent;
      var expired := set k | k in recent && now - recent[k] > ChannelDedupeTtl;
      while expired != {}
        invariant expired <= recent.Keys
        invariant recent.Keys <= before.Keys
        invariant forall k | k in recent :: recent[k] == before[k]
        invariant forall k | k in before :: (k in recent <==> k in expired || now - before[k] <= ChannelDedupeTtl)
        invariant forall k | k in expired :: now - before[k] > ChannelDedupeTtl
        decreases |expired|
      {
        var k :| k in expired;
        recent := recent - {k};
        expired := expired - {k};
      }
      assert recent == Sweep(before, now);
      if key in recent {
        return true;
      }
      recent := recent[key := now];
      return false;
    }

    /** `_channel_seen` for each key in turn, the i-th at clock reading `times[i]`: whether each one is new. */
    method SeenAll(keys: seq<Fingerprint>, times: seq<real>) returns (isNew: seq<bool>)
      requires |times| == |keys|
      modifies this
      ensures (isNew, recent) == ChannelRun(old(recent), keys, times)
    {
      ghost var m0 := recent;
      isNew := [];
      var i := 0;
      while i < |keys|
        invariant 0 <= i <= |keys|
        invariant (isNew, recent) == ChannelRun(m0, keys[..i], times[..i])
      {
        var seen := Seen(keys[i], times[i]);
        ChannelRunSnoc(m0, keys, times, i);
        isNew := isNew + [!seen];
        i := i + 1;
      }
      assert keys[..|keys|] == keys && times[..|keys|] == times;
    }
  }

  /**
   * The de-duplication of a run of buys, with the clock read at `times[i]` for the i-th:
   * for each buy, whether it goes to the channel, and the map afterwards.
   */
  function ChannelRun(m: map<Fingerprint, real>, keys: seq<Fingerprint>, times: seq<real>): (r: (seq<bool>, map<Fingerprint, real>))
    requires |times| == |keys|
    ensures |r.0| == |keys|
    ensures keys != [] ==> keys[|keys| - 1] in r.1
  {
    if keys == [] then ([], m)
    else
      var n := |keys| - 1;
      var prev := ChannelRun(m, keys[..n], times[..n]);
      var step := SeenStep(prev.1, keys[n], times[n]);
      (prev.0 + [!step.0], step.1)
  }

  /** One more buy: the earlier decisions stay, and the new one is `_channel_seen` on the map so far. */
  lemma {:induction false} ChannelRunSnoc(m: map<Fingerprint, real>, keys: seq<Fingerprint>, times: seq<real>, i: int)
    requires |times| == |keys| && 0 <= i < |keys|
    ensures var prev := ChannelRun(m, keys[..i], times[..i]);
      var step := SeenStep(prev.1, keys[i], times[i]);
      ChannelRun(m, keys[..i + 1], times[..i + 1]) == (prev.0 + [!step.0], step.1)
  {
    assert keys[..i + 1][..i] == keys[..i] && times[..i + 1][..i] == times[..i];
  }

  /** An entry still inside its 120 s window survives `_channel_seen` untouched, and makes its own key seen. */
  lemma {:induction false} LiveSurvivesStep(m: map<Fingerprint, real>, key: Fingerprint, now: real, k: Fingerprint)
    requires k in m && now - m[k] <= ChannelDedupeTtl
    ensures var step := SeenStep(m, key, now);
      k in step.1 && step.1[k] == m[k] && (k == key ==> step.0)
  {
    assert k in Sweep(m, now);
  }

  /**
   * While the clock is monotonic and the whole run fits in 120 s, every key the run posts is
   * still recorded at the clock reading of its post.
   */
  lemma {:induction false} ChannelPostsLive(m: map<Fingerprint, real>, keys: seq<Fingerprint>, times: seq<real>)
    requires |times| == |keys|
    requires forall i, j | 0 <= i < j < |times| :: times[i] <= times[j] <= times[i] + ChannelDedupeTtl
    ensures var r := ChannelRun(m, keys, times);
      forall i | 0 <= i < |keys| && r.0[i] :: keys[i] in r.1 && r.1[keys[i]] == times[i]
  {
    if keys != [] {
      var n := |keys| - 1;
      ChannelPostsLive(m, keys[..n], times[..n]);
      var prev := ChannelRun(m, keys[..n], times[..n]);
      var r := ChannelRun(m, keys, times);
      forall i | 0 <= i < n && r.0[i]
        ensures keys[i] in r.1 && r.1[keys[i]] == times[i]
      {
        assert prev.0[i] && keys[..n][i] == keys[i] && times[..n][i] == times[i];
        LiveSurvivesStep(prev.1, keys[n], times[n], keys[i]);
      }
    }
  }

  /**
   * While the clock is monotonic and the whole run fits in 120 s, the channel receives each key
   * at most once: a key posted earlier in the run is still live when it comes round again.
   */
  lemma {:induction false} ChannelPostsDistinct(m: map<Fingerprint, real>, keys: seq<Fingerprint>, times: seq<real>)
    requires |times| == |keys|
    requires forall i, j | 0 <= i < j < |times| :: times[i] <= times[j] <= times[i] + ChannelDedupeTtl
    ensures var r := ChannelRun(m, keys, times);
      forall i, j | 0 <= i < j < |keys| && r.0[i] && r.0[j] :: keys[i] != keys[j]
  {
    if keys != [] {
      var n := |keys| - 1;
      ChannelPostsDistinct(m, keys[..n], times[..n]);
      ChannelPostsLive(m, keys[..n], times[..n]);
      var prev := ChannelRun(m, keys[..n], times[..n]);
      var r := ChannelRun(m, keys, times);
      assert r.0[..n] == prev.0;
      forall i | 0 <= i < n && r.0[i] && r.0[n]
        ensures keys[i] != keys[n]
      {
        assert prev.0[i] && keys[..n][i] == keys[i] && times[..n][i] == times[i];
        LiveSurvivesStep(prev.1, keys[n], times[n], keys[i]);
      }
      forall i, j | 0 <= i < j < n && r.0[i] && r.0[j]
        ensures keys[i] != keys[j]
      {
        assert prev.0[i] && prev.0[j] && keys[..n][i] == keys[i] && keys[..n][j] == keys[j];
      }
    }
  }

  // ---------------------------------------------------------------------------------------
  // the per-buy keys of polling_loop

  /**
   * `ev.tx_hash or f"{ev.dex}:{ev.pool_address}:...:{int(ev.ts)}"` as written: a `BuyEvent`
   * has neither `pool_address` nor `ts`, so a buy without a truthy hash raises `AttributeError`.
   */
  function FingerprintAsWritten(ev: BuyEvent): (r: Result<Fingerprint>)
    ensures r.Ok? <==> Truthy(ev.txHash)
    ensures r.Ok? ==> r.value == HashKey(ev.txHash)
  {
    if Truthy(ev.txHash) then Ok(HashKey(ev.txHash)) else Err
  }

  /** A buy whose transaction carried no hash cannot be fingerprinted as written. */
  lemma {:induction false} FingerprintAsWrittenRaises(ev: BuyEvent)
    requires ev.txHash == JNull || ev.txHash == JStr("")
    ensures FingerprintAsWritten(ev).Err?
  {
  }

  /**
   * The fingerprint with the pool the buy was polled from and the time it was stored: the hash
   * when there is one, otherwise the composite, so every buy has a key.
   */
  function FingerprintKey(ev: BuyEvent, pool: Option<string>, ts: int): (r: Fingerprint)
    ensures r.HashKey? <==> Truthy(ev.txHash)
    ensures r.Composite? ==>
      (r.dex == ev.dex && r.pool == pool && r.buyer == ev.buyerAddress
       && r.ton == ev.tonAmount && r.jetton == ev.jettonAmount && r.ts == ts)
  {
    if Truthy(ev.txHash) then HashKey(ev.txHash)
    else Composite(ev.dex, pool, ev.buyerAddress, ev.tonAmount, ev.jettonAmount, ts)
  }

  /**
   * The corrected key agrees with the written one wherever that does not raise, and two hashless
   * buys share a key only when they agree on every part of it.
   */
  lemma {:induction false} FingerprintCorrected(a: BuyEvent, b: BuyEvent, p: Option<string>, q: Option<string>, s: int, t: int)
    ensures FingerprintAsWritten(a).Ok? ==> FingerprintKey(a, p, s) == FingerprintAsWritten(a).value
    ensures !Truthy(a.txHash) && FingerprintKey(a, p, s) == FingerprintKey(b, q, t) ==>
      a.dex == b.dex && p == q && a.buyerAddress == b.buyerAddress && a.tonAmount == b.tonAmount
      && a.jettonAmount == b.jettonAmount && s == t
  {
  }

  /** Python's `a or b` on an optional string. */
  function OrStr(a: Option<string>, b: string): (r: string)
    ensures a.Some? && a.value != [] ==> r == a.value
    ensures a.None? || a.value == [] ==> r == b
  {
    if a.Some? && a.value != [] then a.value else b
  }

  /** `gcfg.token_symbol or gcfg.jetton_address or "UNKNOWN"`, the rank lookup key as written. */
  function RankKeyAsWritten(cfg: GroupConfig): (k: string)
    ensures cfg.tokenSymbol.Some? && cfg.tokenSymbol.value != [] ==> k == cfg.tokenSymbol.value
    ensures (cfg.tokenSymbol.None? || cfg.tokenSymbol.value == []) && cfg.jettonAddress.Some? && cfg.jettonAddress.value != [] ==> k == cfg.jettonAddress.value
    ensures (cfg.tokenSymbol.None? || cfg.tokenSymbol.value == []) && (cfg.jettonAddress.None? || cfg.jettonAddress.value == []) ==> k == "UNKNOWN"
  {
    OrStr(cfg.tokenSymbol, OrStr(cfg.jettonAddress, "UNKNOWN"))
  }

  /**
   * The key the leaderboard groups this group's buys under: the sanitised symbol the watcher
   * stores on every buy (`safe_symbol(cfg.token_symbol or "TOKEN")`).
   */
  function RankKey(cfg: GroupConfig): (k: string)
    ensures k == GroupSymbol(cfg) && AllSymbolChars(k) && 1 <= |k| <= MaxSymbolLength
  {
    GroupSymbol(cfg)
  }

  /** Every row `poll_pool` stores, before or without raising, carries the symbol of its context. */
  lemma {:induction false} PoolRunRowsKeyed(lastLt: int, data: Option<Json>, ctx: Ctx)
    ensures var r := PoolRun(lastLt, data, ctx);
      forall i | 0 <= i < |r.rows| :: r.rows[i].tokenSymbol == Some(ctx.sym)
  {
    if data.Some? && data.value.JObj? && TxList(data.value).Ok? {
      var newTxs := NewTxs(TxList(data.value).value, lastLt);
      if newTxs != [] {
        var sorted := SortByLt(newTxs);
        var run := RunTxs(ctx, sorted);
        RunTxsRows(ctx, sorted);
        assert PoolRun(lastLt, data, ctx).rows == run.rows;
        forall i | 0 <= i < |run.rows| ensures run.rows[i].tokenSymbol == Some(ctx.sym) {
          assert run.rows[i] == RowOf(ctx, run.events[i]);
        }
      }
    }
  }

  /** Every row a pool task stores carries the group's sanitised symbol. */
  lemma {:induction false} PoolStepRowsKeyed(cursors: map<string, int>, cfg: GroupConfig, dex: string, pool: Option<string>,
                          accounts: map<string, Json>, traces: map<string, Json>, now: int)
    ensures var s := PoolStep(cursors, cfg, dex, pool, accounts, traces, now);
      forall i | 0 <= i < |s.rows| :: s.rows[i].tokenSymbol == Some(GroupSymbol(cfg))
  {
    if pool.Some? && pool.value != [] {
      var ctx := Ctx(cfg, GroupSymbol(cfg), dex, pool.value, traces, now);
      PoolRunRowsKeyed(CursorIn(cursors, pool.value), Fetch(accounts, pool.value), ctx);
    }
  }

  /** Every buy `poll_group` stores for a group is grouped by the leaderboard under `RankKey`. */
  lemma {:induction false} StoredRowsUnderRankKey(cursors: map<string, int>, cfg: GroupConfig, accounts: map<string, Json>,
                               traces: map<string, Json>, now: int)
    ensures var g := GroupRun(cursors, cfg, accounts, traces, now);
      forall i | 0 <= i < |g.rows| :: BuyKey(g.rows[i]) == RankKey(cfg)
  {
    if cfg.enabled {
      var s1 := PoolStep(cursors, cfg, "STONfi", cfg.stonfiPool, accounts, traces, now);
      var s2 := PoolStep(s1.cursors, cfg, "DeDust", cfg.dedustPool, accounts, traces, now);
      PoolStepRowsKeyed(cursors, cfg, "STONfi", cfg.stonfiPool, accounts, traces, now);
      PoolStepRowsKeyed(s1.cursors, cfg, "DeDust", cfg.dedustPool, accounts, traces, now);
      KeyedConcat(s1.rows, s2.rows, GroupSymbol(cfg));
    }
  }

  /** Two runs of rows that all carry the symbol `sym` are grouped under `sym`, one after the other. */
  lemma {:induction false} KeyedConcat(a: seq<BuyRow>, b: seq<BuyRow>, sym: string)
    requires forall i | 0 <= i < |a| :: a[i].tokenSymbol == Some(sym)
    requires forall i | 0 <= i < |b| :: b[i].tokenSymbol == Some(sym)
    ensures forall i | 0 <= i < |a + b| :: BuyKey((a + b)[i]) == sym
  {
    forall i | 0 <= i < |a + b| ensures BuyKey((a + b)[i]) == sym {
      if i < |a| {
        assert (a + b)[i] == a[i];
      } else {
        assert (a + b)[i] == b[i - |a|];
      }
    }
  }

  /**
   * For a group without a token symbol the written lookup key is its jetton address or
   * `"UNKNOWN"`, while every buy it stores is grouped under `"TOKEN"`: the lookup never matches
   * the group's own buys.
   */
  lemma {:induction false} RankKeyAsWrittenMisses(cursors: map<string, int>, cfg: GroupConfig, accounts: map<string, Json>,
                               traces: map<string, Json>, now: int)
    requires cfg.tokenSymbol.None? && cfg.jettonAddress != Some("TOKEN")
    ensures RankKey(cfg) == "TOKEN"
    ensures var g := GroupRun(cursors, cfg, accounts, traces, now);
      forall i | 0 <= i < |g.rows| :: BuyKey(g.rows[i]) != RankKeyAsWritten(cfg)
  {
    UnnamedRankKey(cfg);
    StoredRowsUnderRankKey(cursors, cfg, accounts, traces, now);
    assert RankKeyAsWritten(cfg) != "TOKEN";
  }

  /** A group without a token symbol groups its buys under `"TOKEN"`. */
  lemma UnnamedRankKey(cfg: GroupConfig)
    requires cfg.tokenSymbol.None?
    ensures RankKey(cfg) == "TOKEN"
  {
    assert AllSymbolChars("TOKEN");
    SafeSymbolOfValid("TOKEN");
  }

  /**
   * The fields `polling_loop` writes onto a buy before posting it: its rank (looked up under the
   * corrected key), the group's jetton and `safe_symbol(gcfg.token_symbol or (ev.token_symbol or "TOKEN"))`.
   */
  function Annotate(cfg: GroupConfig, rankMap: map<string, int>, ev: BuyEvent): (r: BuyEvent)
    ensures r.rank == (if RankKey(cfg) in rankMap then Some(rankMap[RankKey(cfg)]) else None)
    ensures r.jettonAddress == cfg.jettonAddress
    ensures r.dex == ev.dex && r.txHash == ev.txHash && r.buyerAddress == ev.buyerAddress
    ensures r.tonAmount == ev.tonAmount && r.usdAmount == ev.usdAmount && r.jettonAmount == ev.jettonAmount
    ensures r.tokenSymbol.Some? && AllSymbolChars(r.tokenSymbol.value)
  {
    var key := RankKey(cfg);
    ev.(rank := if key in rankMap then Some(rankMap[key]) else None,
        jettonAddress := cfg.jettonAddress,
        tokenSymbol := Some(SafeSymbol(OrStr(cfg.tokenSymbol, OrStr(ev.tokenSymbol, "TOKEN")))))
  }

  /**
   * A buy emitted by the watcher is posted under the symbol it was stored with, and when that
   * key holds row `i` of the leaderboard the buy shows rank `i + 1`.
   */
  lemma {:induction false} AnnotatedRankAndSymbol(cfg: GroupConfig, items: seq<LeaderRow>, ev: BuyEvent, i: int)
    requires ev.tokenSymbol == Some(GroupSymbol(cfg))
    requires KeysDistinct(items) && 0 <= i < |items| && items[i].key == RankKey(cfg)
    ensures Annotate(cfg, LB.RankMapOf(items), ev).tokenSymbol == Some(RankKey(cfg))
    ensures Annotate(cfg, LB.RankMapOf(items), ev).rank == Some(i + 1)
  {
    LB.RankMapPositions(items);
    var raw := if cfg.tokenSymbol.Some? && cfg.tokenSymbol.value != [] then cfg.tokenSymbol.value else "TOKEN";
    assert GroupSymbol(cfg) != [];
    SafeSymbolIdempotent(raw);
  }

  // ---------------------------------------------------------------------------------------
  // delivery of the buys of one group

  /** What `polling_loop` does with one buy: the group post (always) and whether it is cross-posted. */
  datatype Delivery = Delivery(ev: BuyEvent, toChannel: bool)

  /** The pool a buy was polled from, by its dex. */
  function PoolOfDex(cfg: GroupConfig, dex: string): Option<string>
  {
    if dex == "STONfi" then cfg.stonfiPool else cfg.dedustPool
  }

  /** `Annotate` over a group's buys, in order. */
  function AnnotateAll(cfg: GroupConfig, rankMap: map<string, int>, events: seq<BuyEvent>): (r: seq<BuyEvent>)
    ensures |r| == |events| && forall i | 0 <= i < |events| :: r[i] == Annotate(cfg, rankMap, events[i])
  {
    seq(|events|, i requires 0 <= i < |events| => Annotate(cfg, rankMap, events[i]))
  }

  /** The corrected fingerprints of a group's annotated buys. */
  function KeysOf(cfg: GroupConfig, rankMap: map<string, int>, events: seq<BuyEvent>, pollTs: int): (keys: seq<Fingerprint>)
    ensures |keys| == |events|
    ensures forall i | 0 <= i < |events| ::
      keys[i] == FingerprintKey(Annotate(cfg, rankMap, events[i]), PoolOfDex(cfg, events[i].dex), pollTs)
  {
    seq(|events|, i requires 0 <= i < |events| =>
      FingerprintKey(Annotate(cfg, rankMap, events[i]), PoolOfDex(cfg, events[i].dex), pollTs))
  }

  /**
   * The inner loop of `polling_loop` for one group, corrected: the keys are the corrected
   * fingerprints, and the channel is `cfg.trending_channel_id`, the config's own attribute. Every
   * buy is posted to the group in order, and cross-posted exactly when `_channel_seen` says its
   * key is new.
   */
  method DeliverGroup(dedup: ChannelDedup, cfg: GroupConfig, rankMap: map<string, int>,
                      events: seq<BuyEvent>, pollTs: int, times: seq<real>)
    returns (out: seq<Delivery>)
    requires |times| == |events|
    modifies dedup
    ensures var run := ChannelRun(old(dedup.recent), KeysOf(cfg, rankMap, events, pollTs), times);
      && |out| == |events|
      && (forall i | 0 <= i < |events| :: out[i].ev == Annotate(cfg, rankMap, events[i]) && out[i].toChannel == run.0[i])
      && dedup.recent == run.1
  {
    var annotated := AnnotateAll(cfg, rankMap, events);
    var keys := KeysOf(cfg, rankMap, events, pollTs);
    var gates := dedup.SeenAll(keys, times);
    out := Deliveries(annotated, gates);
  }

  /** Each annotated buy paired with its channel gate, in order. */
  function Deliveries(annotated: seq<BuyEvent>, gates: seq<bool>): (out: seq<Delivery>)
    requires |gates| == |annotated|
    ensures |out| == |annotated|
    ensures forall i | 0 <= i < |annotated| :: out[i].ev == annotated[i] && out[i].toChannel == gates[i]
  {
    seq(|annotated|, j requires 0 <= j < |annotated| => Delivery(annotated[j], gates[j]))
  }

  /** Within one group's run of buys, no key reaches the channel twice while the run fits in 120 s. */
  lemma {:induction false} DeliveredOnce(m: map<Fingerprint, real>, cfg: GroupConfig, rankMap: map<string, int>,
                      events: seq<BuyEvent>, pollTs: int, times: seq<real>)
    requires |times| == |events|
    requires forall i, j | 0 <= i < j < |times| :: times[i] <= times[j] <= times[i] + ChannelDedupeTtl
    ensures var keys := KeysOf(cfg, rankMap, events, pollTs);
      var run := ChannelRun(m, keys, times);
      forall i, j | 0 <= i < j < |events| && run.0[i] && run.0[j] :: keys[i] != keys[j]
  {
    ChannelPostsDistinct(m, KeysOf(cfg, rankMap, events, pollTs), times);
  }

  /**
   * One group's round as main.py:536-541 is written. The channel target names
   * `trending_channel_username_id` and `trending_channel_username_username`, and the config has
   * neither, so reading the target raises. The first buy whose key `_channel_seen` finds new is
   * therefore recorded in `_channel_recent` and then ends the round before anything reaches the
   * channel. A seen key reads no target, so its buy is only posted to the group.
   */
  datatype AsWrittenRound = AsWrittenRound(groupPosts: nat, recent: map<Fingerprint, real>, raised: bool)

  function DeliverAsWritten(m: map<Fingerprint, real>, keys: seq<Fingerprint>, times: seq<real>): (r: AsWrittenRound)
    requires |times| == |keys|
    ensures r.groupPosts <= |keys|
  {
    if keys == [] then AsWrittenRound(0, m, false)
    else
      var n := |keys| - 1;
      var prev := DeliverAsWritten(m, keys[..n], times[..n]);
      if prev.raised then prev
      else
        var step := SeenStep(prev.recent, keys[n], times[n]);
        AsWrittenRound(prev.groupPosts + 1, step.1, !step.0)
  }

  /** The position of the first buy the corrected round cross-posts, or `|gates|` when there is none. */
  function FirstPost(gates: seq<bool>): (r: nat)
    ensures r <= |gates| && (r < |gates| ==> gates[r])
    ensures forall i | 0 <= i < r :: !gates[i]
  {
    if gates == [] || gates[0] then 0 else 1 + FirstPost(gates[1..])
  }

  /** One more gate leaves an earlier first post where it was. */
  lemma FirstPostSnoc(gates: seq<bool>, g: bool)
    ensures FirstPost(gates + [g]) == if FirstPost(gates) < |gates| then FirstPost(gates) else if g then |gates| else |gates| + 1
  {
    var s := gates + [g];
    assert forall i | 0 <= i < |gates| :: s[i] == gates[i];
    assert s[|gates|] == g;
  }

  /**
   * As written, the round raises exactly when the corrected round would cross-post some buy.
   * It stops at the first such buy: every buy up to and including it is posted to the group,
   * the map is the one `_channel_seen` left after that buy (so its key is recorded), and no buy
   * is cross-posted. Without such a buy, both rounds leave the same map.
   */
  predicate StopsAtFirstPost(m: map<Fingerprint, real>, keys: seq<Fingerprint>, times: seq<real>)
    requires |times| == |keys|
  {
    var w := DeliverAsWritten(m, keys, times);
    var c := ChannelRun(m, keys, times);
    && (w.raised <==> FirstPost(c.0) < |keys|)
    && (!w.raised ==> w.groupPosts == |keys| && w.recent == c.1)
    && (w.raised ==>
          && w.groupPosts == FirstPost(c.0) + 1
          && w.recent == ChannelRun(m, keys[..w.groupPosts], times[..w.groupPosts]).1)
  }

  lemma {:induction false} DeliverAsWrittenStops(m: map<Fingerprint, real>, keys: seq<Fingerprint>, times: seq<real>)
    requires |times| == |keys|
    ensures StopsAtFirstPost(m, keys, times)
    decreases |keys|, 1
  {
    if keys != [] {
      var n := |keys| - 1;
      if DeliverAsWritten(m, keys[..n], times[..n]).raised {
        StopsAfterEarlierRaise(m, keys, times);
      } else {
        StopsAtLastBuy(m, keys, times);
      }
    }
  }

  /** The case where the round already raised before the last buy: nothing changes. */
  lemma {:induction false} StopsAfterEarlierRaise(m: map<Fingerprint, real>, keys: seq<Fingerprint>, times: seq<real>)
    requires |times| == |keys| && keys != []
    requires DeliverAsWritten(m, keys[..|keys| - 1], times[..|keys| - 1]).raised
    ensures StopsAtFirstPost(m, keys, times)
    decreases |keys|, 0
  {
    var n := |keys| - 1;
    var prev := DeliverAsWritten(m, keys[..n], times[..n]);
    var cp := ChannelRun(m, keys[..n], times[..n]);
    DeliverAsWrittenStops(m, keys[..n], times[..n]);
    var step := SeenStep(cp.1, keys[n], times[n]);
    assert ChannelRun(m, keys, times) == (cp.0 + [!step.0], step.1);
    FirstPostSnoc(cp.0, !step.0);
    var g := prev.groupPosts;
    assert DeliverAsWritten(m, keys, times) == prev;
    assert keys[..n][..g] == keys[..g] && times[..n][..g] == times[..g];
  }

  /** The case where the round reaches the last buy: it raises there iff that buy's key is new. */
  lemma {:induction false} StopsAtLastBuy(m: map<Fingerprint, real>, keys: seq<Fingerprint>, times: seq<real>)
    requires |times| == |keys| && keys != []
    requires !DeliverAsWritten(m, keys[..|keys| - 1], times[..|keys| - 1]).raised
    ensures StopsAtFirstPost(m, keys, times)
    decreases |keys|, 0
  {
    var n := |keys| - 1;
    var cp := ChannelRun(m, keys[..n], times[..n]);
    DeliverAsWrittenStops(m, keys[..n], times[..n]);
    var step := SeenStep(cp.1, keys[n], times[n]);
    assert ChannelRun(m, keys, times) == (cp.0 + [!step.0], step.1);
    FirstPostSnoc(cp.0, !step.0);
    assert DeliverAsWritten(m, keys, times) == AsWrittenRound(n + 1, step.1, !step.0);
    assert keys[..n + 1] == keys && times[..n + 1] == times;
  }

  /** The input that shows it: a fresh map and one buy. The corrected round cross-posts it; as written the round raises. */
  lemma AsWrittenFirstNewBuyRaises(k: Fingerprint, t: real)
    ensures ChannelRun(map[], [k], [t]).0 == [true]
    ensures DeliverAsWritten(map[], [k], [t]) == AsWrittenRound(1, map[k := t], true)
  {
    assert [k][..0] == [] && [t][..0] == [];
    assert Sweep(map[], t) == map[];
  }

  // ---------------------------------------------------------------------------------------
  // parse_chat_id

  /** En dash, em dash and minus sign are read as `-`. */
  function NormalizeDash(c: char): char
  {
    if c == '–' || c == '—' || c == '−' then '-' else c
  }

  function NormalizeDashes(s: string): (r: string)
    ensures |r| == |s| && forall i | 0 <= i < |s| :: r[i] == NormalizeDash(s[i])
  {
    seq(|s|, i requires 0 <= i < |s| => NormalizeDash(s[i]))
  }

  /** Index of the first digit of `s`, or `|s|` when there is none. */
  function FirstDigit(s: string): (d: nat)
    ensures d <= |s| && (d < |s| ==> IsDigit(s[d]))
    ensures forall i | 0 <= i < d :: !IsDigit(s[i])
  {
    if s == [] || IsDigit(s[0]) then 0 else 1 + FirstDigit(s[1..])
  }

  /** The leading run of digits of `s`. */
  function DigitPrefix(s: string): (r: string)
    ensures |r| <= |s| && r == s[..|r|] && AllDigits(r) && (|r| < |s| ==> !IsDigit(s[|r|]))
  {
    if s == [] || !IsDigit(s[0]) then []
    else
      var rest := DigitPrefix(s[1..]);
      assert [s[0]] + rest == s[..|rest| + 1];
      [s[0]] + rest
  }

  /**
   * `re.search(r"-?\d+", s)` followed by `int(m.group(0))`: the leftmost match starts at the
   * first digit, or at the `-` right before it, and takes the whole run of digits; `Err` when
   * `s` has no digit.
   */
  function SearchInt(s: string): (r: Result<int>)
    ensures r.Err? <==> forall i | 0 <= i < |s| :: !IsDigit(s[i])
  {
    var d := FirstDigit(s);
    if d == |s| then Err
    else
      Ok(SignedValue(d > 0 && s[d - 1] == '-', DigitPrefix(s[d..])))
  }

  /** `int` of a run of digits, with or without the `-` in front. */
  function SignedValue(neg: bool, run: string): int
    requires AllDigits(run)
  {
    var v: int := DigitsValue(run);
    if neg then -v else v
  }

  /**
   * `parse_chat_id(raw)`: `raw or ""` stripped, en dash, em dash and minus sign read as `-`,
   * then the first signed run of digits; `Err` (`ValueError`) when the text has no digit.
   */
  function ParseChatId(raw: Option<string>): (r: Result<int>)
    ensures var s := NormalizeDashes(Strip(raw.GetOr("")));
      r.Err? <==> forall i | 0 <= i < |s| :: !IsDigit(s[i])
  {
    SearchInt(NormalizeDashes(Strip(raw.GetOr(""))))
  }

  /** A run of digits reads as its value. */
  lemma {:induction false} SearchDigits(d: string)
    requires d != [] && AllDigits(d)
    ensures var v: int := DigitsValue(d); SearchInt(d) == Ok(v)
  {
    assert d[0..] == d;
    DigitPrefixAll(d);
  }

  /** A `-` followed by a run of digits reads as the negated value. */
  lemma {:induction false} SearchNegDigits(d: string)
    requires d != [] && AllDigits(d)
    ensures SearchInt("-" + d) == Ok(-(DigitsValue(d) as int))
  {
    var s := "-" + d;
    assert s[1..] == d;
    SearchNegRun(s);
    SignedValueNeg(d);
  }

  lemma {:induction false} SignedValueNeg(run: string)
    requires AllDigits(run)
    ensures SignedValue(true, run) == -(DigitsValue(run) as int)
  {
  }

  lemma {:induction false} SearchNegRun(s: string)
    requires |s| >= 2 && s[0] == '-' && AllDigits(s[1..])
    ensures SearchInt(s) == Ok(SignedValue(true, s[1..]))
  {
    assert IsDigit(s[1]) by { assert s[1..][0] == s[1]; }
    SearchAfterDash(s);
    DigitPrefixAll(s[1..]);
  }

  /** A text that starts with `-` and a digit reads as the negated leading run after the `-`. */
  lemma {:induction false} SearchAfterDash(s: string)
    requires |s| >= 2 && s[0] == '-' && IsDigit(s[1])
    ensures SearchInt(s) == Ok(SignedValue(true, DigitPrefix(s[1..])))
  {
    assert FirstDigit(s[1..]) == 0;
    assert FirstDigit(s) == 1;
  }

  /** Digits, with any of the four dashes in front, are left alone by the strip and read as `-` by the normalisation. */
  lemma {:induction false} DashDigitsNormalize(d: string, dash: char)
    requires d != [] && AllDigits(d)
    requires dash == '-' || dash == '–' || dash == '—' || dash == '−'
    ensures NormalizeDashes(Strip(d)) == d
    ensures NormalizeDashes(Strip([dash] + d)) == "-" + d
  {
    assert NoSpace(d) by {
      forall i | 0 <= i < |d| ensures !IsSpace(d[i]) { assert IsDigit(d[i]); }
    }
    var t := [dash] + d;
    assert NoSpace(t) by {
      forall i | 0 <= i < |t| ensures !IsSpace(t[i]) {
        if i > 0 { assert t[i] == d[i - 1] && IsDigit(d[i - 1]); }
      }
    }
    assert NormalizeDashes(d) == d by {
      forall i | 0 <= i < |d| ensures NormalizeDashes(d)[i] == d[i] { assert IsDigit(d[i]); }
    }
    var s := NormalizeDashes(t);
    assert s == "-" + d by {
      forall i | 0 <= i < |s| ensures s[i] == ("-" + d)[i] {
        if i > 0 { assert t[i] == d[i - 1] && IsDigit(d[i - 1]); }
      }
    }
  }

  /** Digits after any of the four dashes read as a negative number, and without one as a natural number. */
  lemma {:induction false} DashDigits(d: string, dash: char)
    requires d != [] && AllDigits(d)
    requires dash == '-' || dash == '–' || dash == '—' || dash == '−'
    ensures var v: int := DigitsValue(d);
      ParseChatId(Some([dash] + d)) == Ok(-v) && ParseChatId(Some(d)) == Ok(v)
  {
    DashDigitsNormalize(d, dash);
    SearchNegDigits(d);
    SearchDigits(d);
  }

  /** A string made only of digits is one whole run. */
  lemma {:induction false} DigitPrefixAll(s: string)
    requires AllDigits(s)
    ensures DigitPrefix(s) == s
  {
    if s != [] {
      assert AllDigits(s[1..]) by {
        forall i | 0 <= i < |s[1..]| ensures IsDigit(s[1..][i]) { assert s[1..][i] == s[i + 1]; }
      }
      DigitPrefixAll(s[1..]);
      assert [s[0]] + s[1..] == s;
    }
  }

  /** `parse_chat_id(str(n)) == n` for every chat id, negative (group) ids included. */
  lemma {:induction false} ParseChatIdRoundTrip(n: int)
    ensures ParseChatId(Some(IntToString(n))) == Ok(n)
  {
    var k: nat := if n < 0 then -n else n;
    var d := NatToString(k);
    NatToStringValue(k);
    var v: int := DigitsValue(d);
    assert v == k;
    DashDigits(d, '-');
    if n < 0 {
      assert IntToString(n) == ['-'] + d;
    } else {
      assert IntToString(n) == d;
    }
  }

  /** Text with no digit at all is rejected. */
  lemma {:induction false} ParseChatIdNoDigits(raw: Option<string>)
    requires raw.None? || forall i | 0 <= i < |raw.value| :: !IsDigit(raw.value[i])
    ensures ParseChatId(raw).Err?
  {
    var u := raw.GetOr("");
    var st := Strip(u);
    assert forall i | 0 <= i < |st| :: !IsDigit(st[i]) by {
      forall i | 0 <= i < |st| ensures !IsDigit(st[i]) {
        StripInside(u, i);
      }
    }
  }

  /** Every character of `strip(u)` is a character of `u`. */
  lemma {:induction false} StripInside(u: string, i: int)
    requires 0 <= i < |Strip(u)|
    ensures exists j | 0 <= j < |u| :: u[j] == Strip(u)[i]
  {
    var l := StripLeft(u);
    var r := StripRight(l);
    assert r[i] == l[i];
    assert l[i] == u[|u| - |l| + i];
  }

  // ---------------------------------------------------------------------------------------
  // cmd_setpool

  /** The replies `/setpool` can give. */
  datatype SetPoolReply = Usage | BadDex | PoolSet(which: string, pool: string)

  /**
   * The argument handling of `cmd_setpool`: no arguments or fewer than two words give the usage
   * line; a first word that is not `stonfi`/`dedust` in any case is rejected; otherwise the
   * lowered first word and the second word are taken (any further words are ignored).
   */
  function SetPoolCommand(args: Option<string>): (r: SetPoolReply)
    ensures r.Usage? <==> args.None? || |Split(args.value)| < 2
    ensures r.BadDex? <==> args.Some? && |Split(args.value)| >= 2 && Lower(Split(args.value)[0]) != "stonfi" && Lower(Split(args.value)[0]) != "dedust"
    ensures r.PoolSet? ==>
      (args.Some? && |Split(args.value)| >= 2
       && r.which == Lower(Split(args.value)[0]) && (r.which == "stonfi" || r.which == "dedust")
       && r.pool == Split(args.value)[1] && r.pool != [])
  {
    if args.None? || args.value == [] then Usage
    else
      var parts := Split(args.value);
      if |parts| < 2 then Usage
      else
        var which := Lower(parts[0]);
        var pool := Strip(parts[1]);
        if which != "stonfi" && which != "dedust" then BadDex
        else PoolSet(which, pool)
  }

  /** The reply text of `/setpool`. */
  function SetPoolText(r: SetPoolReply): string
  {
    match r
    case Usage => "Usage: /setpool stonfi|dedust <POOL_ADDRESS>"
    case BadDex => "First arg must be stonfi or dedust"
    case PoolSet(which, pool) => "✅ " + Upper(which) + " pool set: <code>" + pool + "</code>"
  }

  /**
   * `cmd_setpool` in chat `chatId`: writes only the pool column its first word names, creating
   * the group row first if needed; the usage and rejection replies write nothing.
   */
  method CmdSetPool(db: Database, chatId: int, args: Option<string>) returns (reply: string)
    modifies db
    ensures reply == SetPoolText(SetPoolCommand(args))
    ensures var r := SetPoolCommand(args);
      var ensured := Ensured(old(db.groups), chatId);
      && (!r.PoolSet? ==> db.groups == old(db.groups))
      && (r.PoolSet? && r.which == "stonfi" ==> db.groups == ensured[chatId := ensured[chatId].(stonfiPool := Some(r.pool))])
      && (r.PoolSet? && r.which == "dedust" ==> db.groups == ensured[chatId := ensured[chatId].(dedustPool := Some(r.pool))])
    ensures db.cursors == old(db.cursors) && db.buys == old(db.buys)
  {
    var r := SetPoolCommand(args);
    if r.PoolSet? {
      var update := if r.which == "stonfi" then SetStonfiPool(Some(r.pool)) else SetDedustPool(Some(r.pool));
      ApplyOne(Ensured(db.groups, chatId)[chatId], update);
      var _ := db.SetGroupFields(chatId, [update]);
    }
    reply := SetPoolText(r);
  }
}
