/**
 * `PoolWatcher.poll_pool` and `poll_group`: read a pool's cursor, keep the fetched transactions
 * whose logical time (`lt`) is above it, process them oldest first into buy events (min-buy
 * filter, trace parsing, fallbacks), persist one buy per event, and move the cursor to the
 * largest `lt` seen. The TonAPI answers are inputs: `accounts` maps a pool address to the
 * decoded transactions payload and `traces` maps a trace id to the decoded trace; an absent
 * entry stands for a request that raised.
 */
module Poller {
  import opened Wrappers
  import opened Text
  import opened Json
  import opened Utils
  import opened Trace
  import opened Db
  import opened Formatters

  type LtTx = (int, Json)

  const TraceIdKeys: set<string> := {"trace_id", "traceId"}
  const TraceUsdKeys: set<string> := {"value_usd", "amount_usd", "usd"}
  const FallbackUsdKeys: set<string> := {"value_usd", "amount_usd", "usd", "total_value_usd"}
  const FallbackJettonKeys: set<string> := {"jetton_amount", "jettonAmount"}

  /** `1e12`: above this a trace amount is taken to be in nano units. */
  const RescaleThreshold: real := 1_000_000_000_000.0

  function Max(a: int, b: int): int
  {
    if a >= b then a else b
  }

  /**
   * `int(tx.get("transaction_id", {}).get("lt") or tx.get("lt") or 0)` inside its `try`: every
   * failure (a tx or a `transaction_id` that is not a dict, a value `int()` rejects) reads as 0.
   */
  function ParseLt(tx: Json): (lt: int)
    ensures lt != 0 ==> tx.JObj? && GetOr(tx, "transaction_id", EmptyObj).JObj?
  {
    if !tx.JObj? then 0
    else
      var tid := GetOr(tx, "transaction_id", EmptyObj);
      if !tid.JObj? then 0
      else
        match PyInt(PyOr(PyOr(Get(tid, "lt"), Get(tx, "lt")), JInt(0)))
        case Some(n) => n
        case None => 0
  }

  /**
   * `data.get("transactions") or data.get("items") or []`, then iterated: a list gives its items;
   * iterating a dict or a string yields strings (keys or characters); a truthy number raises.
   */
  function TxList(data: Json): (r: Result<seq<Json>>)
    requires data.JObj?
  {
    PyIter(PyOr(PyOr(Get(data, "transactions"), Get(data, "items")), EmptyArr))
  }

  /** The `(lt, tx)` pairs with a nonzero `lt` strictly above the cursor, in fetch order. */
  function NewTxs(txs: seq<Json>, lastLt: int): (r: seq<LtTx>)
    ensures |r| <= |txs| && forall k | 0 <= k < |r| :: r[k].0 != 0 && r[k].0 > lastLt
  {
    if txs == [] then []
    else
      var t := txs[|txs| - 1];
      var lt := ParseLt(t);
      NewTxs(txs[..|txs| - 1], lastLt) + (if lt != 0 && lt > lastLt then [(lt, t)] else [])
  }

  /**
   * The selection keeps exactly the transactions whose `lt` is nonzero and above the cursor,
   * each paired with its own `lt`.
   */
  lemma {:induction false} NewTxsExact(txs: seq<Json>, lastLt: int)
    ensures var r := NewTxs(txs, lastLt);
      && (forall k | 0 <= k < |r| :: r[k].0 == ParseLt(r[k].1) && r[k].1 in txs)
      && (forall t | t in txs && ParseLt(t) != 0 && ParseLt(t) > lastLt :: (ParseLt(t), t) in r)
  {
    if txs != [] {
      var init := txs[..|txs| - 1];
      var t := txs[|txs| - 1];
      NewTxsExact(init, lastLt);
      assert forall x | x in txs :: x in init || x == t;
      assert forall x | x in init :: x in txs;
    }
  }

  predicate SortedByLt(s: seq<LtTx>)
  {
    forall i, j | 0 <= i < j < |s| :: s[i].0 <= s[j].0
  }

  /** Puts `x` before the first entry whose `lt` is not smaller. */
  function InsertByLt(x: LtTx, s: seq<LtTx>): (r: seq<LtTx>)
    ensures multiset(r) == multiset(s) + multiset{x}
  {
    if s == [] then [x]
    else if x.0 <= s[0].0 then [x] + s
    else
      assert s == [s[0]] + s[1..];
      [s[0]] + InsertByLt(x, s[1..])
  }

  /** `new.sort(key=lambda x: x[0])`: a stable sort on `lt`. */
  function SortByLt(s: seq<LtTx>): (r: seq<LtTx>)
    ensures multiset(r) == multiset(s)
  {
    if s == [] then []
    else
      assert s == [s[0]] + s[1..];
      InsertByLt(s[0], SortByLt(s[1..]))
  }

  lemma {:induction false} InsertByLtSorted(x: LtTx, s: seq<LtTx>)
    requires SortedByLt(s)
    ensures SortedByLt(InsertByLt(x, s))
  {
    if s != [] && x.0 > s[0].0 {
      var rest := s[1..];
      assert SortedByLt(rest) by {
        forall i, j | 0 <= i < j < |rest| ensures rest[i].0 <= rest[j].0 {
          assert rest[i] == s[i + 1] && rest[j] == s[j + 1];
        }
      }
      InsertByLtSorted(x, rest);
      var tail := InsertByLt(x, rest);
      var r := [s[0]] + tail;
      forall i, j | 0 <= i < j < |r| ensures r[i].0 <= r[j].0 {
        if i == 0 {
          assert r[j] in multiset(tail);
          if r[j] != x {
            assert r[j] in multiset(rest);
            var k :| 0 <= k < |rest| && rest[k] == r[j];
            assert s[k + 1] == r[j];
          }
        } else {
          assert r[i] == tail[i - 1] && r[j] == tail[j - 1];
        }
      }
    }
  }

  /** The transactions are processed in ascending `lt` order, and none is lost or duplicated. */
  lemma {:induction false} SortByLtSorted(s: seq<LtTx>)
    ensures SortedByLt(SortByLt(s)) && multiset(SortByLt(s)) == multiset(s)
  {
    if s != [] {
      SortByLtSorted(s[1..]);
      InsertByLtSorted(s[0], SortByLt(s[1..]));
    }
  }

  /** `newest_lt` after `max(newest_lt, lt)` over `s`, starting from `base`. */
  function MaxLt(base: int, s: seq<LtTx>): (m: int)
    ensures m >= base && forall k | 0 <= k < |s| :: s[k].0 <= m
    ensures m == base || exists k | 0 <= k < |s| :: s[k].0 == m
  {
    if s == [] then base
    else
      var init := MaxLt(base, s[..|s| - 1]);
      assert forall k | 0 <= k < |s| - 1 :: s[..|s| - 1][k] == s[k];
      Max(init, s[|s| - 1].0)
  }

  // ---------------------------------------------------------------------------------------
  // one transaction

  /** What `poll_group` fixes for each of its pools. */
  datatype Ctx = Ctx(cfg: GroupConfig, sym: string, dex: string, pool: string, traces: map<string, Json>, now: int)

  /** `cfg.min_buy_ton and ton_amount is not None and ton_amount < cfg.min_buy_ton`. */
  predicate BelowMinBuy(minBuyTon: real, ton: Option<real>)
  {
    minBuyTon != 0.0 && ton.Some? && ton.value < minBuyTon
  }

  /** The heuristic: a trace amount above 10^12 is in nano units and is divided by 10^9. */
  function Rescale(raw: real): (r: real)
    ensures raw > RescaleThreshold ==> r * 1_000_000_000.0 == raw
    ensures raw <= RescaleThreshold ==> r == raw
  {
    if raw > RescaleThreshold then raw / 1_000_000_000.0 else raw
  }

  /** 5·10^12 becomes 5000 and 500 stays 500; the cut makes the map non-monotone just above 10^12. */
  lemma {:induction false} RescaleExamples()
    ensures Rescale(5_000_000_000_000.0) == 5000.0
    ensures Rescale(500.0) == 500.0
    ensures Rescale(RescaleThreshold) > Rescale(2.0 * RescaleThreshold)
  {
  }

  /** `in_msg = tx.get("in_msg") or {}`. */
  function InMsg(tx: Json): Json
    requires tx.JObj?
  {
    PyOr(Get(tx, "in_msg"), EmptyObj)
  }

  /** `tx.get("trace_id") or tx.get("traceId") or _find_first(tx, {"trace_id", "traceId"})`. */
  function TraceIdOf(tx: Json): Json
    requires tx.JObj?
  {
    PyOr(PyOr(Get(tx, "trace_id"), Get(tx, "traceId")), FirstUnder(Walk(tx), TraceIdKeys))
  }

  /**
   * The `try` around the trace: for a non-empty string id whose trace was fetched, the
   * (rescaled) jetton amount and the largest USD figure found in the trace; nothing otherwise.
   */
  function TraceFigures(ctx: Ctx, tx: Json): (r: (Option<real>, Option<real>))
    requires tx.JObj?
  {
    var tid := TraceIdOf(tx);
    if tid.JStr? && tid.s != [] && tid.s in ctx.traces then
      var trace := ctx.traces[tid.s];
      var raw := JettonTransfer(trace, ctx.cfg.jettonAddress).0;
      (if raw.Some? then Some(Rescale(raw.value)) else None, MaxOrNone(NumbersIn(Walk(trace), TraceUsdKeys)))
    else (None, None)
  }

  /** What one loop iteration does: raise, `continue` on the min-buy filter, or build an event. */
  datatype TxOutcome = Abort | Skip | Emit(ev: BuyEvent)

  /**
   * One iteration of the `for lt, tx in new` loop, up to the event. A tx, an `in_msg` or a
   * `transaction_id` that is not a dict makes a `.get` raise outside any `try`.
   */
  function ProcessTx(ctx: Ctx, tx: Json): (r: TxOutcome)
    ensures r.Abort? <==> !tx.JObj? || !InMsg(tx).JObj? || !GetOr(tx, "transaction_id", EmptyObj).JObj?
    ensures r.Skip? <==> !r.Abort? && BelowMinBuy(ctx.cfg.minBuyTon, NanoToTon(Get(InMsg(tx), "value")))
    ensures r.Emit? ==>
      && r.ev.dex == ctx.dex && r.ev.tokenSymbol == Some(ctx.sym) && r.ev.jettonAddress == ctx.cfg.jettonAddress
      && r.ev.tonAmount == NanoToTon(Get(InMsg(tx), "value")) && !BelowMinBuy(ctx.cfg.minBuyTon, r.ev.tonAmount)
      && r.ev.rank.None?
    ensures r.Emit? ==>
      var tid := GetOr(tx, "transaction_id", EmptyObj);
      r.ev.txHash == if Truthy(Get(tid, "hash")) then Get(tid, "hash") else Get(tx, "hash")
    ensures r.Emit? ==>
      var m := InMsg(tx);
      r.ev.buyerAddress ==
        if Truthy(Get(m, "source")) then Get(m, "source")
        else if Truthy(Get(m, "src")) then Get(m, "src")
        else Get(m, "from")
    ensures r.Emit? ==>
      var fromTrace := TraceFigures(ctx, tx);
      && (fromTrace.1.Some? ==> r.ev.usdAmount == fromTrace.1)
      && (fromTrace.1.None? ==> r.ev.usdAmount == MaxOrNone(NumbersIn(Walk(tx), FallbackUsdKeys)))
      && (fromTrace.0.Some? ==> r.ev.jettonAmount == fromTrace.0)
      && (fromTrace.0.None? ==> r.ev.jettonAmount == MaxOrNone(NumbersIn(Walk(tx), FallbackJettonKeys)))
  {
    if !tx.JObj? then Abort
    else
      var inMsg := InMsg(tx);
      if !inMsg.JObj? then Abort
      else
        var ton := NanoToTon(Get(inMsg, "value"));
        var tid := GetOr(tx, "transaction_id", EmptyObj);
        if !tid.JObj? then Abort
        else
          var txHash := PyOr(Get(tid, "hash"), Get(tx, "hash"));
          var buyer := PyOr(PyOr(Get(inMsg, "source"), Get(inMsg, "src")), Get(inMsg, "from"));
          if BelowMinBuy(ctx.cfg.minBuyTon, ton) then Skip
          else
            var fromTrace := TraceFigures(ctx, tx);
            var usd := if fromTrace.1.Some? then fromTrace.1 else MaxOrNone(NumbersIn(Walk(tx), FallbackUsdKeys));
            var jetton := if fromTrace.0.Some? then fromTrace.0 else MaxOrNone(NumbersIn(Walk(tx), FallbackJettonKeys));
            Emit(BuyEvent(ctx.dex, Some(ctx.sym), ctx.cfg.jettonAddress, ton, usd, jetton, buyer, txHash, None))
  }

  /** The `add_buy` row for an event: stamped `now`, under the group and the pool. */
  function RowOf(ctx: Ctx, ev: BuyEvent): BuyRow
  {
    BuyRow(ctx.now, ctx.cfg.groupId, ev.dex, ev.tokenSymbol, ev.jettonAddress, ctx.pool,
           ev.buyerAddress, ev.tonAmount, ev.usdAmount, ev.jettonAmount, ev.txHash)
  }

  function RowsOf(ctx: Ctx, evs: seq<BuyEvent>): (rows: seq<BuyRow>)
    ensures |rows| == |evs| && forall i | 0 <= i < |evs| :: rows[i] == RowOf(ctx, evs[i])
  {
    seq(|evs|, i requires 0 <= i < |evs| => RowOf(ctx, evs[i]))
  }

  /** The events built and the rows stored by the loop, and whether it raised. */
  datatype Run = Run(events: seq<BuyEvent>, rows: seq<BuyRow>, aborted: bool)

  /**
   * One iteration of the loop: no event for a skipped transaction; the event and its stored row
   * for a built one; a raise for an unreadable transaction or a row `add_buy` cannot bind.
   */
  function StepOf(ctx: Ctx, tx: Json): (h: Run)
    ensures h.rows == RowsOf(ctx, h.events) && (h.aborted ==> h.events == [])
    ensures h.events == [] || (ProcessTx(ctx, tx).Emit? && h.events == [ProcessTx(ctx, tx).ev])
    ensures ProcessTx(ctx, tx).Skip? ==> h == Run([], [], false)
    ensures ProcessTx(ctx, tx).Abort? ==> h.aborted
  {
    match ProcessTx(ctx, tx)
    case Abort => Run([], [], true)
    case Skip => Run([], [], false)
    case Emit(ev) =>
      if RowBindable(RowOf(ctx, ev)) then Run([ev], [RowOf(ctx, ev)], false) else Run([], [], true)
  }

  /** Runs `rest` after `h` unless `h` raised. */
  function Then(h: Run, rest: Run): Run
  {
    if h.aborted then h else Run(h.events + rest.events, h.rows + rest.rows, rest.aborted)
  }

  lemma {:induction false} ThenAssoc(a: Run, b: Run, c: Run)
    ensures Then(Then(a, b), c) == Then(a, Then(b, c))
  {
    if !a.aborted && !b.aborted {
      assert (a.events + b.events) + c.events == a.events + (b.events + c.events);
      assert (a.rows + b.rows) + c.rows == a.rows + (b.rows + c.rows);
    }
  }

  /** The loop over the sorted `(lt, tx)` pairs, stopping at the first one that raises. */
  function RunTxs(ctx: Ctx, txs: seq<LtTx>): Run
  {
    if txs == [] then Run([], [], false)
    else Then(StepOf(ctx, txs[0].1), RunTxs(ctx, txs[1..]))
  }

  /**
   * Each stored row is the row of the event built just before it, in the same order; every event
   * is for this pool's dex and symbol and clears the min-buy filter.
   */
  lemma {:induction false} RunTxsRows(ctx: Ctx, txs: seq<LtTx>)
    ensures var r := RunTxs(ctx, txs);
      && r.rows == RowsOf(ctx, r.events)
      && forall i | 0 <= i < |r.events| ::
           r.events[i].dex == ctx.dex && r.events[i].tokenSymbol == Some(ctx.sym)
           && !BelowMinBuy(ctx.cfg.minBuyTon, r.events[i].tonAmount)
  {
    if txs != [] {
      RunTxsRows(ctx, txs[1..]);
      var h := StepOf(ctx, txs[0].1);
      var rest := RunTxs(ctx, txs[1..]);
      if !h.aborted {
        var r := RunTxs(ctx, txs);
        assert r.events == h.events + rest.events && r.rows == h.rows + rest.rows;
        forall i | 0 <= i < |r.events|
          ensures r.rows[i] == RowOf(ctx, r.events[i])
          ensures r.events[i].dex == ctx.dex && r.events[i].tokenSymbol == Some(ctx.sym)
            && !BelowMinBuy(ctx.cfg.minBuyTon, r.events[i].tonAmount)
        {
          if i < |h.events| {
            assert r.events[i] == h.events[i] && r.rows[i] == h.rows[i];
          } else {
            assert r.events[i] == rest.events[i - |h.events|] && r.rows[i] == rest.rows[i - |h.events|];
          }
        }
      }
    }
  }

  /** A loop in which every transaction is filtered out builds nothing, stores nothing and does not raise. */
  lemma {:induction false} RunTxsAllSkipped(ctx: Ctx, txs: seq<LtTx>)
    requires forall k | 0 <= k < |txs| :: ProcessTx(ctx, txs[k].1).Skip?
    ensures RunTxs(ctx, txs) == Run([], [], false)
  {
    if txs != [] {
      assert ProcessTx(ctx, txs[0].1).Skip?;
      RunTxsAllSkipped(ctx, txs[1..]);
    }
  }

  // ---------------------------------------------------------------------------------------
  // one pool

  /** What a `poll_pool` call leaves behind: its events (`None` when it raised), the rows it stored, the cursor it wrote. */
  datatype PoolResult = PoolResult(events: Option<seq<BuyEvent>>, rows: seq<BuyRow>, cursor: Option<int>)

  function CursorIn(cursors: map<string, int>, pool: string): int
  {
    if pool in cursors then cursors[pool] else 0
  }

  function Fetch(accounts: map<string, Json>, pool: string): Option<Json>
  {
    if pool in accounts then Some(accounts[pool]) else None
  }

  /**
   * `poll_pool(dex, pool)` given the stored cursor and the fetched payload (`None` when the
   * request raised, which `poll_pool` turns into an empty result).
   */
  function PoolRun(lastLt: int, data: Option<Json>, ctx: Ctx): PoolResult
  {
    if data.None? then PoolResult(Some([]), [], None)
    else if !data.value.JObj? then PoolResult(None, [], None)
    else
      match TxList(data.value)
      case Err => PoolResult(None, [], None)
      case Ok(txs) =>
        var newTxs := NewTxs(txs, lastLt);
        if newTxs == [] then PoolResult(Some([]), [], None)
        else
          var sorted := SortByLt(newTxs);
          var run := RunTxs(ctx, sorted);
          var newest := MaxLt(lastLt, sorted);
          if run.aborted || !FitsSqliteInteger(newest) then PoolResult(None, run.rows, None)
          else PoolResult(Some(run.events), run.rows, Some(newest))
  }

  /** The transactions of a fetched payload that `poll_pool` treats as new. */
  function FreshOf(lastLt: int, data: Json): seq<LtTx>
  {
    if data.JObj? && TxList(data).Ok? then NewTxs(TxList(data).value, lastLt) else []
  }

  /** Over a non-empty selection, the running maximum is above the cursor and is the `lt` of a fetched transaction. */
  lemma {:induction false} MaxLtOfNew(txs: seq<Json>, lastLt: int)
    requires NewTxs(txs, lastLt) != []
    ensures var m := MaxLt(lastLt, NewTxs(txs, lastLt));
      m > lastLt && exists t | t in txs :: ParseLt(t) == m
  {
    var newTxs := NewTxs(txs, lastLt);
    var m := MaxLt(lastLt, newTxs);
    NewTxsExact(txs, lastLt);
    assert newTxs[0].0 > lastLt;
    var k :| 0 <= k < |newTxs| && newTxs[k].0 == m;
    assert newTxs[k].1 in txs && ParseLt(newTxs[k].1) == m;
  }

  /**
   * The cursor only moves forward: a written cursor is strictly above the old one, is the
   * largest new `lt`, and is the `lt` of a transaction that was fetched. Nothing is written when
   * the fetch fails or nothing is new.
   */
  lemma {:induction false} PoolCursorAdvances(lastLt: int, data: Option<Json>, ctx: Ctx)
    ensures var r := PoolRun(lastLt, data, ctx);
      && (data.None? || FreshOf(lastLt, data.value) == [] ==> r.cursor.None?)
      && (r.cursor.Some? ==>
            var newTxs := FreshOf(lastLt, data.value);
            && r.cursor.value == MaxLt(lastLt, newTxs)
            && r.cursor.value > lastLt
            && exists t | t in TxList(data.value).value :: ParseLt(t) == r.cursor.value)
  {
    var r := PoolRun(lastLt, data, ctx);
    if r.cursor.Some? {
      var txs := TxList(data.value).value;
      var newTxs := NewTxs(txs, lastLt);
      MaxLtPermutation(lastLt, newTxs, SortByLt(newTxs));
      MaxLtOfNew(txs, lastLt);
    }
  }

  /**
   * Filtered transactions still advance the cursor: when every new transaction is below the
   * min-buy threshold, nothing is emitted or stored but the cursor moves to the largest new `lt`.
   */
  lemma {:induction false} FilteredStillAdvance(lastLt: int, data: Json, ctx: Ctx)
    requires FreshOf(lastLt, data) != []
    requires forall k | 0 <= k < |FreshOf(lastLt, data)| :: ProcessTx(ctx, FreshOf(lastLt, data)[k].1).Skip?
    requires FitsSqliteInteger(MaxLt(lastLt, FreshOf(lastLt, data)))
    ensures PoolRun(lastLt, Some(data), ctx) == PoolResult(Some([]), [], Some(MaxLt(lastLt, FreshOf(lastLt, data))))
  {
    var newTxs := FreshOf(lastLt, data);
    var sorted := SortByLt(newTxs);
    SkippedPermuted(ctx, newTxs, sorted);
    RunTxsAllSkipped(ctx, sorted);
    MaxLtPermutation(lastLt, newTxs, sorted);
  }

  lemma {:induction false} SkippedPermuted(ctx: Ctx, a: seq<LtTx>, b: seq<LtTx>)
    requires multiset(a) == multiset(b)
    requires forall k | 0 <= k < |a| :: ProcessTx(ctx, a[k].1).Skip?
    ensures forall k | 0 <= k < |b| :: ProcessTx(ctx, b[k].1).Skip?
  {
    forall k | 0 <= k < |b| ensures ProcessTx(ctx, b[k].1).Skip? {
      assert b[k] in multiset(a);
      var j :| 0 <= j < |a| && a[j] == b[k];
    }
  }

  /** The final `newest_lt` does not depend on the processing order. */
  lemma {:induction false} MaxLtPermutation(base: int, a: seq<LtTx>, b: seq<LtTx>)
    requires multiset(a) == multiset(b)
    ensures MaxLt(base, a) == MaxLt(base, b)
  {
    var ma, mb := MaxLt(base, a), MaxLt(base, b);
    forall k | 0 <= k < |a| ensures a[k].0 <= mb {
      assert a[k] in multiset(b);
      var j :| 0 <= j < |b| && b[j] == a[k];
    }
    forall k | 0 <= k < |b| ensures b[k].0 <= ma {
      assert b[k] in multiset(a);
      var j :| 0 <= j < |a| && a[j] == b[k];
    }
  }

  /**
   * Every emitted event clears the min-buy filter and is stored exactly once, in emission order;
   * a run that raises part-way keeps the rows it stored although its events are dropped.
   */
  lemma {:induction false} PoolEventsStored(lastLt: int, data: Option<Json>, ctx: Ctx)
    ensures var r := PoolRun(lastLt, data, ctx);
      && (r.events.Some? ==> r.rows == RowsOf(ctx, r.events.value))
      && (r.events.Some? ==> forall i | 0 <= i < |r.events.value| ::
            !BelowMinBuy(ctx.cfg.minBuyTon, r.events.value[i].tonAmount) && r.events.value[i].dex == ctx.dex)
  {
    if data.Some? && data.value.JObj? && TxList(data.value).Ok? {
      var newTxs := NewTxs(TxList(data.value).value, lastLt);
      if newTxs != [] {
        RunTxsRows(ctx, SortByLt(newTxs));
      }
    }
  }

  /** A transaction carrying only its `lt`. */
  function TxWithLt(lt: int): Json
  {
    JObj([("lt", JInt(lt))])
  }

  lemma {:induction false} ParseLtOf(lt: int)
    ensures ParseLt(TxWithLt(lt)) == lt
  {
    var fs := [("lt", JInt(lt))];
    assert fs[1..] == [];
    assert Lookup(fs, "transaction_id") == None;
    assert Lookup(fs, "lt") == Some(JInt(lt));
  }

  lemma {:induction false} NewTxsSnoc(txs: seq<Json>, t: Json, lastLt: int)
    ensures NewTxs(txs + [t], lastLt) ==
      NewTxs(txs, lastLt) + (if ParseLt(t) != 0 && ParseLt(t) > lastLt then [(ParseLt(t), t)] else [])
  {
    assert (txs + [t])[..|txs|] == txs;
  }

  /** Sorting pairs that are already in `lt` order leaves them as they are: the sort is stable. */
  lemma {:induction false} SortByLtOfSorted(s: seq<LtTx>)
    requires SortedByLt(s)
    ensures SortByLt(s) == s
  {
    if s != [] {
      var rest := s[1..];
      assert SortedByLt(rest) by {
        forall i, j | 0 <= i < j < |rest| ensures rest[i].0 <= rest[j].0 {
          assert rest[i] == s[i + 1] && rest[j] == s[j + 1];
        }
      }
      SortByLtOfSorted(rest);
      assert s == [s[0]] + rest;
    }
  }

  /**
   * The example: transactions with `lt`s 5, 3, 9, 1 (such as `TxWithLt(5)`, ...) against cursor 3
   * leave 5 and 9, in that order, and the cursor becomes 9.
   */
  lemma {:induction false} SelectionExample(t5: Json, t3: Json, t9: Json, t1: Json)
    requires ParseLt(t5) == 5 && ParseLt(t3) == 3 && ParseLt(t9) == 9 && ParseLt(t1) == 1
    ensures var newTxs := NewTxs([t5, t3, t9, t1], 3);
      && newTxs == [(5, t5), (9, t9)]
      && SortByLt(newTxs) == newTxs
      && MaxLt(3, newTxs) == 9
  {
    SelectionExampleKept(t5, t3, t9, t1);
    var newTxs := [(5, t5), (9, t9)];
    SortByLtOfSorted(newTxs);
    var m := MaxLt(3, newTxs);
    assert m >= newTxs[1].0;
  }

  /** Of the four, only 5 and 9 are above cursor 3, kept in fetch order. */
  lemma {:induction false} SelectionExampleKept(t5: Json, t3: Json, t9: Json, t1: Json)
    requires ParseLt(t5) == 5 && ParseLt(t3) == 3 && ParseLt(t9) == 9 && ParseLt(t1) == 1
    ensures NewTxs([t5, t3, t9, t1], 3) == [(5, t5), (9, t9)]
  {
    NewTxsStep([], t5, 3);
    assert [] + [t5] == [t5];
    NewTxsStep([t5], t3, 3);
    assert [t5] + [t3] == [t5, t3];
    NewTxsStep([t5, t3], t9, 3);
    assert [t5, t3] + [t9] == [t5, t3, t9];
    NewTxsStep([t5, t3, t9], t1, 3);
    assert [t5, t3, t9] + [t1] == [t5, t3, t9, t1];
  }

  /** `NewTxsSnoc` with the kept and the dropped case apart. */
  lemma {:induction false} NewTxsStep(txs: seq<Json>, t: Json, lastLt: int)
    ensures ParseLt(t) != 0 && ParseLt(t) > lastLt ==> NewTxs(txs + [t], lastLt) == NewTxs(txs, lastLt) + [(ParseLt(t), t)]
    ensures !(ParseLt(t) != 0 && ParseLt(t) > lastLt) ==> NewTxs(txs + [t], lastLt) == NewTxs(txs, lastLt)
  {
    NewTxsSnoc(txs, t, lastLt);
  }

  /** The selection loop of `poll_pool`: the `(lt, tx)` pairs above the cursor, in fetch order. */
  method SelectNew(txs: seq<Json>, lastLt: int) returns (newTxs: seq<LtTx>)
    ensures newTxs == NewTxs(txs, lastLt)
  {
    newTxs := [];
    var i := 0;
    while i < |txs|
      invariant 0 <= i <= |txs|
      invariant newTxs == NewTxs(txs[..i], lastLt)
    {
      assert txs[..i + 1] == txs[..i] + [txs[i]];
      NewTxsStep(txs[..i], txs[i], lastLt);
      var lt := ParseLt(txs[i]);
      if lt != 0 && lt > lastLt {
        newTxs := newTxs + [(lt, txs[i])];
      }
      i := i + 1;
    }
    assert txs[..|txs|] == txs;
  }

  lemma {:induction false} ConcatAssoc(a: seq<BuyRow>, b: seq<BuyRow>, c: seq<BuyRow>)
    ensures a + b + c == a + (b + c)
  {
  }

  /** One iteration of the processing loop: build the event, then store its row. */
  method ProcessOne(db: Database, ctx: Ctx, tx: Json) returns (h: Run)
    modifies db
    ensures h == StepOf(ctx, tx)
    ensures db.buys == old(db.buys) + h.rows && db.cursors == old(db.cursors) && db.groups == old(db.groups)
  {
    var step := BuildEvent(ctx, tx);
    match step {
      case Abort =>
        return Run([], [], true);
      case Skip =>
        return Run([], [], false);
      case Emit(ev) =>
        var ok := db.AddBuy(RowOf(ctx, ev));
        if !ok {
          return Run([], [], true);
        }
        return Run([ev], [RowOf(ctx, ev)], false);
    }
  }

  /**
   * The processing loop of `poll_pool` over the sorted pairs: stores one buy per event as it
   * goes and tracks `newest_lt`; it stops at the first transaction that raises.
   */
  method ProcessSorted(db: Database, ctx: Ctx, sorted: seq<LtTx>, lastLt: int)
    returns (out: seq<BuyEvent>, newest: int, aborted: bool)
    modifies db
    ensures var r := RunTxs(ctx, sorted);
      && aborted == r.aborted && db.buys == old(db.buys) + r.rows
      && (!aborted ==> out == r.events && newest == MaxLt(lastLt, sorted))
    ensures db.cursors == old(db.cursors) && db.groups == old(db.groups)
  {
    newest := lastLt;
    out := [];
    aborted := false;
    ghost var stored: seq<BuyRow> := [];
    ghost var total := RunTxs(ctx, sorted);
    assert Then(Run([], [], false), total) == total;
    var j := 0;
    while j < |sorted|
      invariant 0 <= j <= |sorted|
      invariant newest == MaxLt(lastLt, sorted[..j])
      invariant db.buys == old(db.buys) + stored
      invariant db.cursors == old(db.cursors) && db.groups == old(db.groups)
      invariant total == Then(Run(out, stored, false), RunTxs(ctx, sorted[j..]))
    {
      MaxLtStep(lastLt, sorted, j);
      newest := Max(newest, sorted[j].0);
      var h := ProcessOne(db, ctx, sorted[j].1);
      ConcatAssoc(old(db.buys), stored, h.rows);
      RunStep(ctx, sorted, j, Run(out, stored, false), h);
      if h.aborted {
        aborted := true;
        return;
      }
      out := out + h.events;
      stored := stored + h.rows;
      j := j + 1;
    }
    assert sorted[|sorted|..] == [];
    assert sorted[..|sorted|] == sorted;
  }

  lemma {:induction false} MaxLtStep(base: int, s: seq<LtTx>, j: nat)
    requires j < |s|
    ensures MaxLt(base, s[..j + 1]) == Max(MaxLt(base, s[..j]), s[j].0)
  {
    assert s[..j + 1][..j] == s[..j];
  }

  /** The loop invariant of `ProcessSorted` is kept by one more transaction. */
  lemma {:induction false} RunStep(ctx: Ctx, s: seq<LtTx>, j: nat, done: Run, h: Run)
    requires j < |s| && h == StepOf(ctx, s[j].1) && !done.aborted
    ensures Then(done, RunTxs(ctx, s[j..])) == Then(Then(done, h), RunTxs(ctx, s[j + 1..]))
    ensures !h.aborted ==> Then(done, h) == Run(done.events + h.events, done.rows + h.rows, false)
    ensures h.aborted ==> Then(done, h) == Run(done.events, done.rows, true)
  {
    assert s[j..][1..] == s[j + 1..];
    ThenAssoc(done, h, RunTxs(ctx, s[j + 1..]));
    if h.aborted {
      assert h.events == [] && h.rows == [];
      assert done.events + [] == done.events && done.rows + [] == done.rows;
    }
  }

  /**
   * `poll_pool(dex, pool)`: reads the cursor, selects and sorts the new transactions, processes
   * them (storing one buy per event), and writes the cursor.
   */
  method PollPool(db: Database, ctx: Ctx, accounts: map<string, Json>) returns (events: Option<seq<BuyEvent>>)
    modifies db
    ensures var r := PoolRun(CursorIn(old(db.cursors), ctx.pool), Fetch(accounts, ctx.pool), ctx);
      && events == r.events
      && db.buys == old(db.buys) + r.rows
      && db.cursors == (if r.cursor.Some? then old(db.cursors)[ctx.pool := r.cursor.value] else old(db.cursors))
      && db.groups == old(db.groups)
  {
    var lastLt := db.GetPoolCursor(ctx.pool);
    if ctx.pool !in accounts {
      return Some([]);
    }
    var data := accounts[ctx.pool];
    if !data.JObj? {
      return None;
    }
    var listed := TxList(data);
    if listed.Err? {
      return None;
    }
    var newTxs := SelectNew(listed.value, lastLt);
    if newTxs == [] {
      return Some([]);
    }
    var sorted := SortByLt(newTxs);
    var out, newest, aborted := ProcessSorted(db, ctx, sorted, lastLt);
    if aborted {
      return None;
    }
    var ok := db.SetPoolCursor(ctx.pool, newest);
    if !ok {
      return None;
    }
    return Some(out);
  }

  /**
   * The body of one loop iteration up to the event, using the searches of the trace module:
   * `_find_first` for the trace id, `_extract_jetton_transfer` and `_find_numbers` on the trace,
   * and `_find_numbers` on the transaction for the fallbacks.
   */
  method BuildEvent(ctx: Ctx, tx: Json) returns (r: TxOutcome)
    ensures r == ProcessTx(ctx, tx)
  {
    if !tx.JObj? {
      return Abort;
    }
    var inMsg := PyOr(Get(tx, "in_msg"), EmptyObj);
    if !inMsg.JObj? {
      return Abort;
    }
    var ton := NanoToTon(Get(inMsg, "value"));
    var tid := GetOr(tx, "transaction_id", EmptyObj);
    if !tid.JObj? {
      return Abort;
    }
    var txHash := PyOr(Get(tid, "hash"), Get(tx, "hash"));
    var buyer := PyOr(PyOr(Get(inMsg, "source"), Get(inMsg, "src")), Get(inMsg, "from"));
    if BelowMinBuy(ctx.cfg.minBuyTon, ton) {
      return Skip;
    }
    var usd: Option<real> := None;
    var jetton: Option<real> := None;
    var traceId := PyOr(Get(tx, "trace_id"), Get(tx, "traceId"));
    if !Truthy(traceId) {
      traceId := FindFirst(tx, TraceIdKeys);
    }
    if traceId.JStr? && traceId.s != [] && traceId.s in ctx.traces {
      var trace := ctx.traces[traceId.s];
      var rawJet, _ := ExtractJettonTransfer(trace, ctx.cfg.jettonAddress);
      if rawJet.Some? {
        jetton := Some(Rescale(rawJet.value));
      }
      var u := FindNumbers(trace, TraceUsdKeys);
      usd := MaxOrNone(u);
    }
    if usd.None? {
      var nums := FindNumbers(tx, FallbackUsdKeys);
      usd := MaxOrNone(nums);
    }
    if jetton.None? {
      var numsJ := FindNumbers(tx, FallbackJettonKeys);
      jetton := MaxOrNone(numsJ);
    }
    return Emit(BuyEvent(ctx.dex, Some(ctx.sym), ctx.cfg.jettonAddress, ton, usd, jetton, buyer, txHash, None));
  }

  // ---------------------------------------------------------------------------------------
  // one group

  /** `safe_symbol(cfg.token_symbol or "TOKEN")`. */
  function GroupSymbol(cfg: GroupConfig): string
  {
    SafeSymbol(if cfg.tokenSymbol.Some? && cfg.tokenSymbol.value != [] then cfg.tokenSymbol.value else "TOKEN")
  }

  /** The state threaded through the pools of a group: events so far, the cursor table, rows stored. */
  datatype GroupState = GroupState(events: seq<BuyEvent>, cursors: map<string, int>, rows: seq<BuyRow>)

  /**
   * One task of `poll_group`, run to completion against the cursor table `cursors`: only for a
   * configured pool; a raising task adds no events but keeps the rows it stored.
   */
  function PoolStep(cursors: map<string, int>, cfg: GroupConfig, dex: string, pool: Option<string>,
                    accounts: map<string, Json>, traces: map<string, Json>, now: int): GroupState
  {
    if pool.None? || pool.value == [] then GroupState([], cursors, [])
    else
      var ctx := Ctx(cfg, GroupSymbol(cfg), dex, pool.value, traces, now);
      var r := PoolRun(CursorIn(cursors, pool.value), Fetch(accounts, pool.value), ctx);
      GroupState(if r.events.Some? then r.events.value else [],
                 if r.cursor.Some? then cursors[pool.value := r.cursor.value] else cursors,
                 r.rows)
  }

  /** `poll_group(cfg)`: nothing for a disabled group; otherwise the STONfi pool, then the DeDust pool. */
  function GroupRun(cursors: map<string, int>, cfg: GroupConfig, accounts: map<string, Json>,
                    traces: map<string, Json>, now: int): GroupState
  {
    if !cfg.enabled then GroupState([], cursors, [])
    else
      var s1 := PoolStep(cursors, cfg, "STONfi", cfg.stonfiPool, accounts, traces, now);
      var s2 := PoolStep(s1.cursors, cfg, "DeDust", cfg.dedustPool, accounts, traces, now);
      GroupState(s1.events + s2.events, s2.cursors, s1.rows + s2.rows)
  }

  /** Every event of a pool task is for that task's dex and clears the min-buy filter. */
  lemma {:induction false} PoolStepEvents(cursors: map<string, int>, cfg: GroupConfig, dex: string, pool: Option<string>,
                       accounts: map<string, Json>, traces: map<string, Json>, now: int)
    ensures var s := PoolStep(cursors, cfg, dex, pool, accounts, traces, now);
      forall i | 0 <= i < |s.events| :: s.events[i].dex == dex && !BelowMinBuy(cfg.minBuyTon, s.events[i].tonAmount)
  {
    if pool.Some? && pool.value != [] {
      var ctx := Ctx(cfg, GroupSymbol(cfg), dex, pool.value, traces, now);
      PoolEventsStored(CursorIn(cursors, pool.value), Fetch(accounts, pool.value), ctx);
    }
  }

  /**
   * A disabled group, or one without pools, yields nothing and changes nothing; otherwise every
   * event clears the min-buy filter and all STONfi events come before all DeDust events.
   */
  lemma {:induction false} GroupEventsOrdered(cursors: map<string, int>, cfg: GroupConfig, accounts: map<string, Json>,
                           traces: map<string, Json>, now: int)
    ensures var g := GroupRun(cursors, cfg, accounts, traces, now);
      && ((!cfg.enabled || ((cfg.stonfiPool.None? || cfg.stonfiPool.value == []) && (cfg.dedustPool.None? || cfg.dedustPool.value == [])))
            ==> g == GroupState([], cursors, []))
      && (forall i | 0 <= i < |g.events| :: !BelowMinBuy(cfg.minBuyTon, g.events[i].tonAmount)
            && (g.events[i].dex == "STONfi" || g.events[i].dex == "DeDust"))
      && (forall i, j | 0 <= i < j < |g.events| :: g.events[i].dex == "DeDust" ==> g.events[j].dex == "DeDust")
  {
    if cfg.enabled {
      var s1 := PoolStep(cursors, cfg, "STONfi", cfg.stonfiPool, accounts, traces, now);
      var s2 := PoolStep(s1.cursors, cfg, "DeDust", cfg.dedustPool, accounts, traces, now);
      PoolStepEvents(cursors, cfg, "STONfi", cfg.stonfiPool, accounts, traces, now);
      PoolStepEvents(s1.cursors, cfg, "DeDust", cfg.dedustPool, accounts, traces, now);
      var evs := s1.events + s2.events;
      assert forall i | 0 <= i < |s1.events| :: evs[i] == s1.events[i];
      assert forall i | |s1.events| <= i < |evs| :: evs[i] == s2.events[i - |s1.events|];
      assert "DeDust" != "STONfi";
      assert forall i | 0 <= i < |s1.events| :: evs[i].dex == "STONfi";
    }
  }

  /** One pool task of `poll_group`, skipped when the pool is not configured. */
  method PollPoolStep(db: Database, cfg: GroupConfig, dex: string, pool: Option<string>,
                      accounts: map<string, Json>, traces: map<string, Json>, now: int)
    returns (events: seq<BuyEvent>)
    modifies db
    ensures var s := PoolStep(old(db.cursors), cfg, dex, pool, accounts, traces, now);
      && events == s.events && db.cursors == s.cursors && db.buys == old(db.buys) + s.rows
    ensures db.groups == old(db.groups)
  {
    if pool.None? || pool.value == [] {
      return [];
    }
    var r := PollPool(db, Ctx(cfg, GroupSymbol(cfg), dex, pool.value, traces, now), accounts);
    events := if r.Some? then r.value else [];
  }

  /** `poll_group(cfg)` with the two pool tasks run one after the other, in list order. */
  method PollGroup(db: Database, cfg: GroupConfig, accounts: map<string, Json>, traces: map<string, Json>, now: int)
    returns (events: seq<BuyEvent>)
    modifies db
    ensures var g := GroupRun(old(db.cursors), cfg, accounts, traces, now);
      && events == g.events
      && db.cursors == g.cursors
      && db.buys == old(db.buys) + g.rows
      && db.groups == old(db.groups)
  {
    if !cfg.enabled {
      return [];
    }
    ghost var buys0 := db.buys;
    ghost var s1 := PoolStep(db.cursors, cfg, "STONfi", cfg.stonfiPool, accounts, traces, now);
    var fromStonfi := PollPoolStep(db, cfg, "STONfi", cfg.stonfiPool, accounts, traces, now);
    ghost var s2 := PoolStep(db.cursors, cfg, "DeDust", cfg.dedustPool, accounts, traces, now);
    var fromDedust := PollPoolStep(db, cfg, "DeDust", cfg.dedustPool, accounts, traces, now);
    events := fromStonfi + fromDedust;
    ConcatAssoc(buys0, s1.rows, s2.rows);
  }
}
