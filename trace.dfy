/**
 * The heuristic search over loosely structured TonAPI payloads in `pool_watcher.py`:
 * a pre-order walk over nested dicts and lists, key-filtered searches over that walk,
 * and the best-effort extraction of a jetton transfer amount and recipient from a trace.
 */
module Trace {
  import opened Wrappers
  import opened Text
  import opened Json

  type Pair = (string, Json)

  /**
   * `_walk(obj)`: every (key, value) pair of every nested dict, in pre-order — a pair comes
   * right before the pairs of its own value; lists are descended into; scalars yield nothing.
   */
  function Walk(j: Json): seq<Pair>
    decreases j, 1
  {
    match j
    case JObj(_) => WalkFields(j, 0)
    case JArr(_) => WalkItems(j, 0)
    case _ => []
  }

  /** The walk of the pairs of the dict `j` from the `i`-th on. */
  function WalkFields(j: Json, i: nat): seq<Pair>
    requires j.JObj? && i <= |j.fields|
    decreases j, 0, |j.fields| - i
  {
    if i == |j.fields| then []
    else
      assert j.fields[i] in j.fields;
      [j.fields[i]] + Walk(j.fields[i].1) + WalkFields(j, i + 1)
  }

  /** The walk of the items of the list `j` from the `i`-th on. */
  function WalkItems(j: Json, i: nat): seq<Pair>
    requires j.JArr? && i <= |j.items|
    decreases j, 0, |j.items| - i
  {
    if i == |j.items| then [] else Walk(j.items[i]) + WalkItems(j, i + 1)
  }

  /** The pair at position `p` of `w` is immediately followed by the walk of its own value. */
  predicate FollowedByOwnWalk(w: seq<Pair>, p: nat)
  {
    p < |w| && p + 1 + |Walk(w[p].1)| <= |w| && w[p + 1..p + 1 + |Walk(w[p].1)|] == Walk(w[p].1)
  }

  lemma {:induction false} FollowedByOwnWalkShift(a: seq<Pair>, w: seq<Pair>, b: seq<Pair>, p: nat)
    requires FollowedByOwnWalk(w, p)
    ensures FollowedByOwnWalk(a + w + b, |a| + p)
  {
    var n := |Walk(w[p].1)|;
    assert (a + w + b)[|a| + p] == w[p];
    assert (a + w + b)[|a| + p + 1..|a| + p + 1 + n] == w[p + 1..p + 1 + n];
  }

  /** Pre-order: in the walk of any value, each pair is followed at once by the walk of its value. */
  lemma {:induction false} WalkPreorder(j: Json)
    ensures forall p | 0 <= p < |Walk(j)| :: FollowedByOwnWalk(Walk(j), p)
    decreases j, 1
  {
    match j
    case JObj(_) => WalkFieldsPreorder(j, 0);
    case JArr(_) => WalkItemsPreorder(j, 0);
    case _ =>
  }

  lemma {:induction false} WalkFieldsPreorder(j: Json, i: nat)
    requires j.JObj? && i <= |j.fields|
    ensures forall p | 0 <= p < |WalkFields(j, i)| :: FollowedByOwnWalk(WalkFields(j, i), p)
    decreases j, 0, |j.fields| - i
  {
    if i < |j.fields| {
      var f := j.fields[i];
      assert f in j.fields;
      var inner, rest := Walk(f.1), WalkFields(j, i + 1);
      WalkPreorder(f.1);
      WalkFieldsPreorder(j, i + 1);
      var w := [f] + inner + rest;
      assert w == WalkFields(j, i);
      forall p | 0 <= p < |w| ensures FollowedByOwnWalk(w, p) {
        if p == 0 {
          assert w[1..1 + |inner|] == inner;
        } else if p < 1 + |inner| {
          FollowedByOwnWalkShift([f], inner, rest, p - 1);
        } else {
          FollowedByOwnWalkShift([f] + inner, rest, [], p - 1 - |inner|);
          assert [f] + inner + rest + [] == w;
        }
      }
    }
  }

  lemma {:induction false} WalkItemsPreorder(j: Json, i: nat)
    requires j.JArr? && i <= |j.items|
    ensures forall p | 0 <= p < |WalkItems(j, i)| :: FollowedByOwnWalk(WalkItems(j, i), p)
    decreases j, 0, |j.items| - i
  {
    if i < |j.items| {
      var x := j.items[i];
      var inner, rest := Walk(x), WalkItems(j, i + 1);
      WalkPreorder(x);
      WalkItemsPreorder(j, i + 1);
      var w := inner + rest;
      forall p | 0 <= p < |w| ensures FollowedByOwnWalk(w, p) {
        if p < |inner| {
          FollowedByOwnWalkShift([], inner, rest, p);
          assert [] + inner + rest == w;
        } else {
          FollowedByOwnWalkShift(inner, rest, [], p - |inner|);
          assert inner + rest + [] == w;
        }
      }
    }
  }

  /**
   * Every pair of a dict is walked, and everything walked inside a dict value or a list item
   * is walked from the container too.
   */
  lemma {:induction false} WalkReachesChildren(j: Json)
    ensures j.JObj? ==> forall i | 0 <= i < |j.fields| :: j.fields[i] in Walk(j)
    ensures j.JObj? ==> forall i, q | 0 <= i < |j.fields| && q in Walk(j.fields[i].1) :: q in Walk(j)
    ensures j.JArr? ==> forall i, q | 0 <= i < |j.items| && q in Walk(j.items[i]) :: q in Walk(j)
  {
    match j
    case JObj(fs) =>
      forall i | 0 <= i < |fs| ensures fs[i] in Walk(j) && forall q | q in Walk(fs[i].1) :: q in Walk(j) {
        WalkFieldsContains(j, 0, i);
      }
    case JArr(xs) =>
      forall i | 0 <= i < |xs| ensures forall q | q in Walk(xs[i]) :: q in Walk(j) {
        WalkItemsContains(j, 0, i);
      }
    case _ =>
  }

  lemma {:induction false} WalkFieldsContains(j: Json, i: nat, k: nat)
    requires j.JObj? && i <= k < |j.fields|
    ensures j.fields[k] in WalkFields(j, i)
    ensures forall q | q in Walk(j.fields[k].1) :: q in WalkFields(j, i)
    decreases |j.fields| - i
  {
    if i < k { WalkFieldsContains(j, i + 1, k); }
  }

  lemma {:induction false} WalkItemsContains(j: Json, i: nat, k: nat)
    requires j.JArr? && i <= k < |j.items|
    ensures forall q | q in Walk(j.items[k]) :: q in WalkItems(j, i)
    decreases |j.items| - i
  {
    if i < k { WalkItemsContains(j, i + 1, k); }
  }

  // ---------------------------------------------------------------------------------------
  // _find_first

  /** The value of the first walked pair whose key is one of `keys`; `None` (JNull) when there is none. */
  function FirstUnder(w: seq<Pair>, keys: set<string>): Json
  {
    if w == [] then JNull
    else if w[0].0 in keys then w[0].1
    else FirstUnder(w[1..], keys)
  }

  lemma {:induction false} FirstUnderIsFirst(w: seq<Pair>, keys: set<string>, i: nat)
    requires i < |w| && w[i].0 in keys
    requires forall k | 0 <= k < i :: w[k].0 !in keys
    ensures FirstUnder(w, keys) == w[i].1
  {
    if i > 0 {
      FirstUnderIsFirst(w[1..], keys, i - 1);
    }
  }

  lemma {:induction false} FirstUnderAbsent(w: seq<Pair>, keys: set<string>)
    requires forall k | 0 <= k < |w| :: w[k].0 !in keys
    ensures FirstUnder(w, keys) == JNull
  {
    if w != [] {
      FirstUnderAbsent(w[1..], keys);
    }
  }

  /** `_find_first(obj, keys)`: returns at the first walked key in `keys`. */
  method FindFirst(obj: Json, keys: set<string>) returns (v: Json)
    ensures v == FirstUnder(Walk(obj), keys)
  {
    var w := Walk(obj);
    var i := 0;
    while i < |w|
      invariant 0 <= i <= |w|
      invariant FirstUnder(w, keys) == FirstUnder(w[i..], keys)
    {
      assert w[i..][1..] == w[i + 1..];
      if w[i].0 in keys {
        return w[i].1;
      }
      i := i + 1;
    }
    return JNull;
  }

  // ---------------------------------------------------------------------------------------
  // _find_numbers

  /**
   * What `_find_numbers` takes from one value: an int, float or bool as a float, or a string
   * that, once stripped, is digits with at most one `.`; nothing otherwise.
   */
  function NumberCandidate(v: Json): Option<real>
  {
    if IsNumber(v) then Some(NumberValue(v))
    else if v.JStr? && IsDecimalLiteral(Strip(v.s)) then Some(DecimalValue(Strip(v.s)))
    else None
  }

  /** The numbers found under `keys` along the walk `w`, in walk order. */
  function NumbersIn(w: seq<Pair>, keys: set<string>): seq<real>
  {
    if w == [] then []
    else
      var last := w[|w| - 1];
      NumbersIn(w[..|w| - 1], keys) +
        (if last.0 in keys && NumberCandidate(last.1).Some? then [NumberCandidate(last.1).value] else [])
  }

  /** Searching two stretches of a walk one after the other finds the numbers of each, in that order. */
  lemma {:induction false} NumbersInAppend(a: seq<Pair>, b: seq<Pair>, keys: set<string>)
    ensures NumbersIn(a + b, keys) == NumbersIn(a, keys) + NumbersIn(b, keys)
    decreases |b|
  {
    if b != [] {
      var last := b[|b| - 1];
      assert (a + b)[..|a + b| - 1] == a + b[..|b| - 1];
      NumbersInAppend(a, b[..|b| - 1], keys);
    } else {
      assert a + b == a;
    }
  }

  /** Every number found comes from a walked pair under one of the keys. */
  lemma {:induction false} NumbersInSound(w: seq<Pair>, keys: set<string>, x: real)
    requires x in NumbersIn(w, keys)
    ensures exists i | 0 <= i < |w| :: w[i].0 in keys && NumberCandidate(w[i].1) == Some(x)
  {
    var last := w[|w| - 1];
    if x in NumbersIn(w[..|w| - 1], keys) {
      NumbersInSound(w[..|w| - 1], keys, x);
      var i :| 0 <= i < |w| - 1 && w[..|w| - 1][i].0 in keys && NumberCandidate(w[..|w| - 1][i].1) == Some(x);
      assert w[i] == w[..|w| - 1][i];
    } else {
      assert w[|w| - 1].0 in keys && NumberCandidate(w[|w| - 1].1) == Some(x);
    }
  }

  /** Every numeric value under one of the keys is found. */
  lemma {:induction false} NumbersInComplete(w: seq<Pair>, keys: set<string>, i: nat)
    requires i < |w| && w[i].0 in keys && NumberCandidate(w[i].1).Some?
    ensures NumberCandidate(w[i].1).value in NumbersIn(w, keys)
  {
    if i < |w| - 1 {
      NumbersInComplete(w[..|w| - 1], keys, i);
    }
  }

  /** `_find_numbers(obj, keys)`: appends each candidate under `keys` while walking `obj`. */
  method FindNumbers(obj: Json, keys: set<string>) returns (out: seq<real>)
    ensures out == NumbersIn(Walk(obj), keys)
  {
    var w := Walk(obj);
    out := [];
    var i := 0;
    while i < |w|
      invariant 0 <= i <= |w|
      invariant out == NumbersIn(w[..i], keys)
    {
      assert w[..i + 1][..i] == w[..i];
      var k, v := w[i].0, w[i].1;
      if k in keys {
        var c := NumberCandidate(v);
        if c.Some? {
          out := out + [c.value];
        }
      }
      i := i + 1;
    }
    assert w[..|w|] == w;
  }

  /** Python's `max(nums)`. */
  function MaxOf(s: seq<real>): (m: real)
    requires s != []
    ensures m in s && forall x | x in s :: x <= m
  {
    if |s| == 1 then s[0]
    else
      var rest := MaxOf(s[1..]);
      assert forall x | x in s :: x == s[0] || x in s[1..];
      if s[0] >= rest then s[0] else rest
  }

  /** `max(nums) if nums else None`. */
  function MaxOrNone(s: seq<real>): (r: Option<real>)
    ensures r.None? <==> s == []
    ensures r.Some? ==> r.value in s && forall x | x in s :: x <= r.value
  {
    if s == [] then None else Some(MaxOf(s))
  }

  // ---------------------------------------------------------------------------------------
  // _extract_jetton_transfer

  /** The keys `_extract_jetton_transfer` both lowercases (for the raw fallback) and searches as they are (for `_find_numbers`). */
  const AmountKeys: set<string> := {"jetton_amount", "jettonamount", "amount"}

  /** A lowercased key naming the recipient: contains "recipient", or is "to", "destination" or "dst". */
  predicate IsRecipientKey(lk: string)
  {
    Contains(lk, "recipient") || lk == "to" || lk == "destination" || lk == "dst"
  }

  /** The pair overwrites `recipient`: a recipient key whose value is a string starting with "UQ". */
  predicate SetsRecipient(p: Pair)
  {
    IsRecipientKey(Lower(p.0)) && p.1.JStr? && StartsWith(p.1.s, "UQ")
  }

  /** The `continue` branch: a "jetton" key holding an "EQ" address other than the configured jetton. */
  predicate SkipsForeignJetton(p: Pair, jetton: Option<string>)
  {
    Contains(Lower(p.0), "jetton") && p.1.JStr? && StartsWith(p.1.s, "EQ")
    && jetton.Some? && jetton.value != [] && p.1.s != jetton.value
  }

  /** The pair overwrites `amount_raw`: a lowercased amount key holding an int, float, bool or str. */
  predicate SetsRawAmount(p: Pair, jetton: Option<string>)
  {
    !SkipsForeignJetton(p, jetton) && Lower(p.0) in AmountKeys && (IsNumber(p.1) || p.1.JStr?)
  }

  /** The last recipient written while walking `w`. */
  function LastRecipient(w: seq<Pair>): Option<string>
  {
    if w == [] then None
    else if SetsRecipient(w[|w| - 1]) then Some(w[|w| - 1].1.s)
    else LastRecipient(w[..|w| - 1])
  }

  /** The last raw amount written while walking `w`. */
  function LastRawAmount(w: seq<Pair>, jetton: Option<string>): Option<Json>
  {
    if w == [] then None
    else if SetsRawAmount(w[|w| - 1], jetton) then Some(w[|w| - 1].1)
    else LastRawAmount(w[..|w| - 1], jetton)
  }

  /**
   * What `_extract_jetton_transfer(trace, jetton_address)` returns: (None, None) for a falsy
   * trace; otherwise the largest number under the exact keys of `AmountKeys`, else `float()` of
   * the last raw amount-like value, else None; and the last "UQ" recipient.
   */
  function JettonTransfer(trace: Json, jetton: Option<string>): (r: (Option<real>, Option<string>))
    ensures !Truthy(trace) ==> r == (None, None)
    ensures Truthy(trace) && NumbersIn(Walk(trace), AmountKeys) != [] ==>
              r.0.Some? && r.0.value in NumbersIn(Walk(trace), AmountKeys)
              && forall x | x in NumbersIn(Walk(trace), AmountKeys) :: x <= r.0.value
    ensures Truthy(trace) && NumbersIn(Walk(trace), AmountKeys) == [] ==>
              r.0 == (if LastRawAmount(Walk(trace), jetton).Some? then PyFloat(LastRawAmount(Walk(trace), jetton).value) else None)
    ensures Truthy(trace) ==> r.1 == LastRecipient(Walk(trace))
  {
    if !Truthy(trace) then (None, None)
    else
      var w := Walk(trace);
      var nums := NumbersIn(w, AmountKeys);
      var amount :=
        if nums != [] then Some(MaxOf(nums))
        else match LastRawAmount(w, jetton)
          case Some(raw) => PyFloat(raw)
          case None => None;
      (amount, LastRecipient(w))
  }

  /** The recipient is the value of the last recipient-setting pair of the walk. */
  lemma {:induction false} LastRecipientIsLast(w: seq<Pair>, i: nat)
    requires i < |w| && SetsRecipient(w[i])
    requires forall k | i < k < |w| :: !SetsRecipient(w[k])
    ensures LastRecipient(w) == Some(w[i].1.s)
  {
    if i < |w| - 1 {
      LastRecipientIsLast(w[..|w| - 1], i);
    }
  }

  /** ... and there is none exactly when no pair sets it. */
  lemma {:induction false} LastRecipientAbsent(w: seq<Pair>)
    ensures LastRecipient(w).None? <==> forall k | 0 <= k < |w| :: !SetsRecipient(w[k])
  {
    if w != [] {
      LastRecipientAbsent(w[..|w| - 1]);
      assert forall k | 0 <= k < |w| - 1 :: w[..|w| - 1][k] == w[k];
    }
  }

  /**
   * The number search is case-sensitive while the fallback lowercases: a camel-case
   * "jettonAmount" is only picked up by the fallback, and loses to any exact "amount".
   */
  lemma {:induction false} CamelCaseAmountOnlyInFallback()
    ensures NumbersIn(Walk(JObj([("jettonAmount", JInt(1000))])), AmountKeys) == []
    ensures JettonTransfer(JObj([("jettonAmount", JInt(1000))]), None).0 == Some(1000.0)
    ensures JettonTransfer(JObj([("amount", JInt(3)), ("jettonAmount", JInt(1000))]), None).0 == Some(3.0)
  {
    var t1 := JObj([("jettonAmount", JInt(1000))]);
    assert Lower("jettonAmount") == "jettonamount";
    assert Walk(t1) == [("jettonAmount", JInt(1000))] by {
      assert WalkFields(t1, 1) == [];
      assert WalkFields(t1, 0) == [("jettonAmount", JInt(1000))] + Walk(JInt(1000)) + WalkFields(t1, 1);
    }
    assert NumbersIn(Walk(t1), AmountKeys) == [] by {
      assert [("jettonAmount", JInt(1000))][..0] == [];
    }
    assert LastRawAmount(Walk(t1), None) == Some(JInt(1000)) by {
      assert SetsRawAmount(("jettonAmount", JInt(1000)), None);
    }
    var t2 := JObj([("amount", JInt(3)), ("jettonAmount", JInt(1000))]);
    var w2 := [("amount", JInt(3)), ("jettonAmount", JInt(1000))];
    assert Walk(t2) == w2 by {
      assert WalkFields(t2, 2) == [];
      assert WalkFields(t2, 1) == [("jettonAmount", JInt(1000))] + Walk(JInt(1000)) + WalkFields(t2, 2);
      assert WalkFields(t2, 0) == [("amount", JInt(3))] + Walk(JInt(3)) + WalkFields(t2, 1);
    }
    assert NumbersIn(w2, AmountKeys) == [3.0] by {
      assert w2[..1] == [("amount", JInt(3))];
      assert w2[..1][..0] == [];
      assert NumbersIn(w2[..1], AmountKeys) == [3.0];
    }
  }

  /** Walking one more pair updates the recipient and the raw amount only when that pair sets them. */
  lemma LastStep(w: seq<Pair>, i: nat, jetton: Option<string>)
    requires i < |w|
    ensures LastRecipient(w[..i + 1]) == if SetsRecipient(w[i]) then Some(w[i].1.s) else LastRecipient(w[..i])
    ensures LastRawAmount(w[..i + 1], jetton) == if SetsRawAmount(w[i], jetton) then Some(w[i].1) else LastRawAmount(w[..i], jetton)
  {
    assert w[..i + 1][..i] == w[..i];
  }

  /** `_extract_jetton_transfer`: one pass over the walk overwriting `recipient` and `amount_raw`, then the number search. */
  method ExtractJettonTransfer(trace: Json, jetton: Option<string>) returns (amount: Option<real>, recipient: Option<string>)
    ensures (amount, recipient) == JettonTransfer(trace, jetton)
  {
    if !Truthy(trace) {
      return None, None;
    }
    var w := Walk(trace);
    var amountRaw: Option<Json> := None;
    recipient := None;
    var i := 0;
    while i < |w|
      invariant 0 <= i <= |w|
      invariant recipient == LastRecipient(w[..i])
      invariant amountRaw == LastRawAmount(w[..i], jetton)
    {
      LastStep(w, i, jetton);
      var k, v := w[i].0, w[i].1;
      var lk := Lower(k);
      if IsRecipientKey(lk) {
        if v.JStr? && StartsWith(v.s, "UQ") {
          recipient := Some(v.s);
        }
      }
      if Contains(lk, "jetton") && v.JStr? && StartsWith(v.s, "EQ") {
        if jetton.Some? && jetton.value != [] && v.s != jetton.value {
          i := i + 1;
          continue;
        }
      }
      if lk in AmountKeys && (IsNumber(v) || v.JStr?) {
        amountRaw := Some(v);
      }
      i := i + 1;
    }
    assert w[..|w|] == w;
    var nums := FindNumbers(trace, AmountKeys);
    amount := MaxOrNone(nums);
    if amount.None? && amountRaw.Some? {
      amount := PyFloat(amountRaw.value);
    }
  }
}
