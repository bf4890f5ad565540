/** String and number helpers of `utils.py`: address shortening, explorer links, symbol sanitising, nano conversions. */
module Utils {
  import opened Wrappers
  import opened Text
  import opened Json

  /**
   * `short_addr(addr, keep)`: "Unknown" for a missing or empty address; a short stripped address
   * as it is; otherwise the first `keep` characters, "..." and the last `keep` characters.
   * With `keep == 0` Python's `addr[-0:]` is the whole string, so the tail is the whole address.
   */
  function ShortAddr(addr: Option<string>, keep: nat): (r: string)
    ensures addr.None? || addr.value == [] ==> r == "Unknown"
    ensures addr.Some? && addr.value != [] ==>
              var s := Strip(addr.value);
              (|s| <= 2 * keep + 3 ==> r == s) && (|s| > 2 * keep + 3 ==> r == Abbreviate(s, keep))
  {
    if addr.None? || addr.value == [] then "Unknown"
    else
      var s := Strip(addr.value);
      if |s| <= keep * 2 + 3 then s
      else Abbreviate(s, keep)
  }

  /** `f"{addr[:keep]}...{addr[-keep:]}"` for an address longer than `2 * keep + 3`. */
  function Abbreviate(s: string, keep: nat): (r: string)
    requires |s| > 2 * keep + 3
    ensures keep > 0 ==>
              |r| == 2 * keep + 3 && r[..keep] == s[..keep] && r[keep..keep + 3] == "..." && r[keep + 3..] == s[|s| - keep..]
    ensures keep == 0 ==> r == "..." + s
  {
    if keep == 0 then "..." + s
    else
      var head, tail := s[..keep], s[|s| - keep..];
      var r := head + "..." + tail;
      assert r[..keep] == head && r[keep..keep + 3] == "..." && r[keep + 3..] == tail;
      r
  }

  const TonviewerTxPrefix: string := "https://tonviewer.com/transaction/"

  /** `tonviewer_tx_link(tx_hash)`: no link for a missing or empty hash, else the explorer URL of the stripped hash. */
  function TonviewerTxLink(txHash: Option<string>): (r: Option<string>)
    ensures r.Some? <==> txHash.Some? && txHash.value != []
    ensures r.Some? ==> StartsWith(r.value, TonviewerTxPrefix) && r.value[|TonviewerTxPrefix|..] == Strip(txHash.value)
  {
    if txHash.None? || txHash.value == [] then None
    else Some(TonviewerTxPrefix + Strip(txHash.value))
  }

  /** The character class `[A-Za-z0-9_$]` kept by `safe_symbol`. */
  predicate IsSymbolChar(c: char)
  {
    ('A' <= c <= 'Z') || ('a' <= c <= 'z') || ('0' <= c <= '9') || c == '_' || c == '$'
  }

  predicate AllSymbolChars(s: string)
  {
    forall i | 0 <= i < |s| :: IsSymbolChar(s[i])
  }

  /** `re.sub(r"[^A-Za-z0-9_$]", "", s)`: the symbol characters of `s`, in order. */
  function KeepSymbolChars(s: string): (r: string)
    ensures |r| <= |s| && AllSymbolChars(r)
    ensures |s| == 1 ==> r == (if IsSymbolChar(s[0]) then s else [])
  {
    if s == [] then []
    else if IsSymbolChar(s[0]) then [s[0]] + KeepSymbolChars(s[1..])
    else KeepSymbolChars(s[1..])
  }

  /** The filter works character by character: filtering a concatenation concatenates the filtered parts. */
  lemma {:induction false} KeepSymbolCharsAppend(a: string, b: string)
    ensures KeepSymbolChars(a + b) == KeepSymbolChars(a) + KeepSymbolChars(b)
    decreases |a|
  {
    if a == [] {
      assert a + b == b;
    } else {
      assert (a + b)[0] == a[0];
      assert (a + b)[1..] == a[1..] + b;
      KeepSymbolCharsAppend(a[1..], b);
    }
  }

  const MaxSymbolLength: nat := 16

  /**
   * `safe_symbol(sym)`: strip, drop every character outside `[A-Za-z0-9_$]`, keep at most 16;
   * "TOKEN" when nothing survives.
   */
  function SafeSymbol(sym: string): (r: string)
    ensures AllSymbolChars(r) && 1 <= |r| <= MaxSymbolLength
    ensures KeepSymbolChars(Strip(sym)) == [] ==> r == "TOKEN"
    ensures KeepSymbolChars(Strip(sym)) != [] ==> StartsWith(KeepSymbolChars(Strip(sym)), r)
    ensures KeepSymbolChars(Strip(sym)) != [] ==>
              |r| == if |KeepSymbolChars(Strip(sym))| <= MaxSymbolLength then |KeepSymbolChars(Strip(sym))| else MaxSymbolLength
  {
    var kept := KeepSymbolChars(Strip(sym));
    if kept != [] then (if |kept| <= MaxSymbolLength then kept else kept[..MaxSymbolLength]) else "TOKEN"
  }

  /** Filtering a string made only of symbol characters changes nothing. */
  lemma {:induction false} KeepSymbolCharsFixed(s: string)
    requires AllSymbolChars(s)
    ensures KeepSymbolChars(s) == s
  {
    if s != [] {
      assert AllSymbolChars(s[1..]) by {
        forall i | 0 <= i < |s[1..]| ensures IsSymbolChar(s[1..][i]) { assert s[1..][i] == s[i + 1]; }
      }
      KeepSymbolCharsFixed(s[1..]);
      assert s == [s[0]] + s[1..];
    }
  }

  /** A sanitised symbol is left as it is: symbol characters are never whitespace, and it fits in 16. */
  lemma {:induction false} SafeSymbolOfValid(s: string)
    requires AllSymbolChars(s) && 1 <= |s| <= MaxSymbolLength
    ensures SafeSymbol(s) == s
  {
    assert NoSpace(s) by {
      forall i | 0 <= i < |s| ensures !IsSpace(s[i]) { assert IsSymbolChar(s[i]); }
    }
    KeepSymbolCharsFixed(s);
  }

  /** `safe_symbol` is idempotent. */
  lemma {:induction false} SafeSymbolIdempotent(sym: string)
    ensures SafeSymbol(SafeSymbol(sym)) == SafeSymbol(sym)
  {
    SafeSymbolOfValid(SafeSymbol(sym));
  }

  const NanoPerTon: real := 1_000_000_000.0

  /** `nano_to_ton(n)`: `None` for `None` or anything `int()` rejects, else `int(n) / 1e9`. */
  function NanoToTon(n: Json): (r: Option<real>)
    ensures r.Some? <==> PyInt(n).Some?
    ensures r.Some? ==> r.value * NanoPerTon == PyInt(n).value as real
  {
    if n == JNull then None
    else match PyInt(n)
      case Some(v) => Some(v as real / NanoPerTon)
      case None => None
  }

  /** `10 ** decimals` as a number: an int for `decimals >= 0`, a float below 1 otherwise. */
  function Pow10Real(decimals: int): (p: real)
    ensures p > 0.0
  {
    if decimals >= 0 then Pow10(decimals) as real else 1.0 / Pow10(-decimals) as real
  }

  /** `nano_to_units(n, decimals)`: `None` for `None` or anything `int()` rejects, else `int(n) / 10**decimals`. */
  function NanoToUnits(n: Json, decimals: int): (r: Option<real>)
    ensures r.Some? <==> PyInt(n).Some?
    ensures r.Some? ==> r.value * Pow10Real(decimals) == PyInt(n).value as real
  {
    if n == JNull then None
    else match PyInt(n)
      case Some(v) => Some(v as real / Pow10Real(decimals))
      case None => None
  }

  /** With nine decimals the two conversions agree: TON is a jetton with nine decimals. */
  lemma {:induction false} NanoToUnitsNine(n: Json)
    ensures NanoToUnits(n, 9) == NanoToTon(n)
  {
    assert Pow10(9) == 1_000_000_000;
  }
}
