/**
 * The structural parts of the Telegram texts built by `formatters.py`: the strength meter
 * (how many dots a buy earns and how they are laid out in rows), the trending leaderboard
 * text with its three colour bands, and the headline and keyboard of channel and group posts.
 */
module Formatters {
  import opened Wrappers
  import opened Text
  import opened Json
  import opened Db

  /** The parts of a `BuyEvent` the rendering decisions read (the enrichment fields stay unset). */
  datatype BuyEvent = BuyEvent(
    dex: string,
    tokenSymbol: Option<string>,
    jettonAddress: Option<string>,
    tonAmount: Option<real>,
    usdAmount: Option<real>,
    jettonAmount: Option<real>,
    buyerAddress: Json,
    txHash: Json,
    rank: Option<int>)

  function Min(a: int, b: int): int
  {
    if a <= b then a else b
  }

  // ---------------------------------------------------------------------------------------
  // _strength_count and _grid

  /** `_strength_count(usd)`: how many dots a buy of `usd` dollars earns; 12 when the value is unknown. */
  function StrengthCount(usd: Option<real>): (n: nat)
    ensures n in {8, 12, 18, 24, 30}
    ensures usd.None? ==> n == 12
  {
    if usd.None? then 12
    else if usd.value < 50.0 then 8
    else if usd.value < 150.0 then 12
    else if usd.value < 400.0 then 18
    else if usd.value < 1000.0 then 24
    else 30
  }

  /** A bigger known buy never earns fewer dots. */
  lemma {:induction false} StrengthMonotone(a: real, b: real)
    requires a <= b
    ensures StrengthCount(Some(a)) <= StrengthCount(Some(b))
  {
  }

  /** `dot * n`. */
  function Repeat(c: char, n: int): (s: string)
    ensures |s| == if n < 0 then 0 else n
    ensures forall j | 0 <= j < |s| :: s[j] == c
  {
    if n <= 0 then [] else seq(n, _ => c)
  }

  /** The rows `_grid` builds for the `range(i, count, per_row)` still to go. */
  function GridRowsFrom(dot: char, count: int, perRow: nat, i: int): seq<string>
    requires perRow > 0
    decreases count - i
  {
    if i >= count then [] else [Repeat(dot, Min(perRow, count - i))] + GridRowsFrom(dot, count, perRow, i + perRow)
  }

  /** `"\n".join(lines)`. */
  function JoinLines(lines: seq<string>): string
  {
    if lines == [] then []
    else if |lines| == 1 then lines[0]
    else lines[0] + "\n" + JoinLines(lines[1..])
  }

  /** What `_grid(dot, count, per_row)` returns. */
  function GridText(dot: char, count: int, perRow: nat): string
    requires perRow > 0
  {
    JoinLines(GridRowsFrom(dot, count, perRow, 0))
  }

  /** `_grid(dot, count, per_row)`: one row per step of `range(0, count, per_row)`, then joined. */
  method Grid(dot: char, count: int, perRow: nat) returns (text: string)
    requires perRow > 0
    ensures text == GridText(dot, count, perRow)
  {
    var rows: seq<string> := [];
    var i := 0;
    while i < count
      invariant rows + GridRowsFrom(dot, count, perRow, i) == GridRowsFrom(dot, count, perRow, 0)
      decreases count - i
    {
      rows := rows + [Repeat(dot, Min(perRow, count - i))];
      i := i + perRow;
    }
    assert rows + [] == rows;
    text := JoinLines(rows);
  }

  function CountChar(s: string, c: char): nat
  {
    if s == [] then 0 else CountChar(s[..|s| - 1], c) + (if s[|s| - 1] == c then 1 else 0)
  }

  lemma {:induction false} CountCharAppend(a: string, b: string, c: char)
    ensures CountChar(a + b, c) == CountChar(a, c) + CountChar(b, c)
    decreases |b|
  {
    if b == [] {
      assert a + b == a;
    } else {
      assert (a + b)[..|a + b| - 1] == a + b[..|b| - 1];
      CountCharAppend(a, b[..|b| - 1], c);
    }
  }

  lemma {:induction false} CountCharRepeat(c: char, n: nat)
    ensures CountChar(Repeat(c, n), c) == n
  {
    if n > 0 {
      assert Repeat(c, n)[..n - 1] == Repeat(c, n - 1);
      CountCharRepeat(c, n - 1);
    }
  }

  /** Total length of the rows. */
  function TotalLength(rows: seq<string>): nat
  {
    if rows == [] then 0 else |rows[0]| + TotalLength(rows[1..])
  }

  /**
   * The rows from position `i` on: ⌈(count − i)/per_row⌉ of them, all of `per_row` dots except
   * the last, which holds between 1 and `per_row`; together exactly `count − i` dots.
   */
  lemma {:induction false} GridRowsFromShape(dot: char, count: int, perRow: nat, i: int)
    requires perRow > 0
    ensures var rows := GridRowsFrom(dot, count, perRow, i);
      && (i >= count ==> rows == [])
      && (i < count ==> (|rows| - 1) * perRow < count - i <= |rows| * perRow)
      && (forall k | 0 <= k < |rows| - 1 :: rows[k] == Repeat(dot, perRow))
      && (rows != [] ==> 1 <= |rows[|rows| - 1]| <= perRow)
      && (forall k | 0 <= k < |rows| :: rows[k] == Repeat(dot, |rows[k]|))
      && TotalLength(rows) == (if i >= count then 0 else count - i)
  {
    GridRowsCount(dot, count, perRow, i);
    GridRowsRuns(dot, count, perRow, i);
    GridRowsTotal(dot, count, perRow, i);
  }

  lemma {:induction false} GridRowsCount(dot: char, count: int, perRow: nat, i: int)
    requires perRow > 0
    ensures var rows := GridRowsFrom(dot, count, perRow, i);
      && (i >= count <==> rows == [])
      && (i < count ==> (|rows| - 1) * perRow < count - i <= |rows| * perRow)
    decreases count - i
  {
    if i < count {
      var rest := GridRowsFrom(dot, count, perRow, i + perRow);
      GridRowsCount(dot, count, perRow, i + perRow);
      assert |GridRowsFrom(dot, count, perRow, i)| == |rest| + 1;
      assert (|rest| + 1) * perRow == |rest| * perRow + perRow;
      if rest != [] {
        assert (|rest| - 1) * perRow == |rest| * perRow - perRow;
      }
    }
  }

  lemma {:induction false} GridRowsRuns(dot: char, count: int, perRow: nat, i: int)
    requires perRow > 0
    ensures var rows := GridRowsFrom(dot, count, perRow, i);
      && (forall k | 0 <= k < |rows| - 1 :: rows[k] == Repeat(dot, perRow))
      && (rows != [] ==> 1 <= |rows[|rows| - 1]| <= perRow)
      && (forall k | 0 <= k < |rows| :: rows[k] == Repeat(dot, |rows[k]|))
    decreases count - i
  {
    if i < count {
      var rows := GridRowsFrom(dot, count, perRow, i);
      var rest := GridRowsFrom(dot, count, perRow, i + perRow);
      GridRowsRuns(dot, count, perRow, i + perRow);
      GridRowsCount(dot, count, perRow, i + perRow);
      assert rows == [Repeat(dot, Min(perRow, count - i))] + rest;
      forall k | 0 <= k < |rows| ensures rows[k] == Repeat(dot, |rows[k]|) {
        if k > 0 { assert rows[k] == rest[k - 1]; }
      }
      forall k | 0 <= k < |rows| - 1 ensures rows[k] == Repeat(dot, perRow) {
        if k > 0 { assert rows[k] == rest[k - 1]; }
      }
      if rest != [] {
        assert rows[|rows| - 1] == rest[|rest| - 1];
      }
    }
  }

  lemma {:induction false} GridRowsTotal(dot: char, count: int, perRow: nat, i: int)
    requires perRow > 0
    ensures TotalLength(GridRowsFrom(dot, count, perRow, i)) == (if i >= count then 0 else count - i)
    decreases count - i
  {
    if i < count {
      var rows := GridRowsFrom(dot, count, perRow, i);
      var rest := GridRowsFrom(dot, count, perRow, i + perRow);
      GridRowsTotal(dot, count, perRow, i + perRow);
      assert rows[1..] == rest;
    }
  }

  lemma {:induction false} JoinLinesCount(rows: seq<string>, dot: char)
    requires dot != '\n'
    requires forall k | 0 <= k < |rows| :: rows[k] == Repeat(dot, |rows[k]|)
    ensures CountChar(JoinLines(rows), dot) == TotalLength(rows)
  {
    if rows != [] {
      CountCharRepeat(dot, |rows[0]|);
      if |rows| == 1 {
        assert rows[1..] == [];
      } else {
        JoinLinesCount(rows[1..], dot);
        CountCharAppend(rows[0], "\n", dot);
        CountCharAppend(rows[0] + "\n", JoinLines(rows[1..]), dot);
        assert CountChar("\n", dot) == 0 by { assert "\n"[..0] == []; }
      }
    }
  }

  /**
   * `_grid(dot, count, per_row)`: empty for `count <= 0`; otherwise ⌈count/per_row⌉ rows, each
   * full except possibly the last, and exactly `count` dots in the text.
   */
  lemma {:induction false} GridShape(dot: char, count: int, perRow: nat)
    requires perRow > 0 && dot != '\n'
    ensures count <= 0 ==> GridText(dot, count, perRow) == []
    ensures var rows := GridRowsFrom(dot, count, perRow, 0);
      && (count > 0 ==> (|rows| - 1) * perRow < count <= |rows| * perRow)
      && (forall k | 0 <= k < |rows| - 1 :: rows[k] == Repeat(dot, perRow))
      && (rows != [] ==> 1 <= |rows[|rows| - 1]| <= perRow)
    ensures CountChar(GridText(dot, count, perRow), dot) == if count <= 0 then 0 else count
  {
    GridRowsFromShape(dot, count, perRow, 0);
    JoinLinesCount(GridRowsFrom(dot, count, perRow, 0), dot);
  }

  // ---------------------------------------------------------------------------------------
  // format_leaderboard

  const RedBlock: char := '\U{1F7E5}'
  const BlackBlock: char := '\U{2B1B}'
  const GreenBlock: char := '\U{1F7E9}'

  /** The separator line: fourteen box-drawing horizontals. */
  const Separator: string := "\U{2500}\U{2500}\U{2500}\U{2500}\U{2500}\U{2500}\U{2500}\U{2500}\U{2500}\U{2500}\U{2500}\U{2500}\U{2500}\U{2500}"

  /** The colour band of a leaderboard rank. */
  function Block(rank: int): char
  {
    if rank <= 3 then RedBlock else if rank <= 10 then BlackBlock else GreenBlock
  }

  /** `row(rank, key)`: `"{block} {rank} - ${key}"`. */
  function RowText(rank: int, key: string): string
  {
    [Block(rank)] + " " + IntToString(rank) + " - $" + key
  }

  function Header(u: string): (h: string)
    ensures h != [] && h[0] == '\U{1F534}'
    ensures |h| >= |u| && h[|h| - |u|..] == u
  {
    "\U{1F534} @" + u
  }

  function Footer(u: string): (f: string)
    ensures f != [] && f[|f| - 1] == 's'
    ensures |f| >= |u| + 17 && f[|f| - |u| - 17..|f| - 17] == u && f[|f| - 17..] == " every 10 seconds"
  {
    "\U{2139}\U{FE0F} Trending data is automatically updated by @" + u + " every 10 seconds"
  }

  /** The rows for `items`, numbered from `start`. */
  function RowLines(items: seq<LeaderRow>, start: int): (lines: seq<string>)
    ensures |lines| == |items|
  {
    seq(|items|, k requires 0 <= k < |items| => RowText(start + k, items[k].key))
  }

  /** Python's `items[a:b]` for `0 <= a <= b`. */
  function Slice(items: seq<LeaderRow>, a: nat, b: nat): (s: seq<LeaderRow>)
    requires a <= b
  {
    items[Min(a, |items|)..Min(b, |items|)]
  }

  /** Header, blank line, three bands split by separators, blank line, footer. */
  function Framed(head: string, b1: seq<string>, b2: seq<string>, b3: seq<string>, foot: string): (lines: seq<string>)
    ensures |lines| == |b1| + |b2| + |b3| + 6
  {
    [head, ""] + b1 + [Separator] + b2 + [Separator] + b3 + ["", foot]
  }

  /** The lines `format_leaderboard` joins: header, the three bands with their separators, footer. */
  function LeaderboardLines(items: seq<LeaderRow>, updatedBy: string): (lines: seq<string>)
    ensures |lines| == Min(15, |items|) + 6
  {
    var u := StripLeading(updatedBy, '@');
    LeaderboardPieces(items);
    Framed(Header(u), RowLines(Slice(items, 0, 3), 1), RowLines(Slice(items, 3, 10), 4), RowLines(Slice(items, 10, 15), 11), Footer(u))
  }

  /** The header, footer and separators of a framed text. */
  lemma {:induction false} FramedAt(head: string, b1: seq<string>, b2: seq<string>, b3: seq<string>, foot: string)
    ensures var lines := Framed(head, b1, b2, b3, foot);
      && lines[0] == head && lines[|lines| - 1] == foot
      && lines[2 + |b1|] == Separator && lines[3 + |b1| + |b2|] == Separator
  {
    var p2 := [head, ""] + b1 + [Separator];
    var p3 := p2 + b2 + [Separator];
    var lines := p3 + b3 + ["", foot];
    assert lines == Framed(head, b1, b2, b3, foot);
    assert lines[2 + |b1|] == p3[2 + |b1|] == p2[2 + |b1|];
    assert lines[3 + |b1| + |b2|] == p3[3 + |b1| + |b2|];
  }

  /** Line `2 + k` of a framed text is row `k` of the first band. */
  lemma {:induction false} FramedFirstBand(head: string, b1: seq<string>, b2: seq<string>, b3: seq<string>, foot: string, k: nat)
    requires k < |b1|
    ensures Framed(head, b1, b2, b3, foot)[2 + k] == b1[k]
  {
    var p2 := [head, ""] + b1;
    assert Framed(head, b1, b2, b3, foot) == p2 + ([Separator] + b2 + [Separator] + b3 + ["", foot]);
    assert p2[2 + k] == b1[k];
  }

  /** Line `3 + |b1| + k` of a framed text is row `k` of the second band. */
  lemma {:induction false} FramedSecondBand(head: string, b1: seq<string>, b2: seq<string>, b3: seq<string>, foot: string, k: nat)
    requires k < |b2|
    ensures Framed(head, b1, b2, b3, foot)[3 + |b1| + k] == b2[k]
  {
    var p := [head, ""] + b1 + [Separator];
    var p3 := p + b2;
    assert Framed(head, b1, b2, b3, foot) == p3 + ([Separator] + b3 + ["", foot]);
    assert p3[|p| + k] == b2[k];
  }

  /** Line `4 + |b1| + |b2| + k` of a framed text is row `k` of the third band. */
  lemma {:induction false} FramedThirdBand(head: string, b1: seq<string>, b2: seq<string>, b3: seq<string>, foot: string, k: nat)
    requires k < |b3|
    ensures Framed(head, b1, b2, b3, foot)[4 + |b1| + |b2| + k] == b3[k]
  {
    var p := [head, ""] + b1 + [Separator] + b2 + [Separator];
    var p4 := p + b3;
    assert Framed(head, b1, b2, b3, foot) == p4 + ["", foot];
    assert p4[|p| + k] == b3[k];
  }

  /** The three bands of `format_leaderboard` hold min(3, n), min(10, n) − min(3, n) and min(15, n) − min(10, n) rows. */
  lemma {:induction false} LeaderboardPieces(items: seq<LeaderRow>)
    ensures var b1, b2, b3 := RowLines(Slice(items, 0, 3), 1), RowLines(Slice(items, 3, 10), 4), RowLines(Slice(items, 10, 15), 11);
      && |b1| == Min(3, |items|)
      && |b2| == Min(10, |items|) - Min(3, |items|)
      && |b3| == Min(15, |items|) - Min(10, |items|)
  {
  }

  /** Row `k` (0-based) of a band that starts at item `a` and rank `a + 1` shows rank `k + 1` and item `k`. */
  lemma {:induction false} BandRow(items: seq<LeaderRow>, a: nat, b: nat, k: nat)
    requires a <= b && Min(a, |items|) <= k < Min(b, |items|)
    ensures RowLines(Slice(items, a, b), a + 1)[k - a] == RowText(k + 1, items[k].key)
  {
  }

  /**
   * What the lines of `format_leaderboard` look like for `items` and the name `u`: `min(15, |items|) + 6`
   * lines, the header first and the footer last, both separators always present after the first
   * and second bands, and the first `min(15, |items|)` keys numbered 1, 2, … in order, red above the
   * first separator, black between the two and green below.
   */
  predicate LaidOut(lines: seq<string>, items: seq<LeaderRow>, u: string)
  {
    var n1, n2, n3 := Min(3, |items|), Min(10, |items|), Min(15, |items|);
    && |lines| == n3 + 6
    && lines[0] == Header(u) && lines[|lines| - 1] == Footer(u)
    && lines[2 + n1] == Separator && lines[3 + n2] == Separator
    && (forall k | 0 <= k < n1 :: lines[2 + k] == RowText(k + 1, items[k].key) && Block(k + 1) == RedBlock)
    && (forall k | n1 <= k < n2 :: lines[3 + k] == RowText(k + 1, items[k].key) && Block(k + 1) == BlackBlock)
    && (forall k | n2 <= k < n3 :: lines[4 + k] == RowText(k + 1, items[k].key) && Block(k + 1) == GreenBlock)
  }

  /** `format_leaderboard` lays its lines out as `LaidOut` says, with the name stripped of leading `@`. */
  lemma {:induction false} LeaderboardLayout(items: seq<LeaderRow>, updatedBy: string)
    ensures LaidOut(LeaderboardLines(items, updatedBy), items, StripLeading(updatedBy, '@'))
  {
    var u := StripLeading(updatedBy, '@');
    FramedLaidOut(items, u);
  }

  /** The bands of `items` framed by the header and footer of `u` are laid out as `LaidOut` says. */
  lemma {:induction false} FramedLaidOut(items: seq<LeaderRow>, u: string)
    ensures LaidOut(Framed(Header(u), RowLines(Slice(items, 0, 3), 1), RowLines(Slice(items, 3, 10), 4), RowLines(Slice(items, 10, 15), 11), Footer(u)), items, u)
  {
    var n1, n2, n3 := Min(3, |items|), Min(10, |items|), Min(15, |items|);
    var h, f := Header(u), Footer(u);
    var b1, b2, b3 := RowLines(Slice(items, 0, 3), 1), RowLines(Slice(items, 3, 10), 4), RowLines(Slice(items, 10, 15), 11);
    LeaderboardPieces(items);
    var lines := Framed(h, b1, b2, b3, f);
    FramedAt(h, b1, b2, b3, f);
    forall k | 0 <= k < n1 ensures lines[2 + k] == RowText(k + 1, items[k].key) {
      BandRow(items, 0, 3, k);
      FramedFirstBand(h, b1, b2, b3, f, k);
    }
    forall k | n1 <= k < n2 ensures lines[3 + k] == RowText(k + 1, items[k].key) {
      BandRow(items, 3, 10, k);
      FramedSecondBand(h, b1, b2, b3, f, k - 3);
    }
    forall k | n2 <= k < n3 ensures lines[4 + k] == RowText(k + 1, items[k].key) {
      BandRow(items, 10, 15, k);
      FramedThirdBand(h, b1, b2, b3, f, k - 10);
    }
  }

  lemma {:induction false} JoinLinesEdges(lines: seq<string>)
    requires lines != [] && lines[0] != [] && lines[|lines| - 1] != []
    ensures JoinLines(lines) != []
    ensures JoinLines(lines)[0] == lines[0][0]
    ensures JoinLines(lines)[|JoinLines(lines)| - 1] == lines[|lines| - 1][|lines[|lines| - 1]| - 1]
  {
    if |lines| > 1 {
      var rest := lines[1..];
      assert rest[|rest| - 1] == lines[|lines| - 1];
      JoinLinesEdgesTail(rest);
    }
  }

  lemma {:induction false} JoinLinesEdgesTail(lines: seq<string>)
    requires lines != [] && lines[|lines| - 1] != []
    ensures JoinLines(lines) != []
    ensures JoinLines(lines)[|JoinLines(lines)| - 1] == lines[|lines| - 1][|lines[|lines| - 1]| - 1]
  {
    if |lines| > 1 {
      var rest := lines[1..];
      assert rest[|rest| - 1] == lines[|lines| - 1];
      JoinLinesEdgesTail(rest);
    }
  }

  /** `strip()` leaves a text alone whose first and last characters are not whitespace. */
  lemma {:induction false} StripNoEdgeSpace(s: string)
    requires s != [] && !IsSpace(s[0]) && !IsSpace(s[|s| - 1])
    ensures Strip(s) == s
  {
  }

  /** One `for i, it in enumerate(band, start=first): lines.append(row(i, it["key"]))` loop. */
  method AppendRows(lines: seq<string>, band: seq<LeaderRow>, first: int) returns (out: seq<string>)
    ensures out == lines + RowLines(band, first)
  {
    out := lines;
    var i := 0;
    while i < |band|
      invariant 0 <= i <= |band|
      invariant out == lines + RowLines(band[..i], first)
    {
      assert RowLines(band[..i + 1], first) == RowLines(band[..i], first) + [RowText(first + i, band[i].key)];
      out := out + [RowText(first + i, band[i].key)];
      i := i + 1;
    }
    assert band[..|band|] == band;
  }

  /** `format_leaderboard(items, updated_by)`: builds the lines band by band, then joins and strips. */
  method FormatLeaderboard(items: seq<LeaderRow>, updatedBy: string) returns (text: string)
    ensures text == JoinLines(LeaderboardLines(items, updatedBy))
  {
    var u := StripLeading(updatedBy, '@');
    var lines := [Header(u), ""];
    lines := AppendRows(lines, Slice(items, 0, 3), 1);
    lines := lines + [Separator];
    lines := AppendRows(lines, Slice(items, 3, 10), 4);
    lines := lines + [Separator];
    lines := AppendRows(lines, Slice(items, 10, 15), 11);
    lines := lines + ["", Footer(u)];
    assert lines == LeaderboardLines(items, updatedBy);
    LeaderboardTextStripped(items, updatedBy);
    text := Strip(JoinLines(lines));
  }

  /** The joined leaderboard text starts with the header's circle and ends with the footer's `s`, so `strip()` keeps it whole. */
  lemma {:induction false} LeaderboardTextStripped(items: seq<LeaderRow>, updatedBy: string)
    ensures Strip(JoinLines(LeaderboardLines(items, updatedBy))) == JoinLines(LeaderboardLines(items, updatedBy))
  {
    var lines := LeaderboardLines(items, updatedBy);
    LeaderboardLayout(items, updatedBy);
    JoinLinesEdges(lines);
    StripNoEdgeSpace(JoinLines(lines));
  }

  // ---------------------------------------------------------------------------------------
  // format_channel_buy / format_group_buy: headline, meter and keyboard

  datatype Button = Button(text: string, url: string)

  /** An inline keyboard: rows of buttons. */
  datatype Keyboard = Keyboard(rows: seq<seq<Button>>)

  /** The structural parts of a buy post: its headline line, its dot meter and its keyboard. */
  datatype Post = Post(headline: string, meter: string, keyboard: Option<Keyboard>)

  const ChannelDot: char := '\U{1F7E2}'
  const GroupDot: char := '\U{1F53B}'
  const BookTrendingText: string := "\U{1F525} Book Trending"
  const GridPerRow: nat := 12

  /** `ev.token_symbol or "TOKEN"`. */
  function SymbolOf(ev: BuyEvent): (s: string)
    ensures s != []
  {
    if ev.tokenSymbol.Some? && ev.tokenSymbol.value != [] then ev.tokenSymbol.value else "TOKEN"
  }

  /** A present, non-empty symbol is shown as it is; a missing or empty one shows as `TOKEN`. */
  lemma SymbolOfCases(ev: BuyEvent)
    ensures ev.tokenSymbol.Some? && ev.tokenSymbol.value != [] ==> SymbolOf(ev) == ev.tokenSymbol.value
    ensures ev.tokenSymbol.None? || ev.tokenSymbol.value == [] ==> SymbolOf(ev) == "TOKEN"
  {
  }

  /** `f"[{ev.rank}] " if ev.rank else ""`: a rank of 0 is falsy like a missing one. */
  function RankPrefix(rank: Option<int>): (p: string)
    ensures p == [] <==> rank.None? || rank.value == 0
    ensures p != [] ==> p == "[" + IntToString(rank.value) + "] "
  {
    if rank.Some? && rank.value != 0 then "[" + IntToString(rank.value) + "] " else ""
  }

  /** The second line, the green meter and the single "Book Trending" button of `format_channel_buy`. */
  function ChannelPost(ev: BuyEvent, bookTrendingUrl: string): Post
  {
    Post(RankPrefix(ev.rank) + "$" + SymbolOf(ev) + " Buy!",
         GridText(ChannelDot, StrengthCount(ev.usdAmount), GridPerRow),
         Some(Keyboard([[Button(BookTrendingText, bookTrendingUrl)]])))
  }

  /** The first line and the red meter of `format_group_buy`, which returns no keyboard. */
  function GroupPost(ev: BuyEvent, bookTrendingUrl: string): Post
  {
    Post(SymbolOf(ev) + " Buy!", GridText(GroupDot, StrengthCount(ev.usdAmount), GridPerRow), None)
  }

  /**
   * The two posts of one buy: the channel headline is the group headline behind an optional rank
   * prefix and a `$`; both meters hold the same number of dots, laid out twelve to a row; only the
   * channel post carries a keyboard, one button linking to the given URL.
   */
  lemma {:induction false} ChannelAndGroupPosts(ev: BuyEvent, url: string)
    ensures var c, g := ChannelPost(ev, url), GroupPost(ev, url);
      && c.headline == RankPrefix(ev.rank) + "$" + g.headline
      && CountChar(c.meter, ChannelDot) == StrengthCount(ev.usdAmount)
      && CountChar(g.meter, GroupDot) == StrengthCount(ev.usdAmount)
      && g.keyboard.None?
      && c.keyboard.Some? && |c.keyboard.value.rows| == 1 && |c.keyboard.value.rows[0]| == 1
      && c.keyboard.value.rows[0][0].url == url
  {
    GridShape(ChannelDot, StrengthCount(ev.usdAmount), GridPerRow);
    GridShape(GroupDot, StrengthCount(ev.usdAmount), GridPerRow);
  }
}
