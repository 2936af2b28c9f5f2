/** The session aggregation of `run` and the day selection of `fetch_recent_days`:
    bars of several days are grouped by calendar day, each day in ascending order is
    run through a fresh engine, and the summaries and date-tagged trades are collected. */
module Sessions {
  import opened Wrappers
  import Engine

  /** A bar of the multi-day series: its calendar day (a day number, so that the order
      of numbers is the order of dates), its time in seconds and its close. */
  datatype DatedBar = DatedBar(day: int, time: int, close: real)

  /** One row of the summary table: a day's summary with its date. `None` is the empty
      summary of an empty session, which leaves a row holding only the date. */
  datatype DayRow = DayRow(date: int, summary: Option<Engine.Summary>)

  /** One row of the consolidated ledger: a trade with the date of its session. */
  datatype DatedTrade = DatedTrade(date: int, trade: Engine.Trade)

  /** The per-session engine the aggregation calls: one day's bars in, that day's ledger
      and summary out. `run` uses `backtest_day`, that is `Engine.Simulate`; the shape of
      the aggregation does not depend on what the engine computes. */
  type Backtest = seq<Engine.Bar> -> Engine.DayResult

  predicate StrictlyIncreasing(xs: seq<int>)
  {
    forall i, j :: 0 <= i < j < |xs| ==> xs[i] < xs[j]
  }

  /** The `__day__` column. */
  function DayKeys(bars: seq<DatedBar>): (keys: seq<int>)
    ensures |keys| == |bars|
    ensures forall i :: 0 <= i < |bars| ==> keys[i] == bars[i].day
  {
    seq(|bars|, i requires 0 <= i < |bars| => bars[i].day)
  }

  /** Inserts `x` into a strictly increasing sequence, unless it is already there. */
  function Insert(sorted: seq<int>, x: int): (r: seq<int>)
    requires StrictlyIncreasing(sorted)
    ensures StrictlyIncreasing(r)
    ensures forall y :: y in r <==> y in sorted || y == x
  {
    if |sorted| == 0 then [x]
    else if x < sorted[0] then [x] + sorted
    else if x == sorted[0] then sorted
    else
      var rest := Insert(sorted[1..], x);
      assert forall y :: y in sorted[1..] ==> sorted[0] < y;
      assert forall j :: 0 <= j < |rest| ==> sorted[0] < rest[j] by {
        forall j | 0 <= j < |rest|
          ensures sorted[0] < rest[j]
        {
          assert rest[j] in rest;
        }
      }
      [sorted[0]] + rest
  }

  /** `sorted(set(xs))`: the distinct values of `xs` in ascending order. */
  function SortedUnique(xs: seq<int>): (r: seq<int>)
    ensures StrictlyIncreasing(r)
    ensures forall y :: y in r <==> y in xs
  {
    if |xs| == 0 then []
    else
      var front := SortedUnique(xs[..|xs| - 1]);
      assert forall y :: y in xs <==> y in xs[..|xs| - 1] || y == xs[|xs| - 1] by {
        assert xs == xs[..|xs| - 1] + [xs[|xs| - 1]];
      }
      Insert(front, xs[|xs| - 1])
  }

  /** A sequence with no members is empty. */
  lemma NoneIn(a: seq<int>, b: seq<int>)
    requires forall y :: y in a <==> y in b
    requires |a| == 0
    ensures |b| == 0
  {
    forall y
      ensures multiset(b)[y] == 0
    {
      assert y !in a;
    }
    assert multiset(b) == multiset{};
  }

  lemma SameEmptiness(a: seq<int>, b: seq<int>)
    requires forall y :: y in a <==> y in b
    ensures |a| == 0 <==> |b| == 0
  {
    if |a| == 0 {
      NoneIn(a, b);
    }
    if |b| == 0 {
      NoneIn(b, a);
    }
  }

  /** A set of numbers has one ascending arrangement without repetitions. */
  lemma {:induction false} AscendingIsUnique(a: seq<int>, b: seq<int>)
    requires StrictlyIncreasing(a) && StrictlyIncreasing(b)
    requires forall y :: y in a <==> y in b
    ensures a == b
    decreases |a|
  {
    SameEmptiness(a, b);
    if |a| > 0 {
      assert a[0] in b && b[0] in a;
      var i :| 0 <= i < |a| && a[i] == b[0];
      var j :| 0 <= j < |b| && b[j] == a[0];
      assert a[0] <= a[i] && b[0] <= b[j];
      forall y
        ensures y in a[1..] <==> y in b[1..]
      {
        if y in a[1..] {
          assert y in a && y > a[0];
        }
        if y in b[1..] {
          assert y in b && y > b[0];
        }
      }
      AscendingIsUnique(a[1..], b[1..]);
      assert a == [a[0]] + a[1..] && b == [b[0]] + b[1..];
    }
  }

  /** The days of the series in the order `groupby` visits them: ascending, each once. */
  function Days(bars: seq<DatedBar>): (days: seq<int>)
    ensures StrictlyIncreasing(days)
    ensures forall d :: d in days <==> d in DayKeys(bars)
  {
    SortedUnique(DayKeys(bars))
  }

  /** The bars of day `d`, in their original order, without the day column. */
  function Chunk(bars: seq<DatedBar>, d: int): (chunk: seq<Engine.Bar>)
    ensures |chunk| > 0 <==> d in DayKeys(bars)
    ensures |chunk| <= |bars|
  {
    if |bars| == 0 then []
    else
      var n := |bars|;
      var b := bars[n - 1];
      assert DayKeys(bars) == DayKeys(bars[..n - 1]) + [b.day];
      Chunk(bars[..n - 1], d) + (if b.day == d then [Engine.Bar(b.time, b.close)] else [])
  }

  /** Grouping commutes with concatenation, so a chunk keeps the order of the series. */
  lemma {:induction false} ChunkAppend(a: seq<DatedBar>, b: seq<DatedBar>, d: int)
    ensures Chunk(a + b, d) == Chunk(a, d) + Chunk(b, d)
    decreases |b|
  {
    if |b| == 0 {
      assert a + b == a;
    } else {
      var n := |b|;
      var last := b[n - 1];
      var tail := if last.day == d then [Engine.Bar(last.time, last.close)] else [];
      assert (a + b)[..|a + b| - 1] == a + b[..n - 1];
      assert (a + b)[|a + b| - 1] == last;
      assert Chunk(a + b, d) == Chunk(a + b[..n - 1], d) + tail;
      assert Chunk(b, d) == Chunk(b[..n - 1], d) + tail;
      ChunkAppend(a, b[..n - 1], d);
    }
  }

  /** Every bar lands in the chunk of its own day. */
  lemma ChunkHasBar(bars: seq<DatedBar>, k: nat)
    requires k < |bars|
    ensures Engine.Bar(bars[k].time, bars[k].close) in Chunk(bars, bars[k].day)
  {
    var d := bars[k].day;
    ChunkAppend(bars[..k + 1], bars[k + 1..], d);
    assert bars == bars[..k + 1] + bars[k + 1..];
    assert bars[..k + 1][..k] == bars[..k];
  }

  /** A chunk holds nothing but bars of its own day. */
  lemma {:induction false} ChunkOnlyDay(bars: seq<DatedBar>, d: int, x: Engine.Bar)
    requires x in Chunk(bars, d)
    ensures exists k :: 0 <= k < |bars| && bars[k].day == d && x == Engine.Bar(bars[k].time, bars[k].close)
    decreases |bars|
  {
    var n := |bars|;
    var front := bars[..n - 1];
    if x in Chunk(front, d) {
      ChunkOnlyDay(front, d, x);
      var k :| 0 <= k < |front| && front[k].day == d && x == Engine.Bar(front[k].time, front[k].close);
      assert bars[k] == front[k];
    } else {
      assert bars[n - 1].day == d && x == Engine.Bar(bars[n - 1].time, bars[n - 1].close);
    }
  }

  /** The total number of bars in the chunks of `days`. */
  function ChunkSizes(bars: seq<DatedBar>, days: seq<int>): nat
  {
    if |days| == 0 then 0
    else ChunkSizes(bars, days[..|days| - 1]) + |Chunk(bars, days[|days| - 1])|
  }

  /** How often `x` occurs in `xs`. */
  function Occurrences(xs: seq<int>, x: int): nat
  {
    if |xs| == 0 then 0
    else Occurrences(xs[..|xs| - 1], x) + (if xs[|xs| - 1] == x then 1 else 0)
  }

  lemma {:induction false} OccursOnce(xs: seq<int>, x: int)
    requires StrictlyIncreasing(xs)
    ensures Occurrences(xs, x) == if x in xs then 1 else 0
    decreases |xs|
  {
    if |xs| > 0 {
      var front := xs[..|xs| - 1];
      var last := xs[|xs| - 1];
      assert StrictlyIncreasing(front);
      OccursOnce(front, x);
      assert xs == front + [last];
      assert last !in front;
    }
  }

  lemma {:induction false} NoBarsNoSizes(bars: seq<DatedBar>, days: seq<int>)
    requires |bars| == 0
    ensures ChunkSizes(bars, days) == 0
    decreases |days|
  {
    if |days| > 0 {
      NoBarsNoSizes(bars, days[..|days| - 1]);
    }
  }

  /** The last bar adds one to the chunk of its day, once for each time that day is listed. */
  lemma {:induction false} ChunkSizesStep(bars: seq<DatedBar>, days: seq<int>)
    requires |bars| > 0
    ensures ChunkSizes(bars, days)
            == ChunkSizes(bars[..|bars| - 1], days) + Occurrences(days, bars[|bars| - 1].day)
    decreases |days|
  {
    if |days| > 0 {
      ChunkSizesStep(bars, days[..|days| - 1]);
    }
  }

  /** The chunks of distinct days hold exactly the bars of those days. */
  lemma {:induction false} ChunkSizesCount(bars: seq<DatedBar>, days: seq<int>)
    requires StrictlyIncreasing(days)
    ensures ChunkSizes(bars, days) == |KeepDays(bars, days)|
    decreases |bars|
  {
    if |bars| == 0 {
      NoBarsNoSizes(bars, days);
    } else {
      ChunkSizesStep(bars, days);
      OccursOnce(days, bars[|bars| - 1].day);
      ChunkSizesCount(bars[..|bars| - 1], days);
    }
  }

  lemma {:induction false} KeepAll(bars: seq<DatedBar>, keep: seq<int>)
    requires forall k :: 0 <= k < |bars| ==> bars[k].day in keep
    ensures KeepDays(bars, keep) == bars
    decreases |bars|
  {
    if |bars| > 0 {
      KeepAll(bars[..|bars| - 1], keep);
      assert bars == bars[..|bars| - 1] + [bars[|bars| - 1]];
    }
  }

  /** The chunks of `groupby` partition the series: every bar is in its own day's chunk,
      and together the chunks hold as many bars as the series, so none is in two. */
  lemma ChunksPartition(bars: seq<DatedBar>)
    ensures ChunkSizes(bars, Days(bars)) == |bars|
    ensures forall k :: 0 <= k < |bars| ==>
              Engine.Bar(bars[k].time, bars[k].close) in Chunk(bars, bars[k].day)
  {
    var days := Days(bars);
    ChunkSizesCount(bars, days);
    forall k | 0 <= k < |bars|
      ensures bars[k].day in days
    {
      assert DayKeys(bars)[k] == bars[k].day;
    }
    KeepAll(bars, days);
    forall k | 0 <= k < |bars|
      ensures Engine.Bar(bars[k].time, bars[k].close) in Chunk(bars, bars[k].day)
    {
      ChunkHasBar(bars, k);
    }
  }

  // ---------------------------------------------------------------------------------
  // Day selection (`fetch_recent_days`, lines 78-80)

  /** Python's `days[-n:]`: the last `n` entries for positive `n`; all of them for
      `n == 0` (since `-0` is `0`); all but the first `-n` for negative `n`. */
  function KeepLast(days: seq<int>, n: int): (kept: seq<int>)
    ensures |kept| <= |days| && kept == days[|days| - |kept|..]
    ensures n > 0 ==> |kept| == (if n < |days| then n else |days|)
    ensures n == 0 ==> kept == days
    ensures n < 0 ==> |kept| == (if -n < |days| then |days| + n else 0)
  {
    var start :=
      if n > 0 then (if n < |days| then |days| - n else 0)
      else if n == 0 then 0
      else if -n < |days| then -n else |days|;
    days[start..]
  }

  /** The bars whose day is one of `keep` (`out[out["__day__"].isin(keep_days)]`). */
  function KeepDays(bars: seq<DatedBar>, keep: seq<int>): (kept: seq<DatedBar>)
    ensures forall d :: d in DayKeys(kept) <==> d in DayKeys(bars) && d in keep
  {
    if |bars| == 0 then []
    else
      var n := |bars|;
      var b := bars[n - 1];
      var front := KeepDays(bars[..n - 1], keep);
      var r := front + (if b.day in keep then [b] else []);
      assert DayKeys(bars) == DayKeys(bars[..n - 1]) + [b.day];
      assert DayKeys(r) == DayKeys(front) + (if b.day in keep then [b.day] else []);
      r
  }

  /** The day-selection step: only the bars of the last `n` distinct days. */
  function SelectRecentDays(bars: seq<DatedBar>, n: int): (selected: seq<DatedBar>)
    ensures forall d :: d in DayKeys(selected) <==> d in KeepLast(Days(bars), n)
  {
    KeepDays(bars, KeepLast(Days(bars), n))
  }

  /** The selection keeps exactly the last `n` distinct days, `sorted(unique)[-n:]`. */
  lemma SelectionKeepsLastDays(bars: seq<DatedBar>, n: int)
    ensures Days(SelectRecentDays(bars, n)) == KeepLast(Days(bars), n)
  {
    var days := Days(bars);
    var keep := KeepLast(days, n);
    var selected := KeepDays(bars, keep);
    SuffixIncreasing(days, |days| - |keep|);
    SuffixMembers(days, |days| - |keep|);
    assert forall y :: y in keep ==> y in DayKeys(bars);
    assert forall y :: y in Days(selected) <==> y in DayKeys(selected);
    assert forall y :: y in DayKeys(selected) <==> y in keep;
    AscendingIsUnique(Days(selected), keep);
  }

  lemma SuffixMembers(xs: seq<int>, s: nat)
    requires s <= |xs|
    ensures forall y :: y in xs[s..] ==> y in xs
  {
    forall y | y in xs[s..]
      ensures y in xs
    {
      var i :| 0 <= i < |xs| - s && xs[s..][i] == y;
      assert xs[s + i] == y;
    }
  }

  lemma SuffixIncreasing(xs: seq<int>, s: nat)
    requires s <= |xs| && StrictlyIncreasing(xs)
    ensures StrictlyIncreasing(xs[s..])
  {
    forall i, j | 0 <= i < j < |xs| - s
      ensures xs[s..][i] < xs[s..][j]
    {
      assert xs[s..][i] == xs[s + i] && xs[s..][j] == xs[s + j];
    }
  }

  /** The bars of a kept day are untouched by the selection, in order; a day not kept
      has no bars left. */
  lemma {:induction false} SelectionKeepsChunks(bars: seq<DatedBar>, keep: seq<int>, d: int)
    ensures Chunk(KeepDays(bars, keep), d) == if d in keep then Chunk(bars, d) else []
    decreases |bars|
  {
    if d !in keep {
      assert d !in DayKeys(KeepDays(bars, keep));
    } else if |bars| > 0 {
      var n := |bars|;
      var b := bars[n - 1];
      var front := KeepDays(bars[..n - 1], keep);
      SelectionKeepsChunks(bars[..n - 1], keep, d);
      var r := KeepDays(bars, keep);
      if b.day in keep {
        assert r == front + [b];
        assert r[..|r| - 1] == front && r[|r| - 1] == b;
      } else {
        assert r == front;
        assert b.day != d;
      }
    }
  }

  // ---------------------------------------------------------------------------------
  // Aggregation (`run`, lines 173-184)

  /** Every trade of a session tagged with the session's date (`t["date"] = str(day)`). */
  function Tag(date: int, trades: seq<Engine.Trade>): (tagged: seq<DatedTrade>)
    ensures |tagged| == |trades|
    ensures forall j :: 0 <= j < |trades| ==> tagged[j] == DatedTrade(date, trades[j])
  {
    seq(|trades|, j requires 0 <= j < |trades| => DatedTrade(date, trades[j]))
  }

  /** The consolidated ledger over `days`, day after day. */
  function DatedLedger(bars: seq<DatedBar>, days: seq<int>, backtest: Backtest): (ledger: seq<DatedTrade>)
    ensures forall k :: 0 <= k < |ledger| ==> ledger[k].date in days
  {
    if |days| == 0 then []
    else
      var d := days[|days| - 1];
      DatedLedger(bars, days[..|days| - 1], backtest) + Tag(d, backtest(Chunk(bars, d)).trades)
  }

  /** The dates of the summary table, row by row. */
  function Dates(rows: seq<DayRow>): (dates: seq<int>)
    ensures |dates| == |rows|
  {
    seq(|rows|, k requires 0 <= k < |rows| => rows[k].date)
  }

  /** The inner loop of `run`: each of a session's trades gets the session's date and is
      appended to the consolidated ledger, in order. */
  method AppendDated(ledger: seq<DatedTrade>, date: int, trades: seq<Engine.Trade>)
    returns (extended: seq<DatedTrade>)
    ensures extended == ledger + Tag(date, trades)
  {
    extended := ledger;
    for j := 0 to |trades|
      invariant extended == ledger + Tag(date, trades[..j])
    {
      extended := extended + [DatedTrade(date, trades[j])];
      assert Tag(date, trades[..j + 1]) == Tag(date, trades[..j]) + [DatedTrade(date, trades[j])];
    }
    assert trades[..|trades|] == trades;
  }

  /** The summary table over `days`, one row per day, in order. */
  function SummaryRows(bars: seq<DatedBar>, days: seq<int>, backtest: Backtest): (rows: seq<DayRow>)
    ensures |rows| == |days|
  {
    if |days| == 0 then []
    else
      var d := days[|days| - 1];
      SummaryRows(bars, days[..|days| - 1], backtest) + [DayRow(d, backtest(Chunk(bars, d)).summary)]
  }

  /** Row `k` of the table is day `k` with its own session's summary. */
  lemma {:induction false} RowsOfDays(bars: seq<DatedBar>, days: seq<int>, backtest: Backtest)
    ensures |SummaryRows(bars, days, backtest)| == |days|
    ensures forall k :: 0 <= k < |days| ==>
              SummaryRows(bars, days, backtest)[k] == DayRow(days[k], backtest(Chunk(bars, days[k])).summary)
    decreases |days|
  {
    if |days| > 0 {
      var n := |days|;
      RowsOfDays(bars, days[..n - 1], backtest);
      var rows := SummaryRows(bars, days, backtest);
      assert rows[..n - 1] == SummaryRows(bars, days[..n - 1], backtest);
      assert forall k :: 0 <= k < n - 1 ==> rows[k] == rows[..n - 1][k];
    }
  }

  /** The table's dates are the days, in the same order. */
  lemma DatesOfRows(bars: seq<DatedBar>, days: seq<int>, backtest: Backtest)
    ensures Dates(SummaryRows(bars, days, backtest)) == days
  {
    RowsOfDays(bars, days, backtest);
    var rows := SummaryRows(bars, days, backtest);
    assert forall k :: 0 <= k < |days| ==> Dates(rows)[k] == rows[k].date;
  }

  /** One more day adds its row to the table and its tagged trades to the ledger. */
  lemma SessionStep(bars: seq<DatedBar>, days: seq<int>, k: nat, backtest: Backtest)
    requires k < |days|
    ensures SummaryRows(bars, days[..k + 1], backtest)
            == SummaryRows(bars, days[..k], backtest) + [DayRow(days[k], backtest(Chunk(bars, days[k])).summary)]
    ensures DatedLedger(bars, days[..k + 1], backtest)
            == DatedLedger(bars, days[..k], backtest) + Tag(days[k], backtest(Chunk(bars, days[k])).trades)
  {
    assert days[..k + 1][..k] == days[..k];
  }

  /** The loop of `run`: every day in ascending order is backtested by a fresh engine on
      that day's bars alone; its summary is tagged with the date and the day's trades,
      tagged likewise, are appended to the consolidated ledger. */
  method RunSessions(bars: seq<DatedBar>) returns (rows: seq<DayRow>, allTrades: seq<DatedTrade>)
    ensures rows == SummaryRows(bars, Days(bars), Engine.Simulate)
    ensures allTrades == DatedLedger(bars, Days(bars), Engine.Simulate)
  {
    var days := Days(bars);
    rows := [];
    allTrades := [];
    for k := 0 to |days|
      invariant rows == SummaryRows(bars, days[..k], Engine.Simulate)
      invariant allTrades == DatedLedger(bars, days[..k], Engine.Simulate)
    {
      var day := days[k];
      SessionStep(bars, days, k, Engine.Simulate);
      var trades, summary := Engine.BacktestDay(Chunk(bars, day));
      rows := rows + [DayRow(day, summary)];
      allTrades := AppendDated(allTrades, day, trades);
    }
    assert days[..|days|] == days;
  }

  /** The table `run` builds has one row per distinct day, strictly ascending by date (so
      sorting it by date changes nothing), and each row holds the summary of a fresh
      engine run on that day's bars alone: nothing carries over from one day to the next. */
  lemma SessionTable(bars: seq<DatedBar>)
    ensures var rows := SummaryRows(bars, Days(bars), Engine.Simulate);
            && Dates(rows) == Days(bars)
            && StrictlyIncreasing(Dates(rows))
            && (forall d :: d in Dates(rows) <==> d in DayKeys(bars))
            && (forall k :: 0 <= k < |rows| ==>
                  && rows[k].summary.Some?
                  && rows[k].summary == Engine.Simulate(Chunk(bars, rows[k].date)).summary)
  {
    var days := Days(bars);
    RowsOfDays(bars, days, Engine.Simulate);
    DatesOfRows(bars, days, Engine.Simulate);
    forall k | 0 <= k < |days|
      ensures Engine.Simulate(Chunk(bars, days[k])).summary.Some?
    {
      assert days[k] in DayKeys(bars);
    }
  }

  /** `run` on the output of the day selection: one row per each of the last `n` distinct
      days, in ascending order, each the summary of a fresh engine on that day's bars of
      the full series. */
  lemma RecentSessions(bars: seq<DatedBar>, n: int)
    ensures var selected := SelectRecentDays(bars, n);
            var rows := SummaryRows(selected, Days(selected), Engine.Simulate);
            && Dates(rows) == KeepLast(Days(bars), n)
            && (forall k :: 0 <= k < |rows| ==>
                  rows[k].summary == Engine.Simulate(Chunk(bars, rows[k].date)).summary)
  {
    var selected := SelectRecentDays(bars, n);
    var keep := KeepLast(Days(bars), n);
    SessionTable(selected);
    SelectionKeepsLastDays(bars, n);
    var rows := SummaryRows(selected, Days(selected), Engine.Simulate);
    forall k | 0 <= k < |rows|
      ensures rows[k].summary == Engine.Simulate(Chunk(bars, rows[k].date)).summary
    {
      assert rows[k].date == Dates(rows)[k];
      SelectionKeepsChunks(bars, keep, rows[k].date);
    }
  }

  // ---------------------------------------------------------------------------------
  // The consolidated ledger, day by day

  /** The trades of the consolidated ledger that carry date `d`, without the tag. */
  function TradesOn(ledger: seq<DatedTrade>, d: int): seq<Engine.Trade>
  {
    if |ledger| == 0 then []
    else
      var t := ledger[|ledger| - 1];
      TradesOn(ledger[..|ledger| - 1], d) + (if t.date == d then [t.trade] else [])
  }

  lemma {:induction false} TradesOnAppend(a: seq<DatedTrade>, b: seq<DatedTrade>, d: int)
    ensures TradesOn(a + b, d) == TradesOn(a, d) + TradesOn(b, d)
    decreases |b|
  {
    if |b| > 0 {
      var n := |b|;
      assert (a + b)[..|a + b| - 1] == a + b[..n - 1];
      TradesOnAppend(a, b[..n - 1], d);
    } else {
      assert a + b == a;
    }
  }

  lemma {:induction false} TradesOnTag(date: int, trades: seq<Engine.Trade>, d: int)
    ensures TradesOn(Tag(date, trades), d) == if date == d then trades else []
    decreases |trades|
  {
    if |trades| > 0 {
      var n := |trades|;
      var tagged := Tag(date, trades);
      assert tagged[..n - 1] == Tag(date, trades[..n - 1]);
      assert tagged[n - 1] == DatedTrade(date, trades[n - 1]);
      TradesOnTag(date, trades[..n - 1], d);
      assert TradesOn(tagged, d) == TradesOn(tagged[..n - 1], d)
             + if date == d then [trades[n - 1]] else [];
      assert trades == trades[..n - 1] + [trades[n - 1]];
    }
  }

  /** Appending a session's tagged trades adds them to the trades of that session's
      date and to no other date. */
  lemma TradesOnSession(ledger: seq<DatedTrade>, date: int, trades: seq<Engine.Trade>, d: int)
    ensures TradesOn(ledger + Tag(date, trades), d)
            == TradesOn(ledger, d) + if date == d then trades else []
  {
    TradesOnAppend(ledger, Tag(date, trades), d);
    TradesOnTag(date, trades, d);
  }

  /** The front of a strictly increasing sequence is strictly increasing, and its last
      element is new: something is in the whole exactly when it is in the front or is
      the last element, and the last element is not in the front. */
  lemma LastIsNew(xs: seq<int>)
    requires StrictlyIncreasing(xs) && |xs| > 0
    ensures StrictlyIncreasing(xs[..|xs| - 1])
    ensures forall y :: y in xs <==> y in xs[..|xs| - 1] || y == xs[|xs| - 1]
    ensures xs[|xs| - 1] !in xs[..|xs| - 1]
  {
    assert xs == xs[..|xs| - 1] + [xs[|xs| - 1]];
  }

  /** Picking the trades dated `d` out of the ledger over distinct `days` gives exactly the
      ledger of `d`'s own backtest, or nothing when `d` is not among the days: no trade is
      tagged with another session's date. */
  lemma {:induction false} LedgerOfDay(bars: seq<DatedBar>, days: seq<int>, backtest: Backtest, d: int)
    requires StrictlyIncreasing(days)
    ensures TradesOn(DatedLedger(bars, days, backtest), d)
            == if d in days then backtest(Chunk(bars, d)).trades else []
    decreases |days|
  {
    if |days| > 0 {
      var n := |days|;
      var front := days[..n - 1];
      var last := days[n - 1];
      LastIsNew(days);
      LedgerOfDay(bars, front, backtest, d);
      TradesOnSession(DatedLedger(bars, front, backtest), last, backtest(Chunk(bars, last)).trades, d);
    }
  }

  /** The consolidated ledger of the whole run, read back by date: each day's trades are
      exactly those of its own fresh backtest. */
  lemma LedgerByDate(bars: seq<DatedBar>, d: int)
    ensures TradesOn(DatedLedger(bars, Days(bars), Engine.Simulate), d)
            == if d in DayKeys(bars) then Engine.Simulate(Chunk(bars, d)).trades else []
  {
    LedgerOfDay(bars, Days(bars), Engine.Simulate, d);
  }
}
