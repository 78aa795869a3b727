/** get_wallet_stats of bot.py: the net gain of a wallet over a trailing window, as the sum of
    the lamport deltas of the rows export_trades produced whose time is at or after the
    window's start. `now` is the current time in whole Unix seconds. */
module WalletStats {
  import opened Wrappers
  import opened Scan

  const SecondsPerDay: int := 86400
  const NotAvailable: string := "N/A"

  /** The (net gain, percent change) pair get_wallet_stats returns. */
  datatype Stats = Stats(netGain: int, percentChange: string)

  /** The periods that set a window. */
  const Periods: seq<string> := ["daily", "weekly", "monthly"]

  /** get_wallet_stats compares the period with them exactly. */
  predicate IsWindow(period: string) {
    period in Periods
  }

  /** How far back each window reaches: a day, a week, and 30 days for a month. */
  function WindowLength(period: string): int
    requires IsWindow(period)
  {
    if period == "daily" then SecondsPerDay
    else if period == "weekly" then 7 * SecondsPerDay
    else 30 * SecondsPerDay
  }

  /** `df['timestamp'].min()`. */
  function MinTime(rows: seq<Row>): (t: int)
    requires rows != []
    ensures forall r :: r in rows ==> t <= r.time
    ensures exists r :: r in rows && r.time == t
  {
    if |rows| == 1 then rows[0].time
    else
      var rest := MinTime(rows[1..]);
      if rows[0].time <= rest then rows[0].time else rest
  }

  /** The lower bound of the window: one day, one week or 30 days before `now`, and for any
      other period the earliest row, so that nothing is filtered out. */
  function WindowStart(period: string, now: int, rows: seq<Row>): (start: int)
    requires rows != []
    ensures period == "daily" ==> start == now - SecondsPerDay
    ensures period == "weekly" ==> start == now - 7 * SecondsPerDay
    ensures period == "monthly" ==> start == now - 30 * SecondsPerDay
    ensures IsWindow(period) ==> start == now - WindowLength(period)
    ensures !IsWindow(period) ==> forall r :: r in rows ==> start <= r.time
  {
    if period == "daily" then now - SecondsPerDay
    else if period == "weekly" then now - 7 * SecondsPerDay
    else if period == "monthly" then now - 30 * SecondsPerDay
    else MinTime(rows)
  }

  /** `df[df['timestamp'] >= start_time]`: the rows at or after `start`, in order. */
  function Kept(rows: seq<Row>, start: int): (kept: seq<Row>)
    ensures |kept| <= |rows|
  {
    if rows == [] then []
    else (if rows[0].time >= start then [rows[0]] else []) + Kept(rows[1..], start)
  }

  /** The rows strictly before `start`: those the window leaves out. */
  function Older(rows: seq<Row>, start: int): (older: seq<Row>)
    ensures |older| <= |rows|
  {
    if rows == [] then []
    else (if rows[0].time < start then [rows[0]] else []) + Older(rows[1..], start)
  }

  /** The window keeps a row exactly when its time is at or after the start (inclusive), and
      leaves it out exactly when it is earlier. */
  lemma {:induction false} KeptMembers(rows: seq<Row>, start: int, r: Row)
    ensures r in Kept(rows, start) <==> r in rows && r.time >= start
    ensures r in Older(rows, start) <==> r in rows && r.time < start
  {
    if rows != [] {
      KeptMembers(rows[1..], start, r);
      assert rows == [rows[0]] + rows[1..];
    }
  }

  /** `.sum()` of the "Wallet Delta" column, in lamports. */
  function TotalDelta(rows: seq<Row>): int {
    if rows == [] then 0 else rows[0].delta + TotalDelta(rows[1..])
  }

  lemma {:induction false} TotalDeltaAppend(a: seq<Row>, b: seq<Row>)
    ensures TotalDelta(a + b) == TotalDelta(a) + TotalDelta(b)
  {
    if a != [] {
      assert (a + b)[0] == a[0] && (a + b)[1..] == a[1..] + b;
      TotalDeltaAppend(a[1..], b);
    } else {
      assert a + b == b;
    }
  }

  /** A start no later than every row keeps every row. */
  lemma {:induction false} KeptAll(rows: seq<Row>, start: int)
    requires forall r :: r in rows ==> start <= r.time
    ensures Kept(rows, start) == rows
  {
    if rows != [] {
      assert forall r :: r in rows[1..] ==> r in rows;
      KeptAll(rows[1..], start);
    }
  }

  /** Windows nest: filtering by a later start after an earlier one is filtering by the later. */
  lemma {:induction false} KeptNested(rows: seq<Row>, earlier: int, later: int)
    requires earlier <= later
    ensures Kept(Kept(rows, earlier), later) == Kept(rows, later)
  {
    if rows != [] {
      KeptNested(rows[1..], earlier, later);
      if rows[0].time >= earlier {
        var once := Kept(rows, earlier);
        assert once == [rows[0]] + Kept(rows[1..], earlier);
        assert once[0] == rows[0] && once[1..] == Kept(rows[1..], earlier);
        var head := if rows[0].time >= later then [rows[0]] else [];
        assert Kept(once, later) == head + Kept(once[1..], later);
        assert Kept(rows, later) == head + Kept(rows[1..], later);
      } else {
        assert Kept(rows, earlier) == Kept(rows[1..], earlier);
        assert Kept(rows, later) == Kept(rows[1..], later);
      }
    }
  }

  /** The window's net gain plus what it leaves out is the wallet's total. */
  lemma {:induction false} WindowSplit(rows: seq<Row>, start: int)
    ensures TotalDelta(Kept(rows, start)) + TotalDelta(Older(rows, start)) == TotalDelta(rows)
  {
    if rows != [] {
      WindowSplit(rows[1..], start);
      var head := if rows[0].time >= start then [rows[0]] else [];
      var oldHead := if rows[0].time < start then [rows[0]] else [];
      TotalDeltaAppend(head, Kept(rows[1..], start));
      TotalDeltaAppend(oldHead, Older(rows[1..], start));
    }
  }

  /** get_wallet_stats, given what export_trades produced (`None`: it raised). */
  function GetWalletStats(exported: Option<seq<Row>>, period: string, now: int): (s: Stats)
    // the percent change is never computed
    ensures s.percentChange == NotAvailable
    // an exception or an empty frame gives (0, "N/A")
    ensures exported.None? || exported == Some([]) ==> s.netGain == 0
    // any other period keeps every row
    ensures exported.Some? && !IsWindow(period) ==> s.netGain == TotalDelta(exported.value)
    // a window counts exactly the rows at or after its start
    ensures exported.Some? && exported.value != [] ==>
              s.netGain + TotalDelta(Older(exported.value, WindowStart(period, now, exported.value)))
                == TotalDelta(exported.value)
  {
    match exported
    case None => Stats(0, NotAvailable)
    case Some(rows) =>
      if rows == [] then Stats(0, NotAvailable)
      else
        var start := WindowStart(period, now, rows);
        WindowSplit(rows, start);
        assert !IsWindow(period) ==> Kept(rows, start) == rows by {
          if !IsWindow(period) {
            KeptAll(rows, start);
          }
        }
        Stats(TotalDelta(Kept(rows, start)), NotAvailable)
  }

  /** The daily rows are the weekly rows from the last day, the weekly rows the monthly rows
      from the last week, and the monthly rows a part of all rows. */
  lemma WindowsNest(rows: seq<Row>, now: int)
    requires rows != []
    ensures Kept(rows, WindowStart("daily", now, rows))
              == Kept(Kept(rows, WindowStart("weekly", now, rows)), WindowStart("daily", now, rows))
    ensures Kept(rows, WindowStart("weekly", now, rows))
              == Kept(Kept(rows, WindowStart("monthly", now, rows)), WindowStart("weekly", now, rows))
    ensures forall period :: !IsWindow(period) ==> Kept(rows, WindowStart(period, now, rows)) == rows
  {
    KeptNested(rows, now - 7 * SecondsPerDay, now - SecondsPerDay);
    KeptNested(rows, now - 30 * SecondsPerDay, now - 7 * SecondsPerDay);
    forall period | !IsWindow(period) ensures Kept(rows, WindowStart(period, now, rows)) == rows {
      KeptAll(rows, WindowStart(period, now, rows));
    }
  }

  /** With a window, the net gain is the sum over the rows at or after `now` minus its length. */
  lemma WindowedGain(rows: seq<Row>, period: string, now: int)
    requires IsWindow(period)
    ensures GetWalletStats(Some(rows), period, now).netGain == TotalDelta(Kept(rows, now - WindowLength(period)))
  {
    if rows == [] {
      assert Kept(rows, now - WindowLength(period)) == [];
    } else {
      var start := WindowStart(period, now, rows);
      assert start == now - WindowLength(period);
      assert GetWalletStats(Some(rows), period, now) == Stats(TotalDelta(Kept(rows, start)), NotAvailable);
    }
  }

  /** Rows older than the window do not change a windowed net gain. */
  lemma OlderRowsIgnored(rows: seq<Row>, older: seq<Row>, period: string, now: int)
    requires IsWindow(period)
    requires forall r :: r in older ==> r.time < now - WindowLength(period)
    ensures GetWalletStats(Some(rows + older), period, now).netGain == GetWalletStats(Some(rows), period, now).netGain
  {
    var start := now - WindowLength(period);
    KeptAppend(rows, older, start);
    KeptNone(older, start);
    assert Kept(rows + older, start) == Kept(rows, start) + [] == Kept(rows, start);
    WindowedGain(rows + older, period, now);
    WindowedGain(rows, period, now);
  }

  lemma {:induction false} KeptAppend(a: seq<Row>, b: seq<Row>, start: int)
    ensures Kept(a + b, start) == Kept(a, start) + Kept(b, start)
  {
    if a != [] {
      assert (a + b)[0] == a[0] && (a + b)[1..] == a[1..] + b;
      KeptAppend(a[1..], b, start);
      var head := if a[0].time >= start then [a[0]] else [];
      assert Kept(a + b, start) == head + Kept(a[1..] + b, start);
      assert Kept(a, start) == head + Kept(a[1..], start);
    } else {
      assert a + b == b;
    }
  }

  lemma {:induction false} KeptNone(rows: seq<Row>, start: int)
    requires forall r :: r in rows ==> r.time < start
    ensures Kept(rows, start) == []
  {
    if rows != [] {
      assert forall r :: r in rows[1..] ==> r in rows;
      KeptNone(rows[1..], start);
    }
  }
}
