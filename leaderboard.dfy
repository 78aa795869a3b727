/** The leaderboard of bot.py: one entry per registered wallet with its net gain over the
    period, stably sorted by net gain from highest to lowest and ranked from 1; the
    `leaderboard` command's period check; and the view whose refresh button and period menu
    rebuild the board. Discord itself is left out: the user lookup is an input. */
module Leaderboard {
  import opened Wrappers
  import opened Scan
  import opened WalletRegistry
  import opened WalletStats

  /** What the bot learns from outside: the clock (whole Unix seconds), what export_trades
      produces for a wallet (`None`: it raised), and the Discord display name of a user id
      (`None`: neither get_user nor fetch_user found one). */
  datatype Services = Services(now: int, exportOf: Address -> Option<seq<Row>>, nameOf: UserKey -> Option<string>)

  /** One element of `leaderboard_data`. */
  datatype Entry = Entry(name: string, netGain: int, percentChange: string)

  /** A leaderboard line: its 1-based rank and its entry. */
  datatype Placed = Placed(rank: nat, entry: Entry)

  const DefaultPeriod: string := "daily"

  /** The user's display name, or the placeholder `UserID(<id>)`. */
  function DisplayName(user: UserKey, lookup: Option<string>): string {
    match lookup
    case Some(name) => name
    case None => "UserID(" + user + ")"
  }

  /** The entry built for one registered (user, address) pair. */
  function EntryOf(user: UserKey, address: Address, period: string, svc: Services): Entry {
    var stats := GetWalletStats(svc.exportOf(address), period, svc.now);
    Entry(DisplayName(user, svc.nameOf(user)), stats.netGain, stats.percentChange)
  }

  /** The unsorted `leaderboard_data`: one entry per registered wallet, in dict order. */
  function EntriesOf(wallets: Registry, period: string, svc: Services): (entries: seq<Entry>)
    ensures |entries| == |wallets|
    ensures forall i :: 0 <= i < |wallets| ==>
              && entries[i].netGain == GetWalletStats(svc.exportOf(wallets[i].1), period, svc.now).netGain
              && entries[i].percentChange == NotAvailable
              && (svc.nameOf(wallets[i].0).None? ==> entries[i].name == "UserID(" + wallets[i].0 + ")")
              && (svc.nameOf(wallets[i].0).Some? ==> entries[i].name == svc.nameOf(wallets[i].0).value)
  {
    seq(|wallets|, i requires 0 <= i < |wallets| => EntryOf(wallets[i].0, wallets[i].1, period, svc))
  }

  predicate IsNonIncreasing(entries: seq<Entry>) {
    forall i, j :: 0 <= i < j < |entries| ==> entries[i].netGain >= entries[j].netGain
  }

  /** Inserts `e` into a board sorted by decreasing net gain, before every entry whose gain is
      not greater than its own. */
  function InsertByGain(e: Entry, sorted: seq<Entry>): (r: seq<Entry>)
    ensures |r| == |sorted| + 1
    ensures multiset(r) == multiset(sorted) + multiset{e}
  {
    if sorted == [] || sorted[0].netGain <= e.netGain then [e] + sorted
    else
      assert sorted == [sorted[0]] + sorted[1..];
      [sorted[0]] + InsertByGain(e, sorted[1..])
  }

  lemma {:induction false} InsertMembers(e: Entry, sorted: seq<Entry>, k: int)
    requires 0 <= k <= |sorted|
    ensures InsertByGain(e, sorted)[k] == e || exists j :: 0 <= j < |sorted| && InsertByGain(e, sorted)[k] == sorted[j]
  {
    if sorted != [] && sorted[0].netGain > e.netGain && k > 0 {
      InsertMembers(e, sorted[1..], k - 1);
      if InsertByGain(e, sorted)[k] != e {
        var j :| 0 <= j < |sorted[1..]| && InsertByGain(e, sorted[1..])[k - 1] == sorted[1..][j];
        assert InsertByGain(e, sorted)[k] == sorted[j + 1];
      }
    } else if sorted != [] && k > 0 {
      assert InsertByGain(e, sorted)[k] == sorted[k - 1];
    }
  }

  lemma {:induction false} InsertKeepsOrder(e: Entry, sorted: seq<Entry>)
    requires IsNonIncreasing(sorted)
    ensures IsNonIncreasing(InsertByGain(e, sorted))
  {
    if sorted != [] && sorted[0].netGain > e.netGain {
      var rest := InsertByGain(e, sorted[1..]);
      InsertKeepsOrder(e, sorted[1..]);
      var r := [sorted[0]] + rest;
      forall i, j | 0 <= i < j < |r| ensures r[i].netGain >= r[j].netGain {
        if i == 0 {
          InsertMembers(e, sorted[1..], j - 1);
        } else {
          assert r[i] == rest[i - 1] && r[j] == rest[j - 1];
        }
      }
    }
  }

  /** `leaderboard_data.sort(key=net_gain, reverse=True)`: Python's sort is stable, and the
      model is an insertion sort with the same result (see `StableSortIsUnique`). */
  function SortByGain(entries: seq<Entry>): (sorted: seq<Entry>)
    ensures |sorted| == |entries|
    ensures multiset(sorted) == multiset(entries)
    ensures IsNonIncreasing(sorted)
  {
    if entries == [] then []
    else
      assert entries == [entries[0]] + entries[1..];
      InsertKeepsOrder(entries[0], SortByGain(entries[1..]));
      InsertByGain(entries[0], SortByGain(entries[1..]))
  }

  /** The entries with net gain `g`, in order: sorting keeps exactly these subsequences when
      it is stable. */
  function WithGain(entries: seq<Entry>, g: int): seq<Entry> {
    if entries == [] then []
    else (if entries[0].netGain == g then [entries[0]] else []) + WithGain(entries[1..], g)
  }

  lemma {:induction false} InsertKeepsTies(e: Entry, sorted: seq<Entry>, g: int)
    ensures WithGain(InsertByGain(e, sorted), g) == (if e.netGain == g then [e] else []) + WithGain(sorted, g)
  {
    if sorted == [] || sorted[0].netGain <= e.netGain {
      var r := [e] + sorted;
      assert r[0] == e && r[1..] == sorted;
      if sorted != [] && sorted[0].netGain < e.netGain && e.netGain == g {
        assert WithGain(sorted, g) == WithGain(sorted[1..], g);
      }
    } else {
      var rest := InsertByGain(e, sorted[1..]);
      var r := [sorted[0]] + rest;
      assert r[0] == sorted[0] && r[1..] == rest;
      InsertKeepsTies(e, sorted[1..], g);
    }
  }

  /** Sorting is stable: the entries of each net gain keep their original relative order. */
  lemma {:induction false} SortKeepsTies(entries: seq<Entry>, g: int)
    ensures WithGain(SortByGain(entries), g) == WithGain(entries, g)
  {
    if entries != [] {
      SortKeepsTies(entries[1..], g);
      InsertKeepsTies(entries[0], SortByGain(entries[1..]), g);
    }
  }

  lemma {:induction false} WithGainMembers(entries: seq<Entry>, g: int, x: Entry)
    ensures x in WithGain(entries, g) <==> x in entries && x.netGain == g
  {
    if entries != [] {
      WithGainMembers(entries[1..], g, x);
      assert entries == [entries[0]] + entries[1..];
    }
  }

  lemma WithGainCons(s: seq<Entry>, g: int)
    requires s != []
    ensures WithGain(s, g) == (if s[0].netGain == g then [s[0]] else []) + WithGain(s[1..], g)
  {
  }

  lemma HeadIsMax(s: seq<Entry>, x: Entry)
    requires IsNonIncreasing(s) && x in s
    ensures s[0].netGain >= x.netGain
  {
    var k :| 0 <= k < |s| && s[k] == x;
    if k > 0 {
      assert s[0].netGain >= s[k].netGain;
    }
  }

  /** Two sorted boards with the same ties start with the same entry. */
  lemma {:induction false} SameHead(a: seq<Entry>, b: seq<Entry>)
    requires a != [] && b != []
    requires IsNonIncreasing(a) && IsNonIncreasing(b)
    requires WithGain(a, a[0].netGain) == WithGain(b, a[0].netGain)
    requires WithGain(a, b[0].netGain) == WithGain(b, b[0].netGain)
    ensures a[0] == b[0]
  {
    var ga, gb := a[0].netGain, b[0].netGain;
    WithGainMembers(a, ga, a[0]);
    WithGainMembers(b, ga, a[0]);
    HeadIsMax(b, a[0]);
    WithGainMembers(b, gb, b[0]);
    WithGainMembers(a, gb, b[0]);
    HeadIsMax(a, b[0]);
    assert ga == gb;
    WithGainCons(a, ga);
    WithGainCons(b, ga);
    assert WithGain(a, ga)[0] == a[0] && WithGain(b, ga)[0] == b[0];
  }

  lemma {:induction false} SameTails(a: seq<Entry>, b: seq<Entry>, g: int)
    requires a != [] && b != [] && a[0] == b[0]
    requires WithGain(a, g) == WithGain(b, g)
    ensures WithGain(a[1..], g) == WithGain(b[1..], g)
  {
    WithGainCons(a, g);
    WithGainCons(b, g);
    if a[0].netGain == g {
      assert WithGain(a, g)[1..] == WithGain(a[1..], g);
      assert WithGain(b, g)[1..] == WithGain(b[1..], g);
    } else {
      assert WithGain(a, g) == [] + WithGain(a[1..], g) == WithGain(a[1..], g);
      assert WithGain(b, g) == [] + WithGain(b[1..], g) == WithGain(b[1..], g);
    }
  }

  /** A non-empty board has an entry of its first entry's gain. */
  lemma NonEmptyTies(s: seq<Entry>)
    requires s != []
    ensures WithGain(s, s[0].netGain) != []
  {
    WithGainCons(s, s[0].netGain);
  }

  /** Two boards sorted by decreasing gain that agree on the order of every tie are equal: so
      `SortByGain` is the stable sort, whatever algorithm computes it. */
  lemma {:induction false} StableSortIsUnique(a: seq<Entry>, b: seq<Entry>)
    requires IsNonIncreasing(a) && IsNonIncreasing(b)
    requires forall g :: WithGain(a, g) == WithGain(b, g)
    ensures a == b
  {
    if a != [] && b != [] {
      SameHead(a, b);
      forall g ensures WithGain(a[1..], g) == WithGain(b[1..], g) {
        SameTails(a, b, g);
      }
      StableSortIsUnique(a[1..], b[1..]);
      assert a == [a[0]] + a[1..] && b == [b[0]] + b[1..];
    } else if a != [] {
      NonEmptyTies(a);
    } else if b != [] {
      NonEmptyTies(b);
    }
  }

  /** `enumerate(leaderboard_data, start=1)`. */
  function Ranked(sorted: seq<Entry>): (board: seq<Placed>)
    ensures |board| == |sorted|
    ensures forall i :: 0 <= i < |board| ==> board[i] == Placed(i + 1, sorted[i])
  {
    seq(|sorted|, i requires 0 <= i < |sorted| => Placed(i + 1, sorted[i]))
  }

  function EntriesIn(board: seq<Placed>): (entries: seq<Entry>)
    ensures |entries| == |board| && forall i :: 0 <= i < |board| ==> entries[i] == board[i].entry
  {
    seq(|board|, i requires 0 <= i < |board| => board[i].entry)
  }

  /** The leaderboard for a period, as generate_leaderboard_embed lays it out. */
  function Board(wallets: Registry, period: string, svc: Services): seq<Placed> {
    Ranked(SortByGain(EntriesOf(wallets, period, svc)))
  }

  /** generate_leaderboard_embed: load the wallets, build one entry per wallet, sort, rank. */
  method GenerateLeaderboard(store: WalletFile, period: string, svc: Services) returns (board: seq<Placed>)
    requires store.Valid()
    ensures board == Board(Load(store.stored), period, svc)
    // one line per registered wallet, ranked 1..n
    ensures |board| == |Load(store.stored)|
    ensures forall i :: 0 <= i < |board| ==> board[i].rank == i + 1
    // highest net gain first
    ensures forall i, j :: 0 <= i < j < |board| ==> board[i].entry.netGain >= board[j].entry.netGain
    // a permutation of the per-wallet entries that keeps ties in registration order
    ensures multiset(EntriesIn(board)) == multiset(EntriesOf(Load(store.stored), period, svc))
    ensures forall g :: WithGain(EntriesIn(board), g) == WithGain(EntriesOf(Load(store.stored), period, svc), g)
  {
    var wallets := store.LoadWallets();
    var leaderboardData: seq<Entry> := [];
    for i := 0 to |wallets|
      invariant |leaderboardData| == i
      invariant forall k :: 0 <= k < i ==> leaderboardData[k] == EntryOf(wallets[k].0, wallets[k].1, period, svc)
    {
      var (discordId, walletAddress) := wallets[i];
      var stats := GetWalletStats(svc.exportOf(walletAddress), period, svc.now);
      var displayName := DisplayName(discordId, svc.nameOf(discordId));
      leaderboardData := leaderboardData + [Entry(displayName, stats.netGain, stats.percentChange)];
    }
    assert leaderboardData == EntriesOf(wallets, period, svc);
    var sorted := SortByGain(leaderboardData);
    board := Ranked(sorted);
    assert EntriesIn(board) == sorted;
    forall g ensures WithGain(EntriesIn(board), g) == WithGain(leaderboardData, g) {
      SortKeepsTies(leaderboardData, g);
    }
  }

  /** `str.lower` on one character: ASCII capitals, and KELVIN SIGN, whose lower case is 'k'. */
  function LowerChar(c: char): char {
    if 'A' <= c <= 'Z' then (c as int + 32) as char
    else if c == '\U{212A}' then 'k'
    else c
  }

  function Lower(s: string): string {
    if s == [] then [] else [LowerChar(s[0])] + Lower(s[1..])
  }

  lemma {:induction false} LowerIdempotent(s: string)
    ensures Lower(Lower(s)) == Lower(s)
  {
    if s != [] {
      LowerIdempotent(s[1..]);
      var l := Lower(s);
      assert l[0] == LowerChar(s[0]) && l[1..] == Lower(s[1..]);
    }
  }

  /** The check of the `leaderboard` command. */
  predicate IsValidPeriod(period: string) {
    Lower(period) in Periods
  }

  /** The check ignores case, and what it accepts is one of the three windows. */
  lemma ValidPeriodIsWindow(period: string)
    ensures IsValidPeriod(period) <==> IsValidPeriod(Lower(period))
    ensures IsValidPeriod(period) <==> IsWindow(Lower(period))
  {
    LowerIdempotent(period);
  }

  lemma ExampleValidPeriod()
    ensures IsValidPeriod("Weekly")
  {
    assert Lower("Weekly") == "weekly";
  }

  lemma ExampleInvalidPeriod()
    ensures !IsValidPeriod("yearly")
  {
    assert Lower("yearly") == "yearly";
    assert "yearly"[0] != "daily"[0] && "yearly"[0] != "weekly"[0] && "yearly"[0] != "monthly"[0];
  }

  datatype CommandReply =
    | InvalidPeriod                                 // "Invalid time period! ..."
    | Shown(period: string, board: seq<Placed>)     // the embed, with its view

  /** The `leaderboard` command: the period (default daily) is checked case-insensitively;
      a bad one gets only the validation message, a good one the board and a view set to it. */
  method LeaderboardCommand(timePeriod: Option<string>, store: WalletFile, svc: Services)
    returns (reply: CommandReply, view: LeaderboardView?)
    requires store.Valid()
    ensures reply.InvalidPeriod? <==> !IsValidPeriod(timePeriod.GetOr(DefaultPeriod))
    ensures reply.Shown? ==>
              && reply.period == Lower(timePeriod.GetOr(DefaultPeriod))
              && IsWindow(reply.period)
              && reply.board == Board(Load(store.stored), reply.period, svc)
    ensures reply.InvalidPeriod? <==> view == null
    ensures view != null ==> fresh(view) && view.period == reply.period
  {
    var period := timePeriod.GetOr(DefaultPeriod);
    if Lower(period) !in Periods {
      return InvalidPeriod, null;
    }
    view := new LeaderboardView();
    view.period := Lower(period);
    var board := GenerateLeaderboard(store, Lower(period), svc);
    reply := Shown(Lower(period), board);
  }

  /** LeaderboardView: remembers the period shown, which the refresh button rebuilds and the
      period menu changes. */
  class LeaderboardView {
    var period: string

    constructor ()
      ensures period == DefaultPeriod
    {
      period := DefaultPeriod;
    }

    /** The refresh button: the board again, for the remembered period. */
    method Refresh(store: WalletFile, svc: Services) returns (board: seq<Placed>)
      requires store.Valid()
      ensures board == Board(Load(store.stored), period, svc)
    {
      board := GenerateLeaderboard(store, period, svc);
    }

    /** The period menu: remember the chosen value (one of the menu's options) and rebuild. */
    method SelectPeriod(value: string, store: WalletFile, svc: Services) returns (board: seq<Placed>)
      requires value in Periods
      requires store.Valid()
      modifies this
      ensures period == value
      ensures board == Board(Load(store.stored), value, svc)
    {
      period := value;
      board := GenerateLeaderboard(store, period, svc);
    }
  }
}
