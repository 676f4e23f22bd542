/** The leaderboard page: display names for wallets, the ranked rows built
    from the server's list (already in decreasing order of generation), the
    connected user's rank, the summary statistics and the medal column. */
module Leaderboard {
  import opened Common
  import EnergyGenerated

  /** One row as the server sends it. */
  datatype LeaderEntry = LeaderEntry(wallet: string, totalUnits: real)

  /** One row as the page shows it. */
  datatype RankedEntry = RankedEntry(wallet: string, totalUnits: real, rank: int, points: int)

  const UNKNOWN_USER := "Unknown User"
  const CURRENT_USER_NAME := "imangi-iit (You)"
  const USERNAME_PREFIX := "solar_"

  /** `s.slice(start, end)` for non-negative bounds: both are clamped to the
      length and an empty string results when they cross. */
  function Slice(s: string, start: nat, end: nat): (r: string)
    ensures |r| <= |s| && (start <= end ==> |r| <= end - start)
    ensures start + |r| <= |s| ==> r == s[start..start + |r|]
    ensures end <= |s| && start <= end ==> r == s[start..end]
  {
    var b := if start < |s| then start else |s|;
    var e := if end < |s| then end else |s|;
    if b < e then s[b..e] else ""
  }

  /** The name shown for a wallet: "Unknown User" for an empty wallet, the
      fixed current-user name when it equals the connected account exactly
      (case included), else "solar_" and the six characters after "0x". */
  function FormatWalletToUsername(account: Option<string>, wallet: string): string {
    if wallet == "" then UNKNOWN_USER
    else if Truthy(account) && wallet == account.value then CURRENT_USER_NAME
    else USERNAME_PREFIX + Slice(wallet, 2, 8)
  }

  /** The three forms of the name never collide: the current-user name is
      shown exactly for the connected wallet, the unknown name exactly for an
      empty wallet, and every other wallet gets the prefix with at most six
      characters; a wallet differing from the account only in letter case is
      not recognised. */
  lemma UsernameCases(account: Option<string>, wallet: string)
    ensures FormatWalletToUsername(account, wallet) == CURRENT_USER_NAME
            <==> wallet != "" && Truthy(account) && wallet == account.value
    ensures FormatWalletToUsername(account, wallet) == UNKNOWN_USER <==> wallet == ""
    ensures wallet != "" && !(Truthy(account) && wallet == account.value) ==>
              && FormatWalletToUsername(account, wallet)[..|USERNAME_PREFIX|] == USERNAME_PREFIX
              && |FormatWalletToUsername(account, wallet)| <= |USERNAME_PREFIX| + 6
  {
    var name := FormatWalletToUsername(account, wallet);
    if wallet != "" && !(Truthy(account) && wallet == account.value) {
      assert name[0] == 's';
      assert CURRENT_USER_NAME[0] == 'i' && UNKNOWN_USER[0] == 'U';
    }
    assert CURRENT_USER_NAME[0] != UNKNOWN_USER[0];
  }

  /** Two other users whose wallets agree on the characters after "0x" get
      the same name. */
  lemma UsernameCollision(account: Option<string>, w1: string, w2: string)
    requires |w1| >= 8 && |w2| >= 8 && w1[2..8] == w2[2..8]
    requires !(Truthy(account) && w1 == account.value) && !(Truthy(account) && w2 == account.value)
    ensures FormatWalletToUsername(account, w1) == FormatWalletToUsername(account, w2)
  {
  }

  function Points(units: real): int {
    (units * 10.0).Floor
  }

  /** The rows in server order, ranked from 1 with ten points per kWh,
      rounded down. */
  function ProcessLeaderboard(entries: seq<LeaderEntry>): (rows: seq<RankedEntry>)
    ensures |rows| == |entries|
    ensures forall i :: 0 <= i < |rows| ==>
              rows[i].wallet == entries[i].wallet && rows[i].totalUnits == entries[i].totalUnits
              && rows[i].rank == i + 1
  {
    seq(|entries|, i requires 0 <= i < |entries| =>
      RankedEntry(entries[i].wallet, entries[i].totalUnits, i + 1, Points(entries[i].totalUnits)))
  }

  predicate Descending(entries: seq<LeaderEntry>) {
    forall i, j :: 0 <= i < j < |entries| ==> entries[i].totalUnits >= entries[j].totalUnits
  }

  /** Points are the largest whole number not above ten times the units,
      and for a list in decreasing order a better rank never has fewer
      points. */
  lemma PointsFollowRanks(entries: seq<LeaderEntry>)
    ensures forall i :: 0 <= i < |entries| ==>
              var p := ProcessLeaderboard(entries)[i].points;
              (p as real) <= entries[i].totalUnits * 10.0 < (p as real) + 1.0
    ensures Descending(entries) ==>
              forall i, j :: 0 <= i < j < |entries| ==>
                ProcessLeaderboard(entries)[i].points >= ProcessLeaderboard(entries)[j].points
  {
  }

  /** The medal column: gold, silver and bronze for the first three ranks,
      the number otherwise. */
  datatype RankBadge = Gold | Silver | Bronze | Numbered(rank: int)

  function RankDisplay(rank: int): RankBadge {
    if rank <= 3 then
      if rank == 1 then Gold else if rank == 2 then Silver else Bronze
    else Numbered(rank)
  }

  /** Exactly the first three rows get medals, one of each kind. */
  lemma MedalsForTopThree(entries: seq<LeaderEntry>)
    ensures forall i :: 0 <= i < |entries| ==>
              (RankDisplay(ProcessLeaderboard(entries)[i].rank).Numbered? <==> i >= 3)
    ensures forall i, j :: 0 <= i < j < |entries| && j < 3 ==>
              RankDisplay(ProcessLeaderboard(entries)[i].rank) != RankDisplay(ProcessLeaderboard(entries)[j].rank)
  {
  }

  /** `findIndex`: the first position satisfying the account test, or -1. */
  function FindWallet(rows: seq<RankedEntry>, account: Option<string>): (k: int)
    ensures -1 <= k < |rows|
    ensures k == -1 <==> !Truthy(account) || forall i :: 0 <= i < |rows| ==> rows[i].wallet != account.value
    ensures k >= 0 ==> rows[k].wallet == account.value && forall i :: 0 <= i < k ==> rows[i].wallet != account.value
  {
    if !Truthy(account) || rows == [] then -1
    else if rows[0].wallet == account.value then 0
    else
      var k := FindWallet(rows[1..], account);
      if k == -1 then -1 else k + 1
  }

  /** The connected user's rank, 0 when absent. */
  function CurrentUserRank(rows: seq<RankedEntry>, account: Option<string>): int {
    FindWallet(rows, account) + 1
  }

  /** On processed rows the rank found is the rank stored in the row of the
      first entry whose wallet is the account, and 0 exactly when there is
      none. */
  lemma CurrentUserRankIsRowRank(entries: seq<LeaderEntry>, account: Option<string>)
    ensures var rows := ProcessLeaderboard(entries);
      var r := CurrentUserRank(rows, account);
      && (r == 0 <==> !Truthy(account) || forall i :: 0 <= i < |entries| ==> entries[i].wallet != account.value)
      && (r > 0 ==> r <= |rows| && rows[r - 1].rank == r && entries[r - 1].wallet == account.value)
  {
  }

  datatype Stats = Stats(totalUsers: nat, totalGenerated: real, averageGeneration: real, topGeneration: real)

  function SumUnits(rows: seq<RankedEntry>): real {
    if rows == [] then 0.0 else SumUnits(rows[..|rows| - 1]) + rows[|rows| - 1].totalUnits
  }

  /** Zeros for no rows; otherwise the row count, the sum, the mean and the
      first row's units. */
  function CalculateStatsFromData(rows: seq<RankedEntry>): (s: Stats)
    ensures rows == [] ==> s == Stats(0, 0.0, 0.0, 0.0)
    ensures rows != [] ==>
              && s.totalUsers == |rows|
              && s.totalGenerated == SumUnits(rows)
              && EnergyGenerated.Scaled(|rows|, s.averageGeneration) == s.totalGenerated
              && s.topGeneration == rows[0].totalUnits
  {
    if rows == [] then Stats(0, 0.0, 0.0, 0.0)
    else
      var totalGenerated := SumUnits(rows);
      EnergyGenerated.MeanTimesCount(totalGenerated, |rows|);
      Stats(|rows|, totalGenerated, totalGenerated / (|rows| as real), rows[0].totalUnits)
  }

  /** With every later row at or below the first, the sum is at most one
      top value per row. */
  lemma {:induction false} SumAtMostTop(rows: seq<RankedEntry>, top: real)
    requires forall i :: 0 <= i < |rows| ==> rows[i].totalUnits <= top
    ensures SumUnits(rows) <= EnergyGenerated.Scaled(|rows|, top)
  {
    if rows != [] {
      SumAtMostTop(rows[..|rows| - 1], top);
    }
  }

  /** For the server's decreasing list the top figure is the largest and
      the average never exceeds it. */
  lemma StatsTopIsMaximum(entries: seq<LeaderEntry>)
    requires Descending(entries) && entries != []
    ensures var rows := ProcessLeaderboard(entries);
      var s := CalculateStatsFromData(rows);
      && (forall i :: 0 <= i < |rows| ==> rows[i].totalUnits <= s.topGeneration)
      && s.averageGeneration <= s.topGeneration
  {
    var rows := ProcessLeaderboard(entries);
    var top := rows[0].totalUnits;
    assert forall i :: 0 <= i < |rows| ==> rows[i].totalUnits <= top by {
      forall i | 0 <= i < |rows| ensures rows[i].totalUnits <= top {
        if i > 0 {
          assert entries[0].totalUnits >= entries[i].totalUnits;
        }
      }
    }
    SumAtMostTop(rows, top);
    EnergyGenerated.DivideBound(SumUnits(rows), |rows|, top);
  }

  // ---------------------------------------------------------------------
  // Loading

  const INVALID_RESPONSE_MESSAGE := "Invalid response format from server"
  const LEADERBOARD_FAILED_MESSAGE := "Failed to load leaderboard data"

  /** What the leaderboard request came back with: a body with or without a
      list, or a thrown error with its message. */
  datatype LeaderboardOutcome = Received(leaderboard: Option<seq<LeaderEntry>>) | Failed(message: string)

  class LeaderboardView {
    var leaderboardData: seq<RankedEntry>
    var loading: bool
    var error: Option<string>
    var lastUpdated: Option<int>

    constructor ()
      ensures leaderboardData == [] && loading && error == None && lastUpdated == None
    {
      leaderboardData, loading, error, lastUpdated := [], true, None, None;
    }

    /** Loads the list; a received list replaces the rows, anything else
        keeps them and sets the error; loading ends cleared. */
    method FetchLeaderboard(showLoading: bool, outcome: LeaderboardOutcome, now: int)
      modifies this
      ensures !loading
      ensures outcome.Received? && outcome.leaderboard.Some? ==>
                leaderboardData == ProcessLeaderboard(outcome.leaderboard.value)
                && error == None && lastUpdated == Some(now)
      ensures outcome.Received? && outcome.leaderboard.None? ==>
                leaderboardData == old(leaderboardData) && error == Some(INVALID_RESPONSE_MESSAGE)
                && lastUpdated == old(lastUpdated)
      ensures outcome.Failed? ==>
                leaderboardData == old(leaderboardData) && lastUpdated == old(lastUpdated)
                && error == Some(if outcome.message == "" then LEADERBOARD_FAILED_MESSAGE else outcome.message)
    {
      if showLoading {
        loading := true;
      }
      error := None;
      match outcome {
        case Received(Some(entries)) =>
          leaderboardData := ProcessLeaderboard(entries);
          lastUpdated := Some(now);
        case Received(None) =>
          error := Some(INVALID_RESPONSE_MESSAGE);
        case Failed(message) =>
          error := Some(if message == "" then LEADERBOARD_FAILED_MESSAGE else message);
      }
      loading := false;
    }
  }
}
