/** The energy-generation page: the summary metrics over the loaded logs,
    the per-log efficiency grade and device label, and the paged loading of
    logs with its error messages. */
module EnergyGenerated {
  import opened Common
  import opened LogRecords
  import opened Streak

  // ---------------------------------------------------------------------
  // Metrics

  datatype Metrics = Metrics(
    totalGenerated: real,
    todayGenerated: real,
    avgUnitsPerLog: real,
    totalDevices: nat,
    peakGeneration: real,
    co2Saved: real)

  /** Kilograms of CO2 saved per kWh. */
  const CO2_PER_KWH: real := 0.6

  /** `Math.max` over the units of a non-empty list of logs. */
  function Peak(logs: seq<LogEntry>): (m: real)
    requires |logs| > 0
    ensures forall i :: 0 <= i < |logs| ==> logs[i].units <= m
    ensures exists i :: 0 <= i < |logs| && logs[i].units == m
  {
    var last := logs[|logs| - 1].units;
    if |logs| == 1 then last
    else
      var m := Peak(logs[..|logs| - 1]);
      if last > m then last else m
  }

  /** The distinct device ids, the missing id counting as one more. */
  function DeviceSet(logs: seq<LogEntry>): (devices: set<Option<string>>)
    ensures forall d :: d in devices <==> exists i :: 0 <= i < |logs| && logs[i].deviceId == d
    ensures |devices| <= |logs|
    ensures |logs| > 0 ==> |devices| >= 1
  {
    if logs == [] then {}
    else
      var init := logs[..|logs| - 1];
      var devices := DeviceSet(init) + {logs[|logs| - 1].deviceId};
      assert forall i :: 0 <= i < |init| ==> init[i] == logs[i];
      assert logs[|logs| - 1].deviceId in devices;
      devices
  }

  /** All zeros for no logs; otherwise the sums, the mean, the number of
      devices, the largest single log and the CO2 estimate. Today is the
      page's fixed day. */
  function CalculateMetrics(logs: seq<LogEntry>): (m: Metrics)
    ensures logs == [] ==> m == Metrics(0.0, 0.0, 0.0, 0, 0.0, 0.0)
    ensures logs != [] ==>
              && m.totalGenerated == TotalUnits(logs)
              && m.todayGenerated == TodayUnits(logs, TODAY)
              && Scaled(|logs|, m.avgUnitsPerLog) == m.totalGenerated
              && m.totalDevices == |DeviceSet(logs)|
              && (forall i :: 0 <= i < |logs| ==> logs[i].units <= m.peakGeneration)
              && (exists i :: 0 <= i < |logs| && logs[i].units == m.peakGeneration)
              && m.co2Saved == CO2_PER_KWH * m.totalGenerated
  {
    if logs == [] then Metrics(0.0, 0.0, 0.0, 0, 0.0, 0.0)
    else
      var totalGenerated := TotalUnits(logs);
      var todayGenerated := TodayUnits(logs, TODAY);
      var avgUnitsPerLog := totalGenerated / (|logs| as real);
      MeanTimesCount(totalGenerated, |logs|);
      Metrics(totalGenerated, todayGenerated, avgUnitsPerLog, |DeviceSet(logs)|, Peak(logs),
              CO2_PER_KWH * totalGenerated)
  }

  /** A single log never exceeds the total when units are non-negative. */
  lemma {:induction false} UnitsAtMostTotal(logs: seq<LogEntry>, k: int)
    requires NonNegativeUnits(logs) && 0 <= k < |logs|
    ensures logs[k].units <= TotalUnits(logs)
  {
    var init := logs[..|logs| - 1];
    if k < |logs| - 1 {
      UnitsAtMostTotal(init, k);
    } else {
      TotalUnitsNonNegative(init);
    }
  }

  /** `k` copies of `p` added up: `k * p` without a product of unknowns. */
  function Scaled(k: nat, p: real): real {
    if k == 0 then 0.0 else Scaled(k - 1, p) + p
  }

  lemma {:induction false} ScaledMonotone(k: nat, p0: real, p: real)
    requires p0 <= p
    ensures Scaled(k, p0) <= Scaled(k, p)
  {
    if k > 0 {
      ScaledMonotone(k - 1, p0, p);
    }
  }

  lemma {:induction false} ScaledIsProduct(k: nat, p: real)
    ensures Scaled(k, p) == (k as real) * p
  {
    if k > 0 {
      ScaledIsProduct(k - 1, p);
      assert ((k - 1) as real) * p + p == (k as real) * p;
    }
  }

  /** Dividing by the count and adding back once per log restores the total. */
  lemma MeanTimesCount(t: real, k: nat)
    requires k > 0
    ensures Scaled(k, t / (k as real)) == t
  {
    ScaledIsProduct(k, t / (k as real));
  }

  /** t <= k copies of p gives t / k <= p. */
  lemma DivideBound(t: real, k: nat, p: real)
    requires k > 0 && t <= Scaled(k, p)
    ensures t / (k as real) <= p
  {
    ScaledIsProduct(k, p);
  }

  /** The total is at most one peak per log. */
  lemma {:induction false} TotalAtMostCountTimesPeak(logs: seq<LogEntry>)
    requires |logs| > 0
    ensures TotalUnits(logs) <= Scaled(|logs|, Peak(logs))
  {
    if |logs| > 1 {
      var init := logs[..|logs| - 1];
      TotalAtMostCountTimesPeak(init);
      ScaledMonotone(|init|, Peak(init), Peak(logs));
    }
  }

  lemma MeanAtMostPeak(logs: seq<LogEntry>)
    requires logs != []
    ensures TotalUnits(logs) / (|logs| as real) <= Peak(logs)
  {
    TotalAtMostCountTimesPeak(logs);
    DivideBound(TotalUnits(logs), |logs|, Peak(logs));
  }

  /** For non-negative logs the metrics are ordered as the cards suggest:
      today within the total, the mean within the peak, the peak within the
      total, between one device and one per log, and a non-negative CO2
      figure. */
  lemma MetricsBounds(logs: seq<LogEntry>)
    requires NonNegativeUnits(logs) && logs != []
    ensures var m := CalculateMetrics(logs);
      && 0.0 <= m.todayGenerated <= m.totalGenerated
      && 0.0 <= m.avgUnitsPerLog <= m.peakGeneration <= m.totalGenerated
      && 1 <= m.totalDevices <= |logs|
      && m.co2Saved >= 0.0
  {
    var m := CalculateMetrics(logs);
    TodayUnitsBounded(logs, TODAY);
    TotalUnitsNonNegative(logs);
    MeanAtMostPeak(logs);
    var k :| 0 <= k < |logs| && logs[k].units == m.peakGeneration;
    UnitsAtMostTotal(logs, k);
    NonNegativeMean(m.totalGenerated, |logs| as real);
  }

  lemma NonNegativeMean(t: real, n: real)
    requires n > 0.0 && t >= 0.0
    ensures t / n >= 0.0 && CO2_PER_KWH * t >= 0.0
  {
  }

  // ---------------------------------------------------------------------
  // Per-log display

  datatype Efficiency = Excellent | Good | Fair | Poor

  function EfficiencyName(e: Efficiency): string {
    match e
    case Excellent => "excellent"
    case Good => "good"
    case Fair => "fair"
    case Poor => "poor"
  }

  function EfficiencyStatus(units: real): Efficiency {
    if units >= 5.0 then Excellent
    else if units >= 3.0 then Good
    else if units >= 1.0 then Fair
    else Poor
  }

  function Grade(e: Efficiency): nat {
    match e
    case Poor => 0
    case Fair => 1
    case Good => 2
    case Excellent => 3
  }

  /** The grade counts how many of the thresholds 1, 3 and 5 kWh the log
      reaches, so more units never give a lower grade. */
  lemma EfficiencyMonotone(u: real, v: real)
    ensures Grade(EfficiencyStatus(u))
         == (if u >= 1.0 then 1 else 0) + (if u >= 3.0 then 1 else 0) + (if u >= 5.0 then 1 else 0)
    ensures u <= v ==> Grade(EfficiencyStatus(u)) <= Grade(EfficiencyStatus(v))
  {
  }

  const UNKNOWN_DEVICE := "Unknown Device"
  const DEVICE_PREFIX := "Solar Panel "

  /** `s.slice(-n)`: the last `n` characters, or all of a shorter string. */
  function Last(s: string, n: nat): (r: string)
    ensures |r| == (if |s| < n then |s| else n)
    ensures r == s[|s| - |r|..]
  {
    if |s| < n then s else s[|s| - n..]
  }

  function FormatDeviceId(deviceId: Option<string>): string {
    if !Truthy(deviceId) then UNKNOWN_DEVICE
    else DEVICE_PREFIX + Last(deviceId.value, 4)
  }

  /** A missing or empty id reads "Unknown Device"; any other id reads as
      the panel prefix followed by at most its last four characters, never
      the unknown label. */
  lemma FormatDeviceIdShape(deviceId: Option<string>)
    ensures FormatDeviceId(deviceId) == UNKNOWN_DEVICE <==> !Truthy(deviceId)
    ensures Truthy(deviceId) ==>
              && FormatDeviceId(deviceId)[..|DEVICE_PREFIX|] == DEVICE_PREFIX
              && FormatDeviceId(deviceId)[|DEVICE_PREFIX|..] == Last(deviceId.value, 4)
              && |FormatDeviceId(deviceId)| <= |DEVICE_PREFIX| + 4
  {
    if Truthy(deviceId) {
      var r := FormatDeviceId(deviceId);
      assert r[0] == 'S' != UNKNOWN_DEVICE[0];
    }
  }

  // ---------------------------------------------------------------------
  // Paged loading

  const PAGE_SIZE := 50
  const CONNECT_WALLET_MESSAGE := "Please connect your wallet to view energy logs"
  const INVALID_RESPONSE_MESSAGE := "Invalid response format from server"
  const FETCH_FAILED_MESSAGE := "Failed to load energy logs"

  /** What the log request came back with: a body with or without a logs
      array and its count (a missing count read as 0), or a thrown error with
      its message. */
  datatype FetchOutcome = Received(logs: Option<seq<LogEntry>>, count: int) | Failed(message: string)

  datatype PageState = PageState(
    energyLogs: seq<LogEntry>,
    loading: bool,
    loadingMore: bool,
    error: Option<string>,
    lastUpdated: Option<int>,
    totalCount: int,
    skip: int)

  /** The state a fetch of the page at `skipCount` leaves behind. Without
      an account only the error is set; otherwise the loading flags end
      cleared, a received page replaces or extends the list, and a failure
      keeps the list and shows its message. */
  function AfterFetch(s: PageState, account: Option<string>, skipCount: int, isLoadMore: bool,
                      outcome: FetchOutcome, now: int): PageState
  {
    if !Truthy(account) then s.(error := Some(CONNECT_WALLET_MESSAGE))
    else
      var done := s.(loading := false, loadingMore := false);
      match outcome
      case Received(Some(newLogs), count) =>
        done.(energyLogs := if isLoadMore then s.energyLogs + newLogs else newLogs,
              error := None, totalCount := count, lastUpdated := Some(now),
              skip := skipCount + |newLogs|)
      case Received(None, _) => done.(error := Some(INVALID_RESPONSE_MESSAGE))
      case Failed(message) =>
        done.(error := Some(if message == "" then FETCH_FAILED_MESSAGE else message))
  }

  predicate Fetched(account: Option<string>, outcome: FetchOutcome) {
    Truthy(account) && outcome.Received? && outcome.logs.Some?
  }

  /** The "Load more" control shows, and its handler fetches, only while
      fewer logs are loaded than the count says and no load-more is running. */
  predicate CanLoadMore(s: PageState) {
    !s.loadingMore && |s.energyLogs| < s.totalCount
  }

  /** The offset of the next page equals the number of loaded logs. */
  predicate SkipTracksLoaded(s: PageState) {
    s.skip == |s.energyLogs|
  }

  /** Fresh loads from offset 0 and load-mores from the current offset keep
      the offset equal to the number of loaded logs; failures keep the list
      and the offset; a fresh load shows exactly the page received and a
      load-more appends it. */
  lemma FetchKeepsSkip(s: PageState, account: Option<string>, isLoadMore: bool, outcome: FetchOutcome, now: int)
    requires SkipTracksLoaded(s)
    ensures var skipCount := if isLoadMore then s.skip else 0;
      var t := AfterFetch(s, account, skipCount, isLoadMore, outcome, now);
      && SkipTracksLoaded(t)
      && (!Fetched(account, outcome) ==> t.energyLogs == s.energyLogs && t.totalCount == s.totalCount)
      && (Fetched(account, outcome) ==>
            t.energyLogs == (if isLoadMore then s.energyLogs else []) + outcome.logs.value
            && t.error == None && t.totalCount == outcome.count)
  {
    if Fetched(account, outcome) && !isLoadMore {
      assert [] + outcome.logs.value == outcome.logs.value;
    }
  }

  /** A fetch answered with a count no larger than the page it sent closes
      the "Load more" control, whether it was a fresh load or a load-more. */
  lemma CountOfPageClosesLoadMore(s: PageState, account: Option<string>, skipCount: int, isLoadMore: bool,
                                  outcome: FetchOutcome, now: int)
    requires Fetched(account, outcome) && outcome.count <= |outcome.logs.value|
    ensures !CanLoadMore(AfterFetch(s, account, skipCount, isLoadMore, outcome, now))
  {
  }

  class EnergyPage {
    var energyLogs: seq<LogEntry>
    var loading: bool
    var loadingMore: bool
    var error: Option<string>
    var lastUpdated: Option<int>
    var totalCount: int
    var skip: int

    ghost function State(): PageState
      reads this
    {
      PageState(energyLogs, loading, loadingMore, error, lastUpdated, totalCount, skip)
    }

    constructor ()
      ensures State() == PageState([], false, false, None, None, 0, 0)
    {
      energyLogs, loading, loadingMore, error, lastUpdated, totalCount, skip :=
        [], false, false, None, None, 0, 0;
    }

    /** Fetches the page at `skipCount` (its result given as `outcome`,
        the clock as `now`) and, on success, hands every loaded log to the
        streak tracker for today's evaluation. */
    method FetchEnergyLogs(tracker: StreakTracker, account: Option<string>, skipCount: int, isLoadMore: bool,
                           outcome: FetchOutcome, now: int)
      modifies this, tracker
      ensures State() == AfterFetch(old(State()), account, skipCount, isLoadMore, outcome, now)
      ensures Fetched(account, outcome) ==> tracker.State() == Evaluate(old(tracker.State()), energyLogs, TODAY)
      ensures !Fetched(account, outcome) ==> tracker.State() == old(tracker.State())
    {
      ApplyFetch(account, skipCount, isLoadMore, outcome, now);
      if Fetched(account, outcome) {
        var _ := tracker.UpdateStreak(account, energyLogs, TODAY);
      }
    }

    /** The page's own part of a fetch: the flags, the error and, on
        success, the loaded logs, the count, the time and the offset. */
    method ApplyFetch(account: Option<string>, skipCount: int, isLoadMore: bool, outcome: FetchOutcome, now: int)
      modifies this
      ensures State() == AfterFetch(old(State()), account, skipCount, isLoadMore, outcome, now)
    {
      if !Truthy(account) {
        error := Some(CONNECT_WALLET_MESSAGE);
        return;
      }
      if !isLoadMore {
        loading := true;
      } else {
        loadingMore := true;
      }
      error := None;
      match outcome {
        case Received(Some(newLogs), count) =>
          if isLoadMore {
            energyLogs := energyLogs + newLogs;
          } else {
            energyLogs := newLogs;
          }
          totalCount := count;
          lastUpdated := Some(now);
          skip := skipCount + |newLogs|;
        case Received(None, _) =>
          error := Some(INVALID_RESPONSE_MESSAGE);
        case Failed(message) =>
          error := Some(if message == "" then FETCH_FAILED_MESSAGE else message);
      }
      loading := false;
      loadingMore := false;
    }

    /** The "Load more" handler: fetches the next page only when allowed. */
    method LoadMoreLogs(tracker: StreakTracker, account: Option<string>, outcome: FetchOutcome, now: int)
      returns (fetched: bool)
      modifies this, tracker
      ensures fetched == CanLoadMore(old(State()))
      ensures fetched ==> State() == AfterFetch(old(State()), account, old(skip), true, outcome, now)
      ensures !fetched ==> State() == old(State()) && tracker.State() == old(tracker.State())
      ensures fetched && Fetched(account, outcome) ==>
                tracker.State() == Evaluate(old(tracker.State()), energyLogs, TODAY)
      ensures fetched && !Fetched(account, outcome) ==> tracker.State() == old(tracker.State())
    {
      fetched := !loadingMore && |energyLogs| < totalCount;
      if fetched {
        FetchEnergyLogs(tracker, account, skip, true, outcome, now);
      }
    }

    /** The effect run when the wallet connects or disconnects: a connected
        wallet marks the app opened and loads the first page, so the streak
        is evaluated with the app counted as opened today; otherwise the
        list, the error and the count are cleared and the streak is left
        alone. */
    method OnWalletChange(tracker: StreakTracker, isConnected: bool, account: Option<string>,
                          outcome: FetchOutcome, now: int)
      modifies this, tracker
      ensures isConnected && Truthy(account) ==>
                State() == AfterFetch(old(State()).(skip := 0), account, 0, false, outcome, now)
      ensures !(isConnected && Truthy(account)) ==>
                State() == old(State()).(energyLogs := [], error := None, totalCount := 0)
      ensures !(isConnected && Truthy(account)) ==> tracker.State() == old(tracker.State())
      ensures isConnected && Truthy(account) && Fetched(account, outcome) ==>
                tracker.State() == Evaluate(old(tracker.State()).(appOpenedToday := true), energyLogs, TODAY)
      ensures isConnected && Truthy(account) && !Fetched(account, outcome) ==>
                tracker.State() == old(tracker.State()).(appOpenedToday := true)
    {
      if isConnected && Truthy(account) {
        var _ := tracker.MarkAppOpened();
        skip := 0;
        FetchEnergyLogs(tracker, account, 0, false, outcome, now);
      } else {
        energyLogs := [];
        error := None;
        totalCount := 0;
      }
    }
  }
}
