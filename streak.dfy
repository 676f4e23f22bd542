/** The per-account day-streak and badge evaluator of the streak context.
    Days are integer day numbers and "yesterday" is `today - 1`; the caller
    supplies `today`. */
module Streak {
  import opened Common
  import opened LogRecords

  const REQUIRED_DAILY_GENERATION: real := 3.0

  datatype Badge = Badge(id: string, name: string, days: nat, description: string)

  /** The badge catalog, least to greatest number of days. */
  const BADGE_DEFINITIONS: seq<Badge> := [
    Badge("streak_5", "Energy Rookie", 5, "5 days of consistent energy generation"),
    Badge("streak_7", "Weekly Warrior", 7, "7 days straight of solar power"),
    Badge("streak_10", "Power Pioneer", 10, "10 days of reliable generation"),
    Badge("streak_20", "Solar Specialist", 20, "20 days of solar mastery"),
    Badge("streak_30", "Monthly Master", 30, "30 days of consistent power"),
    Badge("streak_50", "Power Pro", 50, "50 days of excellence"),
    Badge("streak_75", "Energy Elite", 75, "75 days of superior generation"),
    Badge("streak_100", "Century Champion", 100, "100 days of power perfection"),
    Badge("streak_250", "Legendary Generator", 250, "250 days of legendary performance"),
    Badge("streak_300", "Solar Sovereign", 300, "300 days of unmatched dedication"),
    Badge("streak_365", "Annual Achiever", 365, "A full year of solar excellence")
  ]

  datatype EarnedBadge = EarnedBadge(badge: Badge, earnedDate: int, streakAtEarning: int)

  datatype StreakDay = StreakDay(date: int, generation: real, appOpened: bool, qualified: bool)

  /** Catalog order is strictly increasing in days. */
  predicate Ascending(catalog: seq<Badge>) {
    forall i, j :: 0 <= i < j < |catalog| ==> catalog[i].days < catalog[j].days
  }

  predicate DistinctIds(catalog: seq<Badge>) {
    forall i, j :: 0 <= i < j < |catalog| ==> catalog[i].id != catalog[j].id
  }

  lemma CatalogWellFormed()
    ensures Ascending(BADGE_DEFINITIONS) && DistinctIds(BADGE_DEFINITIONS)
    ensures forall b :: b in BADGE_DEFINITIONS ==> b.days >= 5
  {
    CatalogAscending();
    CatalogDistinctIds();
    assert forall i :: 0 <= i < |BADGE_DEFINITIONS| ==> BADGE_DEFINITIONS[i].days >= 5;
  }

  lemma CatalogAscending()
    ensures Ascending(BADGE_DEFINITIONS)
  {
  }

  lemma CatalogDistinctIds()
    ensures DistinctIds(BADGE_DEFINITIONS)
  {
  }

  // ---------------------------------------------------------------------
  // The daily predicate and the counter transition

  predicate QualifiesForStreak(generation: real, appOpened: bool) {
    generation >= REQUIRED_DAILY_GENERATION && appOpened
  }

  datatype Counters = Counters(current: nat, longest: nat, lastActive: Option<int>)

  /** One evaluation of the streak counters on day `today`: continue after a
      qualifying yesterday, keep when today was already counted, restart
      otherwise; a non-qualifying day breaks a streak that was active
      yesterday and leaves everything else alone. */
  function StepCounters(c: Counters, today: int, qualifies: bool): Counters {
    var yesterday := today - 1;
    if qualifies then
      var current :=
        if c.lastActive == Some(yesterday) then c.current + 1
        else if c.lastActive == Some(today) then c.current
        else 1;
      Counters(current, if current > c.longest then current else c.longest, Some(today))
    else if c.lastActive == Some(yesterday) then
      c.(current := 0)
    else
      c
  }

  /** The longest streak never decreases, and it keeps dominating the
      current streak. */
  lemma StepKeepsLongest(c: Counters, today: int, qualifies: bool)
    ensures StepCounters(c, today, qualifies).longest >= c.longest
    ensures c.longest >= c.current ==>
              StepCounters(c, today, qualifies).longest >= StepCounters(c, today, qualifies).current
    ensures qualifies ==> StepCounters(c, today, qualifies).longest >= StepCounters(c, today, qualifies).current
  {
  }

  /** Evaluating the same day twice with the same qualification is the same
      as evaluating it once. */
  lemma StepIdempotent(c: Counters, today: int, qualifies: bool)
    ensures StepCounters(StepCounters(c, today, qualifies), today, qualifies)
         == StepCounters(c, today, qualifies)
  {
  }

  // A reference reading of the counters: evaluating consecutive days once
  // each, from the empty state, counts runs of qualifying days.

  /** Number of qualifying days at the end of `qs`. */
  function TrailingRun(qs: seq<bool>): nat {
    if qs == [] || !qs[|qs| - 1] then 0 else TrailingRun(qs[..|qs| - 1]) + 1
  }

  /** Length of the longest run of qualifying days in `qs`. */
  function LongestRun(qs: seq<bool>): nat {
    if qs == [] then 0
    else
      var before := LongestRun(qs[..|qs| - 1]);
      if TrailingRun(qs) > before then TrailingRun(qs) else before
  }

  /** The last qualifying day when `qs[k]` is the verdict for day `start + k`. */
  function LastQualifying(qs: seq<bool>, start: int): Option<int> {
    if qs == [] then None
    else if qs[|qs| - 1] then Some(start + |qs| - 1)
    else LastQualifying(qs[..|qs| - 1], start)
  }

  /** Evaluate days `start`, `start + 1`, ... with verdicts `qs`. */
  function Replay(c: Counters, start: int, qs: seq<bool>): Counters {
    if qs == [] then c
    else StepCounters(Replay(c, start, qs[..|qs| - 1]), start + |qs| - 1, qs[|qs| - 1])
  }

  lemma {:induction false} LastQualifyingBound(qs: seq<bool>, start: int)
    ensures LastQualifying(qs, start).Some? ==> LastQualifying(qs, start).value <= start + |qs| - 1
    ensures LastQualifying(qs, start) == Some(start + |qs| - 1) <==> |qs| > 0 && qs[|qs| - 1]
  {
    if qs != [] && !qs[|qs| - 1] {
      LastQualifyingBound(qs[..|qs| - 1], start);
    }
  }

  /** Starting from the empty state and evaluating each calendar day once,
      the current streak is the number of consecutive qualifying days up to
      the last one, the longest streak is the longest such run, and the last
      active date is the last qualifying day. */
  lemma {:induction false} ReplayCountsRuns(start: int, qs: seq<bool>)
    ensures Replay(Counters(0, 0, None), start, qs)
         == Counters(TrailingRun(qs), LongestRun(qs), LastQualifying(qs, start))
  {
    if qs != [] {
      var init := qs[..|qs| - 1];
      ReplayCountsRuns(start, init);
      LastQualifyingBound(init, start);
    }
  }

  // ---------------------------------------------------------------------
  // Badges

  predicate HasBadge(earned: seq<EarnedBadge>, id: string) {
    exists k :: 0 <= k < |earned| && earned[k].badge.id == id
  }

  predicate DistinctEarned(earned: seq<EarnedBadge>) {
    forall i, j :: 0 <= i < j < |earned| ==> earned[i].badge.id != earned[j].badge.id
  }

  /** The badges a streak of `streakDays` earns now, in catalog order. */
  function NewBadges(catalog: seq<Badge>, earned: seq<EarnedBadge>, streakDays: int, today: int)
    : (r: seq<EarnedBadge>)
    ensures |r| <= |catalog|
    ensures forall k :: 0 <= k < |r| ==>
              && r[k].badge in catalog
              && r[k].badge.days <= streakDays
              && !HasBadge(earned, r[k].badge.id)
              && r[k].earnedDate == today
              && r[k].streakAtEarning == streakDays
  {
    if catalog == [] then []
    else
      var badge := catalog[|catalog| - 1];
      var before := NewBadges(catalog[..|catalog| - 1], earned, streakDays, today);
      if !HasBadge(earned, badge.id) && streakDays >= badge.days
      then before + [EarnedBadge(badge, today, streakDays)]
      else before
  }

  /** Checking one more catalog badge appends it when it is reached and not
      yet earned. */
  lemma NewBadgesStep(catalog: seq<Badge>, earned: seq<EarnedBadge>, streakDays: int, today: int, i: int)
    requires 0 <= i < |catalog|
    ensures NewBadges(catalog[..i + 1], earned, streakDays, today)
         == if !HasBadge(earned, catalog[i].id) && streakDays >= catalog[i].days
            then NewBadges(catalog[..i], earned, streakDays, today) + [EarnedBadge(catalog[i], today, streakDays)]
            else NewBadges(catalog[..i], earned, streakDays, today)
  {
    assert catalog[..i + 1][..i] == catalog[..i];
  }

  /** Every catalog badge the streak has reached is earned afterwards. */
  lemma {:induction false} NewBadgesComplete(catalog: seq<Badge>, earned: seq<EarnedBadge>, streakDays: int, today: int)
    ensures forall b :: b in catalog && b.days <= streakDays ==>
              HasBadge(earned + NewBadges(catalog, earned, streakDays, today), b.id)
  {
    if catalog != [] {
      var init := catalog[..|catalog| - 1];
      NewBadgesComplete(init, earned, streakDays, today);
      var before := NewBadges(init, earned, streakDays, today);
      var r := NewBadges(catalog, earned, streakDays, today);
      assert r == before || r == before + [EarnedBadge(catalog[|catalog| - 1], today, streakDays)];
      forall b | b in catalog && b.days <= streakDays
        ensures HasBadge(earned + r, b.id)
      {
        if b in init {
          var k :| 0 <= k < |earned + before| && (earned + before)[k].badge.id == b.id;
          assert (earned + r)[k] == (earned + before)[k];
        } else {
          assert b == catalog[|catalog| - 1];
          if HasBadge(earned, b.id) {
            var k :| 0 <= k < |earned| && earned[k].badge.id == b.id;
            assert (earned + r)[k] == earned[k];
          } else {
            assert (earned + r)[|earned + r| - 1].badge == b;
          }
        }
      }
    }
  }

  /** For an ascending catalog the new badges come out in increasing order
      of days, so the ids among them are distinct and none was earned
      before: the earned list keeps its ids unique. */
  predicate IncreasingDays(r: seq<EarnedBadge>) {
    forall i, j :: 0 <= i < j < |r| ==> r[i].badge.days < r[j].badge.days
  }

  lemma {:induction false} NewBadgesOrdered(catalog: seq<Badge>, earned: seq<EarnedBadge>, streakDays: int, today: int)
    requires Ascending(catalog)
    ensures IncreasingDays(NewBadges(catalog, earned, streakDays, today))
  {
    if catalog != [] {
      var init := catalog[..|catalog| - 1];
      var last := catalog[|catalog| - 1];
      NewBadgesOrdered(init, earned, streakDays, today);
      var before := NewBadges(init, earned, streakDays, today);
      forall k | 0 <= k < |before| ensures before[k].badge.days < last.days {
        var m :| 0 <= m < |init| && init[m] == before[k].badge;
        assert catalog[m] == init[m];
      }
      var r := NewBadges(catalog, earned, streakDays, today);
      if r != before {
        assert r == before + [EarnedBadge(last, today, streakDays)];
        forall i, j | 0 <= i < j < |r| ensures r[i].badge.days < r[j].badge.days {
          if j < |before| {
            assert r[i] == before[i] && r[j] == before[j];
            assert before[i].badge.days < before[j].badge.days;
          } else {
            assert r[i] == before[i] && r[j].badge == last;
          }
        }
      }
    }
  }

  /** Adding the new badges keeps the ids of the earned list distinct. */
  lemma EarnedStaysDistinct(catalog: seq<Badge>, earned: seq<EarnedBadge>, streakDays: int, today: int)
    requires Ascending(catalog) && DistinctIds(catalog) && DistinctEarned(earned)
    ensures DistinctEarned(earned + NewBadges(catalog, earned, streakDays, today))
  {
    var r := NewBadges(catalog, earned, streakDays, today);
    NewBadgesOrdered(catalog, earned, streakDays, today);
    forall i, j | 0 <= i < j < |r| ensures r[i].badge.id != r[j].badge.id {
      var p :| 0 <= p < |catalog| && catalog[p] == r[i].badge;
      var q :| 0 <= q < |catalog| && catalog[q] == r[j].badge;
      assert r[i].badge.days < r[j].badge.days;
    }
    forall i, j | 0 <= i < j < |earned + r|
      ensures (earned + r)[i].badge.id != (earned + r)[j].badge.id
    {
      if j >= |earned| && i < |earned| {
        assert (earned + r)[j] == r[j - |earned|];
        assert (earned + r)[i] == earned[i];
      } else if i >= |earned| {
        assert (earned + r)[j] == r[j - |earned|];
        assert (earned + r)[i] == r[i - |earned|];
      }
    }
  }

  /** The badges a streak has earned are not earned again: a second check
      with the same streak adds nothing. */
  lemma {:induction false} NewBadgesNoneLeft(catalog: seq<Badge>, earned: seq<EarnedBadge>, streakDays: int, today: int)
    requires forall b :: b in catalog && b.days <= streakDays ==> HasBadge(earned, b.id)
    ensures NewBadges(catalog, earned, streakDays, today) == []
  {
    if catalog != [] {
      NewBadgesNoneLeft(catalog[..|catalog| - 1], earned, streakDays, today);
    }
  }

  /** The first catalog badge not yet earned. */
  function FirstUnearned(catalog: seq<Badge>, earned: seq<EarnedBadge>): (r: Option<Badge>)
    ensures r.Some? ==> r.value in catalog && !HasBadge(earned, r.value.id)
    ensures r.None? <==> forall b :: b in catalog ==> HasBadge(earned, b.id)
  {
    if catalog == [] then None
    else if !HasBadge(earned, catalog[0].id) then Some(catalog[0])
    else
      var r := FirstUnearned(catalog[1..], earned);
      assert forall b :: b in catalog ==> b == catalog[0] || b in catalog[1..];
      r
  }

  /** Over an ascending catalog the first unearned badge is the one with the
      fewest days among the unearned ones, which is what sorting the
      unearned badges by days and taking the head selects. */
  lemma {:induction false} FirstUnearnedIsLowest(catalog: seq<Badge>, earned: seq<EarnedBadge>)
    requires Ascending(catalog)
    ensures var r := FirstUnearned(catalog, earned);
      r.Some? ==> forall b :: b in catalog && !HasBadge(earned, b.id) ==> r.value.days <= b.days
  {
    if catalog != [] && HasBadge(earned, catalog[0].id) {
      FirstUnearnedIsLowest(catalog[1..], earned);
      assert forall b :: b in catalog ==> b == catalog[0] || b in catalog[1..];
    }
  }

  lemma PercentReachesFull(c: real, d: real)
    requires d > 0.0
    ensures (c / d) * 100.0 >= 100.0 <==> c >= d
  {
    var q := c / d;
    assert q * d == c;
    if q >= 1.0 {
      assert q * d >= 1.0 * d;
    } else {
      assert q * d < 1.0 * d;
    }
  }

  /** `x` percent of `whole` is `part`: x = part / whole * 100. */
  predicate IsPercentOf(x: real, part: int, whole: int) {
    x * (whole as real) == (part as real) * 100.0
  }

  datatype Progress = Progress(progress: real, remaining: int, nextBadge: Option<Badge>)

  /** Progress towards `next`: min(current / days * 100, 100) percent and
      max(days - current, 0) days remaining; (100, 0, none) when no badge
      is left. */
  function ProgressTowards(current: nat, next: Option<Badge>): (p: Progress)
    requires next.Some? ==> next.value.days > 0
    ensures p.nextBadge == next
    ensures 0.0 <= p.progress <= 100.0 && p.remaining >= 0
    ensures next.None? ==> p.progress == 100.0 && p.remaining == 0
    ensures next.Some? ==> (p.remaining == 0 <==> current >= next.value.days)
    ensures next.Some? ==> (p.progress == 100.0 <==> current >= next.value.days)
    ensures next.Some? ==> current + p.remaining >= next.value.days
    ensures next.Some? && current < next.value.days ==>
              current + p.remaining == next.value.days && IsPercentOf(p.progress, current, next.value.days)
  {
    match next
    case None => Progress(100.0, 0, None)
    case Some(badge) =>
      var ratio := (current as real / badge.days as real) * 100.0;
      PercentReachesFull(current as real, badge.days as real);
      Progress(if ratio < 100.0 then ratio else 100.0,
               if badge.days - current > 0 then badge.days - current else 0,
               next)
  }

  // ---------------------------------------------------------------------
  // One whole evaluation, as a function of the state

  datatype StreakState = StreakState(
    currentStreak: nat,
    longestStreak: nat,
    lastActiveDate: Option<int>,
    earnedBadges: seq<EarnedBadge>,
    streakData: seq<StreakDay>,
    todayGeneration: real,
    appOpenedToday: bool)

  predicate HasDay(data: seq<StreakDay>, date: int) {
    exists k :: 0 <= k < |data| && data[k].date == date
  }

  predicate DistinctDays(data: seq<StreakDay>) {
    forall i, j :: 0 <= i < j < |data| ==> data[i].date != data[j].date
  }

  /** Append today's record unless a record for that date exists. */
  function RecordDay(data: seq<StreakDay>, entry: StreakDay): seq<StreakDay> {
    if HasDay(data, entry.date) then data else data + [entry]
  }

  /** The invariant the evaluator keeps. */
  predicate Consistent(s: StreakState) {
    && s.longestStreak >= s.currentStreak
    && DistinctEarned(s.earnedBadges)
    && DistinctDays(s.streakData)
  }

  /** What `updateStreak` does to the state on day `today` given the logs. */
  function Evaluate(s: StreakState, logs: seq<LogEntry>, today: int): StreakState {
    var generation := TodayUnits(logs, today);
    var qualifies := QualifiesForStreak(generation, s.appOpenedToday);
    var c := StepCounters(Counters(s.currentStreak, s.longestStreak, s.lastActiveDate), today, qualifies);
    var data :=
      if qualifies then RecordDay(s.streakData, StreakDay(today, generation, s.appOpenedToday, true))
      else s.streakData;
    s.(currentStreak := c.current,
       longestStreak := c.longest,
       lastActiveDate := c.lastActive,
       streakData := data,
       todayGeneration := if logs == [] then s.todayGeneration else generation,
       earnedBadges := s.earnedBadges + NewBadges(BADGE_DEFINITIONS, s.earnedBadges, c.current, today))
  }

  /** An evaluation keeps `longest >= current`, unique badge ids and one
      record per date; earned badges and records only grow, with at most one
      new record, for today, on a qualifying day; the longest streak never
      decreases. */
  lemma EvaluatePreserves(s: StreakState, logs: seq<LogEntry>, today: int)
    requires Consistent(s)
    ensures var t := Evaluate(s, logs, today);
      && Consistent(t)
      && t.longestStreak >= s.longestStreak
      && s.earnedBadges <= t.earnedBadges
      && s.streakData <= t.streakData
      && |t.streakData| <= |s.streakData| + 1
      && (|t.streakData| == |s.streakData| + 1 ==>
            t.streakData[|s.streakData|].date == today
            && QualifiesForStreak(TodayUnits(logs, today), s.appOpenedToday))
  {
    var t := Evaluate(s, logs, today);
    CatalogWellFormed();
    var c := StepCounters(Counters(s.currentStreak, s.longestStreak, s.lastActiveDate), today,
                          QualifiesForStreak(TodayUnits(logs, today), s.appOpenedToday));
    EarnedStaysDistinct(BADGE_DEFINITIONS, s.earnedBadges, c.current, today);
    if !HasDay(s.streakData, today) {
      forall i, j | 0 <= i < j < |s.streakData| + 1
        ensures (s.streakData + [StreakDay(today, 0.0, false, true)])[i].date
             != (s.streakData + [StreakDay(today, 0.0, false, true)])[j].date
      {
        if j == |s.streakData| {
          assert (s.streakData + [StreakDay(today, 0.0, false, true)])[i] == s.streakData[i];
        }
      }
    }
  }

  /** Re-evaluating the same day with the same logs changes nothing. */
  lemma EvaluateIdempotent(s: StreakState, logs: seq<LogEntry>, today: int)
    ensures Evaluate(Evaluate(s, logs, today), logs, today) == Evaluate(s, logs, today)
  {
    var t := Evaluate(s, logs, today);
    var generation := TodayUnits(logs, today);
    var qualifies := QualifiesForStreak(generation, s.appOpenedToday);
    var c := Counters(s.currentStreak, s.longestStreak, s.lastActiveDate);
    StepIdempotent(c, today, qualifies);
    NewBadgesComplete(BADGE_DEFINITIONS, s.earnedBadges, t.currentStreak, today);
    NewBadgesNoneLeft(BADGE_DEFINITIONS, t.earnedBadges, t.currentStreak, today);
    if qualifies {
      var entry := StreakDay(today, generation, s.appOpenedToday, true);
      if !HasDay(s.streakData, today) {
        assert t.streakData[|s.streakData|] == entry;
      }
      assert HasDay(t.streakData, today);
    }
    assert t.earnedBadges + [] == t.earnedBadges;
  }

  // ---------------------------------------------------------------------
  // The context's state, updated in place

  class StreakTracker {
    var currentStreak: nat
    var longestStreak: nat
    var lastActiveDate: Option<int>
    var earnedBadges: seq<EarnedBadge>
    var streakData: seq<StreakDay>
    var todayGeneration: real
    var appOpenedToday: bool

    ghost function State(): StreakState
      reads this
    {
      StreakState(currentStreak, longestStreak, lastActiveDate, earnedBadges, streakData,
                  todayGeneration, appOpenedToday)
    }

    /** A new account starts with zero counters and no history. */
    constructor ()
      ensures State() == StreakState(0, 0, None, [], [], 0.0, false)
      ensures Consistent(State())
    {
      currentStreak, longestStreak, lastActiveDate := 0, 0, None;
      earnedBadges, streakData := [], [];
      todayGeneration, appOpenedToday := 0.0, false;
    }

    /** Records that the app was opened; true when it is the first time. */
    method MarkAppOpened() returns (firstToday: bool)
      modifies this`appOpenedToday
      ensures appOpenedToday
      ensures firstToday == !old(appOpenedToday)
    {
      var wasAlreadyOpened := appOpenedToday;
      appOpenedToday := true;
      firstToday := !wasAlreadyOpened;
    }

    /** Sums today's units and keeps the sum as today's generation; an empty
        list gives 0 and leaves the kept sum alone. */
    method CalculateTodayGeneration(logs: seq<LogEntry>, today: int) returns (total: real)
      modifies this`todayGeneration
      ensures total == TodayUnits(logs, today)
      ensures todayGeneration == if logs == [] then old(todayGeneration) else total
    {
      if |logs| == 0 {
        return 0.0;
      }
      total := TotalUnits(TodayLogs(logs, today));
      todayGeneration := total;
    }

    /** Appends the catalog badges reached by `streakDays` that are not yet
        earned, in catalog order, and returns them. */
    method CheckForNewBadges(streakDays: int, today: int) returns (newBadges: seq<EarnedBadge>)
      modifies this`earnedBadges
      ensures newBadges == NewBadges(BADGE_DEFINITIONS, old(earnedBadges), streakDays, today)
      ensures earnedBadges == old(earnedBadges) + newBadges
    {
      newBadges := [];
      var i := 0;
      while i < |BADGE_DEFINITIONS|
        invariant 0 <= i <= |BADGE_DEFINITIONS|
        invariant earnedBadges == old(earnedBadges)
        invariant newBadges == NewBadges(BADGE_DEFINITIONS[..i], earnedBadges, streakDays, today)
      {
        var badge := BADGE_DEFINITIONS[i];
        var alreadyEarned := HasBadge(earnedBadges, badge.id);
        NewBadgesStep(BADGE_DEFINITIONS, earnedBadges, streakDays, today, i);
        if !alreadyEarned && streakDays >= badge.days {
          newBadges := newBadges + [EarnedBadge(badge, today, streakDays)];
        }
        i := i + 1;
      }
      assert BADGE_DEFINITIONS[..|BADGE_DEFINITIONS|] == BADGE_DEFINITIONS;
      if |newBadges| > 0 {
        earnedBadges := earnedBadges + newBadges;
      }
    }

    /** Evaluates today for the connected account; without an account nothing
        happens. Returns the badges earned by this evaluation. */
    method UpdateStreak(account: Option<string>, logs: seq<LogEntry>, today: int)
      returns (newBadges: seq<EarnedBadge>)
      modifies this
      ensures !Truthy(account) ==> State() == old(State()) && newBadges == []
      ensures Truthy(account) ==> State() == Evaluate(old(State()), logs, today)
      ensures Truthy(account) ==>
                newBadges == NewBadges(BADGE_DEFINITIONS, old(earnedBadges), currentStreak, today)
    {
      if !Truthy(account) {
        return [];
      }
      ghost var s0 := State();
      var generation := CalculateTodayGeneration(logs, today);
      var hasOpenedToday := appOpenedToday;
      var qualifiesToday := QualifiesForStreak(generation, hasOpenedToday);

      var c := StepCounters(Counters(currentStreak, longestStreak, lastActiveDate), today, qualifiesToday);
      if qualifiesToday && !HasDay(streakData, today) {
        streakData := streakData + [StreakDay(today, generation, hasOpenedToday, true)];
      }
      currentStreak, longestStreak, lastActiveDate := c.current, c.longest, c.lastActive;
      assert earnedBadges == s0.earnedBadges;
      newBadges := CheckForNewBadges(currentStreak, today);
      assert State() == Evaluate(s0, logs, today);
    }

    /** The lowest-days badge not yet earned, or none. */
    function NextBadge(): (r: Option<Badge>)
      reads this
      ensures r.Some? ==> r.value in BADGE_DEFINITIONS && !HasBadge(earnedBadges, r.value.id)
      ensures r.Some? ==> forall b :: b in BADGE_DEFINITIONS && !HasBadge(earnedBadges, b.id) ==>
                            r.value.days <= b.days
      ensures r.None? <==> forall b :: b in BADGE_DEFINITIONS ==> HasBadge(earnedBadges, b.id)
    {
      CatalogWellFormed();
      FirstUnearnedIsLowest(BADGE_DEFINITIONS, earnedBadges);
      FirstUnearned(BADGE_DEFINITIONS, earnedBadges)
    }

    function StreakProgress(): (p: Progress)
      reads this
      ensures p.nextBadge == NextBadge()
      ensures 0.0 <= p.progress <= 100.0 && p.remaining >= 0
      ensures p.nextBadge.None? ==> p.progress == 100.0 && p.remaining == 0
      ensures p.nextBadge.Some? ==> (p.remaining == 0 <==> currentStreak >= p.nextBadge.value.days)
      ensures p.nextBadge.Some? ==> (p.progress == 100.0 <==> currentStreak >= p.nextBadge.value.days)
      ensures p.nextBadge.Some? ==> currentStreak + p.remaining >= p.nextBadge.value.days
      ensures p.nextBadge.Some? && currentStreak < p.nextBadge.value.days ==>
                currentStreak + p.remaining == p.nextBadge.value.days
                && IsPercentOf(p.progress, currentStreak, p.nextBadge.value.days)
    {
      NextBadgeNeedsDays();
      ProgressTowards(currentStreak, NextBadge())
    }

    /** The next badge, if any, needs at least one day. */
    lemma NextBadgeNeedsDays()
      ensures NextBadge().Some? ==> NextBadge().value.days > 0
    {
      CatalogWellFormed();
    }

    /** Clears every field back to the empty state. */
    method ResetStreakData()
      modifies this
      ensures State() == StreakState(0, 0, None, [], [], 0.0, false)
    {
      currentStreak, longestStreak, lastActiveDate := 0, 0, None;
      earnedBadges, streakData := [], [];
      todayGeneration, appOpenedToday := 0.0, false;
    }
  }
}
