/** The energy-log records the frontend receives from the backend's log
    query, and the sums both the streak evaluator and the generation page
    take over them. A device timestamp is represented by the calendar day
    it falls on (an integer day number), or None when the log has none. */
module LogRecords {
  import opened Common

  datatype LogEntry = LogEntry(id: int, deviceId: Option<string>, units: real, day: Option<int>)

  /** The day both the streak context and the generation page take as
      today: 2025-08-30, counted in days from 1970-01-01 (UTC), since a log's
      day is the date part of its timestamp's ISO form. */
  const TODAY: int := 20330

  predicate NonNegativeUnits(logs: seq<LogEntry>) {
    forall i :: 0 <= i < |logs| ==> logs[i].units >= 0.0
  }

  /** `logs.reduce((sum, log) => sum + units, 0)`. */
  function TotalUnits(logs: seq<LogEntry>): real
  {
    if logs == [] then 0.0 else TotalUnits(logs[..|logs| - 1]) + logs[|logs| - 1].units
  }

  lemma {:induction false} TotalUnitsAppend(a: seq<LogEntry>, b: seq<LogEntry>)
    ensures TotalUnits(a + b) == TotalUnits(a) + TotalUnits(b)
  {
    if b != [] {
      assert (a + b)[..|a + b| - 1] == a + b[..|b| - 1];
      TotalUnitsAppend(a, b[..|b| - 1]);
    } else {
      assert a + b == a;
    }
  }

  lemma {:induction false} TotalUnitsNonNegative(logs: seq<LogEntry>)
    requires NonNegativeUnits(logs)
    ensures TotalUnits(logs) >= 0.0
  {
    if logs != [] {
      TotalUnitsNonNegative(logs[..|logs| - 1]);
    }
  }

  /** The logs whose device timestamp falls on `today`, in their original
      order; logs without a timestamp are skipped. */
  function TodayLogs(logs: seq<LogEntry>, today: int): (r: seq<LogEntry>)
    ensures |r| <= |logs|
    ensures forall x :: x in r <==> x in logs && x.day == Some(today)
  {
    Filter(logs, (log: LogEntry) => log.day == Some(today))
  }

  /** Today's generation: the sum of the units of today's logs. */
  function TodayUnits(logs: seq<LogEntry>, today: int): real
  {
    TotalUnits(TodayLogs(logs, today))
  }

  /** For non-negative units, today's generation never exceeds the total,
      and the two agree when every log is from today. */
  lemma {:induction false} TodayUnitsBounded(logs: seq<LogEntry>, today: int)
    requires NonNegativeUnits(logs)
    ensures 0.0 <= TodayUnits(logs, today) <= TotalUnits(logs)
    ensures (forall i :: 0 <= i < |logs| ==> logs[i].day == Some(today)) ==>
              TodayUnits(logs, today) == TotalUnits(logs)
  {
    if logs != [] {
      var init := logs[..|logs| - 1];
      TodayUnitsBounded(init, today);
      var last := logs[|logs| - 1];
      if last.day == Some(today) {
        TotalUnitsAppend(TodayLogs(init, today), [last]);
      }
    }
  }

  /** Logs arriving in a later page add their own today-sum. */
  lemma {:induction false} TodayUnitsAppend(a: seq<LogEntry>, b: seq<LogEntry>, today: int)
    ensures TodayLogs(a + b, today) == TodayLogs(a, today) + TodayLogs(b, today)
    ensures TodayUnits(a + b, today) == TodayUnits(a, today) + TodayUnits(b, today)
  {
    if b == [] {
      assert a + b == a;
    } else {
      var b' := b[..|b| - 1];
      assert (a + b)[..|a + b| - 1] == a + b';
      TodayUnitsAppend(a, b', today);
    }
    TotalUnitsAppend(TodayLogs(a, today), TodayLogs(b, today));
  }
}
