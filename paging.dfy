/** The generation page and the log query together: the page asks for 50
    logs at its current offset and takes the response's `count` as the
    number of logs the wallet has. The query as written counts only the
    logs it returns; with a count of all the wallet's logs the page can load
    every one of them. The conversion of a returned log into the page's
    record (the day of its device timestamp) is a parameter. */
module Paging {
  import opened Common
  import opened LogRecords
  import EnergyGenerated
  import Backend

  /** The page's records for a sequence of returned logs. */
  function ToEntries(views: seq<Backend.LogView>, toEntry: Backend.LogView -> LogEntry): (logs: seq<LogEntry>)
    ensures |logs| == |views|
    ensures forall i :: 0 <= i < |views| ==> logs[i] == toEntry(views[i])
  {
    seq(|views|, i requires 0 <= i < |views| => toEntry(views[i]))
  }

  /** How a response reaches the page: its logs and its count. */
  function Outcome(r: Backend.LogsResponse, toEntry: Backend.LogView -> LogEntry): EnergyGenerated.FetchOutcome {
    EnergyGenerated.Received(Some(ToEntries(r.logs, toEntry)), r.count)
  }

  /** The state after the page fetches from the given table: a fresh load
      from offset 0 or a load-more from the current offset, with the
      response built by `withTotal` choosing the corrected count. */
  function FetchFrom(s: EnergyGenerated.PageState, rows: seq<Backend.EnergyLogRow>, account: Option<string>,
                     isLoadMore: bool, withTotal: bool, toEntry: Backend.LogView -> LogEntry, now: int)
    : EnergyGenerated.PageState
    requires Truthy(account)
  {
    var skipCount := if isLoadMore then s.skip else 0;
    var response := if withTotal then Backend.GetEnergyLogsWithTotal(rows, account.value, skipCount, EnergyGenerated.PAGE_SIZE)
                    else Backend.GetEnergyLogs(rows, account.value, skipCount, EnergyGenerated.PAGE_SIZE);
    EnergyGenerated.AfterFetch(s, account, skipCount, isLoadMore, Outcome(response, toEntry), now)
  }

  /** With the query as written, every successful fetch leaves "Load more"
      closed; and a wallet with more logs than one page then shows fewer
      logs than it has, with no way to reach the rest. */
  lemma AsWrittenCountHidesLogs(s: EnergyGenerated.PageState, rows: seq<Backend.EnergyLogRow>,
                                account: Option<string>, isLoadMore: bool,
                                toEntry: Backend.LogView -> LogEntry, now: int)
    requires Truthy(account)
    ensures var t := FetchFrom(s, rows, account, isLoadMore, false, toEntry, now);
      && !EnergyGenerated.CanLoadMore(t)
      && (!isLoadMore && |Backend.AllViews(rows, Lower(account.value))| > EnergyGenerated.PAGE_SIZE ==>
            |t.energyLogs| == EnergyGenerated.PAGE_SIZE < |Backend.AllViews(rows, Lower(account.value))|)
  {
    var skipCount := if isLoadMore then s.skip else 0;
    var response := Backend.GetEnergyLogs(rows, account.value, skipCount, EnergyGenerated.PAGE_SIZE);
    EnergyGenerated.CountOfPageClosesLoadMore(s, account, skipCount, isLoadMore, Outcome(response, toEntry), now);
    Backend.GetEnergyLogsWindow(rows, account.value, skipCount, EnergyGenerated.PAGE_SIZE);
  }

  /** One wallet with 51 stored logs: the first load shows 50 of them and
      offers no way to load the last one. */
  lemma FiftyOneLogsShowFifty(s: EnergyGenerated.PageState, toEntry: Backend.LogView -> LogEntry, now: int)
    ensures var rows := seq(51, i => Backend.EnergyLogRow(i + 1, None, "0xab", 1.0, None, 0, None, None, None));
      var t := FetchFrom(s, rows, Some("0xab"), false, false, toEntry, now);
      |t.energyLogs| == 50 && !EnergyGenerated.CanLoadMore(t)
      && |Backend.AllViews(rows, Lower("0xab"))| == 51
  {
    var rows := seq(51, i => Backend.EnergyLogRow(i + 1, None, "0xab", 1.0, None, 0, None, None, None));
    assert Lower("0xab") == "0xab";
    FilterAll(rows, (row: Backend.EnergyLogRow) => row.wallet == "0xab");
    AsWrittenCountHidesLogs(s, rows, Some("0xab"), false, toEntry, now);
  }

  /** The page has loaded, in order, the first logs of the wallet and no
      others. */
  predicate LoadedPrefix(logs: seq<LogEntry>, views: seq<Backend.LogView>, toEntry: Backend.LogView -> LogEntry) {
    |logs| <= |views| && logs == ToEntries(views[..|logs|], toEntry)
  }

  /** Loading the window at the end of a loaded prefix extends the prefix. */
  lemma PrefixExtends(views: seq<Backend.LogView>, k: nat, toEntry: Backend.LogView -> LogEntry)
    requires k <= |views|
    ensures var w := Backend.Window(views, k, EnergyGenerated.PAGE_SIZE);
      ToEntries(views[..k], toEntry) + ToEntries(w, toEntry) == ToEntries(views[..k + |w|], toEntry)
  {
    var w := Backend.Window(views, k, EnergyGenerated.PAGE_SIZE);
    assert views[..k + |w|] == views[..k] + w;
  }

  /** With the corrected count, a fresh load, or a load-more on a page
      showing a loaded prefix, leaves the page showing a longer prefix of
      the wallet's logs (one more page, or all that remain), the count of
      all of them, and "Load more" open exactly while logs remain. */
  lemma {:induction false} CorrectedCountOffersRemainingLogs(s: EnergyGenerated.PageState,
                                          rows: seq<Backend.EnergyLogRow>, account: Option<string>,
                                          isLoadMore: bool, toEntry: Backend.LogView -> LogEntry, now: int)
    requires Truthy(account) && EnergyGenerated.SkipTracksLoaded(s)
    requires isLoadMore ==> LoadedPrefix(s.energyLogs, Backend.AllViews(rows, Lower(account.value)), toEntry)
    ensures var views := Backend.AllViews(rows, Lower(account.value));
      var t := FetchFrom(s, rows, account, isLoadMore, true, toEntry, now);
      var before := if isLoadMore then |s.energyLogs| else 0;
      && LoadedPrefix(t.energyLogs, views, toEntry)
      && EnergyGenerated.SkipTracksLoaded(t)
      && t.totalCount == |views|
      && |t.energyLogs| == (if before + EnergyGenerated.PAGE_SIZE <= |views| then before + EnergyGenerated.PAGE_SIZE
                            else |views|)
      && (EnergyGenerated.CanLoadMore(t) <==> |t.energyLogs| < |views|)
  {
    var views := Backend.AllViews(rows, Lower(account.value));
    var skipCount := if isLoadMore then s.skip else 0;
    var response := Backend.GetEnergyLogsWithTotal(rows, account.value, skipCount, EnergyGenerated.PAGE_SIZE);
    Backend.GetEnergyLogsWindow(rows, account.value, skipCount, EnergyGenerated.PAGE_SIZE);
    var outcome := Outcome(response, toEntry);
    EnergyGenerated.FetchKeepsSkip(s, account, isLoadMore, outcome, now);
    PrefixExtends(views, skipCount, toEntry);
    var t := FetchFrom(s, rows, account, isLoadMore, true, toEntry, now);
    var w := Backend.Window(views, skipCount, EnergyGenerated.PAGE_SIZE);
    if isLoadMore {
      assert t.energyLogs == ToEntries(views[..skipCount], toEntry) + ToEntries(w, toEntry);
    } else {
      assert t.energyLogs == ToEntries(views[..0], toEntry) + ToEntries(w, toEntry);
    }
  }
}
