/** The backend's pure parts: the configuration values it derives from its
    environment, the validation of an energy event, the token amount minted
    for it, the stored log row, the log query's filter, order and window,
    and the conversion of raw token amounts to whole tokens. The log table
    is a sequence of rows in insertion order. */
module Backend {
  import opened Common

  // ---------------------------------------------------------------------
  // Configuration

  /** No whitespace at either end. */
  predicate Trimmed(o: string) {
    o == [] || (!IsWhitespace(o[0]) && !IsWhitespace(o[|o| - 1]))
  }

  /** Each piece stripped of surrounding whitespace. */
  function StripEach(parts: seq<string>): (r: seq<string>)
    ensures |r| == |parts|
    ensures forall i :: 0 <= i < |parts| ==> r[i] == Strip(parts[i]) && Trimmed(r[i])
  {
    seq(|parts|, i requires 0 <= i < |parts| => Strip(parts[i]))
  }

  /** Stripping never introduces a character. */
  lemma StripWithin(s: string, c: char)
    requires c !in s
    ensures c !in Strip(s)
  {
    var r := Strip(s);
    var k :| 0 <= k <= |s| - |r| && OccursAt(s, r, k);
    forall j | 0 <= j < |r| ensures r[j] != c {
      assert r[j] == s[k..k + |r|][j] == s[k + j];
    }
  }

  /** Stripped pieces are trimmed, and pieces without a comma stay
      without one. */
  lemma StripEachClean(parts: seq<string>, c: char)
    requires forall i :: 0 <= i < |parts| ==> c !in parts[i]
    ensures forall o :: o in StripEach(parts) ==> c !in o && Trimmed(o)
  {
    var r := StripEach(parts);
    forall o | o in r ensures c !in o && Trimmed(o) {
      var i :| 0 <= i < |r| && r[i] == o;
      StripWithin(parts[i], c);
    }
  }

  /** An origin as the list holds it: non-empty, without a comma and
      without whitespace at either end. */
  predicate CleanOrigin(o: string) {
    o != "" && ',' !in o && Trimmed(o)
  }

  function NonEmpty(o: string): bool {
    o != ""
  }

  /** The CORS origin list: the comma-separated pieces of the setting, each
      stripped, blank ones dropped; an unset variable reads as "". */
  function CorsOrigins(setting: string): (origins: seq<string>)
    ensures forall o :: o in origins ==> CleanOrigin(o)
  {
    var parts := Split(setting, ',');
    StripEachClean(parts, ',');
    Filter(StripEach(parts), NonEmpty)
  }

  /** Pieces already trimmed come out of stripping unchanged. */
  lemma StripEachTrimmed(parts: seq<string>)
    requires forall i :: 0 <= i < |parts| ==> Trimmed(parts[i])
    ensures StripEach(parts) == parts
  {
    var stripped := StripEach(parts);
    forall i | 0 <= i < |parts| ensures stripped[i] == parts[i] {
      StripTrimmed(parts[i]);
    }
  }

  /** A setting written as the comma-join of clean origins reads back as
      exactly those origins, in order. */
  lemma CorsOriginsRoundTrip(origins: seq<string>)
    requires |origins| >= 1
    requires forall i :: 0 <= i < |origins| ==> CleanOrigin(origins[i])
    ensures CorsOrigins(Join(origins, ',')) == origins
  {
    SplitJoin(origins, ',');
    StripEachTrimmed(origins);
    FilterAll(origins, NonEmpty);
  }

  /** An unset setting reads as "" and gives no origins. */
  lemma CorsOriginsUnset()
    ensures CorsOrigins("") == []
  {
    assert Split("", ',') == [""];
    StripTrimmed("");
    assert StripEach([""]) == [""];
    assert !NonEmpty("");
  }

  /** `MINT_PER_UNIT` when the setting is unset. */
  const DEFAULT_MINT_PER_UNIT := 1

  // ---------------------------------------------------------------------
  // Energy events

  /** The request body of an energy event. */
  datatype EnergyEvent = EnergyEvent(wallet: string, units: real, deviceId: Option<string>, deviceTimestamp: Option<string>)

  /** The status of a request rejected by the request model. */
  const UNPROCESSABLE_ENTITY := 422

  /** The request model's check: units must be strictly positive; any
      other event is rejected before the handler runs. */
  function ValidateEvent(event: EnergyEvent): (r: Result<EnergyEvent, int>)
    ensures r.Ok? <==> event.units > 0.0
    ensures r.Ok? ==> r.value == event
    ensures r.Err? ==> r.error == UNPROCESSABLE_ENTITY
  {
    if event.units > 0.0 then Ok(event) else Err(UNPROCESSABLE_ENTITY)
  }

  /** Tokens minted for an event: the floor of units times the rate, but at
      least one. */
  function TokenUnits(units: real, mintPerUnit: int): (t: int)
    ensures t >= 1
    ensures (units * (mintPerUnit as real)).Floor >= 1 ==> t == (units * (mintPerUnit as real)).Floor
    ensures (units * (mintPerUnit as real)).Floor < 1 ==> t == 1
  {
    var floor := (units * (mintPerUnit as real)).Floor;
    if floor > 1 then floor else 1
  }

  /** At the default rate the minted amount is the whole part of the
      units, except that any event below one unit still mints one token;
      more units never mint fewer tokens. */
  lemma TokenUnitsAtDefaultRate(units: real, more: real)
    requires units > 0.0
    ensures units >= 1.0 ==> (TokenUnits(units, DEFAULT_MINT_PER_UNIT) as real) <= units
                             < (TokenUnits(units, DEFAULT_MINT_PER_UNIT) as real) + 1.0
    ensures units < 1.0 ==> TokenUnits(units, DEFAULT_MINT_PER_UNIT) == 1
    ensures units <= more ==> TokenUnits(units, DEFAULT_MINT_PER_UNIT) <= TokenUnits(more, DEFAULT_MINT_PER_UNIT)
  {
    assert units * (DEFAULT_MINT_PER_UNIT as real) == units;
    assert more * (DEFAULT_MINT_PER_UNIT as real) == more;
  }

  // ---------------------------------------------------------------------
  // The log table

  /** A stored row, shaped as the `energy_logs` table; `receivedAt` is the
      server's clock at insertion. */
  datatype EnergyLogRow = EnergyLogRow(
    id: int,
    deviceId: Option<string>,
    wallet: string,
    units: real,
    deviceTimestamp: Option<string>,
    receivedAt: int,
    txHash: Option<string>,
    tokenId: Option<int>,
    tokenUri: Option<string>)

  /** Ids grow with insertion order, as the integer primary key does. */
  predicate AscendingIds(rows: seq<EnergyLogRow>) {
    forall i, j :: 0 <= i < j < |rows| ==> rows[i].id < rows[j].id
  }

  /** The id the database gives the next row: one past the largest. */
  function NextId(rows: seq<EnergyLogRow>): int {
    if rows == [] then 1 else rows[|rows| - 1].id + 1
  }

  lemma NextIdAbove(rows: seq<EnergyLogRow>)
    requires AscendingIds(rows)
    ensures forall row :: row in rows ==> row.id < NextId(rows)
  {
    forall row | row in rows ensures row.id < NextId(rows) {
      var k :| 0 <= k < |rows| && rows[k] == row;
      if k < |rows| - 1 {
        assert rows[k].id < rows[|rows| - 1].id;
      }
    }
  }

  /** Storing an event: one new row at the end with the next id and the
      wallet exactly as sent; the three chain fields stay empty. */
  function LogEnergy(rows: seq<EnergyLogRow>, event: EnergyEvent, receivedAt: int): (out: seq<EnergyLogRow>)
    ensures |out| == |rows| + 1 && out[..|rows|] == rows
    ensures out[|rows|].id == NextId(rows)
    ensures out[|rows|].wallet == event.wallet && out[|rows|].units == event.units
    ensures out[|rows|].deviceId == event.deviceId && out[|rows|].deviceTimestamp == event.deviceTimestamp
    ensures out[|rows|].receivedAt == receivedAt
    ensures out[|rows|].txHash.None? && out[|rows|].tokenId.None? && out[|rows|].tokenUri.None?
    ensures AscendingIds(rows) ==> AscendingIds(out)
  {
    assert AscendingIds(rows) ==> forall row :: row in rows ==> row.id < NextId(rows) by {
      if AscendingIds(rows) {
        NextIdAbove(rows);
      }
    }
    var row := EnergyLogRow(NextId(rows), event.deviceId, event.wallet, event.units, event.deviceTimestamp,
                            receivedAt, None, None, None);
    assert (rows + [row])[..|rows|] == rows;
    rows + [row]
  }

  /** What the log-energy endpoint answers, after the row is stored: "ok"
      with the transaction hash when the chain call went through, "partial"
      with the error when it failed. */
  datatype ChainOutcome = Sent(txHash: string) | ChainFailed(message: string)

  datatype LogEnergyResponse =
    | LoggedOk(dbId: int, txHash: string, wallet: string, units: real, tokenUnitsMinted: int, receivedAt: int)
    | LoggedPartial(msg: string, dbId: int, error: string)

  const PARTIAL_MESSAGE := "Logged locally but on-chain call failed"

  function LogEnergyResponseFor(rows: seq<EnergyLogRow>, event: EnergyEvent, receivedAt: int,
                                mintPerUnit: int, chain: ChainOutcome): (r: LogEnergyResponse)
    ensures r.dbId == NextId(rows)
    ensures r.LoggedOk? <==> chain.Sent?
    ensures r.LoggedOk? ==> r.tokenUnitsMinted == TokenUnits(event.units, mintPerUnit) >= 1
                            && r.wallet == event.wallet && r.receivedAt == receivedAt
    ensures r.LoggedOk? ==> r.txHash == chain.txHash && r.units == event.units
    ensures r.LoggedPartial? ==> r.msg == PARTIAL_MESSAGE && r.error == chain.message
  {
    match chain
    case Sent(txHash) =>
      LoggedOk(NextId(rows), txHash, event.wallet, event.units, TokenUnits(event.units, mintPerUnit), receivedAt)
    case ChainFailed(message) => LoggedPartial(PARTIAL_MESSAGE, NextId(rows), message)
  }

  /** The fields of a row the query returns. */
  datatype LogView = LogView(id: int, deviceId: Option<string>, units: real, deviceTimestamp: Option<string>, receivedAt: int)

  datatype LogsResponse = LogsResponse(wallet: string, count: int, logs: seq<LogView>)

  function View(row: EnergyLogRow): LogView {
    LogView(row.id, row.deviceId, row.units, row.deviceTimestamp, row.receivedAt)
  }

  function Reverse<T>(s: seq<T>): (r: seq<T>)
    ensures |r| == |s|
    ensures forall i :: 0 <= i < |s| ==> r[i] == s[|s| - 1 - i]
  {
    if s == [] then [] else [s[|s| - 1]] + Reverse(s[..|s| - 1])
  }

  /** The query's test: the stored wallet equals `w` exactly. */
  function HasWallet(w: string): EnergyLogRow -> bool {
    (row: EnergyLogRow) => row.wallet == w
  }

  /** The rows of a wallet, newest id first. */
  function MatchingRows(rows: seq<EnergyLogRow>, wallet: string): seq<EnergyLogRow> {
    Reverse(Filter(rows, HasWallet(wallet)))
  }

  /** SQL's OFFSET and LIMIT as the database applies them: a negative offset
      counts as 0 and a negative limit means no limit. */
  function Start(n: nat, offset: int): (k: nat)
    ensures k <= n
  {
    if offset < 0 then 0 else if offset > n then n else offset
  }

  function Window<T>(s: seq<T>, offset: int, limit: int): (w: seq<T>)
    ensures |w| <= |s| && Start(|s|, offset) + |w| <= |s|
    ensures limit >= 0 ==> |w| <= limit
    ensures w == s[Start(|s|, offset)..Start(|s|, offset) + |w|]
    ensures limit < 0 && 0 <= offset <= |s| ==> |w| == |s| - offset
    ensures limit >= 0 && 0 <= offset && offset + limit <= |s| ==> |w| == limit
  {
    var start := Start(|s|, offset);
    var end := if limit < 0 || start + limit > |s| then |s| else start + limit;
    s[start..end]
  }

  /** The element at `i` of a window is the element `i` places after its
      start. */
  lemma WindowAt<T>(s: seq<T>, offset: int, limit: int, i: int)
    requires 0 <= i < |Window(s, offset, limit)|
    ensures Start(|s|, offset) + i < |s|
    ensures Window(s, offset, limit)[i] == s[Start(|s|, offset) + i]
  {
  }

  /** `v` is the view of a stored row of wallet `w`. */
  predicate StoredFor(rows: seq<EnergyLogRow>, w: string, v: LogView) {
    exists row :: row in rows && row.wallet == w && View(row) == v
  }

  /** The log query: the query wallet is lower-cased, rows with exactly that
      stored wallet are taken newest first and windowed; `count` is the
      number of rows returned. */
  function GetEnergyLogs(rows: seq<EnergyLogRow>, wallet: string, skip: int, limit: int): LogsResponse {
    var w := Lower(wallet);
    var page := Window(MatchingRows(rows, w), skip, limit);
    LogsResponse(w, |page|, seq(|page|, i requires 0 <= i < |page| => View(page[i])))
  }

  /** The matching rows are rows of the table with exactly that wallet,
      every such row is among them, and with ascending ids they come newest
      first. */
  lemma MatchingRowsProperties(rows: seq<EnergyLogRow>, w: string)
    ensures forall i :: 0 <= i < |MatchingRows(rows, w)| ==>
              MatchingRows(rows, w)[i] in rows && MatchingRows(rows, w)[i].wallet == w
    ensures forall k :: 0 <= k < |rows| && rows[k].wallet == w ==> rows[k] in MatchingRows(rows, w)
    ensures AscendingIds(rows) ==>
              forall i, j :: 0 <= i < j < |MatchingRows(rows, w)| ==>
                MatchingRows(rows, w)[i].id > MatchingRows(rows, w)[j].id
  {
    var keep := HasWallet(w);
    var matching := Filter(rows, keep);
    var m := MatchingRows(rows, w);
    forall i | 0 <= i < |m| ensures m[i] in rows && m[i].wallet == w {
      assert m[i] == matching[|matching| - 1 - i];
      assert matching[|matching| - 1 - i] in matching;
    }
    forall k | 0 <= k < |rows| && rows[k].wallet == w ensures rows[k] in m {
      assert rows[k] in matching;
      var j :| 0 <= j < |matching| && matching[j] == rows[k];
      assert m[|matching| - 1 - j] == rows[k];
    }
    if AscendingIds(rows) {
      FilterAscending(rows, keep);
    }
  }

  /** A window of the matching rows holds rows of that wallet, newest
      first. */
  lemma WindowProperties(rows: seq<EnergyLogRow>, w: string, skip: int, limit: int)
    requires AscendingIds(rows)
    ensures var page := Window(MatchingRows(rows, w), skip, limit);
      && (forall i :: 0 <= i < |page| ==> page[i] in rows && page[i].wallet == w)
      && (forall i, j :: 0 <= i < j < |page| ==> page[i].id > page[j].id)
  {
    var m := MatchingRows(rows, w);
    MatchingRowsProperties(rows, w);
    var page := Window(m, skip, limit);
    forall i | 0 <= i < |page| ensures page[i] in rows && page[i].wallet == w {
      WindowAt(m, skip, limit, i);
    }
    forall i, j | 0 <= i < j < |page| ensures page[i].id > page[j].id {
      WindowAt(m, skip, limit, i);
      WindowAt(m, skip, limit, j);
    }
  }

  /** The log query: the query wallet is lower-cased, only rows stored with
      exactly that wallet are returned, newest first, never more than a
      non-negative limit, and `count` is the number of logs returned. */
  lemma GetEnergyLogsProperties(rows: seq<EnergyLogRow>, wallet: string, skip: int, limit: int)
    requires AscendingIds(rows)
    ensures var r := GetEnergyLogs(rows, wallet, skip, limit);
      && r.wallet == Lower(wallet)
      && r.count == |r.logs|
      && (limit >= 0 ==> r.count <= limit)
    ensures var logs := GetEnergyLogs(rows, wallet, skip, limit).logs;
      forall i, j :: 0 <= i < j < |logs| ==> logs[i].id > logs[j].id
    ensures var logs := GetEnergyLogs(rows, wallet, skip, limit).logs;
      forall i :: 0 <= i < |logs| ==> StoredFor(rows, Lower(wallet), logs[i])
  {
    var w := Lower(wallet);
    WindowProperties(rows, w, skip, limit);
    var page := Window(MatchingRows(rows, w), skip, limit);
    var logs := GetEnergyLogs(rows, wallet, skip, limit).logs;
    forall i | 0 <= i < |logs| ensures StoredFor(rows, Lower(wallet), logs[i]) {
      assert logs[i] == View(page[i]) && page[i] in rows && page[i].wallet == Lower(wallet);
    }
    forall i, j | 0 <= i < j < |logs| ensures logs[i].id > logs[j].id {
      assert logs[i] == View(page[i]) && logs[j] == View(page[j]);
    }
  }

  /** Filtering keeps ids ascending. */
  lemma {:induction false} FilterAscending(rows: seq<EnergyLogRow>, keep: EnergyLogRow -> bool)
    requires AscendingIds(rows)
    ensures AscendingIds(Filter(rows, keep))
  {
    if rows != [] {
      var init := rows[..|rows| - 1];
      FilterAscending(init, keep);
      var f := Filter(init, keep);
      forall i | 0 <= i < |f| ensures f[i].id < rows[|rows| - 1].id {
        assert f[i] in init;
      }
    }
  }

  /** A row stored with an upper-case letter in its wallet is never
      returned, whatever wallet is queried: the query is lower-cased and
      rows are compared exactly. */
  lemma MixedCaseNeverMatched(rows: seq<EnergyLogRow>, k: int, query: string, skip: int, limit: int)
    requires 0 <= k < |rows| && !IsLowerCase(rows[k].wallet)
    ensures rows[k] !in MatchingRows(rows, Lower(query))
    ensures forall i :: 0 <= i < |GetEnergyLogs(rows, query, skip, limit).logs| ==>
              exists row :: row in rows && row.wallet != rows[k].wallet
                            && View(row) == GetEnergyLogs(rows, query, skip, limit).logs[i]
  {
    var w := Lower(query);
    LowerCases(query);
    MatchingRowsProperties(rows, w);
    var m := MatchingRows(rows, w);
    var page := Window(m, skip, limit);
    var r := GetEnergyLogs(rows, query, skip, limit);
    forall i | 0 <= i < |r.logs|
      ensures exists row :: row in rows && row.wallet != rows[k].wallet && View(row) == r.logs[i]
    {
      WindowAt(m, skip, limit, i);
      assert r.logs[i] == View(page[i]);
    }
  }

  /** The view of every row of a wallet, newest first. */
  function AllViews(rows: seq<EnergyLogRow>, w: string): (views: seq<LogView>)
    ensures |views| == |MatchingRows(rows, w)|
    ensures forall i :: 0 <= i < |views| ==> views[i] == View(MatchingRows(rows, w)[i])
  {
    var m := MatchingRows(rows, w);
    seq(|m|, i requires 0 <= i < |m| => View(m[i]))
  }

  /** The logs returned are the window of all the wallet's views. */
  lemma GetEnergyLogsWindow(rows: seq<EnergyLogRow>, wallet: string, skip: int, limit: int)
    ensures GetEnergyLogs(rows, wallet, skip, limit).logs == Window(AllViews(rows, Lower(wallet)), skip, limit)
  {
    var m := MatchingRows(rows, Lower(wallet));
    var views := AllViews(rows, Lower(wallet));
    var page := Window(m, skip, limit);
    var w := Window(views, skip, limit);
    var logs := GetEnergyLogs(rows, wallet, skip, limit).logs;
    assert |w| == |page| == |logs|;
    forall i | 0 <= i < |w| ensures w[i] == logs[i] {
      WindowAt(views, skip, limit, i);
      WindowAt(m, skip, limit, i);
      assert logs[i] == View(page[i]);
    }
  }

  /** The log query with `count` the number of all the wallet's rows
      rather than of the rows returned. */
  function GetEnergyLogsWithTotal(rows: seq<EnergyLogRow>, wallet: string, skip: int, limit: int): (r: LogsResponse)
    ensures r.wallet == GetEnergyLogs(rows, wallet, skip, limit).wallet
    ensures r.logs == GetEnergyLogs(rows, wallet, skip, limit).logs
    ensures r.count == |AllViews(rows, Lower(wallet))|
  {
    GetEnergyLogs(rows, wallet, skip, limit).(count := |MatchingRows(rows, Lower(wallet))|)
  }

  /** An event whose wallet holds an upper-case letter is stored, yet no
      query, whatever its wallet or window, ever returns its row. */
  lemma LoggedMixedCaseNeverListed(rows: seq<EnergyLogRow>, event: EnergyEvent, receivedAt: int,
                                   query: string, skip: int, limit: int)
    requires AscendingIds(rows) && !IsLowerCase(event.wallet)
    ensures var logs := GetEnergyLogs(LogEnergy(rows, event, receivedAt), query, skip, limit).logs;
      forall i :: 0 <= i < |logs| ==> logs[i].id != NextId(rows)
  {
    var out := LogEnergy(rows, event, receivedAt);
    var w := Lower(query);
    LowerCases(query);
    NextIdAbove(rows);
    WindowProperties(out, w, skip, limit);
    var page := Window(MatchingRows(out, w), skip, limit);
    var logs := GetEnergyLogs(out, query, skip, limit).logs;
    assert w != event.wallet;
    forall i | 0 <= i < |logs| ensures logs[i].id != NextId(rows) {
      assert logs[i].id == page[i].id;
      StoredBeforeEvent(rows, event, receivedAt, page[i]);
    }
  }

  /** A stored row whose wallet differs from the event's was there before
      the event, so its id is below the event's. */
  lemma StoredBeforeEvent(rows: seq<EnergyLogRow>, event: EnergyEvent, receivedAt: int, row: EnergyLogRow)
    requires AscendingIds(rows) && row in LogEnergy(rows, event, receivedAt) && row.wallet != event.wallet
    ensures row.id < NextId(rows)
  {
    var out := LogEnergy(rows, event, receivedAt);
    var k :| 0 <= k < |out| && out[k] == row;
    assert k != |rows|;
    assert out[k] == rows[k];
    NextIdAbove(rows);
  }

  /** Storing an event with its wallet lower-cased, as the query expects. */
  function LogEnergyNormalized(rows: seq<EnergyLogRow>, event: EnergyEvent, receivedAt: int): (out: seq<EnergyLogRow>)
    ensures out == LogEnergy(rows, event.(wallet := Lower(event.wallet)), receivedAt)
    ensures IsLowerCase(out[|rows|].wallet)
  {
    LowerCases(event.wallet);
    LogEnergy(rows, event.(wallet := Lower(event.wallet)), receivedAt)
  }

  /** With the wallet stored lower-cased, the next query for that wallet
      in any letter case lists the new row first. */
  lemma NormalizedLogListedFirst(rows: seq<EnergyLogRow>, event: EnergyEvent, receivedAt: int,
                                 query: string, limit: int)
    requires AscendingIds(rows) && Lower(query) == Lower(event.wallet) && limit != 0
    ensures var out := LogEnergyNormalized(rows, event, receivedAt);
      var logs := GetEnergyLogs(out, query, 0, limit).logs;
      |logs| >= 1 && logs[0] == View(out[|rows|]) && logs[0].id == NextId(rows)
  {
    var out := LogEnergyNormalized(rows, event, receivedAt);
    var w := Lower(query);
    var keep := HasWallet(w);
    assert out[..|rows|] == rows;
    assert out[|rows|].wallet == w;
    assert Filter(out, keep) == Filter(rows, keep) + [out[|rows|]];
    var m := MatchingRows(out, w);
    assert m[0] == out[|rows|];
  }

  // ---------------------------------------------------------------------
  // Token amounts

  const WEI_PER_TOKEN := 1_000_000_000_000_000_000

  /** Whole tokens in a raw amount: Python's floor division by 10^18, which
      for this positive divisor is Dafny's division. */
  function WeiToTokens(raw: int): (tokens: int)
    ensures tokens * WEI_PER_TOKEN <= raw < (tokens + 1) * WEI_PER_TOKEN
    ensures raw >= 0 ==> tokens >= 0
  {
    raw / WEI_PER_TOKEN
  }

  /** Converting whole tokens back and forth is exact, and the conversion
      never decreases as the raw amount grows. */
  lemma WeiToTokensRoundTrip(tokens: int, raw: int, more: int)
    ensures WeiToTokens(tokens * WEI_PER_TOKEN) == tokens
    ensures raw <= more ==> WeiToTokens(raw) <= WeiToTokens(more)
  {
    var t := WeiToTokens(tokens * WEI_PER_TOKEN);
    assert t * WEI_PER_TOKEN <= tokens * WEI_PER_TOKEN < (t + 1) * WEI_PER_TOKEN;
    if raw <= more {
      var a, b := WeiToTokens(raw), WeiToTokens(more);
      assert a * WEI_PER_TOKEN <= raw <= more < (b + 1) * WEI_PER_TOKEN;
    }
  }

  /** An amount as the balance and supply endpoints report it. */
  datatype Amount = Amount(raw: int, tokens: int)

  /** The balance and the total supply are both answered as the raw amount
      and the whole tokens it holds. */
  function AmountResponse(raw: int): (r: Amount)
    ensures r.raw == raw
    ensures r.tokens * WEI_PER_TOKEN <= raw < (r.tokens + 1) * WEI_PER_TOKEN
  {
    Amount(raw, WeiToTokens(raw))
  }
}
