/**
 * The Pro-Football-Reference scraper (scrapers/pfr_scraper.py): fetch the
 * season's fantasy and opponent pages through the base scraper, find the
 * stats table by id, and turn each body row into a typed record. A row that
 * is a repeated header or has no data cells is skipped; a row that is too
 * short or holds text `int()`/`float()` reject is dropped and the loop goes
 * on. The page arrives parsed: each table's id and the body rows' class
 * lists and data-cell texts.
 */
module PfrScraping {
  import opened Wrappers
  import opened Text
  import PyNum
  import opened BaseScraping

  datatype PfrRow = PfrRow(classes: Option<seq<string>>, cells: seq<string>)
  /** A table: its id and the rows of its first body section, if it has one. */
  datatype PfrTable = PfrTable(id: Option<string>, tbody: Option<seq<PfrRow>>)
  datatype PfrPage = PfrPage(tables: seq<PfrTable>)

  /** Turns a response body into its parsed page. */
  type Parser = string -> PfrPage

  datatype PlayerRecord = PlayerRecord(
    name: string, team: string, position: string,
    passingYards: int, passingTds: int, passingInt: int,
    rushingYards: int, rushingTds: int,
    receptions: int, receivingYards: int, receivingTds: int,
    fantasyPoints: real, season: int, week: Option<int>)

  datatype DefenseRecord = DefenseRecord(team: string, pointsAllowed: real, yardsAllowed: real, season: int)

  /**
   * What a scrape returns: the records, the fetch error it lets escape, or the
   * `AttributeError` of using `None` (no response, or a table without a body).
   */
  datatype ScrapeOutcome<T> = Records(items: seq<T>) | FetchRaised(failure: FetchFailure) | NoneAttribute

  const BaseUrl: string := "https://www.pro-football-reference.com"

  /** `fetch_url`'s default number of attempts, which the scraper relies on. */
  const DefaultRetry: int := 3

  function PlayerStatsUrl(season: int): string
  {
    BaseUrl + "/years/" + IntToString(season) + "/fantasy.htm"
  }

  function DefenseUrl(season: int): string
  {
    BaseUrl + "/years/" + IntToString(season) + "/opp.htm"
  }

  // ---------------------------------------------------------------- cells and rows

  /** `int(text or 0)`: an empty cell is 0, other text goes through `int()`. */
  function IntCell(text: string): Option<int>
  {
    if text == "" then Some(0) else PyNum.ParseInt(text)
  }

  /** `float(text or 0)`: an empty cell is 0.0, other text goes through `float()`. */
  function FloatCell(text: string): Option<real>
  {
    if text == "" then Some(0.0) else PyNum.ParseFloat(text)
  }

  /** A repeated header row inside the body carries the class "thead". */
  predicate IsHeaderRow(row: PfrRow)
  {
    row.classes.Some? && "thead" in row.classes.value
  }

  /**
   * The record of one data row of the fantasy table, or `None` when a cell
   * index is missing (fewer than 17 cells) or a number does not parse.
   */
  function PlayerRecordOf(cells: seq<string>, season: int, week: Option<int>): (r: Option<PlayerRecord>)
    ensures r.Some? <==>
      (|cells| >= 17
       && IntCell(cells[5]).Some? && IntCell(cells[6]).Some? && IntCell(cells[7]).Some?
       && IntCell(cells[9]).Some? && IntCell(cells[10]).Some? && IntCell(cells[12]).Some?
       && IntCell(cells[13]).Some? && IntCell(cells[14]).Some? && FloatCell(cells[16]).Some?)
    ensures r.Some? ==>
      (r.value.name == cells[0] && r.value.team == cells[1] && r.value.position == cells[2]
       && r.value.season == season && r.value.week == week)
    ensures r.Some? ==>
      (r.value.passingYards == IntCell(cells[5]).value && r.value.passingTds == IntCell(cells[6]).value
       && r.value.passingInt == IntCell(cells[7]).value && r.value.rushingYards == IntCell(cells[9]).value
       && r.value.rushingTds == IntCell(cells[10]).value && r.value.receptions == IntCell(cells[12]).value
       && r.value.receivingYards == IntCell(cells[13]).value && r.value.receivingTds == IntCell(cells[14]).value
       && r.value.fantasyPoints == FloatCell(cells[16]).value)
  {
    if |cells| < 17 then None
    else
      var ints := [IntCell(cells[5]), IntCell(cells[6]), IntCell(cells[7]), IntCell(cells[9]),
                   IntCell(cells[10]), IntCell(cells[12]), IntCell(cells[13]), IntCell(cells[14])];
      var points := FloatCell(cells[16]);
      if None in ints then None
      else if points.None? then None
      else Some(PlayerRecord(cells[0], cells[1], cells[2],
        ints[0].value, ints[1].value, ints[2].value, ints[3].value,
        ints[4].value, ints[5].value, ints[6].value, ints[7].value,
        points.value, season, week))
  }

  /** The record of one data row of the defense table, or `None` when it is short or a number does not parse. */
  function DefenseRecordOf(cells: seq<string>, season: int): (r: Option<DefenseRecord>)
    ensures r.Some? <==> |cells| >= 5 && FloatCell(cells[3]).Some? && FloatCell(cells[4]).Some?
    ensures r.Some? ==> r.value.team == cells[0] && r.value.season == season
    ensures r.Some? ==>
      r.value.pointsAllowed == FloatCell(cells[3]).value && r.value.yardsAllowed == FloatCell(cells[4]).value
  {
    if |cells| < 5 then None
    else
      var points, yards := FloatCell(cells[3]), FloatCell(cells[4]);
      if points.None? || yards.None? then None
      else Some(DefenseRecord(cells[0], points.value, yards.value, season))
  }

  /** The record a body row of the fantasy table yields, if any: header rows and empty rows yield none. */
  function RowRecord(row: PfrRow, season: int, week: Option<int>): Option<PlayerRecord>
  {
    if IsHeaderRow(row) || row.cells == [] then None else PlayerRecordOf(row.cells, season, week)
  }

  /** The records of the fantasy table's body rows, in row order. */
  function PlayerRecords(rows: seq<PfrRow>, season: int, week: Option<int>): seq<PlayerRecord>
  {
    if rows == [] then []
    else
      var rec := RowRecord(rows[|rows| - 1], season, week);
      PlayerRecords(rows[..|rows| - 1], season, week) + (if rec.Some? then [rec.value] else [])
  }

  /** The records of the defense table's body rows, in row order (no header-row test here). */
  function DefenseRecords(rows: seq<PfrRow>, season: int): seq<DefenseRecord>
  {
    if rows == [] then []
    else
      var row := rows[|rows| - 1];
      var rec := if row.cells == [] then None else DefenseRecordOf(row.cells, season);
      DefenseRecords(rows[..|rows| - 1], season) + (if rec.Some? then [rec.value] else [])
  }

  /** The row loop of `scrape_player_stats`. */
  method ExtractPlayerRecords(rows: seq<PfrRow>, season: int, week: Option<int>) returns (records: seq<PlayerRecord>)
    ensures records == PlayerRecords(rows, season, week)
  {
    records := [];
    for i := 0 to |rows|
      invariant records == PlayerRecords(rows[..i], season, week)
    {
      assert rows[..i + 1][..i] == rows[..i];
      var row := rows[i];
      if row.classes.Some? && "thead" in row.classes.value {
        continue;
      }
      if row.cells == [] {
        continue;
      }
      var rec := PlayerRecordOf(row.cells, season, week);
      if rec.None? {
        continue;
      }
      records := records + [rec.value];
    }
    assert rows[..|rows|] == rows;
  }

  /** The row loop of `scrape_team_defense`. */
  method ExtractDefenseRecords(rows: seq<PfrRow>, season: int) returns (records: seq<DefenseRecord>)
    ensures records == DefenseRecords(rows, season)
  {
    records := [];
    for i := 0 to |rows|
      invariant records == DefenseRecords(rows[..i], season)
    {
      assert rows[..i + 1][..i] == rows[..i];
      var cells := rows[i].cells;
      if cells == [] {
        continue;
      }
      var rec := DefenseRecordOf(cells, season);
      if rec.None? {
        continue;
      }
      records := records + [rec.value];
    }
    assert rows[..|rows|] == rows;
  }

  /** The first table with the given id. */
  function TableById(tables: seq<PfrTable>, id: string): (t: Option<PfrTable>)
    ensures t.Some? ==> t.value in tables && t.value.id == Some(id)
    ensures t.None? <==> forall i :: 0 <= i < |tables| ==> tables[i].id != Some(id)
  {
    if tables == [] then None
    else if tables[0].id == Some(id) then Some(tables[0])
    else
      var t := TableById(tables[1..], id);
      assert forall i :: 1 <= i < |tables| ==> tables[i] == tables[1..][i - 1];
      t
  }

  /** What `scrape_player_stats` returns for the fetch result. */
  function PlayerStatsOutcome(fetched: FetchResult, parse: Parser, season: int, week: Option<int>): (o: ScrapeOutcome<PlayerRecord>)
    ensures o.FetchRaised? <==> fetched.Raised?
    ensures o.FetchRaised? ==> o.failure == fetched.failure
    ensures o.Records? ==> fetched.Fetched? && fetched.response.Response?
    ensures fetched.NoResponse? || (fetched.Fetched? && fetched.response.TransportFailure?) ==> o.NoneAttribute?
    ensures o.Records? ==> forall r :: r in o.items ==> r.season == season && r.week == week
  {
    match fetched
    case Raised(f) => FetchRaised(f)
    case NoResponse => NoneAttribute
    case Fetched(response) =>
      if response.TransportFailure? then NoneAttribute
      else match TableById(parse(response.body).tables, "fantasy")
        case None => Records([])
        case Some(table) =>
          if table.tbody.None? then NoneAttribute
          else
            RecordsStamped(table.tbody.value, season, week);
            Records(PlayerRecords(table.tbody.value, season, week))
  }

  /** What `scrape_team_defense` returns for the fetch result. */
  function DefenseOutcome(fetched: FetchResult, parse: Parser, season: int): (o: ScrapeOutcome<DefenseRecord>)
    ensures o.FetchRaised? <==> fetched.Raised?
    ensures o.FetchRaised? ==> o.failure == fetched.failure
    ensures o.Records? ==> fetched.Fetched? && fetched.response.Response?
    ensures fetched.NoResponse? || (fetched.Fetched? && fetched.response.TransportFailure?) ==> o.NoneAttribute?
    ensures o.Records? ==> forall r :: r in o.items ==> r.season == season
  {
    match fetched
    case Raised(f) => FetchRaised(f)
    case NoResponse => NoneAttribute
    case Fetched(response) =>
      if response.TransportFailure? then NoneAttribute
      else match TableById(parse(response.body).tables, "team_stats")
        case None => Records([])
        case Some(table) =>
          if table.tbody.None? then NoneAttribute
          else
            RecordsStamped(table.tbody.value, season, None);
            Records(DefenseRecords(table.tbody.value, season))
  }

  /** The scraper: a base scraper used for fetching. */
  class PfrScraper {
    const base: BaseScraper

    constructor ()
      ensures fresh(base) && base.sleeps == [] && base.requests == [] && base.dbConn == None
    {
      base := new BaseScraper();
    }

    /** `scrape_player_stats`: fetch the season's fantasy page and read its table. */
    method ScrapePlayerStats(season: int, week: Option<int>, net: Network, parse: Parser)
      returns (outcome: ScrapeOutcome<PlayerRecord>)
      modifies base`sleeps, base`requests
      ensures var run := Fetch(PlayerStatsUrl(season), net, DefaultRetry);
        && outcome == PlayerStatsOutcome(run.result, parse, season, week)
        && base.sleeps == old(base.sleeps) + run.delays
        && base.requests == old(base.requests) + Repeat(PlayerStatsUrl(season), run.attempts)
    {
      var fetched := base.FetchUrl(PlayerStatsUrl(season), net, DefaultRetry);
      if fetched.Raised? {
        return FetchRaised(fetched.failure);
      }
      if fetched.NoResponse? || fetched.response.TransportFailure? {
        return NoneAttribute;
      }
      var page := parse(fetched.response.body);
      var table := TableById(page.tables, "fantasy");
      if table.None? {
        return Records([]);
      }
      if table.value.tbody.None? {
        return NoneAttribute;
      }
      var records := ExtractPlayerRecords(table.value.tbody.value, season, week);
      outcome := Records(records);
    }

    /** `scrape_team_defense`: fetch the season's opponent page and read its table. */
    method ScrapeTeamDefense(season: int, net: Network, parse: Parser)
      returns (outcome: ScrapeOutcome<DefenseRecord>)
      modifies base`sleeps, base`requests
      ensures var run := Fetch(DefenseUrl(season), net, DefaultRetry);
        && outcome == DefenseOutcome(run.result, parse, season)
        && base.sleeps == old(base.sleeps) + run.delays
        && base.requests == old(base.requests) + Repeat(DefenseUrl(season), run.attempts)
    {
      var fetched := base.FetchUrl(DefenseUrl(season), net, DefaultRetry);
      if fetched.Raised? {
        return FetchRaised(fetched.failure);
      }
      if fetched.NoResponse? || fetched.response.TransportFailure? {
        return NoneAttribute;
      }
      var page := parse(fetched.response.body);
      var table := TableById(page.tables, "team_stats");
      if table.None? {
        return Records([]);
      }
      if table.value.tbody.None? {
        return NoneAttribute;
      }
      var records := ExtractDefenseRecords(table.value.tbody.value, season);
      outcome := Records(records);
    }
  }

  // ---------------------------------------------------------------- properties

  /** Distinct seasons fetch distinct pages. */
  lemma SeasonUrlsDistinct(s1: int, s2: int)
    requires s1 != s2
    ensures PlayerStatsUrl(s1) != PlayerStatsUrl(s2)
    ensures DefenseUrl(s1) != DefenseUrl(s2)
  {
    var head := BaseUrl + "/years/";
    if PlayerStatsUrl(s1) == PlayerStatsUrl(s2) || DefenseUrl(s1) == DefenseUrl(s2) {
      IntToStringInjective(s1, s2, head);
    }
  }

  /** The rendered season can be recovered from either URL, so equal URLs mean equal seasons. */
  lemma IntToStringInjective(s1: int, s2: int, head: string)
    requires head + IntToString(s1) + "/fantasy.htm" == head + IntToString(s2) + "/fantasy.htm"
          || head + IntToString(s1) + "/opp.htm" == head + IntToString(s2) + "/opp.htm"
    ensures s1 == s2
  {
    var a, b := IntToString(s1), IntToString(s2);
    var tail := if head + a + "/fantasy.htm" == head + b + "/fantasy.htm" then "/fantasy.htm" else "/opp.htm";
    assert head + a + tail == head + b + tail;
    assert |a| == |b|;
    assert a == (head + a + tail)[|head|..|head| + |a|];
    assert b == (head + b + tail)[|head|..|head| + |b|];
    if s1 < 0 && s2 < 0 {
      assert a[1..] == b[1..];
      NatToStringInjective(-s1, -s2);
    } else if s1 >= 0 && s2 >= 0 {
      NatToStringInjective(s1, s2);
    }
  }

  /** Records of consecutive row blocks are the concatenation of their records: row order is kept. */
  lemma {:induction false} PlayerRecordsAppend(a: seq<PfrRow>, b: seq<PfrRow>, season: int, week: Option<int>)
    ensures PlayerRecords(a + b, season, week) == PlayerRecords(a, season, week) + PlayerRecords(b, season, week)
  {
    if b != [] {
      PlayerRecordsAppend(a, b[..|b| - 1], season, week);
      assert (a + b)[..|a + b| - 1] == a + b[..|b| - 1];
    } else {
      assert a + b == a;
    }
  }

  lemma {:induction false} DefenseRecordsAppend(a: seq<PfrRow>, b: seq<PfrRow>, season: int)
    ensures DefenseRecords(a + b, season) == DefenseRecords(a, season) + DefenseRecords(b, season)
  {
    if b != [] {
      DefenseRecordsAppend(a, b[..|b| - 1], season);
      assert (a + b)[..|a + b| - 1] == a + b[..|b| - 1];
    } else {
      assert a + b == a;
    }
  }

  /**
   * A skipped or rejected row (a header, a row without cells, a short or
   * malformed row) adds nothing and does not stop the rows after it.
   */
  lemma RejectedRowIsDropped(before: seq<PfrRow>, row: PfrRow, after: seq<PfrRow>, season: int, week: Option<int>)
    requires IsHeaderRow(row) || row.cells == [] || PlayerRecordOf(row.cells, season, week).None?
    ensures PlayerRecords(before + [row] + after, season, week) ==
      PlayerRecords(before, season, week) + PlayerRecords(after, season, week)
  {
    var init := before + [row];
    PlayerRecordsAppend(init, after, season, week);
    assert init[..|init| - 1] == before && init[|init| - 1] == row;
    assert RowRecord(row, season, week).None?;
    assert PlayerRecords(init, season, week) == PlayerRecords(before, season, week);
  }

  /** Every record carries the requested season and week, and there are never more records than rows. */
  lemma {:induction false} RecordsStamped(rows: seq<PfrRow>, season: int, week: Option<int>)
    ensures |PlayerRecords(rows, season, week)| <= |rows|
    ensures forall r :: r in PlayerRecords(rows, season, week) ==> r.season == season && r.week == week
    ensures |DefenseRecords(rows, season)| <= |rows|
    ensures forall r :: r in DefenseRecords(rows, season) ==> r.season == season
  {
    if rows != [] {
      RecordsStamped(rows[..|rows| - 1], season, week);
    }
  }

  /** When every row is accepted there is one record per row, in the same position. */
  lemma {:induction false} AllRowsAccepted(rows: seq<PfrRow>, season: int, week: Option<int>)
    requires forall i :: 0 <= i < |rows| ==> RowRecord(rows[i], season, week).Some?
    ensures |PlayerRecords(rows, season, week)| == |rows|
    ensures forall i :: 0 <= i < |rows| ==>
      PlayerRecords(rows, season, week)[i] == RowRecord(rows[i], season, week).value
  {
    if rows != [] {
      var init, last := rows[..|rows| - 1], rows[|rows| - 1];
      AllRowsAccepted(init, season, week);
      var before := PlayerRecords(init, season, week);
      assert PlayerRecords(rows, season, week) == before + [RowRecord(last, season, week).value];
      forall i | 0 <= i < |rows|
        ensures PlayerRecords(rows, season, week)[i] == RowRecord(rows[i], season, week).value
      {
        if i < |init| {
          assert rows[i] == init[i];
        }
      }
    }
  }

  /** A row of 17 cells whose numeric cells are all empty gives a record of zeros. */
  lemma EmptyNumbersAreZero(cells: seq<string>, season: int, week: Option<int>)
    requires |cells| == 17 && forall k :: 3 <= k < 17 ==> cells[k] == ""
    ensures PlayerRecordOf(cells, season, week) ==
      Some(PlayerRecord(cells[0], cells[1], cells[2], 0, 0, 0, 0, 0, 0, 0, 0, 0.0, season, week))
  {
  }

  /**
   * A fantasy row whose numeric cells are written as plain digits, with the
   * fantasy points as "whole.fraction", gives exactly those numbers, each in
   * the field its column names.
   */
  lemma PlayerRowReadsNumbers(cells: seq<string>, whole: string, fraction: string, season: int, week: Option<int>)
    requires |cells| >= 17
    requires PyNum.IsDigitString(cells[5]) && PyNum.IsDigitString(cells[6]) && PyNum.IsDigitString(cells[7])
    requires PyNum.IsDigitString(cells[9]) && PyNum.IsDigitString(cells[10]) && PyNum.IsDigitString(cells[12])
    requires PyNum.IsDigitString(cells[13]) && PyNum.IsDigitString(cells[14])
    requires PyNum.IsDigitString(whole) && PyNum.IsDigitString(fraction) && cells[16] == whole + "." + fraction
    ensures PlayerRecordOf(cells, season, week) == Some(PlayerRecord(cells[0], cells[1], cells[2],
      DigitsValue(cells[5]), DigitsValue(cells[6]), DigitsValue(cells[7]),
      DigitsValue(cells[9]), DigitsValue(cells[10]),
      DigitsValue(cells[12]), DigitsValue(cells[13]), DigitsValue(cells[14]),
      PyNum.DecimalValue(whole, fraction), season, week))
  {
    PyNum.ParseIntDigits(cells[5]);
    PyNum.ParseIntDigits(cells[6]);
    PyNum.ParseIntDigits(cells[7]);
    PyNum.ParseIntDigits(cells[9]);
    PyNum.ParseIntDigits(cells[10]);
    PyNum.ParseIntDigits(cells[12]);
    PyNum.ParseIntDigits(cells[13]);
    PyNum.ParseIntDigits(cells[14]);
    PyNum.ParseFloatDecimal(whole, fraction);
  }

  /** A defense row with "whole.fraction" points and yards allowed gives those numbers, points from cell 3 and yards from cell 4. */
  lemma DefenseRowReadsNumbers(cells: seq<string>, pointsWhole: string, pointsFraction: string,
                               yardsWhole: string, yardsFraction: string, season: int)
    requires |cells| >= 5
    requires PyNum.IsDigitString(pointsWhole) && PyNum.IsDigitString(pointsFraction)
    requires PyNum.IsDigitString(yardsWhole) && PyNum.IsDigitString(yardsFraction)
    requires cells[3] == pointsWhole + "." + pointsFraction && cells[4] == yardsWhole + "." + yardsFraction
    ensures DefenseRecordOf(cells, season) == Some(DefenseRecord(cells[0],
      PyNum.DecimalValue(pointsWhole, pointsFraction), PyNum.DecimalValue(yardsWhole, yardsFraction), season))
  {
    PyNum.ParseFloatDecimal(pointsWhole, pointsFraction);
    PyNum.ParseFloatDecimal(yardsWhole, yardsFraction);
  }

  /** Fewer than 17 cells is an index error: the row is dropped. */
  lemma ShortRowDropped(cells: seq<string>, season: int, week: Option<int>)
    requires |cells| < 17
    ensures PlayerRecordOf(cells, season, week).None?
  {
  }

  /** A count written with a thousands comma, such as "1,234", makes `int()` fail, so the whole row is dropped. */
  lemma CommaCountDropsRow(cells: seq<string>, high: string, low: string, season: int, week: Option<int>)
    requires |cells| >= 17 && PyNum.IsDigitString(high) && PyNum.IsDigitString(low)
    requires cells[5] == high + "," + low
    ensures PlayerRecordOf(cells, season, week).None?
  {
    var t := high + "," + low;
    assert t[|high|] == ',';
    assert !PyNum.IsDigitGroups(t);
    assert t[0] == high[0] && t[|t| - 1] == low[|low| - 1];
    TrimUnspaced(t, PyNum.IsPySpace);
    assert PyNum.SplitSign(t) == (false, t);
    assert IntCell(t).None?;
    var ints := [IntCell(cells[5]), IntCell(cells[6]), IntCell(cells[7]), IntCell(cells[9]),
                 IntCell(cells[10]), IntCell(cells[12]), IntCell(cells[13]), IntCell(cells[14])];
    assert ints[0] == None;
    assert None in ints;
  }

  /** A page without the table gives no records, and no error. */
  lemma MissingTableGivesNothing(body: string, status: int, parse: Parser, season: int, week: Option<int>)
    requires forall i :: 0 <= i < |parse(body).tables| ==> parse(body).tables[i].id != Some("fantasy")
    requires !IsErrorStatus(status)
    ensures PlayerStatsOutcome(Fetched(Response(status, body)), parse, season, week) == Records([])
  {
  }

  /** With the default of three attempts the scrape never sees `None` from the fetch. */
  lemma DefaultRetryAlwaysAnswers(url: string, net: Network)
    ensures !Fetch(url, net, DefaultRetry).result.NoResponse?
  {
    AttemptsBounded(url, net, DefaultRetry, 0);
  }
}
