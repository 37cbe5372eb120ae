/**
 * The Python game-log scraper (fetch_player_stats.py): fetch a player's ESPN
 * game-log page, find the first "Regular Season Stats" row of the first table,
 * turn the body rows into game records, reconcile the season rushing totals
 * and pick the last game. A failure anywhere becomes a `success: false` result.
 * The page arrives already parsed: its title text and, per table, all rows and
 * the rows of its first body section.
 */
module EspnGameLogPy {
  import opened Wrappers
  import opened Text
  import opened GameLog
  import PyNum

  datatype Table = Table(rows: seq<Row>, tbody: Option<seq<Row>>)
  datatype Page = Page(title: Option<string>, tables: seq<Table>)

  /** What the GET request yields: a response, or an exception from the HTTP client. */
  datatype FetchOutcome = Reply(status: int, page: Page) | TransportError

  datatype LastGame = LastGame(date: string, opponent: string, result: string, yards: int, touchdowns: int)

  datatype PlayerStats = PlayerStats(
    playerName: string, playerId: string, seasonStats: SeasonTotals,
    lastGame: Option<LastGame>, gamesPlayed: nat)

  datatype StatsResult =
    | Success(stats: PlayerStats)
    | Failure(error: string, playerId: string, suggestion: Option<string>)

  const ScrapeFailurePrefix: string := "Could not scrape ESPN game log page for player ID "
  const ScrapeFailureSuggestion: string := "Player ID may be incorrect, or ESPN page structure has changed."
  const MissingIdError: string := "Player ID required as argument"

  // ---------------------------------------------------------------- totals row

  /** The first row labelled as the totals row. */
  function FirstTotalsRow(rows: seq<Row>): Option<Row>
  {
    if rows == [] then None
    else if IsTotalsRow(rows[0]) then Some(rows[0])
    else FirstTotalsRow(rows[1..])
  }

  /** `FirstTotalsRow` finds a row iff some row is a totals row, and then the earliest one. */
  lemma {:induction false} FirstTotalsRowIsEarliest(rows: seq<Row>)
    ensures FirstTotalsRow(rows).Some? <==> exists i :: 0 <= i < |rows| && IsTotalsRow(rows[i])
    ensures FirstTotalsRow(rows).Some? ==>
      exists i :: 0 <= i < |rows| && rows[i] == FirstTotalsRow(rows).value && IsTotalsRow(rows[i])
        && forall j :: 0 <= j < i ==> !IsTotalsRow(rows[j])
  {
    if rows != [] && !IsTotalsRow(rows[0]) {
      FirstTotalsRowIsEarliest(rows[1..]);
      if FirstTotalsRow(rows).Some? {
        var i :| 0 <= i < |rows[1..]| && rows[1..][i] == FirstTotalsRow(rows).value
          && IsTotalsRow(rows[1..][i]) && forall j :: 0 <= j < i ==> !IsTotalsRow(rows[1..][j]);
        assert rows[i + 1] == rows[1..][i];
        forall j | 0 <= j < i + 1 ensures !IsTotalsRow(rows[j]) {
          if j > 0 { assert rows[j] == rows[1..][j - 1]; }
        }
      } else {
        forall i | 0 <= i < |rows| ensures !IsTotalsRow(rows[i]) {
          if i > 0 { assert rows[i] == rows[1..][i - 1]; }
        }
      }
    }
  }

  /** The search for the totals row: scan the rows in order and stop at the first match. */
  method FindTotalsRow(rows: seq<Row>) returns (totals: Option<Row>)
    ensures totals == FirstTotalsRow(rows)
  {
    totals := None;
    var i := 0;
    while i < |rows|
      invariant 0 <= i <= |rows|
      invariant FirstTotalsRow(rows) == FirstTotalsRow(rows[i..])
    {
      var cells := rows[i];
      if |cells| > 0 && cells[0] == TotalsLabel {
        totals := Some(cells);
        break;
      }
      assert rows[i..][1..] == rows[i + 1..];
      i := i + 1;
    }
  }

  // ---------------------------------------------------------------- game rows

  /** A body row becomes a game when it has at least ten cells and is not the totals row. */
  predicate IsGameRow(row: Row)
  {
    |row| >= 10 && !IsTotalsRow(row)
  }

  /** Cell `i` of the row, or `default` when the row is shorter. */
  function CellOr(row: Row, i: nat, default: string): string
  {
    if i < |row| then row[i] else default
  }

  /** Positional layout: date, opponent, result, rushing 3-6, receiving 8, 9, 10 and 12. */
  function ToGame(row: Row): GameRecord
  {
    GameRecord(
      CellOr(row, 0, ""), CellOr(row, 1, ""), CellOr(row, 2, ""),
      Rushing(CellOr(row, 3, "0"), CellOr(row, 4, "0"), CellOr(row, 5, "0"), CellOr(row, 6, "0")),
      Receiving(CellOr(row, 8, "0"), CellOr(row, 9, "0"), CellOr(row, 10, "0"), CellOr(row, 12, "0")))
  }

  /** The games of a sequence of body rows, in row order. */
  function Games(rows: seq<Row>): seq<GameRecord>
  {
    if rows == [] then []
    else
      var last := rows[|rows| - 1];
      Games(rows[..|rows| - 1]) + (if IsGameRow(last) then [ToGame(last)] else [])
  }

  /** Games of the first body section; none when the table has no body. */
  function TbodyGames(tbody: Option<seq<Row>>): seq<GameRecord>
  {
    if tbody.Some? then Games(tbody.value) else []
  }

  /** The loop over body rows that appends one game per qualifying row. */
  method ExtractGames(tbody: Option<seq<Row>>) returns (games: seq<GameRecord>)
    ensures games == TbodyGames(tbody)
  {
    games := [];
    if tbody.Some? {
      var rows := tbody.value;
      for i := 0 to |rows|
        invariant games == Games(rows[..i])
      {
        var cells := rows[i];
        assert rows[..i + 1][..i] == rows[..i];
        if |cells| >= 10 {
          if |cells| > 0 && cells[0] == TotalsLabel {
            continue;
          }
          games := games + [ToGame(cells)];
        }
      }
      assert rows[..|rows|] == rows;
    }
  }

  /** Games of consecutive row blocks are the concatenation of their games: order is kept. */
  lemma {:induction false} GamesAppend(a: seq<Row>, b: seq<Row>)
    ensures Games(a + b) == Games(a) + Games(b)
  {
    if b != [] {
      GamesAppend(a, b[..|b| - 1]);
      assert (a + b)[..|a + b| - 1] == a + b[..|b| - 1];
    } else {
      assert a + b == a;
    }
  }

  /** No game is ever made from the totals row, and every game comes from a row of ten or more cells. */
  lemma {:induction false} GamesNeverFromTotals(rows: seq<Row>)
    ensures forall g :: g in Games(rows) ==> g.date != TotalsLabel
    ensures |Games(rows)| <= |rows|
  {
    if rows != [] {
      GamesNeverFromTotals(rows[..|rows| - 1]);
    }
  }

  /** When every body row qualifies, there is one game per row, in the same position. */
  lemma {:induction false} GamesOfGameRows(rows: seq<Row>)
    requires forall i :: 0 <= i < |rows| ==> IsGameRow(rows[i])
    ensures |Games(rows)| == |rows|
    ensures forall i :: 0 <= i < |rows| ==> Games(rows)[i] == ToGame(rows[i])
  {
    if rows != [] {
      GamesOfGameRows(rows[..|rows| - 1]);
    }
  }

  // ---------------------------------------------------------------- totals

  /** `int(t.replace(',', ''))` when the comma-free text is all digits, else 0. */
  function CountField(text: string): nat
  {
    var t := ReplaceAll(text, ",", "");
    if PyNum.IsDigitString(t) then DigitsValue(t) else 0
  }

  /**
   * `float(t)` when `t` without '.' and '-' is all digits, else 0; `None` when
   * that test passes but `float` still rejects the text (as for "4-6"), which
   * raises out of the scrape.
   */
  function AverageField(text: string): Option<real>
  {
    var t := ReplaceAll(ReplaceAll(text, ".", ""), "-", "");
    if PyNum.IsDigitString(t) then PyNum.ParseFloat(text) else Some(0.0)
  }

  /** `int(t)` when `t` is all digits, else 0. */
  function DigitField(text: string): nat
  {
    if PyNum.IsDigitString(text) then DigitsValue(text) else 0
  }

  function SumYards(games: seq<GameRecord>): nat
  {
    if games == [] then 0 else SumYards(games[..|games| - 1]) + DigitField(games[|games| - 1].rushing.yards)
  }

  function SumTouchdowns(games: seq<GameRecord>): nat
  {
    if games == [] then 0 else SumTouchdowns(games[..|games| - 1]) + DigitField(games[|games| - 1].rushing.td)
  }

  function SumCarries(games: seq<GameRecord>): nat
  {
    if games == [] then 0 else SumCarries(games[..|games| - 1]) + DigitField(games[|games| - 1].rushing.carries)
  }

  /** Yards per carry rounded to tenths; 0 without carries. */
  function FallbackAverage(yards: int, carries: int): real
  {
    if carries > 0 then PyNum.RoundTenths(yards, carries) as real / 10.0 else 0.0
  }

  /**
   * Season totals: from a totals row of five or more cells when there is one,
   * else summed over the games, else all zero. `None` when the totals row's
   * average makes `float` raise.
   */
  function Reconcile(totals: Option<Row>, games: seq<GameRecord>): (r: Option<SeasonTotals>)
    ensures r.None? <==> totals.Some? && |totals.value| >= 5 && AverageField(totals.value[3]).None?
    ensures games == [] && (totals.None? || |totals.value| < 5) ==> r == Some(ZeroTotals)
    ensures games != [] && (totals.None? || |totals.value| < 5) ==>
      r == Some(SeasonTotals(SumCarries(games), SumYards(games), SumTouchdowns(games),
                             FallbackAverage(SumYards(games), SumCarries(games))))
  {
    if totals.Some? && |totals.value| >= 5 then
      var row := totals.value;
      match AverageField(row[3])
      case None => None
      case Some(avg) => Some(SeasonTotals(CountField(row[1]), CountField(row[2]), CountField(row[4]), avg))
    else if games != [] then
      var yards, touchdowns, carries := SumYards(games), SumTouchdowns(games), SumCarries(games);
      Some(SeasonTotals(carries, yards, touchdowns, FallbackAverage(yards, carries)))
    else Some(ZeroTotals)
  }

  // ---------------------------------------------------------------- result

  function LastGameOf(games: seq<GameRecord>): Option<LastGame>
  {
    if games == [] then None
    else
      var g := games[|games| - 1];
      Some(LastGame(g.date, g.opponent, g.result, DigitField(g.rushing.yards), DigitField(g.rushing.td)))
  }

  /**
   * The name to report: the given name; failing that, the stripped title text
   * before " Game Log"; failing that, "Unknown".
   */
  function DisplayName(playerName: Option<string>, title: Option<string>): (name: string)
    ensures name != ""
    ensures Given(playerName) ==> name == playerName.value
    ensures !Given(playerName) && (title.None? || !Contains(title.value, " Game Log")) ==> name == "Unknown"
    ensures !Given(playerName) && name != "Unknown" ==> title.Some? && Contains(title.value, " Game Log")
  {
    var extracted :=
      if Given(playerName) then playerName.value
      else if title.Some? && Contains(title.value, " Game Log") then
        var before := title.value[..IndexOf(title.value, " Game Log").value];
        if before != "" then PyNum.Strip(before) else ""
      else "";
    if extracted != "" then extracted else "Unknown"
  }

  /** What `scrape_espn_gamelog` returns for the page the request yields; `None` is its failure. */
  function GameLogResult(playerId: string, playerName: Option<string>, outcome: FetchOutcome): (r: Option<PlayerStats>)
    ensures r.Some? ==> outcome.Reply? && outcome.status == 200 && outcome.page.tables != []
    ensures r.Some? ==> r.value.playerId == playerId && r.value.playerName != ""
  {
    match outcome
    case TransportError => None
    case Reply(status, page) =>
      if status != 200 || page.tables == [] then None
      else
        var table := page.tables[0];
        var games := TbodyGames(table.tbody);
        match Reconcile(FirstTotalsRow(table.rows), games)
        case None => None
        case Some(totals) =>
          Some(PlayerStats(DisplayName(playerName, page.title), playerId, totals, LastGameOf(games), |games|))
  }

  /** The failure result built for a player whose page could not be scraped. */
  function ScrapeFailure(playerId: string): StatsResult
  {
    Failure(ScrapeFailurePrefix + playerId, playerId, Some(ScrapeFailureSuggestion))
  }

  /** `scrape_espn_gamelog`: request the page, then run the totals search and the game loop. */
  method ScrapeGameLog(playerId: string, playerName: Option<string>, fetch: string -> FetchOutcome)
    returns (result: Option<PlayerStats>)
    ensures result == GameLogResult(playerId, playerName, fetch(GameLogUrl(playerId, playerName)))
  {
    var url := GameLogUrl(playerId, playerName);
    var outcome := fetch(url);
    if outcome.TransportError? || outcome.status != 200 || outcome.page.tables == [] {
      return None;
    }
    var page := outcome.page;
    var table := page.tables[0];
    var totalsRow := FindTotalsRow(table.rows);
    var games := ExtractGames(table.tbody);
    var totals := Reconcile(totalsRow, games);
    if totals.None? {
      return None;
    }
    result := Some(PlayerStats(DisplayName(playerName, page.title), playerId, totals.value, LastGameOf(games), |games|));
  }

  /** `fetch_player_stats`: a scrape that yields nothing becomes a `success: false` result. */
  method FetchPlayerStats(playerId: string, playerName: Option<string>, fetch: string -> FetchOutcome)
    returns (result: StatsResult)
    ensures var scraped := GameLogResult(playerId, playerName, fetch(GameLogUrl(playerId, playerName)));
      result == if scraped.Some? then Success(scraped.value) else ScrapeFailure(playerId)
  {
    var scraped := ScrapeGameLog(playerId, playerName, fetch);
    if scraped.Some? {
      result := Success(scraped.value);
    } else {
      result := ScrapeFailure(playerId);
    }
  }

  datatype CliOutput = UsageError(message: string) | Emitted(result: StatsResult)

  /** The command line: the player id is required, the display name optional; exit status 1 only without an id. */
  method RunCli(args: seq<string>, fetch: string -> FetchOutcome) returns (output: CliOutput, exitCode: int)
    ensures args == [] <==> exitCode == 1
    ensures args == [] ==> output == UsageError(MissingIdError)
    ensures args != [] ==> exitCode == 0 && output.Emitted?
    ensures args != [] ==>
      (var name := if |args| > 1 then Some(args[1]) else None;
       var scraped := GameLogResult(args[0], name, fetch(GameLogUrl(args[0], name)));
       output == Emitted(if scraped.Some? then Success(scraped.value) else ScrapeFailure(args[0])))
    ensures args != [] ==> output.result.Success? ==> output.result.stats.playerId == args[0]
    ensures args != [] ==> output.result.Failure? ==> output.result.playerId == args[0]
  {
    if |args| < 1 {
      return UsageError(MissingIdError), 1;
    }
    var playerName := if |args| > 1 then Some(args[1]) else None;
    var result := FetchPlayerStats(args[0], playerName, fetch);
    return Emitted(result), 0;
  }

  // ---------------------------------------------------------------- properties

  /** A non-200 response, a transport error or a page without tables is a scrape failure. */
  lemma UnusablePageFails(playerId: string, playerName: Option<string>, outcome: FetchOutcome)
    requires outcome.TransportError? || outcome.status != 200 || outcome.page.tables == []
    ensures GameLogResult(playerId, playerName, outcome) == None
    ensures StartsWith(ScrapeFailure(playerId).error, ScrapeFailurePrefix)
  {
    var e := ScrapeFailure(playerId).error;
    assert e[..|ScrapeFailurePrefix|] == ScrapeFailurePrefix;
  }

  /** A scrape that succeeds reports one game per qualifying body row and the last of them. */
  lemma SuccessReportsGames(playerId: string, playerName: Option<string>, outcome: FetchOutcome)
    requires GameLogResult(playerId, playerName, outcome).Some?
    ensures var stats := GameLogResult(playerId, playerName, outcome).value;
      var games := TbodyGames(outcome.page.tables[0].tbody);
      && stats.gamesPlayed == |games|
      && stats.playerId == playerId
      && (stats.lastGame.Some? <==> games != [])
      && (games != [] ==>
            var g := games[|games| - 1];
            stats.lastGame == Some(LastGame(g.date, g.opponent, g.result,
                                            DigitField(g.rushing.yards), DigitField(g.rushing.td))))
  {
  }

  /** A usable totals row decides the totals whatever the games hold. */
  lemma TotalsRowDecides(row: Row, games1: seq<GameRecord>, games2: seq<GameRecord>)
    requires |row| >= 5 && AverageField(row[3]).Some?
    ensures Reconcile(Some(row), games1) == Reconcile(Some(row), games2)
    ensures Reconcile(Some(row), games1) ==
      Some(SeasonTotals(CountField(row[1]), CountField(row[2]), CountField(row[4]), AverageField(row[3]).value))
  {
  }

  /** Without a usable totals row and without games every total is zero. */
  lemma NoDataGivesZero(totals: Option<Row>)
    requires totals.None? || |totals.value| < 5
    ensures Reconcile(totals, []) == Some(ZeroTotals)
  {
  }

  /** The fallback average is the exact yards-per-carry rounded to the nearest tenth. */
  lemma FallbackAverageIsNearestTenth(yards: nat, carries: nat)
    requires carries > 0
    ensures exists tenths: int ::
      (FallbackAverage(yards, carries) == tenths as real / 10.0
       && 2 * PyNum.Abs(10 * yards - tenths * carries) <= carries)
  {
    var t := PyNum.RoundTenths(yards, carries);
    assert FallbackAverage(yards, carries) == t as real / 10.0;
  }

  /**
   * Each fallback sum adds a game's count when it is all digits and skips it
   * otherwise, such as "-3" or "--"; the yards, touchdown and carry sums each
   * test their own field.
   */
  lemma {:induction false} SumsIgnoreNonDigits(games: seq<GameRecord>, g: GameRecord)
    ensures !PyNum.IsDigitString(g.rushing.yards) ==> SumYards(games + [g]) == SumYards(games)
    ensures PyNum.IsDigitString(g.rushing.yards) ==>
      SumYards(games + [g]) == SumYards(games) + DigitsValue(g.rushing.yards)
    ensures !PyNum.IsDigitString(g.rushing.td) ==> SumTouchdowns(games + [g]) == SumTouchdowns(games)
    ensures PyNum.IsDigitString(g.rushing.td) ==>
      SumTouchdowns(games + [g]) == SumTouchdowns(games) + DigitsValue(g.rushing.td)
    ensures !PyNum.IsDigitString(g.rushing.carries) ==> SumCarries(games + [g]) == SumCarries(games)
    ensures PyNum.IsDigitString(g.rushing.carries) ==>
      SumCarries(games + [g]) == SumCarries(games) + DigitsValue(g.rushing.carries)
  {
    assert (games + [g])[..|games|] == games;
  }

  /** A count written with a thousands comma, such as "1,025", reads as its digits. */
  lemma CountFieldWithComma(high: string, low: string)
    requires PyNum.IsDigitString(high) && PyNum.IsDigitString(low)
    ensures CountField(high + "," + low) == DigitsValue(high + low)
  {
    assert ReplaceAll(high + "," + low, ",", "") == high + low by {
      NonDigitAbsent(high, ',');
      NonDigitAbsent(low, ',');
      RemoveChar(high, ',', low);
    }
    assert PyNum.IsDigitString(high + low) by {
      DigitsConcat(high, low);
    }
  }

  /** A plain count reads as its digits. */
  lemma CountFieldDigits(s: string)
    requires PyNum.IsDigitString(s)
    ensures CountField(s) == DigitsValue(s)
  {
    NonDigitAbsent(s, ',');
    ReplaceAbsentChar(s, ',', "");
    assert ReplaceAll(s, ",", "") == s;
  }

  /** An average such as "4.6" reads as the decimal number it writes. */
  lemma AverageFieldDecimal(whole: string, fraction: string)
    requires PyNum.IsDigitString(whole) && PyNum.IsDigitString(fraction)
    ensures AverageField(whole + "." + fraction) == Some(PyNum.DecimalValue(whole, fraction))
  {
    DecimalPassesDigitTest(whole, fraction);
    PyNum.ParseFloatDecimal(whole, fraction);
  }

  /** Without its '.' and any '-', a decimal such as "4.6" is all digits. */
  lemma DecimalPassesDigitTest(whole: string, fraction: string)
    requires PyNum.IsDigitString(whole) && PyNum.IsDigitString(fraction)
    ensures PyNum.IsDigitString(ReplaceAll(ReplaceAll(whole + "." + fraction, ".", ""), "-", ""))
  {
    var joined := whole + fraction;
    assert ReplaceAll(whole + "." + fraction, ".", "") == joined by {
      NonDigitAbsent(whole, '.');
      NonDigitAbsent(fraction, '.');
      RemoveChar(whole, '.', fraction);
    }
    assert PyNum.IsDigitString(joined) by {
      DigitsConcat(whole, fraction);
    }
    assert ReplaceAll(joined, "-", "") == joined by {
      NonDigitAbsent(joined, '-');
      ReplaceAbsentChar(joined, '-', "");
    }
  }

  /**
   * A totals row laid out as on the page (label, carries, yards with a
   * thousands comma, average, touchdowns) gives exactly those numbers, as for
   * ["Regular Season Stats", "222", "1,025", "4.6", "10"].
   */
  lemma TotalsRowReadsNumbers(row: Row, carries: string, yardsHigh: string, yardsLow: string,
                              avgWhole: string, avgFraction: string, touchdowns: string, games: seq<GameRecord>)
    requires PyNum.IsDigitString(carries) && PyNum.IsDigitString(yardsHigh) && PyNum.IsDigitString(yardsLow)
    requires PyNum.IsDigitString(avgWhole) && PyNum.IsDigitString(avgFraction) && PyNum.IsDigitString(touchdowns)
    requires |row| >= 5 && row[0] == TotalsLabel && row[1] == carries && row[2] == yardsHigh + "," + yardsLow
    requires row[3] == avgWhole + "." + avgFraction && row[4] == touchdowns
    ensures Reconcile(Some(row), games) == Some(SeasonTotals(
      DigitsValue(carries), DigitsValue(yardsHigh + yardsLow), DigitsValue(touchdowns),
      PyNum.DecimalValue(avgWhole, avgFraction)))
  {
    CountFieldDigits(carries);
    CountFieldWithComma(yardsHigh, yardsLow);
    CountFieldDigits(touchdowns);
    AverageFieldDecimal(avgWhole, avgFraction);
  }

  /** Negative yardage in the totals row is not all digits, so it counts as 0. */
  lemma NegativeTotalsYardsBecomeZero(row: Row, digits: string)
    requires |row| >= 5 && AverageField(row[3]).Some? && PyNum.IsDigitString(digits) && row[2] == "-" + digits
    ensures Reconcile(Some(row), []).value.yards == 0
  {
    var t := "-" + digits;
    forall k | 0 <= k < |t| ensures t[k] != ',' {
      if k > 0 { assert t[k] == digits[k - 1]; }
    }
    ReplaceAbsentChar(t, ',', "");
    assert ReplaceAll(t, ",", "") == t;
    assert !IsDigit(t[0]);
  }

  /** An average cell like "4-6" passes the digit test but makes `float` raise: the whole scrape fails. */
  lemma MalformedAverageFailsScrape(row: Row, left: string, right: string, games: seq<GameRecord>)
    requires PyNum.IsDigitString(left) && PyNum.IsDigitString(right)
    requires |row| >= 5 && row[3] == left + "-" + right
    ensures Reconcile(Some(row), games) == None
  {
    var t := left + "-" + right;
    assert t == left + ['-'] + right;
    NonDigitAbsent(left, '.');
    NonDigitAbsent(right, '.');
    assert '.' !in t;
    ReplaceAbsentChar(t, '.', "");
    assert ReplaceAll(t, ".", "") == t;
    NonDigitAbsent(left, '-');
    NonDigitAbsent(right, '-');
    DigitsConcat(left, right);
    ReplaceCharFirst(left, '-', right, "");
    ReplaceAbsentChar(right, '-', "");
    assert ReplaceAll(t, "-", "") == left + right;
    PyNum.ParseFloatRejectsInnerDash(left, right);
    assert AverageField(t) == None;
  }
}
