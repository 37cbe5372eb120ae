/**
 * The Node.js game-log scraper (fetch_player_stats.js): the same job as the
 * Python scraper, done with regular expressions over the page text. The page
 * arrives cut into its parts: the title text and, per table, its class
 * attribute and the inner markup of each cell of each row. Cell cleaning
 * (tag removal, entity decoding, trimming) is modelled on that markup.
 */
module EspnGameLogJs {
  import opened Wrappers
  import opened Text
  import opened GameLog
  import JsNum
  import PyNum

  /** A table: its class attribute and, per row, the raw inner markup of each cell. */
  datatype JsTable = JsTable(classAttr: string, rows: seq<seq<string>>)
  datatype JsPage = JsPage(title: Option<string>, tables: seq<JsTable>)

  /** What `fetchUrl` settles to: a response with its status line, or a request error. */
  datatype FetchOutcome =
    | Reply(status: int, statusMessage: string, page: JsPage)
    | NetworkError(message: string)

  datatype JsLastGame = JsLastGame(
    date: string, opponent: string, result: string,
    carries: int, yards: int, touchdowns: int, average: real)

  datatype JsPlayerStats = JsPlayerStats(
    playerName: string, playerId: string, seasonStats: SeasonTotals,
    lastGame: Option<JsLastGame>, gamesPlayed: nat)

  datatype JsResult = Success(stats: JsPlayerStats) | Failure(error: string, playerId: string)

  const MissingIdError: string := "Player ID required as argument"

  // ---------------------------------------------------------------- cells

  /**
   * `replace(/<[^>]+>/g, '')`: from left to right, a '<' followed by at least
   * one character other than '>' and then a '>' is removed with them; any
   * other character stays.
   */
  function StripTags(s: string): (r: string)
    ensures |r| <= |s|
    decreases |s|
  {
    if s == [] then []
    else if s[0] == '<' then
      match IndexOf(s[1..], ">")
      case Some(k) =>
        if k >= 1 then StripTags(s[k + 2..]) else [s[0]] + StripTags(s[1..])
      case None => [s[0]] + StripTags(s[1..])
    else [s[0]] + StripTags(s[1..])
  }

  /** The cell text: tags removed, the four entities decoded in order, then trimmed. */
  function CleanCell(raw: string): (text: string)
    ensures text != [] ==> !JsNum.IsJsSpace(text[0]) && !JsNum.IsJsSpace(text[|text| - 1])
  {
    var untagged := StripTags(raw);
    var decoded := ReplaceAll(ReplaceAll(ReplaceAll(ReplaceAll(untagged, "&nbsp;", " "), "&amp;", "&"), "&lt;", "<"), "&gt;", ">");
    JsNum.JsTrim(decoded)
  }

  /** `cells[i] || fallback`: a missing or empty cell gives the fallback. */
  function CellOr(cells: Row, i: nat, fallback: string): string
  {
    if i < |cells| && cells[i] != "" then cells[i] else fallback
  }

  // ---------------------------------------------------------------- rows

  /** A row kept as a game: ten or more cells and a non-empty first cell that is no header or totals label. */
  predicate IsJsGameRow(cells: Row)
  {
    && |cells| >= 10 && cells[0] != ""
    && !Contains(cells[0], "Date") && !Contains(cells[0], "Regular Season")
  }

  function ToGame(cells: Row): GameRecord
  {
    GameRecord(
      CellOr(cells, 0, ""), CellOr(cells, 1, ""), CellOr(cells, 2, ""),
      Rushing(CellOr(cells, 3, "0"), CellOr(cells, 4, "0"), CellOr(cells, 5, "0"), CellOr(cells, 6, "0")),
      Receiving(CellOr(cells, 8, "0"), CellOr(cells, 9, "0"), CellOr(cells, 10, "0"), CellOr(cells, 12, "0")))
  }

  /** The games among cleaned rows, in row order; totals rows are never games. */
  function RowGames(rows: seq<Row>): seq<GameRecord>
  {
    if rows == [] then []
    else
      var last := rows[|rows| - 1];
      RowGames(rows[..|rows| - 1]) + (if !IsTotalsRow(last) && IsJsGameRow(last) then [ToGame(last)] else [])
  }

  /** The totals row the scan ends with: each totals row replaces the one before. */
  function LastTotalsRow(rows: seq<Row>): Option<Row>
  {
    if rows == [] then None
    else if IsTotalsRow(rows[|rows| - 1]) then Some(rows[|rows| - 1])
    else LastTotalsRow(rows[..|rows| - 1])
  }

  /** The cleaned text of every cell of a row. */
  function CleanRow(raw: seq<string>): (cells: Row)
    ensures |cells| == |raw| && forall k :: 0 <= k < |raw| ==> cells[k] == CleanCell(raw[k])
  {
    seq(|raw|, k requires 0 <= k < |raw| => CleanCell(raw[k]))
  }

  function CleanRows(raws: seq<seq<string>>): (rows: seq<Row>)
    ensures |rows| == |raws| && forall i :: 0 <= i < |raws| ==> rows[i] == CleanRow(raws[i])
  {
    seq(|raws|, i requires 0 <= i < |raws| => CleanRow(raws[i]))
  }

  /** The first table whose class attribute mentions "Table". */
  function FindTable(tables: seq<JsTable>): (t: Option<JsTable>)
    ensures t.Some? ==> t.value in tables && Contains(t.value.classAttr, "Table")
    ensures t.None? <==> forall i :: 0 <= i < |tables| ==> !Contains(tables[i].classAttr, "Table")
  {
    if tables == [] then None
    else if Contains(tables[0].classAttr, "Table") then Some(tables[0])
    else
      var t := FindTable(tables[1..]);
      assert forall i :: 1 <= i < |tables| ==> tables[i] == tables[1..][i - 1];
      t
  }

  /** What `parseGameLogTable` returns: the games and the totals row of the matched table. */
  function ParsedTable(page: JsPage): (seq<GameRecord>, Option<Row>)
  {
    match FindTable(page.tables)
    case None => ([], None)
    case Some(t) => (RowGames(CleanRows(t.rows)), LastTotalsRow(CleanRows(t.rows)))
  }

  /** One more row of the scan: it either replaces the totals row or may add one game. */
  lemma ScanStep(rows: seq<Row>, i: nat)
    requires i < |rows|
    ensures RowGames(rows[..i + 1]) ==
      RowGames(rows[..i]) + (if !IsTotalsRow(rows[i]) && IsJsGameRow(rows[i]) then [ToGame(rows[i])] else [])
    ensures LastTotalsRow(rows[..i + 1]) == if IsTotalsRow(rows[i]) then Some(rows[i]) else LastTotalsRow(rows[..i])
  {
    assert rows[..i + 1][..i] == rows[..i];
  }

  /** The inner loop of `parseGameLogTable`: clean each cell of one row, in order. */
  method CleanCells(raw: seq<string>) returns (cells: Row)
    ensures cells == CleanRow(raw)
  {
    cells := [];
    for j := 0 to |raw|
      invariant cells == CleanRow(raw[..j])
    {
      cells := cells + [CleanCell(raw[j])];
    }
    assert raw[..|raw|] == raw;
  }

  /** `parseGameLogTable`: one pass over the rows of the matched table. */
  method ParseGameLogTable(page: JsPage) returns (games: seq<GameRecord>, totalsRow: Option<Row>)
    ensures (games, totalsRow) == ParsedTable(page)
  {
    games, totalsRow := [], None;
    var table := FindTable(page.tables);
    if table.None? {
      return;
    }
    var raws := table.value.rows;
    ghost var rows := CleanRows(raws);
    for i := 0 to |raws|
      invariant games == RowGames(rows[..i]) && totalsRow == LastTotalsRow(rows[..i])
    {
      var cells := CleanCells(raws[i]);
      ScanStep(rows, i);
      if |cells| > 0 && cells[0] == TotalsLabel {
        totalsRow := Some(cells);
        continue;
      }
      if IsJsGameRow(cells) {
        games := games + [ToGame(cells)];
      }
    }
    assert rows[..|raws|] == rows;
  }

  // ---------------------------------------------------------------- totals

  /** `parseInt((cell || '0').replace(/,/g, '')) || 0`. */
  function CountField(cell: string): int
  {
    JsNum.ParseIntOr0(ReplaceAll(if cell != "" then cell else "0", ",", ""))
  }

  function SumYards(games: seq<GameRecord>): int
  {
    if games == [] then 0 else SumYards(games[..|games| - 1]) + JsNum.ParseIntOr0(games[|games| - 1].rushing.yards)
  }

  function SumTouchdowns(games: seq<GameRecord>): int
  {
    if games == [] then 0 else SumTouchdowns(games[..|games| - 1]) + JsNum.ParseIntOr0(games[|games| - 1].rushing.td)
  }

  function SumCarries(games: seq<GameRecord>): int
  {
    if games == [] then 0 else SumCarries(games[..|games| - 1]) + JsNum.ParseIntOr0(games[|games| - 1].rushing.carries)
  }

  /** `Math.round((yards / carries) * 10) / 10`, or 0 without a positive carry count. */
  function FallbackAverage(yards: int, carries: int): real
  {
    if carries > 0 then JsNum.RoundTenths(yards, carries) as real / 10.0 else 0.0
  }

  /** Season totals: from a totals row of five or more cells, else summed over the games, else zero. */
  function Reconcile(totals: Option<Row>, games: seq<GameRecord>): (r: SeasonTotals)
    ensures totals.Some? && |totals.value| >= 5 ==>
      r.carries == CountField(totals.value[1]) && r.yards == CountField(totals.value[2])
      && r.touchdowns == CountField(totals.value[4])
      && r.average == JsNum.ParseFloatOr0(if totals.value[3] != "" then totals.value[3] else "0")
    ensures (totals.None? || |totals.value| < 5) && games != [] ==>
      r.carries == SumCarries(games) && r.yards == SumYards(games) && r.touchdowns == SumTouchdowns(games)
      && r.average == FallbackAverage(SumYards(games), SumCarries(games))
      && (r.carries <= 0 ==> r.average == 0.0)
    ensures (totals.None? || |totals.value| < 5) && games == [] ==> r == ZeroTotals
  {
    if totals.Some? && |totals.value| >= 5 then
      var row := totals.value;
      SeasonTotals(CountField(row[1]), CountField(row[2]), CountField(row[4]),
                   JsNum.ParseFloatOr0(if row[3] != "" then row[3] else "0"))
    else if |games| > 0 then
      var yards, touchdowns, carries := SumYards(games), SumTouchdowns(games), SumCarries(games);
      SeasonTotals(carries, yards, touchdowns, FallbackAverage(yards, carries))
    else ZeroTotals
  }

  // ---------------------------------------------------------------- result

  function LastGameOf(games: seq<GameRecord>): Option<JsLastGame>
  {
    if games == [] then None
    else
      var g := games[|games| - 1];
      Some(JsLastGame(g.date, g.opponent, g.result,
        JsNum.ParseIntOr0(g.rushing.carries), JsNum.ParseIntOr0(g.rushing.yards),
        JsNum.ParseIntOr0(g.rushing.td), JsNum.ParseFloatOr0(g.rushing.avg)))
  }

  /** The longest prefix free of '-' and '|' (the `^([^-|]+)` match). */
  function NamePart(title: string): (p: string)
    ensures StartsWith(title, p) && '-' !in p && '|' !in p
    ensures |p| < |title| ==> title[|p|] == '-' || title[|p|] == '|'
  {
    if title != [] && title[0] != '-' && title[0] != '|' then [title[0]] + NamePart(title[1..]) else []
  }

  /**
   * The name to report: the given name; failing that, the title's leading part
   * before any '-' or '|', with the first " Game Log" removed and trimmed;
   * failing that, "Unknown".
   */
  function DisplayName(playerName: Option<string>, title: Option<string>): (name: string)
    ensures name != ""
    ensures Given(playerName) ==> name == playerName.value
    ensures !Given(playerName) && title.None? ==> name == "Unknown"
    ensures !Given(playerName) && name != "Unknown" ==> title.Some? && '-' !in name && '|' !in name
  {
    var extracted :=
      if Given(playerName) then playerName.value
      else if title.Some? && NamePart(title.value) != [] then
        JsNum.JsTrim(ReplaceFirst(NamePart(title.value), " Game Log", ""))
      else "";
    if extracted != "" then extracted else "Unknown"
  }

  /** The message of the error `fetchUrl` rejects with on a status other than 200. */
  function HttpError(status: int, statusMessage: string): string
  {
    "HTTP " + IntToString(status) + ": " + statusMessage
  }

  /** What `scrapeESPNGameLog` resolves to for the outcome of the request. */
  function GameLogResult(playerId: string, playerName: Option<string>, outcome: FetchOutcome): (r: JsResult)
    ensures r.Success? <==> outcome.Reply? && outcome.status == 200
    ensures r.Success? ==> r.stats.playerId == playerId && r.stats.playerName != ""
    ensures r.Failure? ==> r.playerId == playerId
  {
    match outcome
    case NetworkError(message) => Failure(message, playerId)
    case Reply(status, statusMessage, page) =>
      if status != 200 then Failure(HttpError(status, statusMessage), playerId)
      else
        var (games, totals) := ParsedTable(page);
        Success(JsPlayerStats(DisplayName(playerName, page.title), playerId,
          Reconcile(totals, games), LastGameOf(games), |games|))
  }

  /** `scrapeESPNGameLog`: request the page, parse the table, build the result. */
  method ScrapeGameLog(playerId: string, playerName: Option<string>, fetch: string -> FetchOutcome)
    returns (result: JsResult)
    ensures result == GameLogResult(playerId, playerName, fetch(GameLogUrl(playerId, playerName)))
  {
    var outcome := fetch(GameLogUrl(playerId, playerName));
    if outcome.NetworkError? {
      return Failure(outcome.message, playerId);
    }
    if outcome.status != 200 {
      return Failure(HttpError(outcome.status, outcome.statusMessage), playerId);
    }
    var games, totals := ParseGameLogTable(outcome.page);
    var name := DisplayName(playerName, outcome.page.title);
    result := Success(JsPlayerStats(name, playerId, Reconcile(totals, games), LastGameOf(games), |games|));
  }

  datatype CliOutput = UsageError(message: string) | Emitted(result: JsResult)

  /** `main`: the player id is required; an empty name argument counts as none. */
  method RunCli(args: seq<string>, fetch: string -> FetchOutcome) returns (output: CliOutput, exitCode: int)
    ensures args == [] <==> exitCode == 1
    ensures args == [] ==> output == UsageError(MissingIdError)
    ensures args != [] ==>
      (var name := if |args| > 1 && args[1] != "" then Some(args[1]) else None;
       output == Emitted(GameLogResult(args[0], name, fetch(GameLogUrl(args[0], name)))))
  {
    if |args| < 1 {
      return UsageError(MissingIdError), 1;
    }
    var playerName := if |args| > 1 && args[1] != "" then Some(args[1]) else None;
    var result := ScrapeGameLog(args[0], playerName, fetch);
    return Emitted(result), 0;
  }

  // ---------------------------------------------------------------- properties

  /** Text without '<' loses nothing to tag removal. */
  lemma {:induction false} StripTagsNoAngle(s: string)
    requires '<' !in s
    ensures StripTags(s) == s
  {
    if s != [] {
      assert s[0] != '<';
      StripTagsNoAngle(s[1..]);
    }
  }

  /** A complete tag `<name ...>` at the front is removed and nothing after it is touched. */
  lemma StripTagsRemovesTag(inner: string, rest: string)
    requires inner != [] && '>' !in inner
    ensures StripTags("<" + inner + ">" + rest) == StripTags(rest)
  {
    var s := "<" + inner + ">" + rest;
    var t := s[1..];
    assert t == inner + ">" + rest;
    assert StartsWith(t[|inner|..], ">");
    forall j | 0 <= j < |inner| ensures !StartsWith(t[j..], ">") {
      assert t[j] == inner[j];
    }
    IndexOfFirstHit(t, ">", |inner|);
    assert s[|inner| + 2..] == rest;
  }

  /** The first position where `sub` starts, when all earlier positions fail, is what `IndexOf` finds. */
  lemma {:induction false} IndexOfFirstHit(s: string, sub: string, k: nat)
    requires k <= |s| && StartsWith(s[k..], sub)
    requires forall j :: 0 <= j < k ==> !StartsWith(s[j..], sub)
    ensures IndexOf(s, sub) == Some(k)
  {
    if k == 0 {
      assert s[0..] == s;
    } else {
      assert s[0..] == s;
      assert !StartsWith(s, sub);
      forall j | 0 <= j < k - 1 ensures !StartsWith(s[1..][j..], sub) {
        assert s[1..][j..] == s[j + 1..];
      }
      assert s[1..][k - 1..] == s[k..];
      IndexOfFirstHit(s[1..], sub, k - 1);
    }
  }

  /** A cell with no markup and no entity is only trimmed. */
  lemma CleanPlainCell(raw: string)
    requires '<' !in raw && '&' !in raw
    ensures CleanCell(raw) == JsNum.JsTrim(raw)
  {
    StripTagsNoAngle(raw);
    NoEntity(raw, "&nbsp;", " ");
    NoEntity(raw, "&amp;", "&");
    NoEntity(raw, "&lt;", "<");
    NoEntity(raw, "&gt;", ">");
  }

  /** A pattern that starts with '&' is never found in text without '&'. */
  lemma {:induction false} NoEntity(s: string, pat: string, rep: string)
    requires '&' !in s && |pat| > 0 && pat[0] == '&'
    ensures ReplaceAll(s, pat, rep) == s
  {
    if |s| >= |pat| {
      assert s[0] in s;
      assert s[..|pat|] != pat;
      NoEntity(s[1..], pat, rep);
    }
  }

  /** Totals rows never become games, and every game comes from a row the filter keeps. */
  lemma {:induction false} GamesAreGameRows(rows: seq<Row>)
    ensures |RowGames(rows)| <= |rows|
    ensures forall g :: g in RowGames(rows) ==> g.date != "" && g.date != TotalsLabel && !Contains(g.date, "Date")
  {
    if rows != [] {
      GamesAreGameRows(rows[..|rows| - 1]);
    }
  }

  /** Games of consecutive row blocks are the concatenation of their games. */
  lemma {:induction false} RowGamesAppend(a: seq<Row>, b: seq<Row>)
    ensures RowGames(a + b) == RowGames(a) + RowGames(b)
  {
    if b != [] {
      RowGamesAppend(a, b[..|b| - 1]);
      assert (a + b)[..|a + b| - 1] == a + b[..|b| - 1];
    } else {
      assert a + b == a;
    }
  }

  /** The totals row kept is the last one: a later totals row replaces an earlier one. */
  lemma {:induction false} LastTotalsRowIsLatest(rows: seq<Row>)
    ensures LastTotalsRow(rows).Some? <==> exists i :: 0 <= i < |rows| && IsTotalsRow(rows[i])
    ensures LastTotalsRow(rows).Some? ==>
      exists i :: 0 <= i < |rows| && rows[i] == LastTotalsRow(rows).value && IsTotalsRow(rows[i])
        && forall j :: i < j < |rows| ==> !IsTotalsRow(rows[j])
  {
    if rows != [] {
      var n := |rows| - 1;
      if IsTotalsRow(rows[n]) {
        assert rows[n] == LastTotalsRow(rows).value;
      } else {
        LastTotalsRowIsLatest(rows[..n]);
        assert forall i :: 0 <= i < n ==> rows[..n][i] == rows[i];
        if LastTotalsRow(rows).Some? {
          var i :| 0 <= i < n && rows[..n][i] == LastTotalsRow(rows).value
            && forall j :: i < j < n ==> !IsTotalsRow(rows[..n][j]);
          assert rows[i] == LastTotalsRow(rows).value;
        } else {
          forall i | 0 <= i < |rows| ensures !IsTotalsRow(rows[i]) {
            if i < n { assert rows[..n][i] == rows[i]; }
          }
        }
      }
    }
  }

  /** A status other than 200 fails with "HTTP <status>: <message>", before any parsing. */
  lemma NonOkStatusFails(playerId: string, playerName: Option<string>, status: int, message: string, page: JsPage)
    requires status != 200
    ensures GameLogResult(playerId, playerName, Reply(status, message, page)) ==
      Failure(HttpError(status, message), playerId)
    ensures StartsWith(HttpError(status, message), "HTTP ")
  {
    var e := HttpError(status, message);
    assert e[..5] == "HTTP ";
  }

  /** A 200 page without a matching table still succeeds, with zero totals and no games. */
  lemma NoTableSucceedsWithZeros(playerId: string, playerName: Option<string>, message: string, page: JsPage)
    requires forall i :: 0 <= i < |page.tables| ==> !Contains(page.tables[i].classAttr, "Table")
    ensures GameLogResult(playerId, playerName, Reply(200, message, page)) ==
      Success(JsPlayerStats(DisplayName(playerName, page.title), playerId, ZeroTotals, None, 0))
  {
  }

  /**
   * A scrape that succeeds reports one game per game row of the matched table
   * and, as the last game, the latest of them with its counts read by
   * `parseInt(...) || 0` and its average by `parseFloat(...) || 0`.
   */
  lemma SuccessReportsGames(playerId: string, playerName: Option<string>, outcome: FetchOutcome)
    requires GameLogResult(playerId, playerName, outcome).Success?
    ensures var stats := GameLogResult(playerId, playerName, outcome).stats;
      var games := ParsedTable(outcome.page).0;
      && stats.gamesPlayed == |games|
      && (stats.lastGame.None? <==> games == [])
      && (games != [] ==>
            var g := games[|games| - 1];
            stats.lastGame == Some(JsLastGame(g.date, g.opponent, g.result,
              JsNum.ParseIntOr0(g.rushing.carries), JsNum.ParseIntOr0(g.rushing.yards),
              JsNum.ParseIntOr0(g.rushing.td), JsNum.ParseFloatOr0(g.rushing.avg))))
  {
  }

  /** A totals row of five or more cells decides the totals whatever games were found. */
  lemma TotalsRowDecides(row: Row, games1: seq<GameRecord>, games2: seq<GameRecord>)
    requires |row| >= 5
    ensures Reconcile(Some(row), games1) == Reconcile(Some(row), games2)
    ensures Reconcile(Some(row), games1).carries == CountField(row[1])
  {
  }

  /** A count written with a thousands comma, such as "1,025", reads as its digits once the comma is removed. */
  lemma CountFieldWithComma(high: string, low: string)
    requires PyNum.IsDigitString(high) && PyNum.IsDigitString(low)
    ensures CountField(high + "," + low) == DigitsValue(high + low)
  {
    assert ReplaceAll(high + "," + low, ",", "") == high + low by {
      NonDigitAbsent(high, ',');
      NonDigitAbsent(low, ',');
      RemoveChar(high, ',', low);
    }
    assert PyNum.IsDigitString(high + low) by {
      DigitsConcat(high, low);
    }
    JsNum.ParseIntDigits(high + low);
  }

  /** A plain count reads as its digits. */
  lemma CountFieldDigits(s: string)
    requires PyNum.IsDigitString(s)
    ensures CountField(s) == DigitsValue(s)
  {
    NonDigitAbsent(s, ',');
    ReplaceAbsentChar(s, ',', "");
    assert ReplaceAll(s, ",", "") == s;
    JsNum.ParseIntDigits(s);
  }

  /**
   * A totals row laid out as on the page (label, carries, yards with a
   * thousands comma, average, touchdowns) gives exactly those numbers; the
   * average is `parseFloat` of its cell, with no comma removal.
   */
  lemma TotalsRowReadsNumbers(row: Row, carries: string, yardsHigh: string, yardsLow: string,
                              avgWhole: string, avgFraction: string, touchdowns: string, games: seq<GameRecord>)
    requires PyNum.IsDigitString(carries) && PyNum.IsDigitString(yardsHigh) && PyNum.IsDigitString(yardsLow)
    requires PyNum.IsDigitString(avgWhole) && PyNum.IsDigitString(avgFraction) && PyNum.IsDigitString(touchdowns)
    requires |row| >= 5 && row[0] == TotalsLabel && row[1] == carries && row[2] == yardsHigh + "," + yardsLow
    requires row[3] == avgWhole + "." + avgFraction && row[4] == touchdowns
    ensures Reconcile(Some(row), games) == SeasonTotals(
      DigitsValue(carries), DigitsValue(yardsHigh + yardsLow), DigitsValue(touchdowns),
      PyNum.DecimalValue(avgWhole, avgFraction))
  {
    CountFieldDigits(carries);
    CountFieldWithComma(yardsHigh, yardsLow);
    CountFieldDigits(touchdowns);
    JsNum.ParseFloatDecimal(avgWhole, avgFraction);
  }

  /** The fallback average is the yards per carry rounded to the nearest tenth, ties upward. */
  lemma FallbackAverageIsNearestTenth(yards: int, carries: int)
    requires carries > 0
    ensures exists tenths: int ::
      (FallbackAverage(yards, carries) == tenths as real / 10.0
       && 2 * PyNum.Abs(10 * yards - tenths * carries) <= carries
       && 2 * (10 * yards - tenths * carries) != carries)
  {
    var t := JsNum.RoundTenths(yards, carries);
    assert FallbackAverage(yards, carries) == t as real / 10.0;
    assert 2 * PyNum.Abs(10 * yards - t * carries) <= carries;
  }

  /** A negative count in the totals row keeps its sign: "-12" yards is -12. */
  lemma NegativeTotalsYardsKept(row: Row, digits: string)
    requires |row| >= 5 && PyNum.IsDigitString(digits) && row[2] == "-" + digits
    ensures Reconcile(Some(row), []).yards == 0 - DigitsValue(digits)
  {
    var t := "-" + digits;
    assert t == [] + ['-'] + digits;
    forall k | 0 <= k < |t| ensures t[k] != ',' {
      if k > 0 { assert t[k] == digits[k - 1]; }
    }
    ReplaceAbsentChar(t, ',', "");
    assert ReplaceAll(t, ",", "") == t;
    JsNum.ParseIntNegative(digits);
  }
}
