# The Combine: stats ingestion, modelled in Dafny

The Combine is an NFL research tool. Player statistics come in along several
paths:

- two ESPN game-log scrapers, one in Python and one in Node.js. Each turns the
  page's game-log table into game records, season rushing totals and the last
  game played;
- a Pro-Football-Reference scraper. It turns the season's fantasy and opponent
  tables into typed player and defense records, through a base scraper that
  fetches with retries and back-off and writes records with an upsert
  statement;
- a `GET /api/players` route. It builds its SQL and its positional parameters
  from the optional query filters;
- the research page. It filters and sorts the player table, toggles the sort
  column, and answers chat messages by keyword.

This project models that pipeline and proves what each step promises. The
modules follow the program's files:

| module | file | models |
|---|---|---|
| `GameLog` | gamelog.dfy | the row shape, the totals label, the name slug and the game-log URL shared by both ESPN scrapers |
| `PyNum`, `JsNum` | pynum.dfy, jsnum.dfy | Python `str.isdigit`/`strip`/`int`/`float`/`round(x, 1)` and JavaScript `trim`/`parseInt`/`parseFloat`/`Math.round`, on ASCII text |
| `EspnGameLogPy` | espn_py.dfy | `scrape_espn_gamelog`, `fetch_player_stats` and the command line of fetch_player_stats.py |
| `EspnGameLogJs` | espn_js.dfy | `parseGameLogTable`, `scrapeESPNGameLog` and `main` of fetch_player_stats.js |
| `EspnScraperComparison` | espn_compare.dfy | where the two scrapers give different results on the same page |
| `BaseScraping` | base_scraper.dfy | `BaseScraper`: `fetch_url`, `connect_db`, `close_db`, `save_to_db` |
| `PfrScraping` | pfr_scraper.dfy | `PFRScraper.scrape_player_stats` and `scrape_team_defense` |
| `PlayersRoute` | players_route.dfy | the three handlers of backend/src/routes/players.ts |
| `ResearchApp` | research_app.dfy | `handleSort`, `filteredPlayers` and `handleChatSubmit` of the research page |
| `Text`, `Wrappers` | text.dfy, wrappers.dfy | string helpers and `Option` |

How each part is modelled:

- **Pages arrive parsed.** A table row is the sequence of its cell texts.
  - Python page: a title and the tables, each with all its rows and its body rows.
  - JavaScript page: each table's class attribute and the raw inner markup of
    its cells, so that tag stripping and entity decoding are part of the model.
- **The network is a parameter.** It is a function from the URL (and, for the
  base scraper, the attempt number) to an outcome.
- **Time and the database are recorded, not performed.** Sleeps are appended to
  a sequence. The database is a connection value plus a log of cursor,
  execute, commit, rollback and close events. A database failure is a
  parameter of `SaveToDb`.
- **Loops are methods proved against specification functions:**
  - the totals-row search;
  - the body-row loops;
  - the JavaScript cell and row loops;
  - the PFR row loops;
  - the retry loop;
  - the query builder;
  - the filter/sort pipeline.
- **State updated in place becomes a class.** `BaseScraper` (connection,
  sleeps, requests, database log) and the research page's state (`App`) are
  classes whose methods update their fields.

Behaviours of the code worth knowing:

- The Python scraper reads a negative count in the totals row as 0, because
  `isdigit` rejects the sign.
- With the default `retry=3`, `fetch_url` sleeps 1 s and 2 s between
  attempts.
- `raise_for_status` fails only on statuses 400 to 599.
- A JavaScript page served with status 200 but without a matching table
  succeeds with zero totals and no games.
- In the JavaScript scraper, the last totals row wins.

## Model

| member | source | states |
|---|---|---|
| GameLog.SlugShape | fetch_player_stats.py:40-41 | the slug has no space, period, apostrophe or upper-case letter, is no longer than the name, and keeps the name's length when the name has no period or apostrophe |
| GameLog.SlugOfSlugForm | fetch_player_stats.py:40-41 | a name already in slug form is its own slug |
| GameLog.Slug | fetch_player_stats.py:40-41 | the slug is the lower-cased name with spaces turned into "-" and periods and apostrophes removed (its properties are in SlugShape) |
| GameLog.GameLogUrl | fetch_player_stats.py:40-45 | the game-log URL of the id, with "/" and the slug when a name is given (its shape is in GameLogUrlShape) |
| GameLog.GameLogUrlShape | fetch_player_stats.py:40-45 | the URL starts with the game-log base and the id; it ends in "/" plus the slug exactly when a name is given, and at the id otherwise |
| EspnGameLogPy.FirstTotalsRowIsEarliest | fetch_player_stats.py:78-85 | a totals row is found iff some row is labelled "Regular Season Stats", and the one found is the earliest such row |
| EspnGameLogPy.FindTotalsRow | fetch_player_stats.py:79-85 | the scan that stops at the first match returns exactly the first totals row |
| EspnGameLogPy.IsGameRow | fetch_player_stats.py:94-98 | a body row is a game when it has ten or more cells and is not the totals row |
| EspnGameLogPy.ToGame | fetch_player_stats.py:100-116 | a game takes the cells at positions 0-6, 8, 9, 10 and 12, with "" or "0" for a missing one |
| EspnGameLogPy.ExtractGames | fetch_player_stats.py:88-119 | the loop over body rows appends one game per row of ten or more cells that is not the totals row, in row order; no body gives no games |
| EspnGameLogPy.GamesAppend | fetch_player_stats.py:91-117 | the games of consecutive row blocks are the concatenation of their games, so row order is kept |
| EspnGameLogPy.GamesNeverFromTotals | fetch_player_stats.py:94-98 | no game comes from the totals row, and there are never more games than rows |
| EspnGameLogPy.GamesOfGameRows | fetch_player_stats.py:94-117 | when every body row qualifies there is one game per row, each made from the cells at the positions 0-6, 8, 9, 10 and 12 |
| EspnGameLogPy.TotalsRowDecides | fetch_player_stats.py:122-128 | a totals row of five or more cells decides the totals whatever the games hold; each count is the comma-free all-digit value or 0 |
| EspnGameLogPy.Reconcile | fetch_player_stats.py:121-136 | the totals fail (`float` raises) iff a usable totals row has an average that passes the digit test but does not parse; without a usable totals row, games give the three digit-only sums and the rounded yards per carry, and no games give all 0 |
| EspnGameLogPy.CountFieldWithComma | fetch_player_stats.py:125-128 | a count written with a thousands comma, such as "1,025", reads as the value of its digits |
| EspnGameLogPy.CountFieldDigits | fetch_player_stats.py:125-128 | a plain all-digit count reads as its value |
| EspnGameLogPy.AverageFieldDecimal | fetch_player_stats.py:127 | an average written "whole.fraction" reads as that decimal number |
| EspnGameLogPy.DecimalPassesDigitTest | fetch_player_stats.py:127 | a decimal such as "4.6" passes the digit test once its '.' and '-' are removed |
| EspnGameLogPy.TotalsRowReadsNumbers | fetch_player_stats.py:122-128 | a well-formed totals row (carries, "high,low" yards, "w.f" average, touchdowns) gives exactly those numbers |
| EspnGameLogPy.NegativeTotalsYardsBecomeZero | fetch_player_stats.py:126 | negative season yardage in the totals row fails the digit test and counts as 0 |
| EspnGameLogPy.MalformedAverageFailsScrape | fetch_player_stats.py:122-170 | an average like "4-6" passes the digit test but `float` rejects it, so the whole scrape returns None |
| EspnGameLogPy.SumsIgnoreNonDigits | fetch_player_stats.py:131-133 | each of the three fallback sums (yards, touchdowns, carries) adds a game's count when it is all digits and skips the game otherwise |
| EspnGameLogPy.FallbackAverageIsNearestTenth | fetch_player_stats.py:134 | the fallback average is the exact yards per carry rounded to the nearest tenth |
| EspnGameLogPy.NoDataGivesZero | fetch_player_stats.py:135-136 | without a usable totals row and without games, every total is 0 |
| EspnGameLogPy.DisplayName | fetch_player_stats.py:59-68 | the reported name is never empty: a given name is kept; without one, and without a title containing " Game Log", it is "Unknown"; any other name without a given one comes from a title containing " Game Log" |
| EspnGameLogPy.GameLogResult | fetch_player_stats.py:51-170 | a result exists only for a 200 reply with at least one table, and it carries the caller's id and a non-empty name |
| EspnGameLogPy.SuccessReportsGames | fetch_player_stats.py:139-167 | a successful scrape reports the caller's id and one game per qualifying body row; the last game is present iff there are games, and it is the last of them: its date, opponent and result, with yards and touchdowns read as their digit value or 0 |
| EspnGameLogPy.UnusablePageFails | fetch_player_stats.py:54-73 | a non-200 status, a transport error or a page without tables yields None, and the failure message built for it (lines 189-194) starts "Could not scrape ESPN game log page" |
| EspnGameLogPy.ScrapeGameLog | fetch_player_stats.py:25-170 | the scrape requests the game-log URL and returns the result defined for that response |
| EspnGameLogPy.FetchPlayerStats | fetch_player_stats.py:172-201 | a scrape result is returned as success; a missing one becomes the `success: false` result for the id |
| EspnGameLogPy.RunCli | fetch_player_stats.py:203-216 | exit status 1 with the usage error iff there is no argument; otherwise status 0 and the result of fetching the first argument's stats, with the second argument as the name when present; a failure carries that id |
| PyNum.ParseIntDigits | fetch_player_stats.py:125-133 | `int` of an all-digit string is its value |
| PyNum.ParseIntNegative | scrapers/pfr_scraper.py:39-46 | `int` of "-" followed by digits is the negative value |
| PyNum.ParseFloatDigits | scrapers/pfr_scraper.py:47 | `float` of an all-digit string is its value |
| PyNum.ParseFloatDecimal | fetch_player_stats.py:127 | `float` of "whole.fraction" is that decimal number |
| PyNum.ParseFloatRejectsInnerDash | fetch_player_stats.py:127 | `float` rejects digits with a '-' between them |
| PyNum.RoundTenths | fetch_player_stats.py:134 | `round(y/c, 1)` in tenths is within half a tenth of the exact quotient, with ties to the even tenth |
| EspnGameLogJs.StripTags | fetch_player_stats.js:73 | removing tags never lengthens the text |
| EspnGameLogJs.StripTagsNoAngle | fetch_player_stats.js:73 | text without '<' is unchanged by tag removal |
| EspnGameLogJs.StripTagsRemovesTag | fetch_player_stats.js:73 | a complete leading tag is removed and the text after it is treated alone |
| EspnGameLogJs.CleanPlainCell | fetch_player_stats.js:72-78 | a cell with no markup and no entity is only trimmed |
| EspnGameLogJs.CleanCell | fetch_player_stats.js:72-78 | a cleaned cell neither starts nor ends with white space |
| EspnGameLogJs.NoEntity | fetch_player_stats.js:74-77 | text without '&' is unchanged by entity decoding |
| EspnGameLogJs.CleanRow | fetch_player_stats.js:66-80 | a cleaned row has one cleaned text per cell, in order |
| EspnGameLogJs.CleanCells | fetch_player_stats.js:66-80 | the inner cell loop produces exactly the cleaned row |
| EspnGameLogJs.FindTable | fetch_player_stats.js:51-54 | a table is found iff some table's class mentions "Table", and then the first such table |
| EspnGameLogJs.ScanStep | fetch_player_stats.js:62-115 | one more row either replaces the totals row or may add one game |
| EspnGameLogJs.ParseGameLogTable | fetch_player_stats.js:45-118 | the row loop returns exactly the games and the totals row defined for the page, with none of either when no table matches |
| EspnGameLogJs.LastTotalsRowIsLatest | fetch_player_stats.js:83-86 | a totals row is kept iff some row is labelled "Regular Season Stats", and the one kept is the last such row |
| EspnGameLogJs.GamesAreGameRows | fetch_player_stats.js:83-90 | no game has an empty first cell, the totals label or "Date" in it, and there are never more games than rows |
| EspnGameLogJs.IsJsGameRow | fetch_player_stats.js:90 | a row is a game when it has ten or more cells, a non-empty first cell, and neither "Date" nor "Regular Season" in that cell |
| EspnGameLogJs.RowGamesAppend | fetch_player_stats.js:62-115 | the games of consecutive row blocks are the concatenation of their games |
| EspnGameLogJs.TotalsRowDecides | fetch_player_stats.js:153-158 | a totals row of five or more cells decides the totals whatever the games hold, carries being the parsed cell 1 |
| EspnGameLogJs.CountField | fetch_player_stats.js:155-158 | a totals count is `parseInt` of the cell with commas removed, an empty cell reading "0" (its values are in CountFieldDigits and CountFieldWithComma) |
| EspnGameLogJs.CountFieldWithComma | fetch_player_stats.js:155-158 | a count written with a thousands comma, such as "1,025", reads as the value of its digits once the comma is removed |
| EspnGameLogJs.CountFieldDigits | fetch_player_stats.js:155-158 | a plain all-digit count reads as its value |
| EspnGameLogJs.TotalsRowReadsNumbers | fetch_player_stats.js:153-158 | a well-formed totals row (carries, "high,low" yards, "w.f" average, touchdowns) gives exactly those numbers, the average being `parseFloat` of cell 3 |
| EspnGameLogJs.Reconcile | fetch_player_stats.js:150-174 | a usable totals row gives the counts read from cells 1, 2 and 4 and `parseFloat` of cell 3 as the average; otherwise games give the three sums and the rounded yards per carry, 0 when there are no carries; with neither, every total is 0 |
| EspnGameLogJs.NegativeTotalsYardsKept | fetch_player_stats.js:156 | a negative count in the totals row keeps its sign |
| EspnGameLogJs.FallbackAverageIsNearestTenth | fetch_player_stats.js:173 | the fallback average is the yards per carry rounded to the nearest tenth, ties upward |
| EspnGameLogJs.NamePart | fetch_player_stats.js:143 | the name taken from the title is its longest prefix free of '-' and '\|' |
| EspnGameLogJs.DisplayName | fetch_player_stats.js:137-148 | the reported name is never empty: a given name is kept; without one and without a title it is "Unknown"; any other name without a given one comes from a title and holds no '-' or '\|' |
| EspnGameLogJs.NonOkStatusFails | fetch_player_stats.js:29-31 | a status other than 200 fails with "HTTP status: message" before any parsing |
| EspnGameLogJs.SuccessReportsGames | fetch_player_stats.js:176-204 | a successful scrape reports one game per game row; the last game is absent iff there are none, and otherwise is the latest game's date, opponent and result with `parseInt(...) \|\| 0` of carries, yards and touchdowns and `parseFloat(...) \|\| 0` of the average |
| EspnGameLogJs.NoTableSucceedsWithZeros | fetch_player_stats.js:51-54 | a 200 page without a matching table succeeds with zero totals and no games |
| EspnGameLogJs.GameLogResult | fetch_player_stats.js:133-214 | success iff the reply has status 200; a success carries the caller's id and a non-empty name, and a failure the caller's id |
| EspnGameLogJs.ScrapeGameLog | fetch_player_stats.js:123-215 | the scrape requests the game-log URL and returns the result defined for that response |
| EspnGameLogJs.RunCli | fetch_player_stats.js:220-236 | exit status 1 with the usage error iff there is no argument; otherwise the scrape of the id, with an empty name argument counted as none |
| JsNum.ParseIntDigits | fetch_player_stats.js:155-172 | `parseInt` of an all-digit string is its value |
| JsNum.ParseIntNegative | fetch_player_stats.js:155-158 | `parseInt` of "-" followed by digits is the negative value |
| JsNum.ParseIntStopsAtComma | fetch_player_stats.js:197-199 | `parseInt` without comma removal reads only the digits before a comma |
| JsNum.ParseIntNoDigits | fetch_player_stats.js:155-172 | text starting with a non-digit parses to `NaN`, which becomes 0 |
| JsNum.ParseFloatDecimal | fetch_player_stats.js:157 | `parseFloat` of "whole.fraction" is that decimal number |
| JsNum.RoundTenths | fetch_player_stats.js:173 | `Math.round(y/c*10)` is within half a tenth of the exact quotient and never rounds a tie down |
| EspnScraperComparison.DateHeaderCountedOnlyByPython | fetch_player_stats.js:90 | a "Date" header row of ten cells is a game for the Python scraper and not for the JavaScript one |
| EspnScraperComparison.TotalsRowChoice | fetch_player_stats.js:83-86 | with two totals rows, the Python scraper keeps the first and the JavaScript one the last |
| EspnScraperComparison.EmptyCellDefaults | fetch_player_stats.js:93-106 | an empty cell stays empty in a Python game and reads "0" in a JavaScript one |
| EspnScraperComparison.NegativeTotalsYards | fetch_player_stats.js:156 | negative totals yardage is 0 for Python and kept for JavaScript |
| EspnScraperComparison.TablelessPage | fetch_player_stats.js:51-54 | a tableless 200 page is a failure for Python and a zero success for JavaScript |
| BaseScraping.Backoffs | scrapers/base_scraper.py:44 | the back-off after failed attempt i is 2^i seconds |
| BaseScraping.IsErrorStatus | scrapers/base_scraper.py:37 | `raise_for_status` raises for statuses 400 to 599 (the cases are in ErrorStatuses) |
| BaseScraping.FetchFrom | scrapers/base_scraper.py:32-45 | the retry loop from a given attempt on, as a run of outcome, sleeps and request count (its shape is in RunShape) |
| BaseScraping.RunShape | scrapers/base_scraper.py:34-45 | a run with attempts left never ends in None and makes at most the remaining attempts; a response comes from a successful attempt with one sleep per attempt; a raised failure comes only after every remaining attempt, with one sleep fewer |
| BaseScraping.BaseScraper.constructor | scrapers/base_scraper.py:14-19 | a new scraper has no connection and has sent nothing |
| BaseScraping.BaseScraper.ConnectDb | scrapers/base_scraper.py:21-25 | an open connection is reused; a missing or closed one is replaced by a fresh open one |
| BaseScraping.BaseScraper.CloseDb | scrapers/base_scraper.py:27-30 | the connection, if any, is closed; without one nothing changes |
| BaseScraping.BaseScraper.FetchUrl | scrapers/base_scraper.py:32-45 | the retry loop returns the outcome of the retry run, records its sleeps, and sends one request per attempt |
| BaseScraping.ResumeStep | scrapers/base_scraper.py:40-44 | a failed attempt that is not the last adds its back-off and moves on to the next attempt |
| BaseScraping.NoAttemptsWithoutRetry | scrapers/base_scraper.py:34-45 | with `retry` of 0 or less, no request is sent and the result is None |
| BaseScraping.AttemptsBounded | scrapers/base_scraper.py:34 | at most `retry` attempts are made, and None comes only when there were none |
| BaseScraping.AllAttemptsFail | scrapers/base_scraper.py:40-44 | when every attempt fails, the last failure is re-raised after sleeping 1, 2, 4, ... between attempts |
| BaseScraping.ThreeFailures | scrapers/base_scraper.py:32-44 | with the default three attempts all failing, the third failure is raised after sleeps of 1 and 2 seconds |
| BaseScraping.SucceedsAt | scrapers/base_scraper.py:36-39 | the first successful attempt k returns its response after the back-offs of the k failures and a 1 s pause |
| BaseScraping.ErrorStatuses | scrapers/base_scraper.py:37 | 404 and 503 raise; statuses outside 400-599 pass |
| BaseScraping.PlaceholderCount | scrapers/base_scraper.py:62 | the placeholder list holds exactly one "%s" per column |
| BaseScraping.Assignments | scrapers/base_scraper.py:69 | one "col = EXCLUDED.col" per update column, in order |
| BaseScraping.UpdateColumnsMembers | scrapers/base_scraper.py:68 | a column is updated iff it is a record column and not a conflict column |
| BaseScraping.UpdateColumnsAppend | scrapers/base_scraper.py:68 | the update columns keep the record's column order |
| BaseScraping.UpdateColumnsAllKeys | scrapers/base_scraper.py:68 | when every column is a conflict column nothing is updated |
| BaseScraping.InsertSql | scrapers/base_scraper.py:62-65 | the INSERT statement of the table and columns with one placeholder per column (counted in PlaceholderCount) |
| BaseScraping.ConflictClause | scrapers/base_scraper.py:67-70 | the ON CONFLICT clause of the keys, updating the non-key columns (UpdateColumnsMembers) |
| BaseScraping.UpsertSql | scrapers/base_scraper.py:65-70 | the statement always starts with the plain INSERT, and equals it iff there are no conflict keys |
| BaseScraping.UpsertShape | scrapers/base_scraper.py:65-70 | without conflict columns the statement is the plain INSERT; with them it extends the INSERT |
| BaseScraping.AllKeysLeaveEmptySet | scrapers/base_scraper.py:67-70 | when every column is a conflict column the statement ends in an empty "DO UPDATE SET " |
| BaseScraping.AllValues | scrapers/base_scraper.py:60 | one value tuple per record, in the record's column order |
| BaseScraping.SaveEventsShape | scrapers/base_scraper.py:72-81 | a save opens a cursor and closes it last, and commits iff the batch succeeds, rolling back otherwise |
| BaseScraping.BaseScraper.SaveToDb | scrapers/base_scraper.py:51-81 | empty data changes nothing, not even the connection; otherwise an open connection is reused or a fresh one opened, the events are logged, and the save either completes (recording the row count the source prints) or re-raises the database error |
| PfrScraping.ExtractPlayerRecords | scrapers/pfr_scraper.py:23-56 | the row loop returns exactly the records of the accepted rows, in order |
| PfrScraping.ExtractDefenseRecords | scrapers/pfr_scraper.py:71-90 | the defense row loop returns exactly the records of the accepted rows, in order |
| PfrScraping.TableById | scrapers/pfr_scraper.py:18-21 | a table is found iff one has the id, and the one found has it |
| PfrScraping.PlayerStatsUrl | scrapers/pfr_scraper.py:11 | the fantasy page of the season (distinct per season, in SeasonUrlsDistinct) |
| PfrScraping.DefenseUrl | scrapers/pfr_scraper.py:60 | the opponent page of the season (distinct per season, in SeasonUrlsDistinct) |
| PfrScraping.PlayerRecordOf | scrapers/pfr_scraper.py:34-54 | a row gives a record iff it has at least 17 cells and every numeric cell it reads parses; the record keeps the name, team and position cells, each numeric field is the parsed value of its own cell (passing yards, touchdowns and interceptions from cells 5, 6, 7; rushing yards and touchdowns from 9, 10; receptions, receiving yards and touchdowns from 12, 13, 14; fantasy points from 16), and it is stamped with the season and week |
| PfrScraping.PlayerRowReadsNumbers | scrapers/pfr_scraper.py:34-51 | a row of at least 17 cells whose counted cells are digit strings and whose fantasy-points cell is "w.f" gives exactly the record of those numbers |
| PfrScraping.DefenseRecordOf | scrapers/pfr_scraper.py:79-88 | a row gives a record iff it has at least 5 cells and cells 3 and 4 parse as floats; the record keeps the team cell and the season, with points allowed read from cell 3 and yards allowed from cell 4 |
| PfrScraping.DefenseRowReadsNumbers | scrapers/pfr_scraper.py:79-85 | a row of at least 5 cells whose cells 3 and 4 are "w.f" gives exactly the record of those two decimals |
| PfrScraping.PlayerStatsOutcome | scrapers/pfr_scraper.py:14-56 | the scrape raises exactly when the fetch raised, with the same failure; no response fails on `None`; records come only from a response, each stamped with the season and week |
| PfrScraping.DefenseOutcome | scrapers/pfr_scraper.py:63-90 | the same for the defense scrape, each record stamped with the season |
| PfrScraping.PfrScraper.ScrapePlayerStats | scrapers/pfr_scraper.py:9-56 | fetch the season's fantasy page with the default retries, then return the outcome defined for the response, recording the sleeps and requests |
| PfrScraping.PfrScraper.ScrapeTeamDefense | scrapers/pfr_scraper.py:58-90 | the same for the opponent page and the team_stats table |
| PfrScraping.SeasonUrlsDistinct | scrapers/pfr_scraper.py:11 | different seasons give different URLs |
| PfrScraping.MissingTableGivesNothing | scrapers/pfr_scraper.py:18-21 | a page without the fantasy table gives an empty list |
| PfrScraping.RejectedRowIsDropped | scrapers/pfr_scraper.py:27-54 | a header row, a cell-less row or a row that fails to parse contributes nothing and does not stop the loop |
| PfrScraping.RecordsStamped | scrapers/pfr_scraper.py:48-49 | every record carries the given season (and week), and there are never more records than rows |
| PfrScraping.AllRowsAccepted | scrapers/pfr_scraper.py:26-51 | when every row is accepted there is one record per row, in row order |
| PfrScraping.PlayerRecordsAppend | scrapers/pfr_scraper.py:26-54 | records of consecutive row blocks are the concatenation of their records |
| PfrScraping.DefenseRecordsAppend | scrapers/pfr_scraper.py:74-88 | the same for defense records |
| PfrScraping.EmptyNumbersAreZero | scrapers/pfr_scraper.py:39-47 | empty numeric cells become 0 |
| PfrScraping.ShortRowDropped | scrapers/pfr_scraper.py:35-54 | a row of fewer than 17 cells is dropped |
| PfrScraping.CommaCountDropsRow | scrapers/pfr_scraper.py:39-54 | a yardage written with a thousands comma makes `int` fail and drops the row |
| PfrScraping.DefaultRetryAlwaysAnswers | scrapers/pfr_scraper.py:14 | with the default retries, the fetch never returns None |
| PlayersRoute.With | backend/src/routes/players.ts:27-55 | a filter is appended iff its value is truthy |
| PlayersRoute.SeasonOf | backend/src/routes/players.ts:9 | the season of the query, "2025" only when it is absent (its effect is in SeasonDefault) |
| PlayersRoute.ActiveFilters | backend/src/routes/players.ts:27-55 | at most five filters, none with an empty value |
| PlayersRoute.Clauses | backend/src/routes/players.ts:28-52 | the clauses of the filters in order, the k-th using placeholder $k (in ClausesSnoc and PlaceholderNamesParam) |
| PlayersRoute.AddFilter | backend/src/routes/players.ts:27-55 | one optional filter step keeps sql, params and paramCount in step with the filters applied so far |
| PlayersRoute.BuildListQuery | backend/src/routes/players.ts:9-57 | the built SQL is the select, one clause per active filter in order, then the ORDER BY; params are the filters' values; paramCount is one more than their number |
| PlayersRoute.ClausesSnoc | backend/src/routes/players.ts:28-30 | appending a filter appends its clause with the next placeholder number |
| PlayersRoute.FilterValuesSnoc | backend/src/routes/players.ts:29 | appending a filter appends its value to the parameters |
| PlayersRoute.PlaceholderNamesParam | backend/src/routes/players.ts:28-54 | the k-th clause uses placeholder $k, and params[k-1] is that filter's value |
| PlayersRoute.PlaceholdersDistinct | backend/src/routes/players.ts:28-54 | clauses with different numbers have different placeholders |
| PlayersRoute.FiltersBounded | backend/src/routes/players.ts:27-55 | at most five filters, and one parameter per filter |
| PlayersRoute.SeasonDefault | backend/src/routes/players.ts:9-49 | a missing season filters on "2025"; an empty one adds no season clause; any other filters on itself |
| PlayersRoute.FilterPresence | backend/src/routes/players.ts:27-55 | each of position, team, week and game_id has a clause iff its value is truthy |
| PlayersRoute.OrderComesLast | backend/src/routes/players.ts:57 | the SQL always ends with the ORDER BY clause |
| PlayersRoute.HandleList | backend/src/routes/players.ts:7-65 | the response is the rows of the built query, or 500 when the query fails |
| PlayersRoute.DetailResponse | backend/src/routes/players.ts:68-88 | 404 "Player not found" iff no rows, 200 with the first row iff some, 500 iff the query fails |
| PlayersRoute.HandleStats | backend/src/routes/players.ts:91-123 | the response is the rows of the stats statement built from id, season and weeks, or 500 "Failed to fetch player stats" when the query fails |
| PlayersRoute.BuildStatsQuery | backend/src/routes/players.ts:91-116 | the parameters always start with id and season; `weeks` adds "$3" and a third parameter only when given |
| ResearchApp.NextSort | frontend/src/App.tsx:438-443 | the key becomes the clicked key; the direction is ascending iff the same key was sorted descending |
| ResearchApp.SortToggles | frontend/src/App.tsx:438-443 | clicking the same key flips the direction; a new key starts descending; three clicks equal one |
| ResearchApp.App.constructor | frontend/src/App.tsx:421-436 | no game, "ALL" position and team, empty search, week 11, sorted by fantasy points descending, the greeting in the chat |
| ResearchApp.App.HandleSort | frontend/src/App.tsx:438-443 | the sort configuration becomes the toggle of the previous one |
| ResearchApp.Select | frontend/src/App.tsx:471-486 | a filter keeps exactly the elements that pass and never adds one |
| ResearchApp.SelectThen | frontend/src/App.tsx:468-487 | two successive filters equal one filter on both conditions |
| ResearchApp.SelectAppend | frontend/src/App.tsx:468-487 | filtering keeps the order of the list |
| ResearchApp.FindGame | frontend/src/App.tsx:469 | the game found is the first with the id, and none is found iff no game has it |
| ResearchApp.Rows | frontend/src/App.tsx:446-466 | one row per player, carrying the stats of the selected period |
| ResearchApp.CurrentStats | frontend/src/App.tsx:447 | a player's stats for the selected period, empty when the period is missing |
| ResearchApp.Visible | frontend/src/App.tsx:446-487 | the filtered rows: never more than the players, and each passes every filter |
| ResearchApp.VisibleFromSource | frontend/src/App.tsx:446-487 | the visible rows are exactly the source players' rows that pass every filter, never more than the players |
| ResearchApp.SelectedGameFilters | frontend/src/App.tsx:468-473 | with a selected game that exists, a player stays iff their team is its home or away team |
| ResearchApp.UnknownGameFiltersNothing | frontend/src/App.tsx:468-473 | no selected game, or an unknown one, filters nothing |
| ResearchApp.SearchIgnoresCase | frontend/src/App.tsx:483-487 | the search gives the same answer for a query in any letter case |
| ResearchApp.Compare | frontend/src/App.tsx:489-497 | the comparator always answers 1 or -1, never 0 |
| ResearchApp.CompareAsymmetric | frontend/src/App.tsx:493-496 | if a sorts after b then b sorts before a |
| ResearchApp.SortValue | frontend/src/App.tsx:490-491 | the name for the "name" key; otherwise the stat when present and non-zero, else the player's own property of that key, as `\|\|` falls through on 0 |
| ResearchApp.SortRows | frontend/src/App.tsx:489-497 | sorting returns a permutation of the list |
| ResearchApp.SortRowsSorted | frontend/src/App.tsx:489-497 | the sorted list is ordered by the comparator and is a permutation |
| ResearchApp.SortedByNumbers | frontend/src/App.tsx:490-496 | when every sort value is a number, the list is in descending (or ascending) numeric order |
| ResearchApp.App.FilteredPlayers | frontend/src/App.tsx:445-500 | the result is the sorted visible rows: a permutation of them, ordered by the current sort |
| ResearchApp.Topic | frontend/src/App.tsx:512-587 | each topic is chosen iff its keywords appear and no earlier branch's do: kelce with prop, kelce, streak or hot, prop, matchup or wr, home or away or split, season or total, and the fallback iff none of these words appears |
| ResearchApp.TopicIgnoresCase | frontend/src/App.tsx:512-587 | the topic does not depend on letter case |
| ResearchApp.BlankIsAllSpace | frontend/src/App.tsx:503 | input is ignored iff it is nothing but white space |
| ResearchApp.App.HandleChatSubmit | frontend/src/App.tsx:502-507 | blank input changes nothing; otherwise the message is logged, the input cleared, and the message returned for the reply |
| ResearchApp.App.DeliverReply | frontend/src/App.tsx:509-590 | the reply of the message's topic is appended to the chat |

## Left out

- HTML parsing (BeautifulSoup, and the regular expressions of fetch_player_stats.js) is not modelled. Pages arrive as tables of cell texts, or, for the JavaScript scraper, as class attributes and raw cell markup. Nested tables and regex edge cases are therefore not modelled.
- The network and `requests`/`https` are not modelled. A fetch is a function from the URL (and attempt) to an outcome; headers, timeouts and redirects are left out.
- Sleeping is recorded as a sequence of seconds and never waited.
- BaseScraping.BaseScraper.SaveToDb: the source returns `None` after a successful save and only prints the row count (line 75); the model returns `Saved(n)` to record that count.
- psycopg2 and `execute_batch` are not modelled. A database failure is a parameter of `SaveToDb`, and only the SQL text and the commit or rollback decision are modelled. A failure to connect is left out.
- Whitespace inside the SQL text of players.ts is not modelled. The select text is kept as a constant, and only the clause and placeholder text is exact.
- Binary floating point is not modelled. Averages, `fantasy_points` and the defense figures are exact rationals (`real`), and rounding is applied to the exact quotient.
- `float`/`parseFloat` syntax beyond digits, one '.' and a sign is not accepted: no exponents, `inf` or `nan`. Python's digit-group underscores are accepted by the model's `int` only.
- EspnGameLogPy.PlayerStats and EspnGameLogJs.JsPlayerStats: the success result's `source` field, always the constant "espn_gamelog", is not modelled, since no input changes it.
- PfrScraping.FloatCell: a cell such as "1_0" is rejected by the model's `float`, where Python reads 10.0, so a PFR row with an underscored `fantasy_points`, `points_allowed` or `yards_allowed` cell is dropped by the model and kept by the source.
- PlayersRoute: a query value that arrives as an array (a repeated query key) is not modelled; every query value is one optional string.
- Unicode digits, case mapping and white space beyond ASCII are not modelled.
- `print` and `console.log` output is not modelled, except for the command line's JSON result, which is the returned value.
- `PFRScraper.run` and the argparse entry point are left out. They only call the two scrapes, print, and close the connection; the calls and `CloseDb` are modelled.
- `parse_html` is a parameter (`Parser`) of the PFR scrapes.
- In fetch_player_stats.py, the outer `except` of `fetch_player_stats` is left out: `scrape_espn_gamelog` already catches everything in the model.
- ResearchApp.SortRows: the JavaScript engine's sort algorithm is left out, and the rows are sorted by insertion with the page's comparator. SortRowsSorted proves, for every input, that neighbouring rows are in comparator order and that the result is a permutation; SortedByNumbers adds that the order is numeric when every sort value is a number.
- ResearchApp.Less: a comparison between a number and a string is false, as `<` and `>` on such mixed values usually are. JavaScript's string-to-number coercion is not modelled.
- The "last4" time period's averaged statistics, the Sparkline scaling, the prop filter and the mock data tables of App.tsx are left out. A period missing from a player's stats reads as empty stats, where the page would throw.
- ResearchApp.Topic: the canned reply texts and the lookup of Kelce in the mock players are left out. A reply is its topic.
- React rendering and the remaining state setters are left out. `setTimeout` is modelled as the separate `DeliverReply` step.
- server.js, backend/src/routes/chat.ts and backend/src/routes/teams.ts are not part of this model. They hold network and language-model plumbing or a thin database wrapper.
