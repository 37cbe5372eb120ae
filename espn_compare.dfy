/**
 * Where the two game-log scrapers, meant to produce the same result, part
 * ways on the same page. Each lemma states both behaviours side by side.
 */
module EspnScraperComparison {
  import opened Wrappers
  import opened Text
  import opened GameLog
  import PyNum
  import Py = EspnGameLogPy
  import Js = EspnGameLogJs

  /** A header row with "Date" in its first cell is a game for the Python scraper only. */
  lemma DateHeaderCountedOnlyByPython(row: Row)
    requires |row| >= 10 && row[0] == "Date"
    ensures Py.IsGameRow(row)
    ensures !Js.IsJsGameRow(row)
  {
    assert StartsWith(row[0], "Date");
  }

  /** With two totals rows the Python scraper keeps the first, the JavaScript one the last. */
  lemma TotalsRowChoice(first: Row, second: Row)
    requires IsTotalsRow(first) && IsTotalsRow(second)
    ensures Py.FirstTotalsRow([first, second]) == Some(first)
    ensures Js.LastTotalsRow([first, second]) == Some(second)
  {
  }

  /** An empty cell stays empty in a Python game record but reads "0" in a JavaScript one. */
  lemma EmptyCellDefaults(row: Row)
    requires |row| >= 13 && row[4] == "" && row[12] == ""
    ensures Py.ToGame(row).rushing.yards == "" && Py.ToGame(row).receiving.td == ""
    ensures Js.ToGame(row).rushing.yards == "0" && Js.ToGame(row).receiving.td == "0"
  {
  }

  /** Negative season yardage in the totals row is 0 for Python and kept for JavaScript. */
  lemma NegativeTotalsYards(row: Row, digits: string)
    requires |row| >= 5 && PyNum.IsDigitString(digits) && row[2] == "-" + digits
    requires Py.AverageField(row[3]).Some?
    ensures Py.Reconcile(Some(row), []).value.yards == 0
    ensures Js.Reconcile(Some(row), []).yards == 0 - DigitsValue(digits)
  {
    Py.NegativeTotalsYardsBecomeZero(row, digits);
    Js.NegativeTotalsYardsKept(row, digits);
  }

  /** A page served with status 200 but without any table: a failure for Python, a zero success for JavaScript. */
  lemma TablelessPage(playerId: string, playerName: Option<string>, title: Option<string>, message: string)
    ensures Py.GameLogResult(playerId, playerName, Py.Reply(200, Py.Page(title, []))) == None
    ensures Js.GameLogResult(playerId, playerName, Js.Reply(200, message, Js.JsPage(title, []))).Success?
    ensures Js.GameLogResult(playerId, playerName, Js.Reply(200, message, Js.JsPage(title, []))).stats.seasonStats
      == ZeroTotals
  {
    Js.NoTableSucceedsWithZeros(playerId, playerName, message, Js.JsPage(title, []));
  }
}
