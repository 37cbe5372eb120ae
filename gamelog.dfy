/**
 * What the Python and the JavaScript ESPN game-log scrapers share: a table row
 * as the text of its cells, the label of the season totals row, the URL of a
 * player's game-log page, and the record and totals shapes both produce.
 */
module GameLog {
  import opened Wrappers
  import opened Text

  /** One table row: the text of its cells, in order. */
  type Row = seq<string>

  /** First-cell text of the row that holds the season's regular-season totals. */
  const TotalsLabel: string := "Regular Season Stats"

  const GameLogBase: string := "https://www.espn.com/nfl/player/gamelog/_/id/"

  predicate IsTotalsRow(row: Row)
  {
    |row| > 0 && row[0] == TotalsLabel
  }

  /** The cell texts of one game, kept as text as the scrapers keep them. */
  datatype Rushing = Rushing(carries: string, yards: string, avg: string, td: string)
  datatype Receiving = Receiving(receptions: string, targets: string, yards: string, td: string)
  datatype GameRecord = GameRecord(
    date: string, opponent: string, result: string, rushing: Rushing, receiving: Receiving)

  /** Season rushing totals; `average` is yards per carry. */
  datatype SeasonTotals = SeasonTotals(carries: int, yards: int, touchdowns: int, average: real)

  const ZeroTotals: SeasonTotals := SeasonTotals(0, 0, 0, 0.0)

  /** A name argument counts only when present and non-empty (both languages' truthiness). */
  predicate Given(name: Option<string>)
  {
    name.Some? && name.value != ""
  }

  /** The URL path segment made from a display name. */
  function Slug(name: string): string
  {
    ReplaceAll(ReplaceAll(ReplaceAll(ToLower(name), " ", "-"), ".", ""), "'", "")
  }

  /** The game-log page of a player, with the name's slug when a name is given. */
  function GameLogUrl(playerId: string, playerName: Option<string>): string
  {
    if Given(playerName) then GameLogBase + playerId + "/" + Slug(playerName.value)
    else GameLogBase + playerId
  }

  /**
   * A slug holds no space, period, apostrophe or upper-case letter, and is never
   * longer than the name; it is exactly as long when the name has no period or
   * apostrophe.
   */
  lemma SlugShape(name: string)
    ensures ' ' !in Slug(name) && '.' !in Slug(name) && '\'' !in Slug(name)
    ensures forall c :: c in Slug(name) ==> !IsUpper(c)
    ensures |Slug(name)| <= |name|
    ensures '.' !in name && '\'' !in name ==> |Slug(name)| == |name|
  {
    var lower := ToLower(name);
    var dashed := ReplaceAll(lower, " ", "-");
    var undotted := ReplaceAll(dashed, ".", "");
    assert " " == [' '] && "." == ['.'] && "'" == ['\''];
    ReplaceCharMembers(lower, ' ', "-");
    ReplaceCharMembers(dashed, '.', "");
    ReplaceCharMembers(undotted, '\'', "");
    ReplaceCharLength(lower, ' ', "-");
    ReplaceCharLength(dashed, '.', "");
    ReplaceCharLength(undotted, '\'', "");
    forall c | c in lower ensures !IsUpper(c) {
      var i :| 0 <= i < |lower| && lower[i] == c;
    }
    if '.' !in name && '\'' !in name {
      forall i | 0 <= i < |name| ensures lower[i] != '.' && lower[i] != '\'' {
        assert name[i] in name;
      }
      assert '.' !in lower && '\'' !in lower;
      ReplaceAbsentChar(dashed, '.', "");
      ReplaceAbsentChar(undotted, '\'', "");
    }
  }

  /** A name already in slug form (lower case, no space, period or apostrophe) is its own slug. */
  lemma SlugOfSlugForm(name: string)
    requires forall c :: c in name ==> !IsUpper(c) && c != ' ' && c != '.' && c != '\''
    ensures Slug(name) == name
  {
    assert " " == [' '] && "." == ['.'] && "'" == ['\''];
    forall i | 0 <= i < |name| ensures ToLower(name)[i] == name[i] {
      assert name[i] in name;
    }
    assert ToLower(name) == name;
    ReplaceAbsentChar(name, ' ', "-");
    ReplaceAbsentChar(name, '.', "");
    ReplaceAbsentChar(name, '\'', "");
  }

  /** The URL ends in "/" and the slug exactly when a name is given; otherwise it ends at the id. */
  lemma GameLogUrlShape(playerId: string, playerName: Option<string>)
    ensures StartsWith(GameLogUrl(playerId, playerName), GameLogBase + playerId)
    ensures Given(playerName) ==>
      GameLogUrl(playerId, playerName)[|GameLogBase + playerId|..] == "/" + Slug(playerName.value)
    ensures !Given(playerName) ==> GameLogUrl(playerId, playerName) == GameLogBase + playerId
  {
    var head := GameLogBase + playerId;
    if Given(playerName) {
      var url := head + "/" + Slug(playerName.value);
      assert url[..|head|] == head;
      assert url[|head|..] == "/" + Slug(playerName.value);
    } else {
      assert head[..|head|] == head;
    }
  }
}
