/**
 * The players API routes (backend/src/routes/players.ts): the list route
 * builds its SQL text and parameter array step by step, one optional filter
 * at a time; the detail route answers 404 when no row comes back; the stats
 * route binds the id and season and an optional week bound. Query-string
 * values are text (`None` when absent); the database is a function from the
 * statement and its parameters to the rows, `None` when the query throws.
 */
module PlayersRoute {
  import opened Wrappers
  import opened Text

  /** The query-string values the list route reads. */
  datatype ListQuery = ListQuery(
    position: Option<string>, team: Option<string>, week: Option<string>,
    season: Option<string>, gameId: Option<string>)

  /** A result row, column to value. */
  datatype DbRow = DbRow(fields: map<string, string>)

  /** Runs a statement with its parameters; `None` when it throws. */
  type Database = (string, seq<string>) -> Option<seq<DbRow>>

  datatype Body = ErrorBody(error: string) | RowsBody(rows: seq<DbRow>) | RowBody(row: DbRow)
  datatype HttpResponse = HttpResponse(status: int, body: Body)

  const DefaultSeason: string := "2025"

  /** The list statement up to its always-true WHERE; its layout whitespace is not modelled. */
  const ListSelect: string :=
    "SELECT p.id, p.name, p.position, t.abbreviation as team, ps.passing_yards, ps.passing_tds, "
    + "ps.passing_int, ps.rushing_yards, ps.rushing_tds, ps.targets, ps.receptions, "
    + "ps.receiving_yards, ps.receiving_tds, ps.fantasy_points FROM players p "
    + "LEFT JOIN teams t ON p.team_id = t.id LEFT JOIN player_stats ps ON p.id = ps.player_id WHERE 1=1"

  const ListOrder: string := " ORDER BY ps.fantasy_points DESC NULLS LAST"

  /** The stats statement up to its two bound conditions; its layout whitespace is not modelled. */
  const StatsSelect: string :=
    "SELECT ps.*, g.week, g.game_date, ht.abbreviation as home_team, at.abbreviation as away_team "
    + "FROM player_stats ps JOIN games g ON ps.game_id = g.id JOIN teams ht ON g.home_team_id = ht.id "
    + "JOIN teams at ON g.away_team_id = at.id WHERE ps.player_id = $1 AND ps.season = $2"

  const WeekBound: string := " AND ps.week <= $3"
  const StatsOrder: string := " ORDER BY ps.week DESC"

  /** A JavaScript value is truthy here when present and not the empty string. */
  predicate Truthy(v: Option<string>)
  {
    v.Some? && v.value != ""
  }

  /** The season in effect: the destructuring default applies only when the key is absent. */
  function SeasonOf(season: Option<string>): string
  {
    season.GetOr(DefaultSeason)
  }

  /** " AND <column> = $<n>". */
  function Clause(column: string, n: nat): string
  {
    " AND " + column + " = $" + NatToString(n)
  }

  /** The filters so far, followed by (column, value) when the value is truthy. */
  function With(filters: seq<(string, string)>, v: Option<string>, column: string): (r: seq<(string, string)>)
    ensures Truthy(v) ==> r == filters + [(column, v.value)]
    ensures !Truthy(v) ==> r == filters
  {
    if Truthy(v) then filters + [(column, v.value)] else filters
  }

  /** The filters in effect, as (column, value), in the fixed order position, team, week, season, game. */
  function ActiveFilters(q: ListQuery): (r: seq<(string, string)>)
    ensures |r| <= 5
    ensures forall i :: 0 <= i < |r| ==> r[i].1 != ""
  {
    var f1 := With([], q.position, "p.position");
    var f2 := With(f1, q.team, "t.abbreviation");
    var f3 := With(f2, q.week, "ps.week");
    var f4 := With(f3, Some(SeasonOf(q.season)), "ps.season");
    With(f4, q.gameId, "ps.game_id")
  }

  /** The clauses of the filters, the k-th (from 1) using placeholder $k. */
  function Clauses(filters: seq<(string, string)>): string
  {
    if filters == [] then ""
    else Clauses(filters[..|filters| - 1]) + Clause(filters[|filters| - 1].0, |filters|)
  }

  function FilterValues(filters: seq<(string, string)>): (vs: seq<string>)
    ensures |vs| == |filters| && forall i :: 0 <= i < |filters| ==> vs[i] == filters[i].1
  {
    seq(|filters|, i requires 0 <= i < |filters| => filters[i].1)
  }

  /**
   * The list route's statement builder: each truthy filter appends its clause
   * with the next placeholder number and pushes its value.
   */
  method BuildListQuery(q: ListQuery) returns (sql: string, params: seq<string>, paramCount: nat)
    ensures sql == ListSelect + Clauses(ActiveFilters(q)) + ListOrder
    ensures params == FilterValues(ActiveFilters(q))
    ensures paramCount == |params| + 1
  {
    var season := SeasonOf(q.season);
    ghost var f0: seq<(string, string)> := [];
    sql, params, paramCount := ListSelect, [], 1;
    sql, params, paramCount := AddFilter(sql, params, paramCount, f0, q.position, "p.position");
    ghost var f1 := With(f0, q.position, "p.position");
    sql, params, paramCount := AddFilter(sql, params, paramCount, f1, q.team, "t.abbreviation");
    ghost var f2 := With(f1, q.team, "t.abbreviation");
    sql, params, paramCount := AddFilter(sql, params, paramCount, f2, q.week, "ps.week");
    ghost var f3 := With(f2, q.week, "ps.week");
    sql, params, paramCount := AddFilter(sql, params, paramCount, f3, Some(season), "ps.season");
    ghost var f4 := With(f3, Some(season), "ps.season");
    sql, params, paramCount := AddFilter(sql, params, paramCount, f4, q.gameId, "ps.game_id");
    assert Built(sql, params, paramCount, ActiveFilters(q));
    sql := sql + ListOrder;
  }

  /** The builder's state after the filters `applied`: their clauses, their values, and the next placeholder number. */
  ghost predicate Built(sql: string, params: seq<string>, paramCount: nat, applied: seq<(string, string)>)
  {
    sql == ListSelect + Clauses(applied) && params == FilterValues(applied) && paramCount == |applied| + 1
  }

  /**
   * One filter's step: when the value is truthy, append its clause with the
   * current placeholder number, push the value and count on.
   */
  method AddFilter(sql: string, params: seq<string>, paramCount: nat, ghost applied: seq<(string, string)>,
                   v: Option<string>, column: string)
    returns (sql': string, params': seq<string>, paramCount': nat)
    requires Built(sql, params, paramCount, applied)
    ensures Built(sql', params', paramCount', With(applied, v, column))
  {
    sql', params', paramCount' := sql, params, paramCount;
    if v.Some? && v.value != "" {
      ClausesSnoc(applied, column, v.value);
      FilterValuesSnoc(applied, column, v.value);
      sql' := sql + Clause(column, paramCount);
      params' := params + [v.value];
      paramCount' := paramCount + 1;
      assert sql' == ListSelect + (Clauses(applied) + Clause(column, paramCount));
    }
  }

  /** One more filter's clause takes the next placeholder number. */
  lemma ClausesSnoc(applied: seq<(string, string)>, column: string, value: string)
    ensures Clauses(applied + [(column, value)]) == Clauses(applied) + Clause(column, |applied| + 1)
  {
    var s := applied + [(column, value)];
    assert s[..|s| - 1] == applied;
  }

  /** One more filter's value takes the next parameter slot. */
  lemma FilterValuesSnoc(applied: seq<(string, string)>, column: string, value: string)
    ensures FilterValues(applied + [(column, value)]) == FilterValues(applied) + [value]
  {
    var s := applied + [(column, value)];
    var vs := FilterValues(applied) + [value];
    var ws := FilterValues(s);
    assert |vs| == |ws|;
    forall i | 0 <= i < |s|
      ensures vs[i] == ws[i]
    {
      if i < |applied| {
        assert vs[i] == FilterValues(applied)[i] == applied[i].1;
      }
    }
  }

  /** `GET /`: the rows of the built statement, or 500 when the query throws. */
  method HandleList(q: ListQuery, db: Database) returns (response: HttpResponse)
    ensures var filters := ActiveFilters(q);
      var rows := db(ListSelect + Clauses(filters) + ListOrder, FilterValues(filters));
      response == if rows.Some? then HttpResponse(200, RowsBody(rows.value))
                  else HttpResponse(500, ErrorBody("Failed to fetch players"))
  {
    var sql, params, _ := BuildListQuery(q);
    var rows := db(sql, params);
    if rows.None? {
      return HttpResponse(500, ErrorBody("Failed to fetch players"));
    }
    response := HttpResponse(200, RowsBody(rows.value));
  }

  /** `GET /:id`: the first row, 404 when there is none, 500 when the query throws. */
  function DetailResponse(rows: Option<seq<DbRow>>): (r: HttpResponse)
    ensures r.status == 404 <==> rows == Some([])
    ensures r.status == 404 ==> r.body == ErrorBody("Player not found")
    ensures r.status == 200 <==> rows.Some? && rows.value != []
    ensures r.status == 200 ==> r.body == RowBody(rows.value[0])
    ensures r.status == 500 <==> rows.None?
  {
    match rows
    case None => HttpResponse(500, ErrorBody("Failed to fetch player"))
    case Some(rs) => if |rs| == 0 then HttpResponse(404, ErrorBody("Player not found")) else HttpResponse(200, RowBody(rs[0]))
  }

  /** The stats statement and its parameters: id and season always, the week bound as $3 when given. */
  method BuildStatsQuery(id: string, weeks: Option<string>, season: Option<string>) returns (sql: string, params: seq<string>)
    ensures |params| >= 2 && params[..2] == [id, SeasonOf(season)]
    ensures Truthy(weeks) ==> params == [id, SeasonOf(season), weeks.value] && sql == StatsSelect + WeekBound + StatsOrder
    ensures !Truthy(weeks) ==> params == [id, SeasonOf(season)] && sql == StatsSelect + StatsOrder
  {
    sql := StatsSelect;
    params := [id, if season.Some? then season.value else DefaultSeason];
    if weeks.Some? && weeks.value != "" {
      sql := sql + WeekBound;
      params := params + [weeks.value];
    }
    sql := sql + StatsOrder;
  }

  /** `GET /:id/stats`: the rows of the stats statement, or 500 when the query throws. */
  method HandleStats(id: string, weeks: Option<string>, season: Option<string>, db: Database)
    returns (response: HttpResponse)
    ensures var params := if Truthy(weeks) then [id, SeasonOf(season), weeks.value] else [id, SeasonOf(season)];
      var sql := if Truthy(weeks) then StatsSelect + WeekBound + StatsOrder else StatsSelect + StatsOrder;
      var rows := db(sql, params);
      response == if rows.Some? then HttpResponse(200, RowsBody(rows.value))
                  else HttpResponse(500, ErrorBody("Failed to fetch player stats"))
  {
    var sql, params := BuildStatsQuery(id, weeks, season);
    var rows := db(sql, params);
    if rows.None? {
      return HttpResponse(500, ErrorBody("Failed to fetch player stats"));
    }
    response := HttpResponse(200, RowsBody(rows.value));
  }

  // ---------------------------------------------------------------- properties

  /**
   * Placeholder $k names params[k-1]: the k-th clause is the k-th filter's
   * column followed by "$" and a number that reads back as k, and the k-th
   * parameter is that filter's value.
   */
  lemma PlaceholderNamesParam(filters: seq<(string, string)>, k: nat)
    requires 1 <= k <= |filters|
    ensures StartsWith(Clauses(filters), Clauses(filters[..k - 1]) + Clause(filters[k - 1].0, k))
    ensures DigitsValue(NatToString(k)) == k
    ensures FilterValues(filters)[k - 1] == filters[k - 1].1
  {
    NatToStringRoundTrip(k);
    ClausesPrefix(filters, k);
    assert filters[..k][..k - 1] == filters[..k - 1];
  }

  /** The clauses of a prefix of the filters are a prefix of the clauses. */
  lemma {:induction false} ClausesPrefix(filters: seq<(string, string)>, k: nat)
    requires k <= |filters|
    ensures StartsWith(Clauses(filters), Clauses(filters[..k]))
    decreases |filters| - k
  {
    if k == |filters| {
      assert filters[..k] == filters;
    } else {
      var n := |filters|;
      ClausesPrefix(filters[..n - 1], k);
      assert filters[..n - 1][..k] == filters[..k];
      var c := Clauses(filters[..n - 1]);
      var p := Clauses(filters[..k]);
      assert Clauses(filters) == c + Clause(filters[n - 1].0, n);
      assert (c + Clause(filters[n - 1].0, n))[..|p|] == c[..|p|];
    }
  }

  /** Distinct clauses use distinct placeholder numbers. */
  lemma PlaceholdersDistinct(j: nat, k: nat, c1: string, c2: string)
    requires j != k
    ensures Clause(c1, j) != Clause(c2, k)
  {
    if Clause(c1, j) == Clause(c2, k) {
      var a, b := Clause(c1, j), Clause(c2, k);
      var dj, dk := NatToString(j), NatToString(k);
      assert a[|a| - |dj|..] == dj;
      assert b[|b| - |dk|..] == dk;
      if |dj| <= |dk| {
        SuffixDigits(" AND " + c1 + " = $", dj, " AND " + c2 + " = $", dk);
      } else {
        SuffixDigits(" AND " + c2 + " = $", dk, " AND " + c1 + " = $", dj);
      }
      NatToStringInjective(j, k);
    }
  }

  /** Two strings "...$" + digits that are equal have the same digit suffix. */
  lemma SuffixDigits(p1: string, d1: string, p2: string, d2: string)
    requires |p1| > 0 && p1[|p1| - 1] == '$' && |p2| > 0 && p2[|p2| - 1] == '$'
    requires DigitsOnly(d1) && DigitsOnly(d2) && |d1| <= |d2|
    requires p1 + d1 == p2 + d2
    ensures d1 == d2
  {
    var s := p1 + d1;
    assert s[|s| - |d1|..] == d1 && s[|s| - |d2|..] == d2;
  }

  /** At most the five filters apply, and the parameters follow the filters one for one. */
  lemma FiltersBounded(q: ListQuery)
    ensures |ActiveFilters(q)| <= 5
    ensures |FilterValues(ActiveFilters(q))| == |ActiveFilters(q)|
  {
  }

  /** Without a season in the query the "2025" season filter applies; an empty season drops it. */
  lemma SeasonDefault(q: ListQuery)
    ensures q.season.None? ==> ("ps.season", DefaultSeason) in ActiveFilters(q)
    ensures q.season == Some("") ==> forall f :: f in ActiveFilters(q) ==> f.0 != "ps.season"
    ensures Truthy(q.season) ==> ("ps.season", q.season.value) in ActiveFilters(q)
  {
  }

  /** A filter applies exactly when its value is truthy; a falsy filter adds no clause or parameter. */
  lemma FilterPresence(q: ListQuery)
    ensures Truthy(q.position) <==> exists f :: f in ActiveFilters(q) && f.0 == "p.position"
    ensures Truthy(q.team) <==> exists f :: f in ActiveFilters(q) && f.0 == "t.abbreviation"
    ensures Truthy(q.week) <==> exists f :: f in ActiveFilters(q) && f.0 == "ps.week"
    ensures Truthy(q.gameId) <==> exists f :: f in ActiveFilters(q) && f.0 == "ps.game_id"
  {
    var fs := ActiveFilters(q);
    if Truthy(q.position) { assert ("p.position", q.position.value) in fs; }
    if Truthy(q.team) { assert ("t.abbreviation", q.team.value) in fs; }
    if Truthy(q.week) { assert ("ps.week", q.week.value) in fs; }
    if Truthy(q.gameId) { assert ("ps.game_id", q.gameId.value) in fs; }
  }

  /** The ordering clause always ends the list statement. */
  lemma OrderComesLast(q: ListQuery)
    ensures var sql := ListSelect + Clauses(ActiveFilters(q)) + ListOrder;
      |sql| >= |ListOrder| && sql[|sql| - |ListOrder|..] == ListOrder
  {
  }
}
