/**
 * The research front end (frontend/src/App.tsx): the sort toggle on the
 * stats table, the `filteredPlayers` pipeline (stats of the chosen time
 * period, then the game, position, team and search filters, then a sort by
 * the chosen column), and the chat box's empty-input guard and keyword
 * dispatch. React state hooks are the fields of `App`; the deferred chat reply
 * is a separate step.
 */
module ResearchApp {
  import opened Wrappers
  import opened Text
  import JsNum

  // ---------------------------------------------------------------- data

  datatype Direction = Asc | Desc

  /** The table's sort column and direction. */
  datatype SortConfig = SortConfig(key: string, direction: Direction)

  /** A scheduled game: only its id and its two teams matter to the filters. */
  datatype Game = Game(id: int, homeTeam: string, awayTeam: string)

  /** A JavaScript value as the sort reads it: a number, a string, or undefined. */
  datatype Value = Num(n: real) | Str(s: string) | Undefined

  /**
   * A player: identity, position, team, the stats of each time period
   * (period to column to number) and its other own properties.
   */
  datatype Player = Player(
    id: int, name: string, position: string, team: string,
    stats: map<string, map<string, real>>, attrs: map<string, Value>)

  /** A table row: the player together with the stats of the selected period. */
  datatype Row = Row(player: Player, currentStats: map<string, real>)

  /** The state the pipeline depends on, as one value. */
  datatype FilterState = FilterState(
    game: Option<int>, position: string, team: string, search: string, period: string, sort: SortConfig)

  datatype ChatTopic = KelceProp | KelceOutlook | Streaks | PropHelp | Matchups | Splits | SeasonLeaders | Fallback

  /** The chat log: the opening greeting, what the user typed, and replies by topic. */
  datatype ChatEntry = Greeting | UserMessage(text: string) | AssistantReply(topic: ChatTopic)

  const All: string := "ALL"
  const DefaultSort: SortConfig := SortConfig("fpts", Desc)
  const DefaultPeriod: string := "week11"

  // ---------------------------------------------------------------- sort toggle

  /** Clicking column `key`: ascending only when it was already the key and descending. */
  function NextSort(prev: SortConfig, key: string): (r: SortConfig)
    ensures r.key == key
    ensures r.direction == Asc <==> prev.key == key && prev.direction == Desc
  {
    SortConfig(key, if prev.key == key && prev.direction == Desc then Asc else Desc)
  }

  /** Clicking the same column again always flips the direction; a new column starts descending. */
  lemma SortToggles(prev: SortConfig, key: string)
    ensures NextSort(NextSort(prev, key), key).direction != NextSort(prev, key).direction
    ensures prev.key != key ==> NextSort(prev, key).direction == Desc
    ensures NextSort(NextSort(NextSort(prev, key), key), key) == NextSort(prev, key)
  {
  }

  // ---------------------------------------------------------------- filters

  /** `Array.prototype.filter`: the elements satisfying `keep`, in order. */
  function Select<T(!new)>(s: seq<T>, keep: T -> bool): (r: seq<T>)
    ensures |r| <= |s|
    ensures forall x :: x in r <==> x in s && keep(x)
  {
    if s == [] then [] else (if keep(s[0]) then [s[0]] else []) + Select(s[1..], keep)
  }

  /** Filtering with pointwise-equal predicates gives the same list. */
  lemma {:induction false} SelectSame<T(!new)>(s: seq<T>, f: T -> bool, g: T -> bool)
    requires forall x :: f(x) == g(x)
    ensures Select(s, f) == Select(s, g)
  {
    if s != [] {
      SelectSame(s[1..], f, g);
    }
  }

  /** Two filters in a row are one filter by the conjunction. */
  lemma {:induction false} SelectThen<T(!new)>(s: seq<T>, f: T -> bool, g: T -> bool, h: T -> bool)
    requires forall x :: h(x) == (f(x) && g(x))
    ensures Select(Select(s, f), g) == Select(s, h)
  {
    if s != [] {
      SelectThen(s[1..], f, g, h);
      var head := if f(s[0]) then [s[0]] else [];
      assert Select(s, f) == head + Select(s[1..], f);
      SelectAppend(head, Select(s[1..], f), g);
    }
  }

  lemma {:induction false} SelectAppend<T(!new)>(a: seq<T>, b: seq<T>, keep: T -> bool)
    ensures Select(a + b, keep) == Select(a, keep) + Select(b, keep)
  {
    if a != [] {
      SelectAppend(a[1..], b, keep);
      assert (a + b)[1..] == a[1..] + b;
    } else {
      assert a + b == b;
    }
  }

  /** The first game with the given id (`Array.prototype.find`). */
  function FindGame(games: seq<Game>, id: int): (r: Option<Game>)
    ensures r.None? <==> forall g :: g in games ==> g.id != id
    ensures r.Some? ==> r.value in games && r.value.id == id
    ensures r.Some? ==> exists k :: 0 <= k < |games| && games[k] == r.value && forall j :: 0 <= j < k ==> games[j].id != id
  {
    if games == [] then None
    else if games[0].id == id then Some(games[0])
    else
      var r := FindGame(games[1..], id);
      if r.Some? then
        var k :| 0 <= k < |games[1..]| && games[1..][k] == r.value && forall j :: 0 <= j < k ==> games[1..][j].id != id;
        assert games[k + 1] == r.value;
        r
      else r
  }

  /** The player plays in the game. */
  predicate InGame(r: Row, game: Game)
  {
    r.player.team == game.homeTeam || r.player.team == game.awayTeam
  }

  /** The stats of one period; a period the player lacks reads as no stats. */
  function CurrentStats(p: Player, period: string): map<string, real>
  {
    if period in p.stats then p.stats[period] else map[]
  }

  /** Every player as a row of the selected period, in order. */
  function Rows(players: seq<Player>, period: string): (rows: seq<Row>)
    ensures |rows| == |players|
    ensures forall i :: 0 <= i < |players| ==> rows[i] == Row(players[i], CurrentStats(players[i], period))
  {
    seq(|players|, i requires 0 <= i < |players| => Row(players[i], CurrentStats(players[i], period)))
  }

  /** The game filter: only a truthy id (not absent, not 0) naming an existing game filters. */
  predicate GameOk(f: FilterState, games: seq<Game>, r: Row)
  {
    var g := if f.game.Some? && f.game.value != 0 then FindGame(games, f.game.value) else None;
    g.None? || InGame(r, g.value)
  }

  predicate PositionOk(f: FilterState, r: Row)
  {
    f.position == All || r.player.position == f.position
  }

  predicate TeamOk(f: FilterState, r: Row)
  {
    f.team == All || r.player.team == f.team
  }

  /** The search filter: case-insensitive substring match on the name, off when the query is empty. */
  predicate SearchOk(f: FilterState, r: Row)
  {
    f.search == "" || Contains(ToLower(r.player.name), ToLower(f.search))
  }

  /** A row is shown when it passes all four filters. */
  predicate Shown(f: FilterState, games: seq<Game>, r: Row)
  {
    GameOk(f, games, r) && PositionOk(f, r) && TeamOk(f, r) && SearchOk(f, r)
  }

  /** The rows that pass the filters, in source order, before sorting. */
  function Visible(players: seq<Player>, games: seq<Game>, f: FilterState): (v: seq<Row>)
    ensures |v| <= |players|
    ensures forall r :: r in v ==> Shown(f, games, r)
  {
    Select(Rows(players, f.period), r => Shown(f, games, r))
  }

  /** The filters only remove: every visible row is a source player with its period's stats. */
  lemma VisibleFromSource(players: seq<Player>, games: seq<Game>, f: FilterState)
    ensures |Visible(players, games, f)| <= |players|
    ensures forall r :: r in Visible(players, games, f) <==>
      r.player in players && r.currentStats == CurrentStats(r.player, f.period) && Shown(f, games, r)
  {
    var rows := Rows(players, f.period);
    forall r: Row | r.player in players && r.currentStats == CurrentStats(r.player, f.period)
      ensures r in rows
    {
      var i :| 0 <= i < |players| && players[i] == r.player;
      assert rows[i] == r;
    }
  }

  /** With an existing game selected, exactly its home and away players pass the game filter. */
  lemma SelectedGameFilters(f: FilterState, games: seq<Game>, g: Game, r: Row)
    requires f.game.Some? && f.game.value != 0 && g in games && g.id == f.game.value
    requires forall h :: h in games && h.id == g.id ==> h == g
    ensures GameOk(f, games, r) <==> r.player.team == g.homeTeam || r.player.team == g.awayTeam
  {
  }

  /** An unknown game id, an absent one and 0 filter nothing. */
  lemma UnknownGameFiltersNothing(f: FilterState, games: seq<Game>, r: Row)
    requires f.game.None? || f.game.value == 0 || forall g :: g in games ==> g.id != f.game.value
    ensures GameOk(f, games, r)
  {
  }

  /** Lower-casing twice is lower-casing once. */
  lemma ToLowerIdempotent(s: string)
    ensures ToLower(ToLower(s)) == ToLower(s)
  {
  }

  /** The search is case-insensitive: a query and its lower-cased form keep the same rows. */
  lemma SearchIgnoresCase(f: FilterState, r: Row)
    ensures SearchOk(f, r) == SearchOk(f.(search := ToLower(f.search)), r)
  {
    ToLowerIdempotent(f.search);
  }

  // ---------------------------------------------------------------- sort

  /** Strict lexicographic order on strings, by character code. */
  predicate LexLess(a: string, b: string)
  {
    if a == [] then b != []
    else if b == [] then false
    else a[0] < b[0] || (a[0] == b[0] && LexLess(a[1..], b[1..]))
  }

  lemma {:induction false} LexLessAsymmetric(a: string, b: string)
    ensures LexLess(a, b) ==> !LexLess(b, a)
  {
    if a != [] && b != [] && a[0] == b[0] {
      LexLessAsymmetric(a[1..], b[1..]);
    }
  }

  /** JavaScript `<` on the values the sort meets; anything against undefined is false. */
  predicate Less(a: Value, b: Value)
  {
    match (a, b)
    case (Num(x), Num(y)) => x < y
    case (Str(x), Str(y)) => LexLess(x, y)
    case _ => false
  }

  lemma LessAsymmetric(a: Value, b: Value)
    ensures Less(a, b) ==> !Less(b, a)
  {
    if a.Str? && b.Str? {
      LexLessAsymmetric(a.s, b.s);
    }
  }

  /** The sort key of a row: the name, else the period stat when truthy, else the row's own property. */
  function SortValue(r: Row, key: string): (v: Value)
    ensures key == "name" ==> v == Str(r.player.name)
    ensures key != "name" && key in r.currentStats && r.currentStats[key] != 0.0 ==> v == Num(r.currentStats[key])
    ensures key != "name" && (key !in r.currentStats || r.currentStats[key] == 0.0) ==>
      v == if key in r.player.attrs then r.player.attrs[key] else Undefined
  {
    if key == "name" then Str(r.player.name)
    else if key in r.currentStats && r.currentStats[key] != 0.0 then Num(r.currentStats[key])
    else if key in r.player.attrs then r.player.attrs[key]
    else Undefined
  }

  /** The table's comparator: positive when `a` goes after `b`; it never answers 0. */
  function Compare(cfg: SortConfig, a: Row, b: Row): (c: int)
    ensures c == 1 || c == -1
  {
    var av, bv := SortValue(a, cfg.key), SortValue(b, cfg.key);
    if cfg.direction == Asc then (if Less(bv, av) then 1 else -1)
    else (if Less(av, bv) then 1 else -1)
  }

  lemma CompareAsymmetric(cfg: SortConfig, a: Row, b: Row)
    ensures Compare(cfg, a, b) > 0 ==> Compare(cfg, b, a) < 0
  {
    LessAsymmetric(SortValue(a, cfg.key), SortValue(b, cfg.key));
    LessAsymmetric(SortValue(b, cfg.key), SortValue(a, cfg.key));
  }

  /** Every neighbour pair is in an order the comparator accepts. */
  predicate Sorted(cfg: SortConfig, s: seq<Row>)
  {
    forall i :: 0 <= i < |s| - 1 ==> Compare(cfg, s[i], s[i + 1]) <= 0
  }

  /** Insert `x` into sorted `s`, after every element the comparator does not put after it. */
  function Insert(s: seq<Row>, x: Row, cfg: SortConfig): (r: seq<Row>)
    ensures |r| == |s| + 1
    ensures multiset(r) == multiset(s) + multiset{x}
    ensures r[|r| - 1] == x || (s != [] && r[|r| - 1] == s[|s| - 1])
    decreases |s|
  {
    if s == [] then [x]
    else if Compare(cfg, s[|s| - 1], x) > 0 then
      assert s == s[..|s| - 1] + [s[|s| - 1]];
      Insert(s[..|s| - 1], x, cfg) + [s[|s| - 1]]
    else s + [x]
  }

  /** The copied list sorted by the comparator (an insertion sort). */
  function SortRows(s: seq<Row>, cfg: SortConfig): (r: seq<Row>)
    ensures |r| == |s|
    ensures multiset(r) == multiset(s)
  {
    if s == [] then []
    else
      assert s == s[..|s| - 1] + [s[|s| - 1]];
      Insert(SortRows(s[..|s| - 1], cfg), s[|s| - 1], cfg)
  }

  lemma {:induction false} InsertSorted(s: seq<Row>, x: Row, cfg: SortConfig)
    requires Sorted(cfg, s)
    ensures Sorted(cfg, Insert(s, x, cfg))
    decreases |s|
  {
    if s != [] {
      var front, last := s[..|s| - 1], s[|s| - 1];
      if Compare(cfg, last, x) > 0 {
        assert Sorted(cfg, front) by {
          forall i | 0 <= i < |front| - 1
            ensures Compare(cfg, front[i], front[i + 1]) <= 0
          {
            assert front[i] == s[i] && front[i + 1] == s[i + 1];
          }
        }
        InsertSorted(front, x, cfg);
        var ins := Insert(front, x, cfg);
        var y := ins[|ins| - 1];
        if y == x {
          CompareAsymmetric(cfg, last, x);
        } else {
          assert y == s[|s| - 2];
        }
        SortedSnoc(ins, last, cfg);
      } else {
        SortedSnoc(s, x, cfg);
      }
    }
  }

  lemma SortedSnoc(s: seq<Row>, x: Row, cfg: SortConfig)
    requires Sorted(cfg, s)
    requires s != [] ==> Compare(cfg, s[|s| - 1], x) <= 0
    ensures Sorted(cfg, s + [x])
  {
    var t := s + [x];
    forall i | 0 <= i < |t| - 1
      ensures Compare(cfg, t[i], t[i + 1]) <= 0
    {
      if i < |s| - 1 {
        assert t[i] == s[i] && t[i + 1] == s[i + 1];
      }
    }
  }

  /** The sorted list is a permutation of its input, with neighbours in comparator order. */
  lemma {:induction false} SortRowsSorted(s: seq<Row>, cfg: SortConfig)
    ensures Sorted(cfg, SortRows(s, cfg))
    ensures multiset(SortRows(s, cfg)) == multiset(s)
  {
    if s != [] {
      SortRowsSorted(s[..|s| - 1], cfg);
      InsertSorted(SortRows(s[..|s| - 1], cfg), s[|s| - 1], cfg);
    }
  }

  /** When every key is a number, descending order is non-increasing and ascending non-decreasing. */
  lemma SortedByNumbers(s: seq<Row>, cfg: SortConfig)
    requires Sorted(cfg, s)
    requires forall r :: r in s ==> SortValue(r, cfg.key).Num?
    ensures cfg.direction == Desc ==>
      forall i :: 0 <= i < |s| - 1 ==> SortValue(s[i], cfg.key).n >= SortValue(s[i + 1], cfg.key).n
    ensures cfg.direction == Asc ==>
      forall i :: 0 <= i < |s| - 1 ==> SortValue(s[i], cfg.key).n <= SortValue(s[i + 1], cfg.key).n
  {
    forall i | 0 <= i < |s| - 1
      ensures Compare(cfg, s[i], s[i + 1]) <= 0
    {
    }
  }

  // ---------------------------------------------------------------- chat

  /** The message contains `word` once lower-cased. */
  predicate Mentions(message: string, word: string)
  {
    Contains(ToLower(message), word)
  }

  /** The keyword dispatch of the chat reply; the first matching branch wins. */
  function Topic(message: string): (t: ChatTopic)
    ensures t == KelceProp <==> Mentions(message, "kelce") && Mentions(message, "prop")
    ensures t == KelceOutlook <==> Mentions(message, "kelce") && !Mentions(message, "prop")
    ensures t == Streaks <==>
      !Mentions(message, "kelce") && (Mentions(message, "streak") || Mentions(message, "hot"))
    ensures t == PropHelp <==>
      !Mentions(message, "kelce") && !Mentions(message, "streak") && !Mentions(message, "hot")
      && Mentions(message, "prop")
    ensures t == Matchups <==>
      !Mentions(message, "kelce") && !Mentions(message, "streak") && !Mentions(message, "hot")
      && !Mentions(message, "prop") && (Mentions(message, "matchup") || Mentions(message, "wr"))
    ensures t == Splits <==>
      !Mentions(message, "kelce") && !Mentions(message, "streak") && !Mentions(message, "hot")
      && !Mentions(message, "prop") && !Mentions(message, "matchup") && !Mentions(message, "wr")
      && (Mentions(message, "home") || Mentions(message, "away") || Mentions(message, "split"))
    ensures t == SeasonLeaders <==>
      !Mentions(message, "kelce") && !Mentions(message, "streak") && !Mentions(message, "hot")
      && !Mentions(message, "prop") && !Mentions(message, "matchup") && !Mentions(message, "wr")
      && !Mentions(message, "home") && !Mentions(message, "away") && !Mentions(message, "split")
      && (Mentions(message, "season") || Mentions(message, "total"))
    ensures t == Fallback <==>
      !Mentions(message, "kelce") && !Mentions(message, "streak") && !Mentions(message, "hot")
      && !Mentions(message, "prop") && !Mentions(message, "matchup") && !Mentions(message, "wr")
      && !Mentions(message, "home") && !Mentions(message, "away") && !Mentions(message, "split")
      && !Mentions(message, "season") && !Mentions(message, "total")
  {
    if Mentions(message, "kelce") && Mentions(message, "prop") then KelceProp
    else if Mentions(message, "kelce") then KelceOutlook
    else if Mentions(message, "streak") || Mentions(message, "hot") then Streaks
    else if Mentions(message, "prop") then PropHelp
    else if Mentions(message, "matchup") || Mentions(message, "wr") then Matchups
    else if Mentions(message, "home") || Mentions(message, "away") || Mentions(message, "split") then Splits
    else if Mentions(message, "season") || Mentions(message, "total") then SeasonLeaders
    else Fallback
  }

  /** The dispatch ignores case: a message and its lower-cased form get the same reply. */
  lemma TopicIgnoresCase(message: string)
    ensures Topic(ToLower(message)) == Topic(message)
  {
    ToLowerIdempotent(message);
  }

  /** Input that `trim` empties: nothing but white space. */
  predicate Blank(input: string)
  {
    JsNum.JsTrim(input) == ""
  }

  lemma {:induction false} BlankIsAllSpace(input: string)
    ensures Blank(input) <==> forall i :: 0 <= i < |input| ==> JsNum.IsJsSpace(input[i])
  {
  }

  // ---------------------------------------------------------------- state

  /** The page's state hooks that the table and the chat box read and write. */
  class App {
    var selectedGame: Option<int>
    var selectedPosition: string
    var selectedTeam: string
    var searchQuery: string
    var timePeriod: string
    var sortConfig: SortConfig
    var chatMessages: seq<ChatEntry>
    var chatInput: string

    /** The initial state: no filters, this week's stats, fantasy points descending, the greeting. */
    constructor ()
      ensures selectedGame == None && selectedPosition == All && selectedTeam == All && searchQuery == ""
      ensures timePeriod == DefaultPeriod && sortConfig == DefaultSort
      ensures chatMessages == [Greeting] && chatInput == ""
    {
      selectedGame := None;
      selectedPosition := All;
      selectedTeam := All;
      searchQuery := "";
      timePeriod := DefaultPeriod;
      sortConfig := DefaultSort;
      chatMessages := [Greeting];
      chatInput := "";
    }

    function Filters(): FilterState
      reads this
    {
      FilterState(selectedGame, selectedPosition, selectedTeam, searchQuery, timePeriod, sortConfig)
    }

    /** A click on a column header. */
    method HandleSort(key: string)
      modifies this`sortConfig
      ensures sortConfig == NextSort(old(sortConfig), key)
    {
      sortConfig := NextSort(sortConfig, key);
    }

    /**
     * The table's rows: the period's stats for every player, then each active
     * filter in turn, then a sorted copy.
     */
    method FilteredPlayers(players: seq<Player>, games: seq<Game>) returns (filtered: seq<Row>)
      ensures filtered == SortRows(Visible(players, games, Filters()), sortConfig)
      ensures multiset(filtered) == multiset(Visible(players, games, Filters()))
      ensures Sorted(sortConfig, filtered)
    {
      ghost var f := Filters();
      var position, team, search := selectedPosition, selectedTeam, searchQuery;
      var all := Rows(players, timePeriod);
      filtered := all;
      ghost var gameOk := (r: Row) => GameOk(f, games, r);
      if selectedGame.Some? && selectedGame.value != 0 {
        var game := FindGame(games, selectedGame.value);
        if game.Some? {
          filtered := Select(filtered, (r: Row) => InGame(r, game.value));
          SelectSame(all, (r: Row) => InGame(r, game.value), gameOk);
        } else {
          SelectSame(all, (r: Row) => true, gameOk);
          SelectAll(all);
        }
      } else {
        SelectSame(all, (r: Row) => true, gameOk);
        SelectAll(all);
      }
      assert filtered == Select(all, gameOk);
      ghost var positionOk := (r: Row) => GameOk(f, games, r) && PositionOk(f, r);
      if position != All {
        filtered := Select(filtered, (r: Row) => r.player.position == position);
        SelectThen(all, gameOk, (r: Row) => r.player.position == position, positionOk);
      } else {
        SelectSame(all, gameOk, positionOk);
      }
      ghost var teamOk := (r: Row) => GameOk(f, games, r) && PositionOk(f, r) && TeamOk(f, r);
      if team != All {
        filtered := Select(filtered, (r: Row) => r.player.team == team);
        SelectThen(all, positionOk, (r: Row) => r.player.team == team, teamOk);
      } else {
        SelectSame(all, positionOk, teamOk);
      }
      ghost var shown := (r: Row) => Shown(f, games, r);
      if search != "" {
        filtered := Select(filtered, (r: Row) => Contains(ToLower(r.player.name), ToLower(search)));
        SelectThen(all, teamOk, (r: Row) => Contains(ToLower(r.player.name), ToLower(search)), shown);
      } else {
        SelectSame(all, teamOk, shown);
      }
      assert filtered == Visible(players, games, f);
      filtered := SortRows(filtered, sortConfig);
      SortRowsSorted(Visible(players, games, f), sortConfig);
    }

    /**
     * Sending the chat input: blank input changes nothing; otherwise the
     * message joins the log, the box clears, and the message is returned as
     * the one the deferred reply answers.
     */
    method HandleChatSubmit() returns (pending: Option<string>)
      modifies this`chatMessages, this`chatInput
      ensures Blank(old(chatInput)) ==>
        pending == None && chatMessages == old(chatMessages) && chatInput == old(chatInput)
      ensures !Blank(old(chatInput)) ==>
        pending == Some(old(chatInput)) && chatMessages == old(chatMessages) + [UserMessage(old(chatInput))]
        && chatInput == ""
    {
      if JsNum.JsTrim(chatInput) == "" {
        return None;
      }
      var userMessage := chatInput;
      chatMessages := chatMessages + [UserMessage(userMessage)];
      chatInput := "";
      pending := Some(userMessage);
    }

    /** The deferred reply to a sent message: its topic joins the log. */
    method DeliverReply(userMessage: string)
      modifies this`chatMessages
      ensures chatMessages == old(chatMessages) + [AssistantReply(Topic(userMessage))]
    {
      chatMessages := chatMessages + [AssistantReply(Topic(userMessage))];
    }
  }

  /** Filtering by a predicate that always holds keeps the list. */
  lemma {:induction false} SelectAll<T(!new)>(s: seq<T>)
    ensures Select(s, (x: T) => true) == s
  {
    if s != [] {
      SelectAll(s[1..]);
    }
  }
}
