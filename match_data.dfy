// The match-refresh pipeline of the data thread: fetch the tracked
// player's last game, skip it when it was already handled, look up every
// participant's standing on the leaderboard that fits the game kind, reject
// incomplete rosters, and otherwise record the game, log it, notify the
// window and replace the stored rows.
//
// The web API and JSON decoding are inputs: the last-game request is a
// `Fetch<Game>`, the leaderboard request a function of (leaderboard kind,
// profile id). The wall clock is the `now` text `time.ctime()` gives.
module MatchData {
  import opened Wrappers
  import opened Text
  import opened Accounts

  // -----------------------------------------------------------------------
  // Inputs

  /** One entry of a team in the last-game response. */
  datatype Participant = Participant(name: string, civilization: string, profileId: int)

  /** The fields of the last-game response the cycle reads; `gameId` is
      already `str(game_id)`. */
  datatype Game = Game(gameId: string, mapKey: string, kind: string, teams: seq<seq<Participant>>)

  /** A request whose body was fetched and decoded, or one that raised
      (no response, or a body that is not the expected JSON). */
  datatype Fetch<T> = Fetched(value: T) | FetchFailed

  /** A leaderboard response: the first listed player's rating and win
      rate, or an empty `players` list. The win rate is kept as the text
      `str(win_rate)` gives. */
  datatype Standing = Ranked(rating: int, winRate: string) | NoPlayers

  /** `GET /leaderboards/{kind}?profile_id={id}`. */
  type Leaderboard = (string, int) -> Fetch<Standing>

  /** Everything one cycle receives from outside. */
  datatype Inputs = Inputs(fetched: Fetch<Game>, board: Leaderboard, now: string, logReadable: bool)

  // -----------------------------------------------------------------------
  // Game kind to leaderboard kind

  /** The kinds whose leaderboard has another name. */
  predicate Remapped(kind: string) {
    kind == "rm_1v1" || kind == "rm_2v2" || kind == "rm_3v3" || kind == "rm_4v4" || kind == "qm_ffa_nomad"
  }

  /** The leaderboard a game kind's ratings are looked up on. */
  function LeaderboardKind(kind: string): (r: string)
    ensures r == kind <==> !Remapped(kind)
    ensures r == "rm_team" && kind != r <==> kind == "rm_2v2" || kind == "rm_3v3" || kind == "rm_4v4"
    ensures kind == "rm_1v1" ==> r == "rm_solo"
    ensures kind == "qm_ffa_nomad" ==> r == "qm_ffa"
  {
    if kind == "rm_1v1" then "rm_solo"
    else if kind == "rm_2v2" || kind == "rm_3v3" || kind == "rm_4v4" then "rm_team"
    else if kind == "qm_ffa_nomad" then "qm_ffa"
    else kind
  }

  /** A leaderboard name is its own leaderboard. */
  lemma LeaderboardKindIdempotent(kind: string)
    ensures LeaderboardKind(LeaderboardKind(kind)) == LeaderboardKind(kind)
  {
  }

  // -----------------------------------------------------------------------
  // Completeness check

  /** The roster size the eight fixed-size kinds must have. */
  function ExpectedCount(kind: string): Option<nat> {
    if kind == "rm_1v1" || kind == "qm_1v1" then Some(2)
    else if kind == "rm_2v2" || kind == "qm_2v2" then Some(4)
    else if kind == "rm_3v3" || kind == "qm_3v3" then Some(6)
    else if kind == "rm_4v4" || kind == "qm_4v4" then Some(8)
    else None
  }

  /** The roster passes the check: its kind has no fixed size, or it has
      exactly that size. */
  predicate RosterComplete(kind: string, count: nat) {
    ExpectedCount(kind).None? || ExpectedCount(kind).value == count
  }

  /** The check as the chain of conditions `get_data` tests one after the
      other. */
  lemma CompletenessChain(kind: string, count: nat)
    ensures RosterComplete(kind, count) <==>
              !((kind == "rm_1v1" || kind == "qm_1v1") && count != 2) &&
              !((kind == "rm_2v2" || kind == "qm_2v2") && count != 4) &&
              !((kind == "rm_3v3" || kind == "qm_3v3") && count != 6) &&
              !((kind == "rm_4v4" || kind == "qm_4v4") && count != 8)
  {
  }

  /** Shape of the kind names that have a fixed size: `rm_` or `qm_`
      followed by `NvN` with N from 1 to 4. */
  predicate FixedSizeName(kind: string) {
    |kind| == 6 && (kind[..3] == "rm_" || kind[..3] == "qm_") &&
    '1' <= kind[3] <= '4' && kind[4] == 'v' && kind[5] == kind[3]
  }

  /** The fixed sizes are read off the kind name: an `NvN` game has 2N
      participants; every other kind is accepted at any size. */
  lemma ExpectedCountFromName(kind: string)
    ensures ExpectedCount(kind).Some? <==> FixedSizeName(kind)
    ensures FixedSizeName(kind) ==> ExpectedCount(kind) == Some(2 * DigitValue(kind[3]))
  {
    if FixedSizeName(kind) {
      var prefix, n := kind[..3], kind[3];
      assert kind == prefix + [n, 'v', n];
      assert prefix == "rm_" || prefix == "qm_";
      assert n == '1' || n == '2' || n == '3' || n == '4';
    }
  }

  // -----------------------------------------------------------------------
  // Walking the teams

  /** The members of one team, each with its 1-based team number. */
  function Tagged(team: seq<Participant>, number: nat): (r: seq<(nat, Participant)>)
    ensures |r| == |team|
    ensures forall k :: 0 <= k < |team| ==> r[k] == (number, team[k])
  {
    seq(|team|, k requires 0 <= k < |team| => (number, team[k]))
  }

  /** The participants in team-then-within-team order, each with its team
      number. */
  function Flatten(teams: seq<seq<Participant>>): seq<(nat, Participant)> {
    if teams == [] then []
    else Flatten(teams[..|teams| - 1]) + Tagged(teams[|teams| - 1], |teams|)
  }

  /** The number of participants, summed team by team. */
  function TeamSizes(teams: seq<seq<Participant>>): nat {
    if teams == [] then 0 else TeamSizes(teams[..|teams| - 1]) + |teams[|teams| - 1]|
  }

  /** The first teams' participants come first. */
  lemma {:induction false} FlattenPrefix(teams: seq<seq<Participant>>, t: nat)
    requires t <= |teams|
    ensures Flatten(teams[..t]) <= Flatten(teams)
    decreases |teams| - t
  {
    if t < |teams| {
      var init := teams[..|teams| - 1];
      assert init[..t] == teams[..t];
      FlattenPrefix(init, t);
    } else {
      assert teams[..t] == teams;
    }
  }

  /** Member `j` of team `t` sits at position (size of the earlier teams) +
      `j`, tagged with team number `t + 1`; the whole walk visits every
      participant once. */
  lemma {:induction false} FlattenAt(teams: seq<seq<Participant>>, t: nat, j: nat)
    requires t < |teams| && j < |teams[t]|
    ensures |Flatten(teams)| == TeamSizes(teams)
    ensures TeamSizes(teams[..t]) + j < |Flatten(teams)|
    ensures Flatten(teams)[TeamSizes(teams[..t]) + j] == (t + 1, teams[t][j])
  {
    FlattenLength(teams);
    FlattenLength(teams[..t + 1]);
    FlattenPrefix(teams, t + 1);
    var upTo := teams[..t + 1];
    assert upTo[..t] == teams[..t];
    FlattenLength(teams[..t]);
  }

  lemma {:induction false} FlattenLength(teams: seq<seq<Participant>>)
    ensures |Flatten(teams)| == TeamSizes(teams)
  {
    if teams != [] {
      FlattenLength(teams[..|teams| - 1]);
    }
  }

  // -----------------------------------------------------------------------
  // Resolving one participant

  /** The text stored when the leaderboard lists no player. */
  const Unrated: string := "--"

  /** One participant with the values the cycle computes for it: the name
      with its quotes doubled, and rating and win rate as text. */
  datatype Entry = Entry(team: nat, name: string, civilization: string, profileId: int, rating: string, winRate: string)

  /** Look up one participant; None when the request raised. */
  function Resolve(team: nat, p: Participant, kind: string, board: Leaderboard): (r: Option<Entry>)
    ensures r.None? <==> board(kind, p.profileId).FetchFailed?
    ensures r.Some? ==> r.value.team == team && r.value.civilization == p.civilization
                        && r.value.profileId == p.profileId
                        && UndoubleQuotes(r.value.name) == p.name && NoLoneQuote(r.value.name)
    ensures r.Some? && board(kind, p.profileId).value.NoPlayers? ==>
              r.value.rating == Unrated && r.value.winRate == Unrated
    ensures r.Some? && board(kind, p.profileId).value.Ranked? ==>
              ParseInt(r.value.rating) == Some(board(kind, p.profileId).value.rating)
              && r.value.winRate == board(kind, p.profileId).value.winRate
  {
    QuotesRoundTrip(p.name);
    match board(kind, p.profileId)
    case FetchFailed => None
    case Fetched(NoPlayers) => Some(Entry(team, DoubleQuotes(p.name), p.civilization, p.profileId, Unrated, Unrated))
    case Fetched(Ranked(rating, winRate)) =>
      IntRoundTrip(rating);
      Some(Entry(team, DoubleQuotes(p.name), p.civilization, p.profileId, IntToString(rating), winRate))
  }

  /** Look up the participants in order; one request that raises aborts
      the whole walk. */
  function ResolveAll(flat: seq<(nat, Participant)>, kind: string, board: Leaderboard): Option<seq<Entry>> {
    if flat == [] then Some([])
    else
      var last := flat[|flat| - 1];
      match ResolveAll(flat[..|flat| - 1], kind, board)
      case None => None
      case Some(es) =>
        match Resolve(last.0, last.1, kind, board)
        case None => None
        case Some(e) => Some(es + [e])
  }

  /** The walk succeeds exactly when every lookup does, and then entry `k`
      is participant `k`'s own lookup: one participant's empty leaderboard
      affects no other entry. */
  lemma {:induction false} ResolveAllPointwise(flat: seq<(nat, Participant)>, kind: string, board: Leaderboard)
    ensures ResolveAll(flat, kind, board).Some? <==>
              forall k :: 0 <= k < |flat| ==> Resolve(flat[k].0, flat[k].1, kind, board).Some?
    ensures ResolveAll(flat, kind, board).Some? ==>
              |ResolveAll(flat, kind, board).value| == |flat| &&
              forall k :: 0 <= k < |flat| ==>
                Resolve(flat[k].0, flat[k].1, kind, board) == Some(ResolveAll(flat, kind, board).value[k])
  {
    if flat != [] {
      var init := flat[..|flat| - 1];
      ResolveAllPointwise(init, kind, board);
      assert forall k :: 0 <= k < |init| ==> init[k] == flat[k];
    }
  }

  /** A successful walk has one entry per participant. */
  lemma {:induction false} ResolveAllLength(flat: seq<(nat, Participant)>, kind: string, board: Leaderboard)
    ensures ResolveAll(flat, kind, board).Some? ==> |ResolveAll(flat, kind, board).value| == |flat|
  {
    if flat != [] {
      ResolveAllLength(flat[..|flat| - 1], kind, board);
    }
  }

  /** A failed lookup early in the walk fails the whole walk. */
  lemma {:induction false} ResolvePrefixFails(flat: seq<(nat, Participant)>, n: nat, kind: string, board: Leaderboard)
    requires n <= |flat| && ResolveAll(flat[..n], kind, board).None?
    ensures ResolveAll(flat, kind, board).None?
    decreases |flat|
  {
    if n == |flat| {
      assert flat[..n] == flat;
    } else {
      var init := flat[..|flat| - 1];
      assert init[..n] == flat[..n];
      ResolvePrefixFails(init, n, kind, board);
    }
  }

  // -----------------------------------------------------------------------
  // What one accepted roster produces

  /** One tuple of the `values` text: the SQL literal of one row. */
  function RowTuple(gameId: string, mapName: string, kind: string, e: Entry): string {
    "(" + gameId + ",'" + e.name + "','" + e.winRate + "','" + e.civilization + "','" + mapName
    + "','" + IntToString(e.profileId) + "','" + e.rating + "'," + NatToString(e.team) + ",'" + kind + "')"
  }

  /** The tuples of a roster, in order. */
  function Tuples(gameId: string, mapName: string, kind: string, es: seq<Entry>): (ts: seq<string>)
    ensures |ts| == |es|
    ensures forall k :: 0 <= k < |es| ==> ts[k] == RowTuple(gameId, mapName, kind, es[k])
  {
    seq(|es|, k requires 0 <= k < |es| => RowTuple(gameId, mapName, kind, es[k]))
  }

  /** Texts each preceded by a comma, as `",".join([values, value])`
      builds them starting from the empty string. */
  function CommaEach(ts: seq<string>): string {
    if ts == [] then "" else CommaEach(ts[..|ts| - 1]) + "," + ts[|ts| - 1]
  }

  /** Texts separated by commas. */
  function Join(ts: seq<string>): string
    requires ts != []
  {
    if |ts| == 1 then ts[0] else Join(ts[..|ts| - 1]) + "," + ts[|ts| - 1]
  }

  /** Comma-prefixing is empty exactly for no texts, and otherwise is the
      joined texts behind one leading comma. */
  lemma {:induction false} CommaEachShape(ts: seq<string>)
    ensures CommaEach(ts) == "" <==> ts == []
    ensures ts != [] ==> CommaEach(ts) == "," + Join(ts)
  {
    if ts != [] {
      var init := ts[..|ts| - 1];
      var last := ts[|ts| - 1];
      if init == [] {
        assert CommaEach(ts) == "" + "," + last;
      } else {
        CommaEachShape(init);
        assert CommaEach(ts) == ("," + Join(init)) + "," + last;
      }
    }
  }

  /** `values`: every tuple preceded by a comma. */
  function ValuesText(gameId: string, mapName: string, kind: string, es: seq<Entry>): string {
    CommaEach(Tuples(gameId, mapName, kind, es))
  }

  /** The tuples separated by commas. */
  function JoinTuples(gameId: string, mapName: string, kind: string, es: seq<Entry>): string
    requires es != []
  {
    Join(Tuples(gameId, mapName, kind, es))
  }

  /** `values` is empty exactly for an empty roster, and otherwise is the
      joined tuples behind one leading comma. */
  lemma ValuesTextShape(gameId: string, mapName: string, kind: string, es: seq<Entry>)
    ensures ValuesText(gameId, mapName, kind, es) == "" <==> es == []
    ensures es != [] ==> ValuesText(gameId, mapName, kind, es) == "," + JoinTuples(gameId, mapName, kind, es)
  {
    CommaEachShape(Tuples(gameId, mapName, kind, es));
  }

  /** One row of `last_game`; its key is (`gameId`, `player`). */
  datatype Row = Row(gameId: string, player: string, winRate: string, civilization: string, mapName: string,
                     profileId: int, rating: string, team: nat, kind: string)

  /** The row SQL stores for a tuple: the doubled quotes of the name read
      back as single ones. */
  function RowOf(gameId: string, mapName: string, kind: string, e: Entry): Row {
    Row(gameId, UndoubleQuotes(e.name), e.winRate, e.civilization, mapName, e.profileId, e.rating, e.team, kind)
  }

  function Rows(gameId: string, mapName: string, kind: string, es: seq<Entry>): (r: seq<Row>)
    ensures |r| == |es|
  {
    seq(|es|, k requires 0 <= k < |es| => RowOf(gameId, mapName, kind, es[k]))
  }

  /** One element of `player_data`, the list the window is given; the name
      keeps its doubled quotes. */
  datatype PlayerInfo = PlayerInfo(name: string, civilization: string, profileId: int, rating: string,
                                   winRate: string, kind: string)

  function InfoOf(kind: string, e: Entry): PlayerInfo {
    PlayerInfo(e.name, e.civilization, e.profileId, e.rating, e.winRate, kind)
  }

  function Infos(kind: string, es: seq<Entry>): (r: seq<PlayerInfo>)
    ensures |r| == |es|
  {
    seq(|es|, k requires 0 <= k < |es| => InfoOf(kind, es[k]))
  }

  /** `last_game_data`: (map, game id, player count, players, kind). */
  datatype GameData = GameData(mapName: string, gameId: string, playerCount: nat, players: seq<PlayerInfo>, kind: string)

  /** The map's display name, or its key when the table has none. */
  function MapName(mapNames: map<string, string>, key: string): string {
    if key in mapNames then mapNames[key] else key
  }

  // -----------------------------------------------------------------------
  // The stored table

  /** The primary key (game_id, player) holds no duplicate. */
  predicate KeysDistinct(rows: seq<Row>) {
    forall i, j :: 0 <= i < j < |rows| ==> (rows[i].gameId, rows[i].player) != (rows[j].gameId, rows[j].player)
  }

  /** `delete from last_game where game_id <> ?`. */
  function KeepGame(rows: seq<Row>, gameId: string): (r: seq<Row>)
    ensures forall k :: 0 <= k < |r| ==> r[k].gameId == gameId
    ensures forall k :: 0 <= k < |r| ==> r[k] in rows
  {
    if rows == [] then []
    else KeepGame(rows[..|rows| - 1], gameId) + (if rows[|rows| - 1].gameId == gameId then [rows[|rows| - 1]] else [])
  }

  /** The delete keeps a table that holds only the game's rows. */
  lemma {:induction false} KeepGameAllOfGame(rows: seq<Row>, gameId: string)
    requires forall k :: 0 <= k < |rows| ==> rows[k].gameId == gameId
    ensures KeepGame(rows, gameId) == rows
  {
    if rows != [] {
      KeepGameAllOfGame(rows[..|rows| - 1], gameId);
      assert rows == rows[..|rows| - 1] + [rows[|rows| - 1]];
    }
  }

  /** The delete empties a table that holds none of the game's rows. */
  lemma {:induction false} KeepGameNoneOfGame(rows: seq<Row>, gameId: string)
    requires forall k :: 0 <= k < |rows| ==> rows[k].gameId != gameId
    ensures KeepGame(rows, gameId) == []
  {
    if rows != [] {
      KeepGameNoneOfGame(rows[..|rows| - 1], gameId);
    }
  }

  /** The delete keeps every row of the game. */
  lemma {:induction false} KeepGameKeepsGame(rows: seq<Row>, gameId: string, k: nat)
    requires k < |rows| && rows[k].gameId == gameId
    ensures rows[k] in KeepGame(rows, gameId)
  {
    if k < |rows| - 1 {
      KeepGameKeepsGame(rows[..|rows| - 1], gameId, k);
    }
  }

  /** The delete keeps the key unique. */
  lemma {:induction false} KeepGameDistinct(rows: seq<Row>, gameId: string)
    requires KeysDistinct(rows)
    ensures KeysDistinct(KeepGame(rows, gameId))
  {
    if rows != [] {
      var init := rows[..|rows| - 1];
      var last := rows[|rows| - 1];
      assert KeysDistinct(init);
      KeepGameDistinct(init, gameId);
      var kept := KeepGame(init, gameId);
      forall k | 0 <= k < |kept|
        ensures (kept[k].gameId, kept[k].player) != (last.gameId, last.player)
      {
        var m :| 0 <= m < |init| && init[m] == kept[k];
        assert rows[m] == kept[k];
      }
    }
  }

  // -----------------------------------------------------------------------
  // The log file

  /** The file text: every entry was written as "\n" + line. */
  function FileText(log: seq<string>): string {
    if log == [] then "" else FileText(log[..|log| - 1]) + "\n" + log[|log| - 1]
  }

  function NewlineCount(s: string): nat {
    if s == [] then 0 else NewlineCount(s[..|s| - 1]) + (if s[|s| - 1] == '\n' then 1 else 0)
  }

  /** `len(f.readlines())`: every newline ends a line, and text after the
      last newline is one more. */
  function LineCount(s: string): nat {
    NewlineCount(s) + (if s != [] && s[|s| - 1] != '\n' then 1 else 0)
  }

  /** `count()`: the file's line count, or 0 when it cannot be read. */
  function LogLines(log: seq<string>, readable: bool): nat {
    if readable then LineCount(FileText(log)) else 0
  }

  /** The log limit: above this many lines the file is emptied. */
  const LogLimit: nat := 1000

  /** The log at the start of a cycle, after the size check. */
  function KeptLog(log: seq<string>, readable: bool): seq<string> {
    if LogLines(log, readable) > LogLimit then [] else log
  }

  lemma {:induction false} NewlineCountAppend(a: string, b: string)
    ensures NewlineCount(a + b) == NewlineCount(a) + NewlineCount(b)
    decreases |b|
  {
    if b != [] {
      var init := b[..|b| - 1];
      assert (a + b)[..|a + b| - 1] == a + init;
      NewlineCountAppend(a, init);
    } else {
      assert a + b == a;
    }
  }

  lemma {:induction false} NewlineCountNone(s: string)
    requires '\n' !in s
    ensures NewlineCount(s) == 0
  {
    if s != [] {
      NewlineCountNone(s[..|s| - 1]);
    }
  }

  /** With single-line, non-empty entries the file has one line per entry
      plus the empty first line, so it is emptied once it holds more than
      999 entries. */
  lemma {:induction false} LogLinesCountsEntries(log: seq<string>)
    requires forall k :: 0 <= k < |log| ==> log[k] != [] && '\n' !in log[k]
    ensures LineCount(FileText(log)) == if log == [] then 0 else |log| + 1
  {
    if log != [] {
      var init := log[..|log| - 1];
      var last := log[|log| - 1];
      LogLinesCountsEntries(init);
      NewlineCountAppend(FileText(init), "\n");
      NewlineCountAppend(FileText(init) + "\n", last);
      NewlineCountNone(last);
      if init == [] {
        assert FileText(init) == "";
      } else {
        assert FileText(init)[|FileText(init)| - 1] == init[|init| - 1][|init[|init| - 1]| - 1];
        assert init[|init| - 1][|init[|init| - 1]| - 1] in init[|init| - 1];
      }
      assert FileText(log) == FileText(init) + "\n" + last;
      assert FileText(log)[|FileText(log)| - 1] == last[|last| - 1];
      assert last[|last| - 1] in last;
    }
  }

  function RequestLine(now: string, values: string): string {
    now + ": when request -- " + values
  }

  /** `traceback.print_exc()` returns None, so the exception line always
      ends with the text "None". */
  function ExceptionLine(now: string): string {
    now + ": when request exception -- None"
  }

  function TimeoutLine(now: string, message: string): string {
    now + ": when timesleep exception -- " + message
  }

  const ReloadGame: string := "reload game"
  const ReloadPlayerName: string := "reload playername"

  // -----------------------------------------------------------------------
  // One cycle, as a function of the state before it

  /** The state one cycle reads and changes: the last handled game id, the
      `last_game` table, the log lines, the payload handed to the window and
      the messages sent to it. */
  datatype State = State(lastGameId: Option<string>, table: seq<Row>, log: seq<string>,
                         payload: Option<GameData>, messages: seq<string>)

  /** A text pasted between single quotes of the statement without its
      quotes doubled: it leaves the literal intact only when it holds no
      quote. */
  predicate QuoteFree(s: string) {
    forall k :: 0 <= k < |s| ==> s[k] != '\''
  }

  /** The insert statement parses: apart from the name, whose quotes are
      doubled, every text field of every tuple is pasted in as it is. */
  predicate InsertParses(rows: seq<Row>) {
    forall k :: 0 <= k < |rows| ==>
      QuoteFree(rows[k].winRate) && QuoteFree(rows[k].civilization) && QuoteFree(rows[k].mapName)
      && QuoteFree(rows[k].rating) && QuoteFree(rows[k].kind)
  }

  /** The accepted roster: remember the game, log and announce it, then
      insert its rows and delete the other games' rows. An empty roster
      leaves `values` empty, so `values[0]` raises after the announcement;
      a quote in a field pasted in as it is, or a duplicate key, makes the
      insert raise. */
  function Commit(s: State, g: Game, mapName: string, kind: string, es: seq<Entry>, now: string): State {
    var values := ValuesText(g.gameId, mapName, kind, es);
    var rows := Rows(g.gameId, mapName, kind, es);
    var announced := s.(lastGameId := Some(g.gameId),
                        log := s.log + [RequestLine(now, values)],
                        payload := Some(GameData(mapName, g.gameId, |es|, Infos(kind, es), kind)),
                        messages := s.messages + [ReloadGame]);
    if values == [] || !InsertParses(rows) || !KeysDistinct(s.table + rows) then
      announced.(log := announced.log + [ExceptionLine(now)])
    else announced.(table := KeepGame(s.table + rows, g.gameId))
  }

  /** `get_data`. */
  function Cycle(s: State, mapNames: map<string, string>, inp: Inputs): State {
    var s0 := s.(log := KeptLog(s.log, inp.logReadable));
    match inp.fetched
    case FetchFailed => s0.(log := s0.log + [ExceptionLine(inp.now)])
    case Fetched(g) =>
      if s.lastGameId == Some(g.gameId) then s0
      else
        var kind := LeaderboardKind(g.kind);
        match ResolveAll(Flatten(g.teams), kind, inp.board)
        case None => s0.(log := s0.log + [ExceptionLine(inp.now)])
        case Some(es) =>
          if !RosterComplete(g.kind, |es|) then s0
          else Commit(s0, g, MapName(mapNames, g.mapKey), kind, es, inp.now)
  }

  /** The game the cycle's request returned, if any. */
  function FetchedGame(inp: Inputs): Option<Game> {
    if inp.fetched.Fetched? then Some(inp.fetched.value) else None
  }

  /** Only the log and the state a commit sets can change, and the id only
      to the fetched game's. */
  lemma CycleChanges(s: State, mapNames: map<string, string>, inp: Inputs)
    ensures var s' := Cycle(s, mapNames, inp);
            s'.lastGameId == s.lastGameId ||
            (FetchedGame(inp).Some? && s'.lastGameId == Some(FetchedGame(inp).value.gameId))
    ensures var s' := Cycle(s, mapNames, inp);
            s'.table == s.table || forall k :: 0 <= k < |s'.table| ==>
              FetchedGame(inp).Some? && s'.table[k].gameId == FetchedGame(inp).value.gameId
  {
  }

  /** The game already handled: nothing but the log check happens. */
  lemma SameGameIsSkipped(s: State, mapNames: map<string, string>, inp: Inputs)
    requires inp.fetched.Fetched? && s.lastGameId == Some(inp.fetched.value.gameId)
    ensures Cycle(s, mapNames, inp) == s.(log := KeptLog(s.log, inp.logReadable))
  {
  }

  /** An incomplete roster of a fixed-size kind is discarded: the id, the
      table, the payload and the messages stay as they were. */
  lemma IncompleteRosterRejected(s: State, mapNames: map<string, string>, inp: Inputs)
    requires inp.fetched.Fetched? && s.lastGameId != Some(inp.fetched.value.gameId)
    requires var g := inp.fetched.value;
             ExpectedCount(g.kind).Some? && ExpectedCount(g.kind).value != TeamSizes(g.teams)
    ensures Cycle(s, mapNames, inp).(log := s.log) == s
  {
    var g := inp.fetched.value;
    var kind := LeaderboardKind(g.kind);
    ResolveAllPointwise(Flatten(g.teams), kind, inp.board);
    FlattenLength(g.teams);
  }

  /** Handling the same game twice in a row: once the first cycle has
      recorded it, the second only checks the log. */
  lemma SecondCycleIsNoop(s: State, mapNames: map<string, string>, first: Inputs, second: Inputs)
    requires first.fetched.Fetched? && second.fetched == first.fetched
    requires Cycle(s, mapNames, first).lastGameId != s.lastGameId
    ensures var s1 := Cycle(s, mapNames, first);
            Cycle(s1, mapNames, second) == s1.(log := KeptLog(s1.log, second.logReadable))
  {
    CycleChanges(s, mapNames, first);
    var s1 := Cycle(s, mapNames, first);
    assert s1.lastGameId == Some(first.fetched.value.gameId);
    SameGameIsSkipped(s1, mapNames, second);
  }

  /** The cycle reaches the commit: a new game whose lookups all succeeded
      and whose roster is complete. */
  predicate Accepted(s: State, inp: Inputs) {
    inp.fetched.Fetched? &&
    var g := inp.fetched.value;
    s.lastGameId != Some(g.gameId) &&
    ResolveAll(Flatten(g.teams), LeaderboardKind(g.kind), inp.board).Some? &&
    RosterComplete(g.kind, TeamSizes(g.teams))
  }

  /** The resolved roster of a fetched game whose lookups all succeeded. */
  function Roster(inp: Inputs): seq<Entry>
    requires inp.fetched.Fetched?
    requires ResolveAll(Flatten(inp.fetched.value.teams), LeaderboardKind(inp.fetched.value.kind), inp.board).Some?
  {
    ResolveAll(Flatten(inp.fetched.value.teams), LeaderboardKind(inp.fetched.value.kind), inp.board).value
  }

  /** The rows the insert of an accepted cycle stores. */
  function NewRows(mapNames: map<string, string>, inp: Inputs): seq<Row>
    requires inp.fetched.Fetched?
    requires ResolveAll(Flatten(inp.fetched.value.teams), LeaderboardKind(inp.fetched.value.kind), inp.board).Some?
  {
    var g := inp.fetched.value;
    Rows(g.gameId, MapName(mapNames, g.mapKey), LeaderboardKind(g.kind), Roster(inp))
  }

  /** An accepted cycle is the commit of its roster. */
  lemma AcceptedCommits(s: State, mapNames: map<string, string>, inp: Inputs)
    requires Accepted(s, inp)
    ensures var g := inp.fetched.value;
            && |Roster(inp)| == |Flatten(g.teams)| == TeamSizes(g.teams)
            && Cycle(s, mapNames, inp)
               == Commit(s.(log := KeptLog(s.log, inp.logReadable)), g, MapName(mapNames, g.mapKey),
                         LeaderboardKind(g.kind), Roster(inp), inp.now)
  {
    var g := inp.fetched.value;
    ResolveAllPointwise(Flatten(g.teams), LeaderboardKind(g.kind), inp.board);
    FlattenLength(g.teams);
  }

  /** The two outcomes of a commit: the game is remembered, its values
      are logged and it is announced in both; the insert and the delete
      happen only for a non-empty roster whose statement parses and keeps
      the key unique, otherwise the exception is logged after the values
      and the table is left alone. */
  lemma CommitOutcome(s: State, g: Game, mapName: string, kind: string, es: seq<Entry>, now: string)
    ensures var c := Commit(s, g, mapName, kind, es, now);
            var rows := Rows(g.gameId, mapName, kind, es);
            var all := s.table + rows;
            var stored := es != [] && InsertParses(rows) && KeysDistinct(all);
            && c.lastGameId == Some(g.gameId)
            && c.messages == s.messages + [ReloadGame]
            && c.payload == Some(GameData(mapName, g.gameId, |es|, Infos(kind, es), kind))
            && |c.log| >= |s.log| + 1
            && c.log[..|s.log| + 1] == s.log + [RequestLine(now, ValuesText(g.gameId, mapName, kind, es))]
            && (stored ==> c.log == s.log + [RequestLine(now, ValuesText(g.gameId, mapName, kind, es))]
                           && c.table == KeepGame(all, g.gameId))
            && (!stored ==> c.table == s.table && c.log == s.log + [RequestLine(now, ValuesText(g.gameId, mapName, kind, es)),
                                                                    ExceptionLine(now)])
  {
    ValuesTextShape(g.gameId, mapName, kind, es);
    var c := Commit(s, g, mapName, kind, es, now);
    var line := RequestLine(now, ValuesText(g.gameId, mapName, kind, es));
    assert (s.log + [line])[..|s.log| + 1] == s.log + [line];
    assert (s.log + [line] + [ExceptionLine(now)])[..|s.log| + 1] == s.log + [line];
  }

  /** A quote in the map's display name breaks the statement: the game is
      marked as handled and announced, the exception is logged and the
      table keeps the previous game. */
  lemma QuotedMapNameRejected(s: State, mapNames: map<string, string>, inp: Inputs)
    requires Accepted(s, inp)
    requires !QuoteFree(MapName(mapNames, inp.fetched.value.mapKey))
    ensures var s' := Cycle(s, mapNames, inp);
            && s'.lastGameId == Some(inp.fetched.value.gameId)
            && s'.messages == s.messages + [ReloadGame]
            && s'.table == s.table
            && |s'.log| > 0 && s'.log[|s'.log| - 1] == ExceptionLine(inp.now)
  {
    var g := inp.fetched.value;
    AcceptedCommits(s, mapNames, inp);
    var rows := NewRows(mapNames, inp);
    if rows != [] {
      assert rows[0].mapName == MapName(mapNames, g.mapKey);
      assert !InsertParses(rows);
    }
    CommitOutcome(s.(log := KeptLog(s.log, inp.logReadable)), g, MapName(mapNames, g.mapKey),
                  LeaderboardKind(g.kind), Roster(inp), inp.now);
  }

  /** An accepted game is recorded and announced with one player per
      participant, in order: the participant's name (its quotes doubled)
      and profile id. */
  lemma AcceptedIsAnnounced(s: State, mapNames: map<string, string>, inp: Inputs)
    requires Accepted(s, inp)
    ensures var g := inp.fetched.value;
            var s' := Cycle(s, mapNames, inp);
            var flat := Flatten(g.teams);
            && s'.lastGameId == Some(g.gameId)
            && s'.messages == s.messages + [ReloadGame]
            && s'.payload.Some?
            && s'.payload.value.gameId == g.gameId
            && s'.payload.value.mapName == MapName(mapNames, g.mapKey)
            && s'.payload.value.playerCount == |s'.payload.value.players| == |flat| == TeamSizes(g.teams)
            && forall k :: 0 <= k < |flat| ==>
                 UndoubleQuotes(s'.payload.value.players[k].name) == flat[k].1.name &&
                 s'.payload.value.players[k].profileId == flat[k].1.profileId
  {
    var g := inp.fetched.value;
    AcceptedCommits(s, mapNames, inp);
    ResolveAllPointwise(Flatten(g.teams), LeaderboardKind(g.kind), inp.board);
  }

  /** No two participants share a name. */
  predicate DistinctNames(flat: seq<(nat, Participant)>) {
    forall i, j :: 0 <= i < j < |flat| ==> flat[i].1.name != flat[j].1.name
  }

  /** Rows of one new game with distinct players, appended to a table that
      holds no row of that game, keep the key unique. */
  lemma AppendGameDistinct(table: seq<Row>, rows: seq<Row>, gameId: string)
    requires KeysDistinct(table)
    requires forall m :: 0 <= m < |table| ==> table[m].gameId != gameId
    requires forall m :: 0 <= m < |rows| ==> rows[m].gameId == gameId
    requires forall i, j :: 0 <= i < j < |rows| ==> rows[i].player != rows[j].player
    ensures KeysDistinct(table + rows)
  {
    var all := table + rows;
    forall i, j | 0 <= i < j < |all|
      ensures (all[i].gameId, all[i].player) != (all[j].gameId, all[j].player)
    {
      if i >= |table| {
        assert all[i] == rows[i - |table|] && all[j] == rows[j - |table|];
      } else if j >= |table| {
        assert all[i] == table[i] && all[j] == rows[j - |table|];
      } else {
        assert all[i] == table[i] && all[j] == table[j];
      }
    }
  }

  /** The insert succeeds when the roster is not empty, its statement
      parses, the participants' names differ and the table holds no row of
      the game: the table is then exactly the new rows. */
  lemma CommitStoresRoster(s: State, mapNames: map<string, string>, inp: Inputs)
    requires Accepted(s, inp) && KeysDistinct(s.table) && InsertParses(NewRows(mapNames, inp))
    requires var g := inp.fetched.value;
             && Flatten(g.teams) != [] && DistinctNames(Flatten(g.teams))
             && forall m :: 0 <= m < |s.table| ==> s.table[m].gameId != g.gameId
    ensures Cycle(s, mapNames, inp).table == NewRows(mapNames, inp)
  {
    var g := inp.fetched.value;
    AcceptedCommits(s, mapNames, inp);
    var rows := NewRows(mapNames, inp);
    var flat := Flatten(g.teams);
    forall k | 0 <= k < |rows|
      ensures rows[k].gameId == g.gameId && rows[k].player == flat[k].1.name
    {
      NewRowIsParticipant(mapNames, inp, k);
    }
    AppendGameDistinct(s.table, rows, g.gameId);
    CommitOutcome(s.(log := KeptLog(s.log, inp.logReadable)), g, MapName(mapNames, g.mapKey),
                  LeaderboardKind(g.kind), Roster(inp), inp.now);
    KeepGameNoneOfGame(s.table, g.gameId);
    KeepGameAllOfGame(rows, g.gameId);
    KeepGameConcat(s.table, rows, g.gameId);
  }

  /** Row `k` of a stored roster is participant `k`: its own name, team
      number, profile id and civilization, and its rating as decimal text,
      or "--" for rating and win rate when the leaderboard listed nobody. */
  lemma NewRowIsParticipant(mapNames: map<string, string>, inp: Inputs, k: nat)
    requires inp.fetched.Fetched?
    requires var g := inp.fetched.value;
             ResolveAll(Flatten(g.teams), LeaderboardKind(g.kind), inp.board).Some?
    requires k < |Flatten(inp.fetched.value.teams)|
    ensures var g := inp.fetched.value;
            var t := NewRows(mapNames, inp);
            var p := Flatten(g.teams)[k];
            var answer := inp.board(LeaderboardKind(g.kind), p.1.profileId);
            && |t| == |Flatten(g.teams)|
            && t[k].gameId == g.gameId && t[k].player == p.1.name && t[k].team == p.0
            && t[k].profileId == p.1.profileId && t[k].civilization == p.1.civilization
            && answer.Fetched?
            && (answer.value.NoPlayers? ==> t[k].rating == Unrated && t[k].winRate == Unrated)
            && (answer.value.Ranked? ==> ParseInt(t[k].rating) == Some(answer.value.rating)
                                         && t[k].winRate == answer.value.winRate)
  {
    var g := inp.fetched.value;
    ResolveAllPointwise(Flatten(g.teams), LeaderboardKind(g.kind), inp.board);
  }

  /** Two participants with one name clash on the key (game_id, player): the
      insert raises, yet the game is already marked as handled and announced,
      and the table keeps the previous game. */
  lemma DuplicateNameMarksSeen(s: State, mapNames: map<string, string>, inp: Inputs, i: nat, j: nat)
    requires Accepted(s, inp)
    requires var flat := Flatten(inp.fetched.value.teams);
             i < j < |flat| && flat[i].1.name == flat[j].1.name
    ensures var s' := Cycle(s, mapNames, inp);
            && s'.lastGameId == Some(inp.fetched.value.gameId)
            && s'.messages == s.messages + [ReloadGame]
            && s'.table == s.table
            && |s'.log| > 0 && s'.log[|s'.log| - 1] == ExceptionLine(inp.now)
  {
    var g := inp.fetched.value;
    AcceptedCommits(s, mapNames, inp);
    var rows := NewRows(mapNames, inp);
    NewRowKey(mapNames, inp, i);
    NewRowKey(mapNames, inp, j);
    ClashBreaksKey(s.table, rows, i, j);
    CommitOutcome(s.(log := KeptLog(s.log, inp.logReadable)), g, MapName(mapNames, g.mapKey),
                  LeaderboardKind(g.kind), Roster(inp), inp.now);
  }

  /** The key of row `k` of a stored roster: the game id and participant
      `k`'s name. */
  lemma NewRowKey(mapNames: map<string, string>, inp: Inputs, k: nat)
    requires inp.fetched.Fetched?
    requires var g := inp.fetched.value;
             ResolveAll(Flatten(g.teams), LeaderboardKind(g.kind), inp.board).Some?
    requires k < |Flatten(inp.fetched.value.teams)|
    ensures |NewRows(mapNames, inp)| == |Flatten(inp.fetched.value.teams)|
    ensures NewRows(mapNames, inp)[k].gameId == inp.fetched.value.gameId
    ensures NewRows(mapNames, inp)[k].player == Flatten(inp.fetched.value.teams)[k].1.name
  {
    NewRowIsParticipant(mapNames, inp, k);
  }

  /** Two appended rows with one key break the key's uniqueness. */
  lemma ClashBreaksKey(table: seq<Row>, rows: seq<Row>, i: nat, j: nat)
    requires i < j < |rows|
    requires rows[i].gameId == rows[j].gameId && rows[i].player == rows[j].player
    ensures !KeysDistinct(table + rows)
  {
    var all := table + rows;
    assert all[|table| + i] == rows[i] && all[|table| + j] == rows[j];
  }

  lemma {:induction false} KeepGameConcat(a: seq<Row>, b: seq<Row>, gameId: string)
    ensures KeepGame(a + b, gameId) == KeepGame(a, gameId) + KeepGame(b, gameId)
    decreases |b|
  {
    if b == [] {
      assert a + b == a;
    } else {
      var init := b[..|b| - 1];
      assert (a + b)[..|a + b| - 1] == a + init;
      KeepGameConcat(a, init, gameId);
    }
  }

  /** A new game whose lookups fail only logs the exception. */
  lemma CycleLookupFails(s: State, mapNames: map<string, string>, inp: Inputs)
    requires inp.fetched.Fetched? && s.lastGameId != Some(inp.fetched.value.gameId)
    requires var g := inp.fetched.value;
             ResolveAll(Flatten(g.teams), LeaderboardKind(g.kind), inp.board).None?
    ensures Cycle(s, mapNames, inp) == s.(log := KeptLog(s.log, inp.logReadable) + [ExceptionLine(inp.now)])
  {
  }

  /** A new game whose lookups all succeed is dropped when its roster is
      incomplete and committed otherwise. */
  lemma CycleResolved(s: State, mapNames: map<string, string>, inp: Inputs, es: seq<Entry>)
    requires inp.fetched.Fetched? && s.lastGameId != Some(inp.fetched.value.gameId)
    requires var g := inp.fetched.value;
             ResolveAll(Flatten(g.teams), LeaderboardKind(g.kind), inp.board) == Some(es)
    ensures var g := inp.fetched.value;
            var s0 := s.(log := KeptLog(s.log, inp.logReadable));
            Cycle(s, mapNames, inp)
            == if RosterComplete(g.kind, |es|) then Commit(s0, g, MapName(mapNames, g.mapKey), LeaderboardKind(g.kind), es, inp.now)
               else s0
  {
  }

  /** A cycle that does not reach the commit leaves the table alone. */
  lemma RejectedKeepsTable(s: State, mapNames: map<string, string>, inp: Inputs)
    requires !Accepted(s, inp)
    ensures Cycle(s, mapNames, inp).table == s.table
  {
    if inp.fetched.Fetched? {
      var g := inp.fetched.value;
      ResolveAllPointwise(Flatten(g.teams), LeaderboardKind(g.kind), inp.board);
      FlattenLength(g.teams);
    }
  }

  /** The table invariant of the store: a unique key, and at most one
      game's rows. */
  predicate TableInvariant(rows: seq<Row>) {
    KeysDistinct(rows) && forall i, j :: 0 <= i < |rows| && 0 <= j < |rows| ==> rows[i].gameId == rows[j].gameId
  }

  /** Every cycle keeps the table invariant. */
  lemma CyclePreservesTable(s: State, mapNames: map<string, string>, inp: Inputs)
    requires TableInvariant(s.table)
    ensures TableInvariant(Cycle(s, mapNames, inp).table)
  {
    if Accepted(s, inp) {
      var g := inp.fetched.value;
      AcceptedCommits(s, mapNames, inp);
      CommitOutcome(s.(log := KeptLog(s.log, inp.logReadable)), g, MapName(mapNames, g.mapKey),
                    LeaderboardKind(g.kind), Roster(inp), inp.now);
      var all := s.table + NewRows(mapNames, inp);
      if KeysDistinct(all) {
        KeepGameDistinct(all, g.gameId);
      }
    } else {
      RejectedKeepsTable(s, mapNames, inp);
    }
  }

  // -----------------------------------------------------------------------
  // The worker loop

  /** One pass of `worker`: a cycle, a cycle cut off by the 80-second
      timeout, or the quit signal found set. */
  datatype Tick = Run(inputs: Inputs) | TimedOut(now: string, logReadable: bool, message: string) | Quit

  /** The worker over a sequence of passes; it stops at the first Quit. */
  function RunWorker(s: State, mapNames: map<string, string>, ticks: seq<Tick>): State
    decreases |ticks|
  {
    if ticks == [] then s
    else match ticks[0]
      case Quit => s
      case Run(inp) => RunWorker(Cycle(s, mapNames, inp), mapNames, ticks[1..])
      case TimedOut(now, readable, message) =>
        RunWorker(s.(log := KeptLog(s.log, readable) + [TimeoutLine(now, message)]), mapNames, ticks[1..])
  }

  /** Nothing after the quit signal has any effect. */
  lemma {:induction false} QuitStopsWorker(s: State, mapNames: map<string, string>, before: seq<Tick>, after: seq<Tick>)
    ensures RunWorker(s, mapNames, before + [Quit] + after) == RunWorker(s, mapNames, before)
    decreases |before|
  {
    if before == [] {
      assert before + [Quit] + after == [Quit] + after;
    } else {
      assert (before + [Quit] + after)[1..] == before[1..] + [Quit] + after;
      assert (before + [Quit] + after)[0] == before[0];
      match before[0]
      case Quit =>
      case Run(inp) => QuitStopsWorker(Cycle(s, mapNames, inp), mapNames, before[1..], after);
      case TimedOut(now, readable, message) =>
        QuitStopsWorker(s.(log := KeptLog(s.log, readable) + [TimeoutLine(now, message)]), mapNames, before[1..], after);
    }
  }

  /** However many passes run, the table keeps its invariant. */
  lemma {:induction false} WorkerPreservesTable(s: State, mapNames: map<string, string>, ticks: seq<Tick>)
    requires TableInvariant(s.table)
    ensures TableInvariant(RunWorker(s, mapNames, ticks).table)
    decreases |ticks|
  {
    if ticks != [] {
      match ticks[0]
      case Quit =>
      case Run(inp) =>
        CyclePreservesTable(s, mapNames, inp);
        WorkerPreservesTable(Cycle(s, mapNames, inp), mapNames, ticks[1..]);
      case TimedOut(now, readable, message) =>
        WorkerPreservesTable(s.(log := KeptLog(s.log, readable) + [TimeoutLine(now, message)]), mapNames, ticks[1..]);
    }
  }

  // -----------------------------------------------------------------------
  // Building the roster

  /** The walk over the first `i + 1` teams is the walk over the first `i`
      followed by team `i`'s members. */
  lemma FlattenSnoc(teams: seq<seq<Participant>>, i: nat)
    requires i < |teams|
    ensures Flatten(teams[..i + 1]) == Flatten(teams[..i]) + Tagged(teams[i], i + 1)
  {
    assert teams[..i + 1][..i] == teams[..i];
  }

  /** Walking one more member of the current team. */
  lemma ExtendWalk<T>(before: seq<T>, team: seq<T>, j: nat)
    requires j < |team|
    ensures before + team[..j + 1] == (before + team[..j]) + [team[j]]
  {
    assert team[..j + 1] == team[..j] + [team[j]];
  }

  /** One more successful lookup extends the walk by its entry. */
  lemma ResolveStep(done: seq<(nat, Participant)>, x: (nat, Participant), kind: string, board: Leaderboard,
                    es: seq<Entry>, e: Entry)
    requires ResolveAll(done, kind, board) == Some(es)
    requires Resolve(x.0, x.1, kind, board) == Some(e)
    ensures ResolveAll(done + [x], kind, board) == Some(es + [e])
  {
    assert (done + [x])[..|done|] == done;
  }

  /** Walking member `j` of a team whose lookup gave `e`. */
  lemma MemberStep(done: seq<(nat, Participant)>, tagged: seq<(nat, Participant)>, j: nat, kind: string,
                   board: Leaderboard, es: seq<Entry>, e: Entry, gameId: string, mapName: string)
    requires j < |tagged|
    requires ResolveAll(done + tagged[..j], kind, board) == Some(es)
    requires Resolve(tagged[j].0, tagged[j].1, kind, board) == Some(e)
    ensures ResolveAll(done + tagged[..j + 1], kind, board) == Some(es + [e])
    ensures ValuesText(gameId, mapName, kind, es + [e])
            == ValuesText(gameId, mapName, kind, es) + "," + RowTuple(gameId, mapName, kind, e)
    ensures Infos(kind, es + [e]) == Infos(kind, es) + [InfoOf(kind, e)]
    ensures Rows(gameId, mapName, kind, es + [e]) == Rows(gameId, mapName, kind, es) + [RowOf(gameId, mapName, kind, e)]
  {
    ExtendWalk(done, tagged, j);
    ResolveStep(done + tagged[..j], tagged[j], kind, board, es, e);
    BuildStep(gameId, mapName, kind, es, e);
  }

  /** One more entry extends `values`, `player_data` and the rows by its
      tuple, its element and its row. */
  lemma BuildStep(gameId: string, mapName: string, kind: string, es: seq<Entry>, e: Entry)
    ensures ValuesText(gameId, mapName, kind, es + [e])
            == ValuesText(gameId, mapName, kind, es) + "," + RowTuple(gameId, mapName, kind, e)
    ensures Infos(kind, es + [e]) == Infos(kind, es) + [InfoOf(kind, e)]
    ensures Rows(gameId, mapName, kind, es + [e]) == Rows(gameId, mapName, kind, es) + [RowOf(gameId, mapName, kind, e)]
  {
    var ts := Tuples(gameId, mapName, kind, es + [e]);
    assert ts[..|es|] == Tuples(gameId, mapName, kind, es);
    assert (es + [e])[..|es|] == es;
  }

  /** A leaderboard request that raises for member `j` of team `t` fails the
      whole walk. */
  lemma LookupFailureAborts(teams: seq<seq<Participant>>, t: nat, j: nat, kind: string, board: Leaderboard)
    requires t < |teams| && j < |teams[t]|
    requires board(kind, teams[t][j].profileId).FetchFailed?
    ensures ResolveAll(Flatten(teams), kind, board).None?
  {
    FlattenAt(teams, t, j);
    var n := TeamSizes(teams[..t]) + j + 1;
    var flat := Flatten(teams);
    assert flat[..n][..n - 1] == flat[..n - 1];
    assert flat[..n][n - 1] == (t + 1, teams[t][j]);
    ResolvePrefixFails(flat, n, kind, board);
  }

  /** The body of the inner loop for one member: the quote-doubled name,
      the leaderboard request, and `--` for both figures when the
      leaderboard lists nobody. */
  method LookupMember(number: nat, element: Participant, kind: string, board: Leaderboard) returns (entry: Option<Entry>)
    ensures entry == Resolve(number, element, kind, board)
  {
    var player := DoubleQuotes(element.name);
    var leaderboard := board(kind, element.profileId);
    if leaderboard.FetchFailed? {
      return None;
    }
    var playerMmr, winRate;
    if leaderboard.value.Ranked? {
      playerMmr, winRate := IntToString(leaderboard.value.rating), leaderboard.value.winRate;
    } else {
      playerMmr, winRate := Unrated, Unrated;
    }
    entry := Some(Entry(number, player, element.civilization, element.profileId, playerMmr, winRate));
  }

  /** The inner loop of `get_data` over the members of team `number`,
      continuing `values`, `player_data`, the rows and `player_counts` from
      the earlier teams' walk `done`; it reports the member whose
      leaderboard request raised, if any. */
  method AddTeam(team: seq<Participant>, number: nat, ghost done: seq<(nat, Participant)>, ghost es0: seq<Entry>,
                 gameId: string, mapName: string, kind: string, board: Leaderboard,
                 values0: string, playerData0: seq<PlayerInfo>, rows0: seq<Row>, counts0: nat)
    returns (failedAt: Option<nat>, values: string, playerData: seq<PlayerInfo>, rows: seq<Row>, playerCounts: nat,
             ghost es: seq<Entry>)
    requires ResolveAll(done, kind, board) == Some(es0)
    requires values0 == ValuesText(gameId, mapName, kind, es0) && playerData0 == Infos(kind, es0)
    requires rows0 == Rows(gameId, mapName, kind, es0) && counts0 == |es0|
    ensures failedAt.Some? ==> failedAt.value < |team| && board(kind, team[failedAt.value].profileId).FetchFailed?
    ensures failedAt.None? ==>
              && ResolveAll(done + Tagged(team, number), kind, board) == Some(es)
              && values == ValuesText(gameId, mapName, kind, es)
              && playerData == Infos(kind, es)
              && rows == Rows(gameId, mapName, kind, es)
              && playerCounts == |es|
  {
    values, playerData, rows, playerCounts, es := values0, playerData0, rows0, counts0, es0;
    ghost var tagged := Tagged(team, number);
    assert done + tagged[..0] == done;
    var j := 0;
    while j < |team|
      invariant 0 <= j <= |team|
      invariant ResolveAll(done + tagged[..j], kind, board) == Some(es)
      invariant values == ValuesText(gameId, mapName, kind, es)
      invariant playerData == Infos(kind, es)
      invariant rows == Rows(gameId, mapName, kind, es)
      invariant playerCounts == |es|
    {
      var element := team[j];
      playerCounts := playerCounts + 1;
      var entry := LookupMember(number, element, kind, board);
      if entry.None? {
        return Some(j), values, playerData, rows, playerCounts, es;
      }
      var e := entry.value;
      MemberStep(done, tagged, j, kind, board, es, e, gameId, mapName);
      values := values + "," + RowTuple(gameId, mapName, kind, e);
      playerData := playerData + [InfoOf(kind, e)];
      rows := rows + [RowOf(gameId, mapName, kind, e)];
      es := es + [e];
      j := j + 1;
    }
    assert tagged[..j] == tagged;
    failedAt := None;
  }

  /** The two loops of `get_data` over the teams and their members:
      `values`, `player_data`, the rows the insert stores and
      `player_counts`, or failure when a leaderboard request raises. */
  method BuildRoster(teams: seq<seq<Participant>>, gameId: string, mapName: string, kind: string, board: Leaderboard)
    returns (ok: bool, values: string, playerData: seq<PlayerInfo>, rows: seq<Row>, playerCounts: nat)
    ensures ok <==> ResolveAll(Flatten(teams), kind, board).Some?
    ensures ok ==> var es := ResolveAll(Flatten(teams), kind, board).value;
                   && values == ValuesText(gameId, mapName, kind, es)
                   && playerData == Infos(kind, es)
                   && rows == Rows(gameId, mapName, kind, es)
                   && playerCounts == |es| == TeamSizes(teams)
  {
    ok := true;
    values, playerData, rows, playerCounts := "", [], [], 0;
    ghost var es: seq<Entry> := [];
    var i := 0;
    while i < |teams|
      invariant 0 <= i <= |teams|
      invariant ResolveAll(Flatten(teams[..i]), kind, board) == Some(es)
      invariant values == ValuesText(gameId, mapName, kind, es)
      invariant playerData == Infos(kind, es)
      invariant rows == Rows(gameId, mapName, kind, es)
      invariant playerCounts == |es|
    {
      FlattenSnoc(teams, i);
      var failedAt;
      failedAt, values, playerData, rows, playerCounts, es :=
        AddTeam(teams[i], i + 1, Flatten(teams[..i]), es, gameId, mapName, kind, board,
                values, playerData, rows, playerCounts);
      if failedAt.Some? {
        LookupFailureAborts(teams, i, failedAt.value, kind, board);
        ok := false;
        return;
      }
      i := i + 1;
    }
    assert teams[..i] == teams;
    FlattenLength(teams);
    ResolveAllLength(Flatten(teams), kind, board);
  }

  // -----------------------------------------------------------------------
  // The data thread's object

  /** `Data`: the last handled game id, the `last_game` table, the log, and
      what it hands to the window (`last_game_data` and the messages of
      `on_data_change`). */
  class Data {
    const mapNames: map<string, string>
    var lastGameId: Option<string>
    var table: seq<Row>
    var log: seq<string>
    var payload: Option<GameData>
    var messages: seq<string>

    function Abs(): State
      reads this
    {
      State(lastGameId, table, log, payload, messages)
    }

    constructor (mapNames: map<string, string>, table: seq<Row>, log: seq<string>)
      ensures this.mapNames == mapNames
      ensures Abs() == State(None, table, log, None, [])
    {
      this.mapNames := mapNames;
      lastGameId := None;
      this.table := table;
      this.log := log;
      payload := None;
      messages := [];
    }

    /** `get_data`. */
    method GetData(inp: Inputs)
      modifies this
      ensures Abs() == Cycle(old(Abs()), mapNames, inp)
    {
      ghost var s := Abs();
      var counts := LogLines(log, inp.logReadable);
      if counts > LogLimit {
        log := [];
      }
      assert Abs() == s.(log := KeptLog(s.log, inp.logReadable));
      if inp.fetched.FetchFailed? {
        log := log + [ExceptionLine(inp.now)];
        return;
      }
      var g := inp.fetched.value;
      var gameId := g.gameId;
      if lastGameId == Some(gameId) {
        return;
      }
      var mapName := MapName(mapNames, g.mapKey);
      var kind := LeaderboardKind(g.kind);
      var ok, values, playerData, rows, playerCounts := BuildRoster(g.teams, gameId, mapName, kind, inp.board);
      if !ok {
        CycleLookupFails(s, mapNames, inp);
        log := log + [ExceptionLine(inp.now)];
        return;
      }
      ghost var es := ResolveAll(Flatten(g.teams), kind, inp.board).value;
      CycleResolved(s, mapNames, inp, es);
      CompletenessChain(g.kind, playerCounts);
      if (g.kind == "rm_1v1" || g.kind == "qm_1v1") && playerCounts != 2 {
        return;
      } else if (g.kind == "rm_2v2" || g.kind == "qm_2v2") && playerCounts != 4 {
        return;
      } else if (g.kind == "rm_3v3" || g.kind == "qm_3v3") && playerCounts != 6 {
        return;
      } else if (g.kind == "rm_4v4" || g.kind == "qm_4v4") && playerCounts != 8 {
        return;
      }
      CommitRoster(g, mapName, kind, values, playerData, rows, es, inp.now);
    }

    /** The end of `get_data` for an accepted roster: remember the game,
        log the values, hand the payload to the window, then insert the
        rows and delete every other game's rows, logging the exception
        instead when the insert cannot run. */
    method CommitRoster(g: Game, mapName: string, kind: string, values: string, playerData: seq<PlayerInfo>,
                        rows: seq<Row>, ghost es: seq<Entry>, now: string)
      requires values == ValuesText(g.gameId, mapName, kind, es)
      requires playerData == Infos(kind, es) && rows == Rows(g.gameId, mapName, kind, es)
      modifies this
      ensures Abs() == Commit(old(Abs()), g, mapName, kind, es, now)
    {
      lastGameId := Some(g.gameId);
      log := log + [RequestLine(now, values)];
      payload := Some(GameData(mapName, g.gameId, |playerData|, playerData, kind));
      messages := messages + [ReloadGame];
      if values == [] || !InsertParses(rows) || !KeysDistinct(table + rows) {
        log := log + [ExceptionLine(now)];
        return;
      }
      table := KeepGame(table + rows, g.gameId);
    }

    /** `worker`: cycles until the quit signal is found set. */
    method Worker(ticks: seq<Tick>)
      modifies this
      ensures Abs() == RunWorker(old(Abs()), mapNames, ticks)
    {
      var i := 0;
      while i < |ticks|
        invariant 0 <= i <= |ticks|
        invariant RunWorker(Abs(), mapNames, ticks[i..]) == RunWorker(old(Abs()), mapNames, ticks)
        decreases |ticks| - i
      {
        assert ticks[i..][1..] == ticks[i + 1..];
        match ticks[i] {
          case Quit =>
            return;
          case Run(inp) =>
            GetData(inp);
          case TimedOut(now, readable, message) =>
            if LogLines(log, readable) > LogLimit {
              log := [];
            }
            log := log + [TimeoutLine(now, message)];
        }
        i := i + 1;
      }
    }

    /** `update_player_name`: refresh the names of the six most recently
        created accounts from the web API, then ask the window to rebuild
        its account buttons. */
    method UpdatePlayerName(accounts: AccountTable, fetch: int -> NameFetch)
      requires accounts.Valid()
      modifies this`messages, accounts
      ensures accounts.Valid()
      ensures accounts.rows == RefreshNames(old(accounts.rows), RecentIds(old(accounts.rows), RefreshLimit), fetch)
      ensures messages == old(messages) + [ReloadPlayerName]
    {
      var idList := RecentIds(accounts.rows, RefreshLimit);
      var k := 0;
      while k < |idList|
        invariant 0 <= k <= |idList|
        invariant accounts.rows == RefreshNames(old(accounts.rows), idList[..k], fetch)
        invariant messages == old(messages)
      {
        var id := idList[k];
        var name: Option<string> := None;
        match fetch(id) {
          case Response(status, parsed) =>
            if status == 200 {
              name := parsed;
            }
          case RequestFailed =>
        }
        assert idList[..k + 1][..k] == idList[..k];
        if name.Some? {
          accounts.rows := Rename(accounts.rows, id, name.value);
        }
        k := k + 1;
      }
      assert idList[..k] == idList;
      RefreshNamesValid(old(accounts.rows), idList, fetch);
      messages := messages + [ReloadPlayerName];
    }
  }
}
