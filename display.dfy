// What the main window shows for a recorded game: each player's rank icon,
// looked up in the rating-threshold tables, the display form of long
// names, and the label slot each player is drawn in.
module Display {
  import opened Wrappers
  import opened Text
  import opened MatchData

  // -----------------------------------------------------------------------
  // Rank tables

  /** The team ladder: thresholds with the icon reached at each. */
  const TeamRankMap: seq<(int, string)> := [
    (1600, "team_conqueror_3"), (1500, "team_conqueror_2"), (1400, "team_conqueror_1"),
    (1350, "team_diamond_3"), (1300, "team_diamond_2"), (1200, "team_diamond_1"),
    (1150, "team_platinum_3"), (1100, "team_platinum_2"), (1000, "team_platinum_1"),
    (900, "team_gold_3"), (800, "team_gold_2"), (700, "team_gold_1"),
    (650, "team_silver_3"), (600, "team_silver_2"), (500, "team_silver_1"),
    (450, "team_bronze_3"), (400, "team_bronze_2"), (0, "team_bronze_1")]

  /** The solo ladder: the same thresholds, with the solo icons. */
  const SoloRankMap: seq<(int, string)> := [
    (1600, "solo_conqueror_3"), (1500, "solo_conqueror_2"), (1400, "solo_conqueror_1"),
    (1350, "solo_diamond_3"), (1300, "solo_diamond_2"), (1200, "solo_diamond_1"),
    (1150, "solo_platinum_3"), (1100, "solo_platinum_2"), (1000, "solo_platinum_1"),
    (900, "solo_gold_3"), (800, "solo_gold_2"), (700, "solo_gold_1"),
    (650, "solo_silver_3"), (600, "solo_silver_2"), (500, "solo_silver_1"),
    (450, "solo_bronze_3"), (400, "solo_bronze_2"), (0, "solo_bronze_1")]

  /** The icon shown for a rating that is not a number. */
  const UnrankedIcon: string := "unranked"

  predicate Descending(table: seq<(int, string)>) {
    forall i, j :: 0 <= i < j < |table| ==> table[i].0 > table[j].0
  }

  predicate StepsDown(table: seq<(int, string)>) {
    forall i :: 0 <= i < |table| - 1 ==> table[i].0 > table[i + 1].0
  }

  lemma {:induction false} StepsDownIsDescending(table: seq<(int, string)>)
    requires StepsDown(table)
    ensures Descending(table)
  {
    if |table| > 1 {
      StepsDownIsDescending(table[1..]);
      forall j | 0 < j < |table|
        ensures table[0].0 > table[j].0
      {
        if j > 1 {
          assert table[1..][0].0 > table[1..][j - 1].0;
        }
      }
    }
  }

  /** Both ladders have 18 steps with strictly falling thresholds and end
      at 0, so every rating of 0 or more reaches some step. */
  lemma RankMapsWellFormed()
    ensures |TeamRankMap| == |SoloRankMap| == 18
    ensures Descending(TeamRankMap) && Descending(SoloRankMap)
    ensures TeamRankMap[17].0 == 0 && SoloRankMap[17].0 == 0
  {
    StepsDownIsDescending(TeamRankMap);
    StepsDownIsDescending(SoloRankMap);
  }

  /** The two ladders share their thresholds step by step. */
  lemma LaddersShareThresholds()
    ensures |TeamRankMap| == |SoloRankMap|
    ensures forall k :: 0 <= k < |TeamRankMap| ==> TeamRankMap[k].0 == SoloRankMap[k].0
  {
  }

  /** The ladder a game's player count selects: team above two players. */
  function RankMapFor(gameMode: int): seq<(int, string)> {
    if gameMode > 2 then TeamRankMap else SoloRankMap
  }

  /** The position of the first threshold a rating reaches. */
  function FirstReached(table: seq<(int, string)>, n: int): (r: Option<nat>)
    ensures r.Some? ==> r.value < |table| && table[r.value].0 <= n
    ensures r.Some? ==> forall k :: 0 <= k < r.value ==> table[k].0 > n
    ensures r.None? ==> forall k :: 0 <= k < |table| ==> table[k].0 > n
  {
    if table == [] then None
    else if table[0].0 <= n then Some(0)
    else match FirstReached(table[1..], n)
      case Some(i) => Some(i + 1)
      case None => None
  }

  /** The outcome of `player_rank`: an icon name, or the error raised when
      no threshold is reached and the icon variable was never bound. */
  datatype RankResult = Rank(name: string) | Unbound

  /** The scan of one ladder for a rating text. */
  function LadderRank(table: seq<(int, string)>, mmr: string): RankResult {
    match ParseInt(mmr)
    case None => if table == [] then Unbound else Rank(UnrankedIcon)
    case Some(n) =>
      match FirstReached(table, n)
      case Some(i) => Rank(table[i].1)
      case None => Unbound
  }

  /** `player_rank` as a function of the rating text and the game mode. */
  function RankOf(mmr: string, gameMode: int): RankResult {
    LadderRank(RankMapFor(gameMode), mmr)
  }

  /** The loop of `player_rank` over one ladder: stop at the first
      threshold the rating reaches; every step whose `int()` raises records
      "unranked". */
  method ScanLadder(table: seq<(int, string)>, mmr: string) returns (rank: RankResult)
    ensures rank == LadderRank(table, mmr)
  {
    var bound: Option<string> := None;
    var i := 0;
    while i < |table|
      invariant 0 <= i <= |table|
      invariant ParseInt(mmr).None? ==> bound == (if i == 0 then None else Some(UnrankedIcon))
      invariant ParseInt(mmr).Some? ==> bound.None? && forall k :: 0 <= k < i ==> table[k].0 > ParseInt(mmr).value
    {
      var parsed := ParseInt(mmr);
      if parsed.None? {
        bound := Some(UnrankedIcon);
      } else if parsed.value >= table[i].0 {
        bound := Some(table[i].1);
        break;
      }
      i := i + 1;
    }
    rank := if bound.Some? then Rank(bound.value) else Unbound;
  }

  /** `player_rank`: the team ladder above two players, the solo ladder
      otherwise. */
  method PlayerRank(mmr: string, gameMode: int) returns (rank: RankResult)
    ensures rank == RankOf(mmr, gameMode)
  {
    var table := if gameMode > 2 then TeamRankMap else SoloRankMap;
    rank := ScanLadder(table, mmr);
  }

  /** A rating of 0 or more gets the icon of the step whose band holds it:
      at or above the step's threshold and below the previous step's. */
  lemma RankBand(n: int, gameMode: int)
    requires n >= 0
    ensures var table := RankMapFor(gameMode);
            exists i :: 0 <= i < |table| && RankOf(IntToString(n), gameMode) == Rank(table[i].1)
                        && table[i].0 <= n && (i == 0 || n < table[i - 1].0)
  {
    IntRoundTrip(n);
    RankMapsWellFormed();
    var table := RankMapFor(gameMode);
    var i := FirstReached(table, n).value;
    assert i == 0 || n < table[i - 1].0;
  }

  /** A negative rating reaches no step: `player_rank` raises. */
  lemma NegativeRatingUnbound(n: int, gameMode: int)
    requires n < 0
    ensures RankOf(IntToString(n), gameMode) == Unbound
  {
    IntRoundTrip(n);
    RankMapsWellFormed();
    var table := RankMapFor(gameMode);
    assert table[17].0 > n;
  }

  /** A rating that is not a number, such as the "--" of a player the
      leaderboard does not list, shows the "unranked" icon. */
  lemma UnratedIsUnranked(gameMode: int)
    ensures RankOf(Unrated, gameMode) == Rank(UnrankedIcon)
  {
    assert !AllDigits(Unrated[1..]) by {
      assert !IsDigit(Unrated[1..][0]);
    }
  }

  /** A higher rating never shows a lower step. */
  lemma RankMonotone(n: int, m: int, gameMode: int)
    requires 0 <= n <= m
    ensures var table := RankMapFor(gameMode);
            FirstReached(table, n).Some? && FirstReached(table, m).Some? &&
            FirstReached(table, m).value <= FirstReached(table, n).value
  {
    RankMapsWellFormed();
    var table := RankMapFor(gameMode);
    assert table[17].0 <= n;
  }

  // -----------------------------------------------------------------------
  // Long names

  /** A character of the CJK Unified Ideographs block U+4E00..U+9FA5. */
  predicate IsHan(c: char) {
    '\U{4E00}' <= c <= '\U{9FA5}'
  }

  /** `has_chinese`: the name holds a character of that block. */
  function HasChinese(s: string): (r: bool)
    ensures r <==> exists k :: 0 <= k < |s| && IsHan(s[k])
  {
    if s == [] then false
    else if IsHan(s[0]) then true
    else
      var rest := HasChinese(s[1..]);
      assert forall k :: 1 <= k < |s| ==> s[k] == s[1..][k - 1];
      rest
  }

  /** How many characters of a name the main window shows before "...". */
  function MainLimit(s: string): nat {
    if HasChinese(s) then 10 else 25
  }

  /** How many characters of a name fit on an account button. */
  function ButtonLimit(s: string): nat {
    if HasChinese(s) then 9 else 18
  }

  /** `islongname`: a name longer than its limit is cut to the limit and
      followed by "...". */
  function IsLongName(s: string): (r: string)
    ensures |s| <= MainLimit(s) ==> r == s
    ensures |s| > MainLimit(s) ==> |r| == MainLimit(s) + 3 && r[..MainLimit(s)] <= s && r[MainLimit(s)..] == "..."
  {
    if HasChinese(s) then
      if |s| > 10 then s[0..10] + "..." else s
    else
      if |s| > 25 then s[0..25] + "..." else s
  }

  /** `islongname_button`: whether a name is too long for its button. */
  function IsLongNameButton(s: string): bool {
    if HasChinese(s) then |s| > 9 else |s| > 18
  }

  /** A name is shown in at most 13 characters when it holds a Han
      character and 28 otherwise, and what is shown starts like the name. */
  lemma ShownNameBounds(s: string)
    ensures |IsLongName(s)| <= (if HasChinese(s) then 13 else 28)
    ensures IsLongName(s) == s || IsLongName(s)[..|IsLongName(s)| - 3] <= s
  {
  }

  /** Shortening twice shows the same as shortening once. */
  lemma IsLongNameIdempotent(s: string)
    ensures IsLongName(IsLongName(s)) == IsLongName(s)
  {
    var r := IsLongName(s);
    if r != s {
      var n := MainLimit(s);
      assert |r| == n + 3;
      if HasChinese(r) {
        assert r[..10] == r[..n];
      } else {
        assert |r| <= 28;
        if |r| > 25 {
          assert n == 25 && r[..25] == s[..25];
        }
      }
    }
  }

  /** A name the main window cuts short is also too long for its button. */
  lemma ButtonFlagsShortenedNames(s: string)
    ensures IsLongName(s) != s ==> IsLongNameButton(s)
    ensures IsLongNameButton(s) <==> |s| > ButtonLimit(s)
    ensures ButtonLimit(s) < MainLimit(s)
  {
  }

  // -----------------------------------------------------------------------
  // Slots of the main window

  /** The player counts `gui_reload` lays out. */
  predicate KnownLayout(count: int) {
    count == 2 || count == 4 || count == 6 || count == 8
  }

  /** One step of the slot counter of `gui_reload`: the next slot, except
      that the first slot the left column does not use jumps to slot 5. */
  function NextSlot(count: int, i: int): int {
    var j := i + 1;
    if (count == 6 && j == 4) || (count == 4 && j == 3) || (count == 2 && j == 2) then 5 else j
  }

  /** The label slot of player `k`: the counter after `k + 1` steps. */
  function SlotOf(count: int, k: nat): int {
    NextSlot(count, if k == 0 then 0 else SlotOf(count, k - 1))
  }

  /** The layout the counter is meant to produce: the first half of the
      roster fills the left column from slot 1, the second half the right
      column from slot 5. */
  function ColumnSlot(count: int, k: int): int {
    if k < count / 2 then k + 1 else k - count / 2 + 5
  }

  /** The counter produces the column layout for every known player count
      and every player of the game. */
  lemma {:induction false} SlotClosedForm(count: int, k: nat)
    requires KnownLayout(count) && k < count
    ensures SlotOf(count, k) == ColumnSlot(count, k)
  {
    if k > 0 {
      SlotClosedForm(count, k - 1);
    }
  }

  /** Every known layout puts its players in distinct slots among 1..8, the
      first team on the left (1..4) and the second on the right (5..8). */
  lemma SlotLayout(count: int)
    requires KnownLayout(count)
    ensures forall k: nat :: k < count ==> 1 <= SlotOf(count, k) <= 8
    ensures forall k: nat :: k < count ==> (SlotOf(count, k) <= 4 <==> k < count / 2)
    ensures forall j: nat, k: nat :: j < k < count ==> SlotOf(count, j) < SlotOf(count, k)
  {
    forall k: nat | k < count ensures SlotOf(count, k) == ColumnSlot(count, k) {
      SlotClosedForm(count, k);
    }
  }

  /** The four layouts spelled out. */
  lemma SlotLayoutExamples()
    ensures seq(8, k requires 0 <= k => SlotOf(8, k)) == [1, 2, 3, 4, 5, 6, 7, 8]
    ensures seq(6, k requires 0 <= k => SlotOf(6, k)) == [1, 2, 3, 5, 6, 7]
    ensures seq(4, k requires 0 <= k => SlotOf(4, k)) == [1, 2, 5, 6]
    ensures seq(2, k requires 0 <= k => SlotOf(2, k)) == [1, 5]
  {
    SlotLayout(8);
    SlotLayout(6);
    SlotLayout(4);
    SlotLayout(2);
  }

  /** What one slot shows: the name as written there, the civilization
      whose icon is drawn, the rank icon when the game is ranked, and
      whether the player is the tracked account (drawn in red). */
  datatype SlotView = SlotView(slot: int, name: string, civilization: string, rank: Option<RankResult>, own: bool)

  /** The view of player `k` of a game of `count` players. */
  function ViewOf(count: int, k: nat, p: PlayerInfo, trackedId: Option<int>): SlotView {
    SlotView(SlotOf(count, k),
             if count == 8 then IsLongName(p.name) else p.name,
             p.civilization,
             if Contains(p.kind, "rm") then Some(RankOf(p.rating, count)) else None,
             trackedId == Some(p.profileId))
  }

  /** The views of the players in order. */
  function Layout(count: int, players: seq<PlayerInfo>, trackedId: Option<int>): seq<SlotView> {
    if players == [] then []
    else Layout(count, players[..|players| - 1], trackedId)
         + [ViewOf(count, |players| - 1, players[|players| - 1], trackedId)]
  }

  /** Player `k` is drawn as its own view, in its own slot. */
  lemma {:induction false} LayoutAt(count: int, players: seq<PlayerInfo>, trackedId: Option<int>, k: nat)
    requires k < |players|
    ensures |Layout(count, players, trackedId)| == |players|
    ensures Layout(count, players, trackedId)[k] == ViewOf(count, k, players[k], trackedId)
  {
    var init := players[..|players| - 1];
    if k < |init| {
      LayoutAt(count, init, trackedId, k);
    } else if init != [] {
      LayoutAt(count, init, trackedId, 0);
    }
  }

  /** A sequence holding each of the first players' views in turn is the
      start of the layout. */
  lemma LayoutPrefix(count: int, players: seq<PlayerInfo>, trackedId: Option<int>, views: seq<SlotView>)
    requires |views| <= |players|
    requires forall k :: 0 <= k < |views| ==> views[k] == ViewOf(count, k, players[k], trackedId)
    ensures |Layout(count, players, trackedId)| == |players|
    ensures views == Layout(count, players, trackedId)[..|views|]
  {
    if players != [] {
      LayoutAt(count, players, trackedId, 0);
    }
    var v := Layout(count, players, trackedId);
    forall k | 0 <= k < |views|
      ensures views[k] == v[k]
    {
      LayoutAt(count, players, trackedId, k);
    }
  }

  /** The rank lookup of a slot raises exactly when the rating is a
      negative number: any other number reaches the last threshold, 0, and
      text that is not a number shows the "unranked" icon. */
  lemma RankUnboundIffNegative(mmr: string, gameMode: int)
    ensures RankOf(mmr, gameMode) == Unbound <==> ParseInt(mmr).Some? && ParseInt(mmr).value < 0
  {
    RankMapsWellFormed();
    var table := RankMapFor(gameMode);
    if ParseInt(mmr).Some? {
      var n := ParseInt(mmr).value;
      if n < 0 && FirstReached(table, n).Some? {
        assert false;
      } else if n >= 0 && FirstReached(table, n).None? {
        assert false;
      }
    }
  }

  /** The slot where `player_rank` raises: its name, civilization and
      colour are already drawn and its rank view is shown still holding
      the previous icon. */
  predicate Raises(v: SlotView) {
    v.rank == Some(Unbound)
  }

  /** The position of the first slot whose rank lookup raises. */
  function FirstRaise(views: seq<SlotView>): (r: Option<nat>)
    ensures r.Some? ==> r.value < |views| && Raises(views[r.value])
    ensures r.Some? ==> forall k :: 0 <= k < r.value ==> !Raises(views[k])
    ensures r.None? ==> forall k :: 0 <= k < |views| ==> !Raises(views[k])
  {
    if views == [] then None
    else if Raises(views[0]) then Some(0)
    else match FirstRaise(views[1..])
      case Some(i) => Some(i + 1)
      case None => None
  }

  /** What the "reload game" branch leaves behind: the map label, the
      slots drawn in order, and whether it got as far as showing the
      window and starting its hide timer. */
  datatype Redraw = Redraw(mapName: string, views: seq<SlotView>, shown: bool)

  /** `gui_reload` on "reload game": the map label is set first; for a
      known player count the slots are drawn in order up to and including
      the first whose rank lookup raises, which ends the call before the
      window is shown; other player counts draw no slot and show the
      window. */
  function Redrawn(data: GameData, trackedId: Option<int>): Redraw {
    if !KnownLayout(data.playerCount) then Redraw(data.mapName, [], true)
    else
      var v := Layout(data.playerCount, data.players, trackedId);
      match FirstRaise(v)
      case Some(k) => Redraw(data.mapName, v[..k + 1], false)
      case None => Redraw(data.mapName, v, true)
  }

  /** Views drawn in order that end at the first raising slot are what
      `gui_reload` leaves, and the window is not shown. */
  lemma RaiseEndsRedraw(data: GameData, trackedId: Option<int>, views: seq<SlotView>)
    requires KnownLayout(data.playerCount)
    requires 0 < |views| <= |data.players|
    requires forall k :: 0 <= k < |views| ==> views[k] == ViewOf(data.playerCount, k, data.players[k], trackedId)
    requires forall k :: 0 <= k < |views| - 1 ==> !Raises(views[k])
    requires Raises(views[|views| - 1])
    ensures Redrawn(data, trackedId) == Redraw(data.mapName, views, false)
  {
    LayoutPrefix(data.playerCount, data.players, trackedId, views);
    var v := Layout(data.playerCount, data.players, trackedId);
    var f := FirstRaise(v);
    assert forall k :: 0 <= k < |views| ==> v[k] == views[k];
    assert f.Some? && f.value == |views| - 1;
  }

  /** Every player drawn without a raise: the whole layout is left and the
      window is shown. */
  lemma CompleteRedraw(data: GameData, trackedId: Option<int>, views: seq<SlotView>)
    requires KnownLayout(data.playerCount)
    requires |views| == |data.players|
    requires forall k :: 0 <= k < |views| ==> views[k] == ViewOf(data.playerCount, k, data.players[k], trackedId)
    requires forall k :: 0 <= k < |views| ==> !Raises(views[k])
    ensures Redrawn(data, trackedId) == Redraw(data.mapName, views, true)
  {
    LayoutPrefix(data.playerCount, data.players, trackedId, views);
    var v := Layout(data.playerCount, data.players, trackedId);
    assert v == views;
  }

  /** The name and rank icon one slot of `gui_reload` shows. */
  method SlotContent(gameMode: int, p: PlayerInfo) returns (player: string, rank: Option<RankResult>)
    ensures player == ViewOf(gameMode, 0, p, None).name
    ensures rank == ViewOf(gameMode, 0, p, None).rank
  {
    player := p.name;
    if gameMode == 8 {
      player := IsLongName(player);
    }
    rank := None;
    if Contains(p.kind, "rm") {
      var r := PlayerRank(p.rating, gameMode);
      rank := Some(r);
    }
  }

  /** One pass of the loop of `gui_reload`: advance the slot counter and
      fill that slot with the player's view. */
  method DrawSlot(gameMode: int, prev: int, ghost n: nat, p: PlayerInfo, trackedId: Option<int>)
    returns (i: int, view: SlotView)
    requires prev == if n == 0 then 0 else SlotOf(gameMode, n - 1)
    ensures i == SlotOf(gameMode, n)
    ensures view == ViewOf(gameMode, n, p, trackedId)
  {
    i := prev + 1;
    if (gameMode == 6 && i == 4) || (gameMode == 4 && i == 3) || (gameMode == 2 && i == 2) {
      i := 5;
    }
    var player, rank := SlotContent(gameMode, p);
    view := SlotView(i, player, p.civilization, rank, trackedId == Some(p.profileId));
  }

  /** The "reload game" branch of `gui_reload`: set the map label, walk
      the players with the slot counter, skipping from the last left slot
      to slot 5, and show the window. Player counts other than 2, 4, 6 and
      8 draw no slot. The first slot whose rank lookup raises ends the
      call there. */
  method GuiReload(data: GameData, trackedId: Option<int>) returns (r: Redraw)
    ensures r == Redrawn(data, trackedId)
  {
    var gameMode := data.playerCount;
    var views := [];
    if gameMode == 8 || gameMode == 6 || gameMode == 4 || gameMode == 2 {
      var i := 0;
      var n := 0;
      while n < |data.players|
        invariant 0 <= n <= |data.players|
        invariant i == (if n == 0 then 0 else SlotOf(gameMode, n - 1))
        invariant |views| == n
        invariant forall k :: 0 <= k < n ==> views[k] == ViewOf(gameMode, k, data.players[k], trackedId)
        invariant forall k :: 0 <= k < n ==> !Raises(views[k])
      {
        var view;
        i, view := DrawSlot(gameMode, i, n, data.players[n], trackedId);
        views := views + [view];
        n := n + 1;
        if view.rank == Some(Unbound) {
          RaiseEndsRedraw(data, trackedId, views);
          return Redraw(data.mapName, views, false);
        }
      }
      CompleteRedraw(data, trackedId, views);
    }
    r := Redraw(data.mapName, views, true);
  }

  /** A recorded game is drawn one player per slot: player `k` in slot
      `SlotOf(count, k)`, its name shortened only in eight-player games, its
      rank icon only in ranked games, and marked when it is the tracked
      account; every drawn slot but a raising last one has a rank icon. */
  lemma RecordedGameLayout(data: GameData, trackedId: Option<int>, k: nat)
    requires data.playerCount == |data.players| && KnownLayout(data.playerCount)
    requires k < |data.players| && k < |Redrawn(data, trackedId).views|
    ensures var d := Redrawn(data, trackedId);
            var v := d.views;
            var p := data.players[k];
            && |v| <= |data.players|
            && 1 <= v[k].slot <= 8
            && (v[k].slot <= 4 <==> k < data.playerCount / 2)
            && v[k].name == (if data.playerCount == 8 then IsLongName(p.name) else p.name)
            && (v[k].rank.Some? <==> Contains(p.kind, "rm"))
            && (v[k].rank.Some? ==> v[k].rank.value == RankOf(p.rating, data.playerCount))
            && (v[k].own <==> trackedId == Some(p.profileId))
            && (Raises(v[k]) ==> k == |v| - 1 && !d.shown)
  {
    var v := Layout(data.playerCount, data.players, trackedId);
    LayoutAt(data.playerCount, data.players, trackedId, k);
    SlotLayout(data.playerCount);
  }

  /** A ranked player with a negative rating ends the redraw at that
      player's slot, and the window is never shown. */
  lemma NegativeRatingStopsRedraw(data: GameData, trackedId: Option<int>, k: nat, n: int)
    requires KnownLayout(data.playerCount) && k < |data.players|
    requires Contains(data.players[k].kind, "rm")
    requires data.players[k].rating == IntToString(n) && n < 0
    ensures !Redrawn(data, trackedId).shown
    ensures |Redrawn(data, trackedId).views| <= k + 1
  {
    NegativeRatingUnbound(n, data.playerCount);
    var v := Layout(data.playerCount, data.players, trackedId);
    LayoutAt(data.playerCount, data.players, trackedId, k);
    assert Raises(v[k]);
  }

  /** With no ranked player rated below zero, every player is drawn and
      the window is shown. */
  lemma NoNegativeRatingRedrawsAll(data: GameData, trackedId: Option<int>)
    requires KnownLayout(data.playerCount)
    requires forall k :: 0 <= k < |data.players| && Contains(data.players[k].kind, "rm") ==>
               ParseInt(data.players[k].rating).None? || ParseInt(data.players[k].rating).value >= 0
    ensures Redrawn(data, trackedId) == Redraw(data.mapName, Layout(data.playerCount, data.players, trackedId), true)
  {
    var v := Layout(data.playerCount, data.players, trackedId);
    forall k | 0 <= k < |data.players|
      ensures k < |v| && !Raises(v[k])
    {
      LayoutAt(data.playerCount, data.players, trackedId, k);
      RankUnboundIffNegative(data.players[k].rating, data.playerCount);
    }
    if data.players == [] {
      assert v == [];
    } else {
      LayoutAt(data.playerCount, data.players, trackedId, 0);
    }
  }
}
