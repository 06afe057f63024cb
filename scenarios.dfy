/** Example runs of the model: the matchmaking runs of
    src/tests/integration_test.rs, a best-of-three (rock beats scissors,
    then paper beats rock, then a drawn third round ends it 1-1), and
    properties a client of the manager relies on. */
module Scenarios {
  import opened Outcomes
  import opened Game
  import opened Messages
  import opened Rooms
  import opened Matchmaking

  /** A manager that has done nothing reports no rooms, no games and nobody
      waiting. */
  method FreshManagerStats() returns (total: nat, active: nat, waiting: nat)
    ensures total == 0 && active == 0 && waiting == 0
  {
    var manager := new GameManager(DefaultConfig());
    total, active, waiting := manager.GetStats();
  }

  /** Two players ask for a match: the first waits, the second is matched,
      and the manager then reports one room, one game being played and
      nobody waiting. */
  method BasicGameFlow() returns (first: ServerMessage, second: ServerMessage, total: nat, active: nat, waiting: nat)
    ensures first == Matchmaking(false, Some(true), None)
    ensures second.Matchmaking? && second.matched
    ensures total == 1 && active == 1 && waiting == 0
  {
    var manager := new GameManager(DefaultConfig());
    first := manager.FindMatch("test_player_1", "room-a");
    second := manager.FindMatch("test_player_2", "room-b");
    PairedRoomWithDefaults("test_player_1", "test_player_2");
    assert manager.PlayingRooms() == {"room-b"};
    total, active, waiting := manager.GetStats();
  }

  /** The final winner of a finished game: a unique leader wins. */
  lemma UniqueLeaderWins(s: map<PlayerId, nat>, a: PlayerId, b: PlayerId)
    requires a != b && s.Keys == {a, b} && s[a] > s[b]
    ensures FinalWinner(s) == Some(a)
  {
    assert IsUniqueTop(s, a);
  }

  /** A shared top score between the two players is a drawn game. */
  lemma NoWinnerOnTie(s: map<PlayerId, nat>, a: PlayerId, b: PlayerId)
    requires a != b && s.Keys == {a, b} && s[a] == s[b]
    ensures FinalWinner(s) == None
  {
    forall p | p in s ensures !IsUniqueTop(s, p) {
      var other := if p == a then b else a;
      assert other in s && s[other] == s[p];
    }
  }

  /** A two-player game in progress waiting for both moves of a round. */
  ghost predicate AwaitingRound(v: RoomView, cfg: GameConfig)
  {
    Consistent(v, cfg) && v.status == Playing && v.moves == map[]
    && |v.players| == 2 && v.players[0] != v.players[1]
  }

  /** Such a game once both players have moved, the first player first. */
  ghost function Moved(v: RoomView, cfg: GameConfig, first: GameChoice, second: GameChoice, now: int): (r: RoomView)
    requires AwaitingRound(v, cfg)
    ensures Consistent(r, cfg) && RoundReady(r)
  {
    v.(moves := map[v.players[0] := PlayerMove(first, now), v.players[1] := PlayerMove(second, now + 1)])
  }

  /** Submitting the two moves in turn reaches `Moved`, and only the second
      submission reports the round ready. */
  lemma SubmissionsReachMoved(v: RoomView, cfg: GameConfig, first: GameChoice, second: GameChoice, now: int)
    requires AwaitingRound(v, cfg)
    ensures var afterFirst := SubmitMoveStep(v, v.players[0], PlayerMove(first, now));
      && !afterFirst.1
      && SubmitMoveStep(afterFirst.0, v.players[1], PlayerMove(second, now + 1)) == (Moved(v, cfg, first, second, now), true)
  {
    var afterFirst := SubmitMoveStep(v, v.players[0], PlayerMove(first, now));
    assert afterFirst.0.moves.Keys == {v.players[0]};
    assert afterFirst.0 == v.(moves := map[v.players[0] := PlayerMove(first, now)]);
    var afterSecond := SubmitMoveStep(afterFirst.0, v.players[1], PlayerMove(second, now + 1));
    assert afterSecond.0.moves.Keys == {v.players[0], v.players[1]};
  }

  /** One round of such a game: both players move and the round is
      resolved. */
  ghost function Played(v: RoomView, cfg: GameConfig, first: GameChoice, second: GameChoice, now: int): (r: RoomView)
    requires AwaitingRound(v, cfg)
    ensures Consistent(r, cfg) && r.players == v.players
  {
    ResolveRound(Moved(v, cfg, first, second, now), cfg).value.next
  }

  /** A played round gives a player one point exactly when its choice beats
      the other one. */
  lemma PlayedScores(v: RoomView, cfg: GameConfig, first: GameChoice, second: GameChoice, now: int)
    requires AwaitingRound(v, cfg)
    ensures var r := Played(v, cfg, first, second, now);
      && r.scores.Keys == v.scores.Keys
      && r.scores[v.players[0]] == v.scores[v.players[0]] + (if Beats(first, second) then 1 else 0)
      && r.scores[v.players[1]] == v.scores[v.players[1]] + (if Beats(second, first) then 1 else 0)
  {
    var m := Moved(v, cfg, first, second, now);
    assert ChoiceOf(m, 0) == first && ChoiceOf(m, 1) == second;
    ResolveRoundScores(m, cfg);
  }

  /** After a played round the game ends once one of the two players has
      two points or the last round was played; otherwise it waits for the
      next round. */
  lemma PlayedEndsOrAdvances(v: RoomView, cfg: GameConfig, first: GameChoice, second: GameChoice, now: int)
    requires AwaitingRound(v, cfg)
    ensures var r := Played(v, cfg, first, second, now);
      var ended := r.scores[v.players[0]] >= WinningScore || r.scores[v.players[1]] >= WinningScore
                   || v.currentRound >= cfg.maxRounds;
      && (ended ==> r.status == Finished && r.currentRound == v.currentRound)
      && (!ended ==> AwaitingRound(r, cfg) && r.currentRound == v.currentRound + 1)
  {
    var m := Moved(v, cfg, first, second, now);
    ResolveRoundEndsOrAdvances(m, cfg);
    var r := Played(v, cfg, first, second, now);
    TwoPlayerKeys(r, cfg);
    ReachedOnePair(r.scores, v.players[0], v.players[1]);
  }

  /** Over two keys, some score reaches the winning score exactly when one
      of the two does. */
  lemma ReachedOnePair(s: map<PlayerId, nat>, p0: PlayerId, p1: PlayerId)
    requires s.Keys == {p0, p1}
    ensures (exists q :: q in s && s[q] >= WinningScore) <==> s[p0] >= WinningScore || s[p1] >= WinningScore
  {
  }

  /** In a consistent two-player room the score table holds exactly the two
      players. */
  lemma TwoPlayerKeys(v: RoomView, cfg: GameConfig)
    requires Consistent(v, cfg) && |v.players| == 2
    ensures v.scores.Keys == {v.players[0], v.players[1]}
  {
    forall q | q in v.scores ensures q == v.players[0] || q == v.players[1] {
      assert q in v.players;
    }
  }

  /** Round one of a best-of-three under the default configuration: the
      first player's rock beats the second's scissors, 1-0. */
  lemma FirstRound(v: RoomView)
    requires v == PairedRoom(DefaultConfig(), "p1", "p2")
    ensures AwaitingRound(v, DefaultConfig())
    ensures var r := Played(v, DefaultConfig(), Rock, Scissors, 0);
      && AwaitingRound(r, DefaultConfig()) && r.players == ["p1", "p2"]
      && r.scores["p1"] == 1 && r.scores["p2"] == 0 && r.currentRound == 2
  {
    PairedRoomWithDefaults("p1", "p2");
    PlayedScores(v, DefaultConfig(), Rock, Scissors, 0);
    PlayedEndsOrAdvances(v, DefaultConfig(), Rock, Scissors, 0);
  }

  /** Round two: the second player's paper beats the first's rock, 1-1. */
  lemma SecondRound(v: RoomView)
    requires AwaitingRound(v, DefaultConfig()) && v.players == ["p1", "p2"]
    requires v.scores["p1"] == 1 && v.scores["p2"] == 0 && v.currentRound == 2
    ensures var r := Played(v, DefaultConfig(), Rock, Paper, 2);
      && AwaitingRound(r, DefaultConfig()) && r.players == ["p1", "p2"]
      && r.scores["p1"] == 1 && r.scores["p2"] == 1 && r.currentRound == 3
  {
    PlayedScores(v, DefaultConfig(), Rock, Paper, 2);
    PlayedEndsOrAdvances(v, DefaultConfig(), Rock, Paper, 2);
  }

  /** Round three: both play scissors; the last round was played, so the
      game ends 1-1, without a winner. */
  lemma ThirdRound(v: RoomView)
    requires AwaitingRound(v, DefaultConfig()) && v.players == ["p1", "p2"]
    requires v.scores["p1"] == 1 && v.scores["p2"] == 1 && v.currentRound == 3
    ensures var r := Played(v, DefaultConfig(), Scissors, Scissors, 4);
      && r.status == Finished && r.currentRound == 3
      && r.scores.Keys == {"p1", "p2"} && r.scores["p1"] == 1 && r.scores["p2"] == 1
      && FinalWinner(r.scores) == None
  {
    PlayedScores(v, DefaultConfig(), Scissors, Scissors, 4);
    PlayedEndsOrAdvances(v, DefaultConfig(), Scissors, Scissors, 4);
    TwoPlayerKeys(v, DefaultConfig());
    var r := Played(v, DefaultConfig(), Scissors, Scissors, 4);
    NoWinnerOnTie(r.scores, "p1", "p2");
  }

  /** `GameRoom` playing one such round: both moves are submitted, the
      second reports the round ready, and the round is processed. */
  method PlayRound(room: GameRoom, first: GameChoice, second: GameChoice, now: int)
    requires room.Valid() && AwaitingRound(room.View(), room.config)
    modifies room
    ensures room.Valid()
    ensures room.View() == Played(old(room.View()), room.config, first, second, now)
  {
    SubmissionsReachMoved(room.View(), room.config, first, second, now);
    var ready := room.SubmitMove(room.players[0], first, now);
    ready := room.SubmitMove(room.players[1], second, now + 1);
    var outcome := room.ProcessRound();
  }

  /** The same best-of-three played on a `GameRoom` built as `create_match`
      builds one. */
  method BestOfThree() returns (status: GameStatus, round: nat, scores: map<PlayerId, nat>)
    ensures status == Finished && round == 3
    ensures scores.Keys == {"p1", "p2"} && scores["p1"] == 1 && scores["p2"] == 1
  {
    var room := new GameRoom("room", DefaultConfig());
    var _ := room.AddPlayer("p1");
    var _ := room.AddPlayer("p2");
    room.StartGame();
    FirstRound(room.View());
    PlayRound(room, Rock, Scissors, 0);
    SecondRound(room.View());
    PlayRound(room, Rock, Paper, 2);
    ThirdRound(room.View());
    PlayRound(room, Scissors, Scissors, 4);
    status, round, scores := room.status, room.currentRound, room.scores;
  }

  /** A manager in which "p1" waited and "p2" was then matched with it in
      room "room-b". */
  method MatchedPair() returns (manager: GameManager)
    ensures fresh(manager) && manager.Valid()
    ensures manager.waitingQueue == []
    ensures manager.playerRooms == map["p1" := "room-b", "p2" := "room-b"]
    ensures manager.rooms.Keys == {"room-b"} && fresh(manager.rooms["room-b"])
    ensures manager.rooms["room-b"].players == ["p1", "p2"]
    ensures manager.rooms["room-b"].status == Playing
  {
    manager := new GameManager(DefaultConfig());
    var _ := manager.FindMatch("p1", "room-a");
    var _ := manager.FindMatch("p2", "room-b");
    PairedRoomWithDefaults("p1", "p2");
  }

  /** A matched player leaves before moving: its room is unregistered and
      its players are told who left; the opponent is still mapped to the
      gone room, so its next move is not submitted. */
  method OpponentLeaves() returns (r: Result<bool>, total: nat, ghost told: Broadcast)
    ensures told == Broadcast(["p1", "p2"], PlayerLeft("p1"))
    ensures r == Ok(false) && total == 0
  {
    var manager := MatchedPair();
    ghost var room := manager.rooms["room-b"];
    manager.RemovePlayer("p1");
    told := room.outbox[|room.outbox| - 1];
    assert manager.playerRooms == map["p2" := "room-b"] && manager.rooms == map[];
    r := manager.SubmitMove("p2", Rock, 0);
    var active, waiting;
    total, active, waiting := manager.GetStats();
  }

  /** Once a matched player has left, its opponent's moves are no longer
      submitted: the opponent's mapping survives but names a room that is
      gone. */
  method MoveAfterOpponentLeft(manager: GameManager, leaver: PlayerId, opponent: PlayerId,
                               choice: GameChoice, now: int) returns (r: Result<bool>)
    requires manager.Valid() && leaver != opponent
    requires leaver in manager.playerRooms && opponent in manager.playerRooms
    requires manager.playerRooms[opponent] == manager.playerRooms[leaver]
    modifies manager, manager.rooms.Values
    ensures r == Ok(false)
  {
    manager.RemovePlayer(leaver);
    r := manager.SubmitMove(opponent, choice, now);
  }

  /** Removing a player twice leaves the manager as one removal does. */
  method RemovePlayerTwice(manager: GameManager, pid: PlayerId)
    requires manager.Valid()
    modifies manager, manager.rooms.Values
    ensures manager.Valid()
    ensures manager.waitingQueue == Without(old(manager.waitingQueue), pid)
    ensures manager.playerRooms == old(manager.playerRooms) - {pid}
    ensures manager.rooms ==
      if pid in old(manager.playerRooms) then old(manager.rooms) - {old(manager.playerRooms)[pid]}
      else old(manager.rooms)
  {
    manager.RemovePlayer(pid);
    ghost var queue, mapped, registered := manager.waitingQueue, manager.playerRooms, manager.rooms;
    manager.RemovePlayer(pid);
    WithoutIdempotent(old(manager.waitingQueue), pid);
    assert manager.waitingQueue == queue && manager.playerRooms == mapped && manager.rooms == registered;
  }
}
