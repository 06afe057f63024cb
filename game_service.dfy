/** One game room of src/application/game_service.rs: its players, scores,
    the moves of the current round, the round counter and the status, and
    the operations that join players, collect moves, resolve a round and end
    the game.

    The room's mutable state is also described as a value, `RoomView`, with
    one pure transition per operation (`AddPlayerStep`, `SubmitMoveStep`,
    `ResolveRound`). The methods of `GameRoom` are proved to follow those
    transitions, the properties of the game are proved about them, and the
    game manager's contracts are written with them. */
module Rooms {
  import opened Outcomes
  import opened Game
  import opened Messages

  /** The score a player must reach for the game to end early (the constant
      `2` of `should_end_game`). */
  const WinningScore: nat := 2

  /** The fields of a `GameRoom` that its operations change. */
  datatype RoomView = RoomView(
    players: seq<PlayerId>,
    currentRound: nat,
    scores: map<PlayerId, nat>,
    moves: map<PlayerId, PlayerMove>,
    status: GameStatus)

  /** The state of a room just created by `GameRoom::new`. */
  const EmptyRoom: RoomView := RoomView([], 1, map[], map[], Waiting)

  /** Every move recorded in the round belongs to a player of the room. */
  ghost predicate MovesFromPlayers(v: RoomView)
  {
    forall q :: q in v.moves ==> q in v.players
  }

  /** The invariant every room keeps: the score table has exactly the room's
      players as keys, only players have moves, the player list respects the
      capacity, the game is only played once enough players have joined, and
      rounds are numbered from 1. */
  ghost predicate Consistent(v: RoomView, cfg: GameConfig)
  {
    && (forall q :: q in v.scores <==> q in v.players)
    && MovesFromPlayers(v)
    && |v.players| <= cfg.maxPlayers
    && (v.status == Playing ==> |v.players| >= cfg.minPlayers)
    && v.currentRound >= 1
  }

  /** `add_player`: refused when the room is full; otherwise the player is
      appended with a score of 0, and the status becomes Playing once the
      minimum number of players is present. */
  function AddPlayerStep(v: RoomView, cfg: GameConfig, p: PlayerId): (r: (RoomView, bool))
    ensures r.1 <==> |v.players| < cfg.maxPlayers
    ensures !r.1 ==> r.0 == v
    ensures r.1 ==> r.0.players == v.players + [p] && r.0.scores.Keys == v.scores.Keys + {p}
    ensures r.1 ==> r.0.scores[p] == 0 && forall q :: q in v.scores && q != p ==> r.0.scores[q] == v.scores[q]
    ensures r.1 ==> r.0.status == (if |r.0.players| >= cfg.minPlayers then Playing else v.status)
    ensures r.0.moves == v.moves && r.0.currentRound == v.currentRound
    ensures Consistent(v, cfg) ==> Consistent(r.0, cfg)
  {
    if |v.players| >= cfg.maxPlayers then (v, false)
    else
      var players := v.players + [p];
      (v.(players := players,
          scores := v.scores[p := 0],
          status := if |players| >= cfg.minPlayers then Playing else v.status),
       true)
  }

  /** Both players of a two-player room have a move recorded: the condition
      under which `calculate_round_result` can read the two moves (it panics
      otherwise). */
  ghost predicate RoundReady(v: RoomView)
  {
    |v.players| == 2 ==> v.players[0] in v.moves && v.players[1] in v.moves
  }

  /** `submit_move`: ignored unless the game is being played and the sender
      is one of the room's players; otherwise the sender's move is recorded,
      replacing an earlier one, and the round is ready when every player
      (counted with repetitions) has a move. */
  function SubmitMoveStep(v: RoomView, pid: PlayerId, mv: PlayerMove): (r: (RoomView, bool))
    ensures (v.status != Playing || pid !in v.players) ==> r == (v, false)
    ensures r.0.players == v.players && r.0.scores == v.scores
    ensures r.0.currentRound == v.currentRound && r.0.status == v.status
    ensures v.status == Playing && pid in v.players ==>
      && r.0.moves.Keys == v.moves.Keys + {pid} && r.0.moves[pid] == mv
      && (r.1 <==> |r.0.moves| == |v.players|)
    ensures forall q :: q in v.moves && q != pid ==> r.0.moves[q] == v.moves[q]
    ensures MovesFromPlayers(v) ==> MovesFromPlayers(r.0)
    ensures MovesFromPlayers(v) && r.1 ==> RoundReady(r.0)
    ensures forall cfg :: Consistent(v, cfg) ==> Consistent(r.0, cfg)
  {
    if v.status != Playing || pid !in v.players then (v, false)
    else
      var moves := v.moves[pid := mv];
      var r := (v.(moves := moves), |moves| == |v.players|);
      assert MovesFromPlayers(v) && r.1 ==> RoundReady(r.0) by {
        if MovesFromPlayers(v) && r.1 && |v.players| == 2 {
          ReadyMeansBothMoved(v.players, moves.Keys);
        }
      }
      r
  }

  /** Appending two elements one after the other appends the pair. */
  lemma AppendTwo<T>(s: seq<T>, a: T, b: T)
    ensures s + [a] + [b] == s + [a, b]
  {
  }

  /** A set with size one holds exactly one thing. */
  lemma SingletonMembers<T>(s: set<T>, a: T, b: T)
    requires |s| == 1 && a in s && b in s
    ensures a == b
  {
    if a != b {
      assert |{a, b}| == 2;
      SubsetCardinality({a, b}, s);
    }
  }

  /** A subset is no larger than its superset. */
  lemma {:induction false} SubsetCardinality<T>(a: set<T>, b: set<T>)
    requires a <= b
    ensures |a| <= |b|
    decreases b
  {
    if a != {} {
      var x :| x in a;
      SubsetCardinality(a - {x}, b - {x});
    }
  }

  /** In a two-player room, a set of movers that are all players and that is
      as large as the player list contains both players; in particular a
      player listed twice can never make such a set. */
  lemma ReadyMeansBothMoved(players: seq<PlayerId>, movers: set<PlayerId>)
    requires |players| == 2 && |movers| == 2
    requires forall q :: q in movers ==> q in players
    ensures players[0] in movers && players[1] in movers
  {
    assert movers <= {players[0], players[1]};
    if players[0] !in movers {
      SubsetCardinality(movers, {players[1]});
    } else if players[1] !in movers {
      SubsetCardinality(movers, {players[0]});
    }
  }

  /** The recorded choices, without their timestamps. */
  function Choices(moves: map<PlayerId, PlayerMove>): (r: map<PlayerId, GameChoice>)
    ensures r.Keys == moves.Keys
    ensures forall q :: q in moves ==> r[q] == moves[q].choice
  {
    map q | q in moves :: moves[q].choice
  }

  /** `calculate_round_result`: an error unless the room has exactly two
      players; otherwise a draw when both chose the same, and else the
      player whose choice beats the other's wins. */
  function CalculateRoundResult(v: RoomView): (r: Result<GameResult>)
    requires RoundReady(v)
    ensures r.Err? <==> |v.players| != 2
    ensures r.Ok? ==> r.value.round == v.currentRound && r.value.scores == v.scores
    ensures r.Ok? ==> r.value.moves == Choices(v.moves)
    ensures r.Ok? ==>
      var c0, c1 := v.moves[v.players[0]].choice, v.moves[v.players[1]].choice;
      && (r.value.winner.None? <==> c0 == c1)
      && (Beats(c0, c1) ==> r.value.winner == Some(v.players[0]))
      && (Beats(c1, c0) ==> r.value.winner == Some(v.players[1]))
      && (r.value.winner.Some? ==> r.value.winner.value in v.players)
  {
    if |v.players| != 2 then Err("Invalid number of players")
    else
      var p1, p2 := v.players[0], v.players[1];
      var m1, m2 := v.moves[p1], v.moves[p2];
      var winner :=
        if m1.choice == m2.choice then None
        else if Beats(m1.choice, m2.choice) then Some(p1)
        else Some(p2);
      Ok(GameResult(v.currentRound, winner, Choices(v.moves), v.scores))
  }

  /** The top score of a score table, 0 for an empty table
      (`scores.values().max().unwrap_or(&0)`). */
  ghost function MaxScore(scores: map<PlayerId, nat>): (m: nat)
    ensures forall q :: q in scores ==> scores[q] <= m
    ensures scores == map[] ==> m == 0
    ensures scores != map[] ==> exists q :: q in scores && scores[q] == m
    decreases |scores|
  {
    if scores == map[] then 0
    else
      var p :| p in scores;
      var rest := scores - {p};
      assert |rest| < |scores| by { assert rest.Keys == scores.Keys - {p}; }
      var m := MaxScore(rest);
      assert forall q :: q in scores && q != p ==> q in rest;
      if scores[p] > m then scores[p] else m
  }

  /** `should_end_game`: some score reached the winning score, or the round
      counter reached the configured number of rounds. */
  ghost predicate ShouldEnd(v: RoomView, cfg: GameConfig)
  {
    MaxScore(v.scores) >= WinningScore || v.currentRound >= cfg.maxRounds
  }

  /** Player `p` holds the top score and nobody else does. */
  ghost predicate IsUniqueTop(scores: map<PlayerId, nat>, p: PlayerId)
  {
    p in scores && forall q :: q in scores && q != p ==> scores[q] < scores[p]
  }

  /** `determine_final_winner`: the one player with the top score, or no
      winner when the top score is shared (or nobody has a score). */
  ghost function FinalWinner(scores: map<PlayerId, nat>): (w: Option<PlayerId>)
    ensures forall p :: w == Some(p) <==> IsUniqueTop(scores, p)
  {
    var top := MaxScore(scores);
    var leaders := set q | q in scores && scores[q] == top;
    var w := if |leaders| == 1 then (var p :| p in leaders; Some(p)) else None;
    assert forall p :: IsUniqueTop(scores, p) ==> w == Some(p) by {
      forall p | IsUniqueTop(scores, p) ensures w == Some(p) {
        var x :| x in scores && scores[x] == top;
        assert scores[p] == top;
        assert leaders == {p};
      }
    }
    assert forall p :: w == Some(p) ==> IsUniqueTop(scores, p) by {
      forall p | w == Some(p) ensures IsUniqueTop(scores, p) {
        forall q | q in scores && q != p ensures scores[q] < scores[p] {
          if scores[q] == top {
            SingletonMembers(leaders, p, q);
          }
        }
      }
    }
    w
  }

  /** `process_round` as a value: the new room state and the broadcasts
      made, in order. */
  datatype Resolution = Resolution(next: RoomView, announced: seq<Broadcast>)

  /** The round winner's score grows by one (`scores.get_mut(winner) += 1`);
      a draw changes nothing. */
  function CreditWinner(v: RoomView, winner: Option<PlayerId>): (r: RoomView)
    requires winner.Some? ==> winner.value in v.scores
    ensures r.scores.Keys == v.scores.Keys
    ensures forall q :: q in v.scores ==>
      r.scores[q] == v.scores[q] + (if winner == Some(q) then 1 else 0)
    ensures r == v.(scores := r.scores)
  {
    match winner
    case None => v
    case Some(w) => v.(scores := v.scores[w := v.scores[w] + 1])
  }

  /** `process_round`: compute the round result, credit the winner,
      broadcast the result with the updated scores, then either end the
      game (status Finished, broadcast the final winner) or start the next
      round (counter up by one, moves cleared, broadcast the new round). An
      invalid player count fails before anything changes. */
  ghost function ResolveRound(v: RoomView, cfg: GameConfig): (r: Result<Resolution>)
    requires Consistent(v, cfg) && RoundReady(v)
    ensures r.Err? <==> |v.players| != 2
    ensures r.Ok? ==> Consistent(r.value.next, cfg)
    ensures r.Ok? ==> r.value.next.players == v.players
  {
    match CalculateRoundResult(v)
    case Err(e) => Err(e)
    case Ok(res) =>
      var scored := CreditWinner(v, res.winner);
      var reported := Broadcast(v.players, RoundResult(res.round, res.winner, res.moves, scored.scores));
      if ShouldEnd(scored, cfg) then
        Ok(Resolution(
          scored.(status := Finished),
          [reported, Broadcast(v.players, GameEnd(FinalWinner(scored.scores), scored.scores))]))
      else
        Ok(Resolution(
          scored.(currentRound := v.currentRound + 1, moves := map[]),
          [reported, Broadcast(v.players, ServerMessage.NextRound(v.currentRound + 1))]))
  }

  /** `ResolveRound` spelled out for a round whose result is `res` and
      after which the game ends. */
  lemma ResolveRoundEnding(v: RoomView, cfg: GameConfig, res: GameResult)
    requires Consistent(v, cfg) && RoundReady(v) && CalculateRoundResult(v) == Ok(res)
    requires ShouldEnd(CreditWinner(v, res.winner), cfg)
    ensures var scored := CreditWinner(v, res.winner);
      ResolveRound(v, cfg) == Ok(Resolution(
        scored.(status := Finished),
        [Broadcast(v.players, RoundResult(res.round, res.winner, res.moves, scored.scores)),
         Broadcast(v.players, GameEnd(FinalWinner(scored.scores), scored.scores))]))
  {
  }

  /** `ResolveRound` spelled out for a round whose result is `res` and
      after which the game goes on. */
  lemma ResolveRoundAdvancing(v: RoomView, cfg: GameConfig, res: GameResult)
    requires Consistent(v, cfg) && RoundReady(v) && CalculateRoundResult(v) == Ok(res)
    requires !ShouldEnd(CreditWinner(v, res.winner), cfg)
    ensures var scored := CreditWinner(v, res.winner);
      ResolveRound(v, cfg) == Ok(Resolution(
        scored.(currentRound := v.currentRound + 1, moves := map[]),
        [Broadcast(v.players, RoundResult(res.round, res.winner, res.moves, scored.scores)),
         Broadcast(v.players, ServerMessage.NextRound(v.currentRound + 1))]))
  {
  }

  /** What a resolved round announces to the room's players, in order: first
      the round result with the updated scores, then either the end of the
      game with the final winner, when the room is now Finished by this
      round, or the number of the next round. */
  lemma ResolveRoundAnnounces(v: RoomView, cfg: GameConfig)
    requires Consistent(v, cfg) && RoundReady(v) && |v.players| == 2
    ensures var res := ResolveRound(v, cfg).value;
      && |res.announced| == 2
      && res.announced[0].recipients == v.players && res.announced[1].recipients == v.players
      && res.announced[0].message == RoundResult(v.currentRound, CalculateRoundResult(v).value.winner,
                                                 Choices(v.moves), res.next.scores)
      && (res.announced[1].message.GameEnd? || res.announced[1].message.NextRound?)
      && (res.announced[1].message.GameEnd? ==>
            res.next.status == Finished && res.next.currentRound == v.currentRound
            && res.announced[1].message == GameEnd(FinalWinner(res.next.scores), res.next.scores))
      && (res.announced[1].message.NextRound? ==>
            res.next.status == v.status && res.next.currentRound == v.currentRound + 1
            && res.announced[1].message.round == res.next.currentRound)
  {
  }

  /** The choice a player of a ready two-player room made this round. */
  ghost function ChoiceOf(v: RoomView, i: nat): GameChoice
    requires i < |v.players| == 2 && RoundReady(v)
  {
    v.moves[v.players[i]].choice
  }

  /** Resolving a round gives a player one point exactly when its choice
      beats the opponent's, and leaves the set of scored players as it was. */
  lemma ResolveRoundScores(v: RoomView, cfg: GameConfig)
    requires Consistent(v, cfg) && RoundReady(v) && |v.players| == 2
    ensures ResolveRound(v, cfg).Ok?
    ensures var n := ResolveRound(v, cfg).value.next;
      && n.scores.Keys == v.scores.Keys
      && n.scores[v.players[0]] == v.scores[v.players[0]] + (if Beats(ChoiceOf(v, 0), ChoiceOf(v, 1)) then 1 else 0)
      && n.scores[v.players[1]] == v.scores[v.players[1]] + (if Beats(ChoiceOf(v, 1), ChoiceOf(v, 0)) then 1 else 0)
  {
    var res := CalculateRoundResult(v).value;
    var c0, c1 := ChoiceOf(v, 0), ChoiceOf(v, 1);
    BeatsDecides(c0, c1);
    BeatsAntisymmetric(c0, c1);
    if v.players[0] == v.players[1] {
      BeatsIrreflexive(c0);
    }
  }

  /** After a round is resolved the game ends exactly when some player has
      reached the winning score or the last configured round was played;
      ending keeps the round counter and the moves, continuing advances the
      counter by one, clears the moves and keeps the status. */
  lemma ResolveRoundEndsOrAdvances(v: RoomView, cfg: GameConfig)
    requires Consistent(v, cfg) && RoundReady(v) && |v.players| == 2
    ensures ResolveRound(v, cfg).Ok?
    ensures var n := ResolveRound(v, cfg).value.next;
      var ended := (exists q :: q in n.scores && n.scores[q] >= WinningScore) || v.currentRound >= cfg.maxRounds;
      && (ended ==> n.status == Finished && n.currentRound == v.currentRound && n.moves == v.moves)
      && (!ended ==> n.status == v.status && n.currentRound == v.currentRound + 1 && n.moves == map[])
  {
    var res := CalculateRoundResult(v).value;
    var scored := CreditWinner(v, res.winner);
    var top := MaxScore(scored.scores);
    if top >= WinningScore {
      var q :| q in scored.scores && scored.scores[q] == top;
    }
  }

  class GameRoom {
    const id: RoomId
    const config: GameConfig
    var players: seq<PlayerId>
    var currentRound: nat
    var scores: map<PlayerId, nat>
    var moves: map<PlayerId, PlayerMove>
    var status: GameStatus
    /** Every broadcast the room has made, oldest first. */
    ghost var outbox: seq<Broadcast>

    function View(): RoomView
      reads this
    {
      RoomView(players, currentRound, scores, moves, status)
    }

    ghost predicate Valid()
      reads this
    {
      Consistent(View(), config)
    }

    /** `GameRoom::new`: no players, round 1, empty score and move tables,
        status Waiting. */
    constructor (id: RoomId, config: GameConfig)
      ensures this.id == id && this.config == config
      ensures View() == EmptyRoom && outbox == []
      ensures Valid()
    {
      this.id := id;
      this.config := config;
      players := [];
      currentRound := 1;
      scores := map[];
      moves := map[];
      status := Waiting;
      outbox := [];
    }

    method AddPlayer(p: PlayerId) returns (added: bool)
      requires Valid()
      modifies this
      ensures Valid()
      ensures (View(), added) == AddPlayerStep(old(View()), config, p)
      ensures outbox == old(outbox)
    {
      if |players| >= config.maxPlayers {
        return false;
      }
      scores := scores[p := 0];
      players := players + [p];
      if |players| >= config.minPlayers {
        status := Playing;
      }
      added := true;
    }

    /** `start_game`: announces the room, its players and the number of
        rounds. */
    method StartGame()
      modifies this
      ensures View() == old(View())
      ensures outbox == old(outbox) + [Broadcast(players, GameStart(id, players, config.maxRounds))]
    {
      BroadcastToAll(GameStart(id, players, config.maxRounds));
    }

    method SubmitMove(pid: PlayerId, choice: GameChoice, now: int) returns (ready: bool)
      requires Valid()
      modifies this
      ensures Valid()
      ensures (View(), ready) == SubmitMoveStep(old(View()), pid, PlayerMove(choice, now))
      ensures outbox == old(outbox)
    {
      if status != Playing {
        return false;
      }
      if pid !in players {
        return false;
      }
      moves := moves[pid := PlayerMove(choice, now)];
      ready := |moves| == |players|;
    }

    method ProcessRound() returns (outcome: Outcome)
      requires Valid() && RoundReady(View())
      modifies this
      ensures Valid()
      ensures match ResolveRound(old(View()), config)
        case Err(e) => outcome == Fail(e) && View() == old(View()) && outbox == old(outbox)
        case Ok(res) => outcome == Pass && View() == res.next && outbox == old(outbox) + res.announced
    {
      ghost var before := View();
      var computed := CalculateRoundResult(View());
      if computed.Err? {
        return Fail(computed.error);
      }
      var result := computed.value;
      if result.winner.Some? {
        var w := result.winner.value;
        scores := scores[w := scores[w] + 1];
      }
      ghost var scored := CreditWinner(before, result.winner);
      assert View() == scored;
      ghost var reported := Broadcast(players, RoundResult(result.round, result.winner, result.moves, scores));
      BroadcastToAll(RoundResult(result.round, result.winner, result.moves, scores));
      var end := ShouldEndGame();
      if end {
        EndGame();
        ResolveRoundEnding(before, config, result);
        AppendTwo(old(outbox), reported, Broadcast(players, GameEnd(FinalWinner(scored.scores), scored.scores)));
      } else {
        NextRound();
        ResolveRoundAdvancing(before, config, result);
        AppendTwo(old(outbox), reported, Broadcast(players, ServerMessage.NextRound(before.currentRound + 1)));
      }
      outcome := Pass;
    }

    /** The top score, 0 when nobody has one. */
    method TopScore() returns (top: nat)
      ensures top == MaxScore(scores)
    {
      top := 0;
      var pending := scores.Keys;
      while pending != {}
        invariant pending <= scores.Keys
        invariant forall q :: q in scores && q !in pending ==> scores[q] <= top
        invariant top == 0 || exists q :: q in scores && q !in pending && scores[q] == top
        decreases pending
      {
        var p :| p in pending;
        if scores[p] > top {
          top := scores[p];
        }
        pending := pending - {p};
      }
      ghost var m := MaxScore(scores);
      if scores != map[] {
        ghost var q :| q in scores && scores[q] == m;
        assert m <= top;
      }
    }

    method ShouldEndGame() returns (end: bool)
      ensures end == ShouldEnd(View(), config)
    {
      var top := TopScore();
      end := top >= WinningScore || currentRound >= config.maxRounds;
    }

    method NextRound()
      modifies this
      ensures View() == old(View()).(currentRound := old(currentRound) + 1, moves := map[])
      ensures outbox == old(outbox) + [Broadcast(players, ServerMessage.NextRound(currentRound))]
    {
      currentRound := currentRound + 1;
      moves := map[];
      BroadcastToAll(ServerMessage.NextRound(currentRound));
    }

    method EndGame()
      modifies this
      ensures View() == old(View()).(status := Finished)
      ensures outbox == old(outbox) + [Broadcast(players, GameEnd(FinalWinner(scores), scores))]
    {
      status := Finished;
      var finalWinner := DetermineFinalWinner();
      BroadcastToAll(GameEnd(finalWinner, scores));
    }

    method DetermineFinalWinner() returns (w: Option<PlayerId>)
      ensures w == FinalWinner(scores)
    {
      var top := TopScore();
      var leaders: set<PlayerId> := {};
      var pending := scores.Keys;
      while pending != {}
        invariant pending <= scores.Keys
        invariant leaders == set q | q in scores && q !in pending && scores[q] == top
        decreases pending
      {
        var p :| p in pending;
        if scores[p] == top {
          leaders := leaders + {p};
        }
        pending := pending - {p};
      }
      forall p | IsUniqueTop(scores, p) ensures leaders == {p} {
        var x :| x in scores && scores[x] == top;
        assert scores[p] == top;
      }
      ghost var fw := FinalWinner(scores);
      assert fw.Some? ==> IsUniqueTop(scores, fw.value);
      if |leaders| == 1 {
        var p :| p in leaders;
        w := Some(p);
        forall q | q in scores && q != p ensures scores[q] < scores[p] {
          if scores[q] == top {
            SingletonMembers(leaders, p, q);
          }
        }
        assert IsUniqueTop(scores, p);
      } else {
        w := None;
      }
    }

    /** `broadcast_to_all`: one send per player, a failed send only logged. */
    method BroadcastToAll(message: ServerMessage)
      modifies this
      ensures View() == old(View())
      ensures outbox == old(outbox) + [Broadcast(players, message)]
    {
      outbox := outbox + [Broadcast(players, message)];
    }

    method NotifyPlayerLeft(pid: PlayerId)
      modifies this
      ensures View() == old(View())
      ensures outbox == old(outbox) + [Broadcast(players, PlayerLeft(pid))]
    {
      BroadcastToAll(PlayerLeft(pid));
    }
  }
}
