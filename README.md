# Rock-paper-scissors referee and matchmaker, modelled in Dafny

This project models the game core of a rock-paper-scissors server. It has three layers:

- **The move resolver.** `GameChoice::beats` is the cyclic relation on Rock, Paper and Scissors. Beside it sits the default game configuration: best of three, with exactly two players.
- **The game room** (`GameRoom`). It is a state machine over a player list, a score table, the moves of the current round, a round counter and a status. Players join until the room is full. Each player submits a move, and the last one submitted wins. A round is ready once every player has moved. Resolving the round gives its winner one point. The game then ends when someone has two points or the last round was played, and otherwise moves to the next round. The final winner is the unique leader, or nobody on a tie. Every broadcast a room makes is recorded in a ghost `outbox`: the recipients and the message.
- **The game manager** (`GameManager`). It owns three structures:
  - the queue of players waiting for an opponent;
  - the registry of rooms by id;
  - the map from each matched player to the id of its room.

  Its operations are matchmaking, forwarding moves to the right room, removing a player who left, and statistics.

Files:

- `outcomes.dfy`: `Option`, `Result` and `Outcome`.
- `game.dfy`: module `Game`, modelling src/domain/game.rs.
- `messages.dfy`: module `Messages`. It holds the server messages a room or the manager sends, and a `Broadcast` record.
- `game_service.dfy`: module `Rooms`.
  - It defines the value-level room state `RoomView` and its transition functions: `AddPlayerStep`, `SubmitMoveStep`, `CalculateRoundResult`, `CreditWinner` and `ResolveRound`.
  - It proves lemmas about these functions.
  - It defines the class `GameRoom`. Its methods `AddPlayer`, `SubmitMove` and `ProcessRound` are proved to follow `AddPlayerStep`, `SubmitMoveStep` and `ResolveRound`. The other methods (`StartGame`, `NextRound`, `EndGame`, `BroadcastToAll`, `NotifyPlayerLeft`, the loops `TopScore` and `DetermineFinalWinner`) state their effect directly.
- `matchmaking_service.dfy`: module `Matchmaking`, with the class `GameManager` and its invariant `Valid()`. The invariant says:
  - each room is filed under its own id;
  - each room is consistent and uses the manager's configuration;
  - at most one player waits.
- `scenarios.dfy`: module `Scenarios`. It holds the matchmaking runs of src/tests/integration_test.rs, a best-of-three (rock beats scissors, then paper beats rock, then a drawn third round ends it 1-1), and a few client-level properties.

The room invariant `Consistent` states that:

- the score table has exactly the room's players as keys;
- only players have moves;
- the player count respects the capacity;
- a game is only played with enough players;
- rounds are numbered from 1.

Every state-changing method keeps it.

## Model

| member | source | states |
|---|---|---|
| Game.BeatsTable | src/domain/game.rs:14-21 | rock beats scissors, paper beats rock, scissors beats paper; the three reversed pairs do not hold |
| Game.BeatsIrreflexive | src/domain/game.rs:14-21 | no choice beats itself |
| Game.BeatsAntisymmetric | src/domain/game.rs:14-21 | if a beats b, b does not beat a |
| Game.BeatsDecides | src/domain/game.rs:14-21 | two choices differ exactly when exactly one of them beats the other |
| Game.BeatsIsCyclic | src/domain/game.rs:15-20 | a beats b exactly when a is one step after b on the cycle Rock, Paper, Scissors |
| Game.BeatsExactlyOne | src/domain/game.rs:17-19 | each choice beats exactly one choice and loses to exactly one; the two are different choices, and neither is the choice itself |
| Game.DefaultConfigIsHeadToHead | src/domain/game.rs:53-60 | the default configuration has 3 rounds, 2 minimum players and 2 maximum players |
| Rooms.AddPlayerStep | src/application/game_service.rs:32-45 | refused exactly when the room is full, and a refusal changes nothing; on success the player is appended, its score is 0, the other scores are kept, and the status becomes Playing iff the new player count reaches the minimum (else it stays); moves and round are kept; consistency is preserved |
| Rooms.SubmitMoveStep | src/application/game_service.rs:57-76 | ignored (state unchanged, not ready) unless the game is being played and the sender belongs to the room; an accepted move is recorded for the sender, overwriting an earlier one, and other moves are kept; ready iff the number of moves equals the number of players; players, scores, round and status never change; consistency is preserved; a ready two-player room has both moves |
| Rooms.ReadyMeansBothMoved | src/application/game_service.rs:74-75 | when two distinct movers are all players of a two-player room, both players have moved |
| Rooms.CalculateRoundResult | src/application/game_service.rs:113-143 | an error exactly when the room does not have two players; otherwise the round number and scores are the room's, the moves are the recorded choices, there is no winner iff the choices are equal, the player whose choice beats the other's wins, and the winner is a player |
| Rooms.MaxScore | src/application/game_service.rs:146 | the top score bounds every score, is 0 for an empty table, and is the score of some player otherwise |
| Rooms.FinalWinner | src/application/game_service.rs:174-187 | the final winner is p iff p alone holds the top score; so a shared top score gives no winner |
| Rooms.CreditWinner | src/application/game_service.rs:88-91 | the winner's score goes up by one, every other score is unchanged, no player is added, and nothing else in the room changes |
| Rooms.ResolveRound | src/application/game_service.rs:78-111 | fails exactly when the room does not have two players; otherwise the resulting room is consistent and keeps its players |
| Rooms.ResolveRoundAnnounces | src/application/game_service.rs:93-108 | a resolved round sends two messages to the room's players: first the round result with the updated scores and the recorded choices, then either the game end with the final winner and scores (the room is then Finished, round kept) or the next round's number (status kept, counter up by one) |
| Rooms.ResolveRoundScores | src/application/game_service.rs:88-91 | resolving a round gives a player one point exactly when its choice beats its opponent's; a draw changes no score, and no player gains a score entry |
| Rooms.ResolveRoundEndsOrAdvances | src/application/game_service.rs:103-108 | after a round the game ends (Finished; round and moves kept) exactly when some score reached 2 or the last round was played; otherwise the status is kept, the counter goes up by one and the moves are cleared |
| Rooms.GameRoom.constructor | src/application/game_service.rs:20-30 | a new room has the given id and configuration, no players, round 1, empty scores and moves, status Waiting, and has sent nothing |
| Rooms.GameRoom.AddPlayer | src/application/game_service.rs:32-45 | the room's new state and answer are those of `AddPlayerStep`; nothing is sent |
| Rooms.GameRoom.StartGame | src/application/game_service.rs:47-55 | the state is unchanged, and the game start (room id, players, number of rounds) is sent to the players |
| Rooms.GameRoom.SubmitMove | src/application/game_service.rs:57-76 | the room's new state and answer are those of `SubmitMoveStep`; nothing is sent |
| Rooms.GameRoom.ProcessRound | src/application/game_service.rs:78-111 | on a player-count error the room is unchanged and nothing is sent; otherwise the new state is `ResolveRound`'s and exactly its announcements are sent, in order |
| Rooms.GameRoom.TopScore | src/application/game_service.rs:146 | the loop computes the top score of the table |
| Rooms.GameRoom.ShouldEndGame | src/application/game_service.rs:145-148 | true iff the top score is at least 2 or the round counter reached the configured number of rounds |
| Rooms.GameRoom.NextRound | src/application/game_service.rs:150-159 | the counter goes up by one, the moves are cleared, and the new round number is sent |
| Rooms.GameRoom.EndGame | src/application/game_service.rs:161-172 | the status becomes Finished, nothing else changes, and the final winner with the final scores is sent |
| Rooms.GameRoom.DetermineFinalWinner | src/application/game_service.rs:174-187 | the loop's answer is the unique top scorer, or nobody |
| Rooms.GameRoom.BroadcastToAll | src/application/game_service.rs:189-196 | the state is unchanged, and one broadcast of the message to the room's players is recorded |
| Rooms.GameRoom.NotifyPlayerLeft | src/application/game_service.rs:198-203 | the state is unchanged, and the players are told who left, whatever the game's status |
| Matchmaking.WithoutKeepsOthers | src/application/matchmaking_service.rs:111 | `retain` keeps exactly the entries of other players and never lengthens the queue; a queue without the player is unchanged |
| Matchmaking.WithoutIdempotent | src/application/matchmaking_service.rs:111 | dropping a player from the queue twice is the same as dropping it once |
| Matchmaking.PairedRoom | src/application/matchmaking_service.rs:43-46 | the room built for a match is consistent |
| Matchmaking.PairedRoomWithDefaults | src/application/matchmaking_service.rs:43-46 | under the default configuration the match room holds both players in arrival order, both with score 0, no moves, round 1, status Playing |
| Matchmaking.MoveInRoom | src/application/matchmaking_service.rs:91-101 | the move is submitted; the round is processed exactly when the room reports it ready; a processing error is passed on; otherwise the answer is true, even when the room ignored the move |
| Matchmaking.GameManager.constructor | src/application/matchmaking_service.rs:19-26 | a new manager has no rooms, nobody waiting and no player mappings, and satisfies the invariant |
| Matchmaking.GameManager.FindMatch | src/application/matchmaking_service.rs:28-39 | with an empty queue the player is queued, rooms and mappings are unchanged, and the answer is "waiting"; otherwise the player at the back of the queue is removed from it and paired with the caller in a new room under the fresh id, both players map to it, the game start is announced, and the answer is "matched" with that id; the invariant (including at most one waiting player) is kept |
| Matchmaking.GameManager.CreateMatch | src/application/matchmaking_service.rs:41-74 | a new room holding both players is registered under the new id and nothing else is registered; both players map to it; the game start is its only broadcast; the queue is unchanged; the answer is "matched" with the room id |
| Matchmaking.GameManager.AddToQueue | src/application/matchmaking_service.rs:76-85 | the player joins the back of the queue, rooms and mappings are unchanged, and the answer is "waiting" |
| Matchmaking.GameManager.GetPlayerRoom | src/application/matchmaking_service.rs:152-164 | a room is found exactly when the player has a mapping and the mapped room is registered, and it is the registered room object; under the invariant it is the room with that id and is consistent |
| Matchmaking.GameManager.SubmitMove | src/application/matchmaking_service.rs:87-105 | false when the player has no room; otherwise the player's room changes as `MoveOutcome` describes; no other room changes; the invariant is kept |
| Matchmaking.GameManager.RemovePlayer | src/application/matchmaking_service.rs:107-133 | every queue entry of the player is dropped and the others are kept in order; only the player's own mapping is removed; the room it mapped to is unregistered, and that room's players are told who left; the remaining rooms are unchanged; the invariant is kept |
| Matchmaking.GameManager.GetStats | src/application/matchmaking_service.rs:135-150 | the loop counts the registered rooms (finished ones included), the rooms whose game is being played, and the waiting players |
| Scenarios.FreshManagerStats | src/tests/integration_test.rs:145-151 | a new manager reports no rooms, no games and nobody waiting |
| Scenarios.BasicGameFlow | src/tests/integration_test.rs:55-65 | two players asking for a match: the first is told to wait, the second is matched, then one room, one game being played and nobody waiting |
| Scenarios.MatchedPair | src/application/matchmaking_service.rs:28-74 | after two match requests, the two players share one room, which is being played, and nobody waits |
| Scenarios.UniqueLeaderWins | src/application/game_service.rs:174-187 | with two players, the one with the strictly higher score is the final winner |
| Scenarios.NoWinnerOnTie | src/application/game_service.rs:184-186 | with two players on equal scores there is no final winner |
| Scenarios.Moved | src/application/game_service.rs:66-72 | a two-player game after both moves is consistent and ready |
| Scenarios.SubmissionsReachMoved | src/application/game_service.rs:57-76 | of the two moves of a round only the second reports the round ready, and together they record both moves |
| Scenarios.Played | src/application/game_service.rs:78-111 | a played round leaves a consistent room with the same players |
| Scenarios.PlayedScores | src/application/game_service.rs:88-91 | in a played round a player gains a point exactly when its choice beats the other one |
| Scenarios.PlayedEndsOrAdvances | src/application/game_service.rs:103-108 | after a played round the game is Finished if a player has 2 points or the last round was played; otherwise it waits for the next round, with the counter up by one |
| Scenarios.FirstRound | src/application/game_service.rs:78-111 | rock against scissors in round 1 of a default match makes it 1-0, then round 2 |
| Scenarios.SecondRound | src/application/game_service.rs:78-111 | the second player's paper against the first's rock in round 2 makes it 1-1, then round 3 |
| Scenarios.ThirdRound | src/application/game_service.rs:103-106 | a drawn round 3 ends the game 1-1 with no final winner |
| Scenarios.PlayRound | src/application/matchmaking_service.rs:87-101 | submitting both moves and processing the round leaves the room valid and in the state `Played` gives |
| Scenarios.BestOfThree | src/application/game_service.rs:78-111 | the three rounds above, played on a `GameRoom`, end Finished in round 3 at 1-1 |
| Scenarios.OpponentLeaves | src/application/matchmaking_service.rs:107-133 | after a matched player leaves, the last broadcast of its room tells both players who left, the opponent's move gives false and no room remains |
| Scenarios.MoveAfterOpponentLeft | src/application/matchmaking_service.rs:117-123 | in general, once one player of a room has left, the other's next move gives false |
| Scenarios.RemovePlayerTwice | src/application/matchmaking_service.rs:107-133 | removing a player twice leaves the queue, the mappings and the room registry as one removal does |

Definitions without a row of their own; their contracts are carried by the members named:

- `Game.Beats` (src/domain/game.rs:14-21): rock beats scissors, paper beats rock, scissors beats paper, nothing else. Its algebra is in the `Game.Beats*` lemmas.
- `Game.DefaultConfig` (src/domain/game.rs:53-60): 3 rounds, 2 to 2 players. Stated by `Game.DefaultConfigIsHeadToHead`.
- `Matchmaking.Without` (src/application/matchmaking_service.rs:111): `Vec::retain` dropping the player's queue entries. Stated by `Matchmaking.WithoutKeepsOthers` and `Matchmaking.WithoutIdempotent`.
- `Rooms.ShouldEnd` (src/application/game_service.rs:145-148): the top score has reached 2, or the round counter the number of rounds. Computed by `Rooms.GameRoom.ShouldEndGame`; its meaning as "some player has 2 points" is in `Rooms.ResolveRoundEndsOrAdvances`.
- `Matchmaking.MoveOutcome` (src/application/matchmaking_service.rs:91-101): the effect of a move on the player's room. Submit the move; resolve the round only when the room reports it ready; pass a resolution error on; otherwise answer true. Met by `Matchmaking.MoveInRoom` and `Matchmaking.GameManager.SubmitMove`.

Proof helpers without a row: `Rooms.Choices` (the choices without timestamps), `Rooms.ResolveRoundEnding` and `Rooms.ResolveRoundAdvancing` (the two branches of `ResolveRound`), `Scenarios.ReachedOnePair` and `Scenarios.TwoPlayerKeys` (facts about two-key score tables).

## Left out

- Transport is not modelled. The WebSocket and HTTP layers, JSON encoding of the messages, the accept loop and process bootstrap are I/O.
- Message sending is abstracted. A broadcast is a ghost record of recipients and message. A failed send is only logged by the original, so it is not modelled, and every send is treated as delivered.
- Locks and concurrency are not modelled. Every manager operation is one atomic step. In particular, the room lock is released between submitting a move and processing the round (src/application/matchmaking_service.rs:91-99); the interleavings this allows are not modelled.
- Clock readings (`Utc::now()`) are a parameter `now` of the move submissions.
- Room ids (`Uuid::new_v4()`) are a parameter of `FindMatch`. Its precondition says the id is neither registered nor mapped to by any player.
- The logging helpers `format_moves` and `format_winner`, and every `info!`/`warn!` line, are not modelled.
- Round numbers and scores are unbounded naturals. The original's `u32` and `usize` cannot overflow in a best-of-three, so no wrap-around is modelled.
- A player is just its id. The message channel it wraps is not modelled, since it only carries sends.
- `GameRoom::start_game` and the two `add_player` calls in `create_match` return `Result`s that are never errors. The model drops those error paths.
- Rooms.CalculateRoundResult: the original indexes the move table and panics when a player of a two-player room has not moved. The model makes "both players have moved" a precondition (`RoundReady`). Its callers meet it: a room only reports ready when both players have moved.
- Rooms.MaxScore, Rooms.FinalWinner and Rooms.ResolveRound are ghost. A maximum over a map needs a choice of key that is not unique, so these are specification functions. The methods `TopScore` and `DetermineFinalWinner` compute the first two with loops and are proved equal to them; `ProcessRound` follows `ResolveRound` through those two loops.
- The "ultra" message processor and connection pool, the load-test binaries and the other integration tests are not part of this model. They are concurrency-, clock- and network-driven.

Behaviours of the code, reproduced as written:

- Ending a game keeps the last round's moves. Only `next_round` clears them.
- A player who leaves is reported to the room whatever the game's status.
- Removing a player deletes the room but not the opponent's mapping. The opponent's later moves therefore answer false.
- Finished rooms stay registered and count toward the total number of rooms.
- Matching takes the most recently queued player (`Vec::pop`). Since at most one player ever waits, this is also the only waiting player.
- A player who asks for a match twice is paired with itself. Such a room has one score entry and can never become ready.
- `submit_move` on the manager answers true whenever the room exists, even when the room ignored the move.
