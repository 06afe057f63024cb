/** The game manager of src/application/matchmaking_service.rs: the queue
    of players waiting for an opponent, the registry of rooms by id, and the
    map from each matched player to the id of its room. Every operation is
    one atomic step; the tokio locks of src/application/matchmaking_service.rs
    are not modelled. */
module Matchmaking {
  import opened Outcomes
  import opened Game
  import opened Messages
  import opened Rooms

  /** The queue with every entry for `pid` dropped, the others kept in order
      (`Vec::retain(|p| p.id != player_id)`). */
  function Without(queue: seq<PlayerId>, pid: PlayerId): seq<PlayerId>
  {
    if queue == [] then []
    else (if queue[0] == pid then [] else [queue[0]]) + Without(queue[1..], pid)
  }

  /** `retain` keeps exactly the entries for other players, and never makes
      the queue longer. */
  lemma {:induction false} WithoutKeepsOthers(queue: seq<PlayerId>, pid: PlayerId)
    ensures forall q :: q in Without(queue, pid) <==> q in queue && q != pid
    ensures |Without(queue, pid)| <= |queue|
    ensures pid !in queue ==> Without(queue, pid) == queue
  {
    if queue != [] {
      WithoutKeepsOthers(queue[1..], pid);
      assert queue == [queue[0]] + queue[1..];
    }
  }

  /** Removing a player from the queue a second time changes nothing. */
  lemma WithoutIdempotent(queue: seq<PlayerId>, pid: PlayerId)
    ensures Without(Without(queue, pid), pid) == Without(queue, pid)
  {
    WithoutKeepsOthers(queue, pid);
    WithoutKeepsOthers(Without(queue, pid), pid);
  }

  /** The state of the room `create_match` builds: a new room joined by the
      two players in turn (the joins' own answers are not consulted). */
  function PairedRoom(cfg: GameConfig, first: PlayerId, second: PlayerId): (v: RoomView)
    ensures Consistent(v, cfg)
  {
    AddPlayerStep(AddPlayerStep(EmptyRoom, cfg, first).0, cfg, second).0
  }

  /** With the default configuration the paired room holds both players in
      arrival order, both with a score of 0, no moves, in round 1, and the
      game is being played. */
  lemma PairedRoomWithDefaults(first: PlayerId, second: PlayerId)
    ensures PairedRoom(DefaultConfig(), first, second)
      == RoomView([first, second], 1, map[first := 0, second := 0], map[], Playing)
  {
  }

  /** What `submit_move` does to the player's room: the move is submitted
      and, when the room reports the round ready, the round is resolved.
      The answer is `true` whenever the room was found, even if the room
      ignored the move; an error of the round resolution is passed on. */
  ghost predicate MoveOutcome(before: RoomView, sentBefore: seq<Broadcast>, cfg: GameConfig,
                              pid: PlayerId, mv: PlayerMove, r: Result<bool>,
                              after: RoomView, sentAfter: seq<Broadcast>)
    requires Consistent(before, cfg)
  {
    var (submitted, ready) := SubmitMoveStep(before, pid, mv);
    if !ready then
      r == Ok(true) && after == submitted && sentAfter == sentBefore
    else
      match ResolveRound(submitted, cfg)
      case Err(e) => r == Err(e) && after == submitted && sentAfter == sentBefore
      case Ok(res) => r == Ok(true) && after == res.next && sentAfter == sentBefore + res.announced
  }

  /** The part of `submit_move` done under the room's lock. */
  method MoveInRoom(room: GameRoom, pid: PlayerId, choice: GameChoice, now: int) returns (r: Result<bool>)
    requires room.Valid()
    modifies room
    ensures room.Valid()
    ensures MoveOutcome(old(room.View()), old(room.outbox), room.config, pid, PlayerMove(choice, now),
                        r, room.View(), room.outbox)
  {
    var ready := room.SubmitMove(pid, choice, now);
    if ready {
      var outcome := room.ProcessRound();
      if outcome.Fail? {
        return Err(outcome.error);
      }
    }
    r := Ok(true);
  }

  class GameManager {
    var rooms: map<RoomId, GameRoom>
    var waitingQueue: seq<PlayerId>
    var playerRooms: map<PlayerId, RoomId>
    const config: GameConfig

    /** Every registered room is a consistent room filed under its own id and
        using the manager's configuration (so distinct ids hold distinct
        rooms), and at most one player is ever waiting. */
    ghost predicate Valid()
      reads this, rooms.Values
    {
      && (forall rid :: rid in rooms ==>
            rooms[rid].id == rid && rooms[rid].config == config && rooms[rid].Valid())
      && |waitingQueue| <= 1
    }

    /** The ids of the registered rooms whose game is being played. */
    ghost function PlayingRooms(): set<RoomId>
      reads this, rooms.Values
    {
      set rid | rid in rooms && rooms[rid].status == Playing
    }

    /** `GameManager::new`: no rooms, nobody waiting, no player mapped. */
    constructor (config: GameConfig)
      ensures this.config == config
      ensures rooms == map[] && waitingQueue == [] && playerRooms == map[]
      ensures Valid()
    {
      this.config := config;
      rooms := map[];
      waitingQueue := [];
      playerRooms := map[];
    }

    /** `find_match`: pair the caller with the player at the back of the
        queue (`Vec::pop`), or queue the caller when nobody is waiting. The
        room id stands for `Uuid::new_v4()`: one never used before. */
    method FindMatch(player: PlayerId, freshId: RoomId) returns (reply: ServerMessage)
      requires Valid()
      requires freshId !in rooms && freshId !in playerRooms.Values
      modifies this
      ensures Valid()
      ensures old(waitingQueue) == [] ==>
        && waitingQueue == [player]
        && rooms == old(rooms) && playerRooms == old(playerRooms)
        && reply == Matchmaking(false, Some(true), None)
      ensures old(waitingQueue) != [] ==>
        var last := |old(waitingQueue)| - 1;
        var opponent := old(waitingQueue)[last];
        && waitingQueue == old(waitingQueue)[..last]
        && freshId in rooms && fresh(rooms[freshId])
        && rooms == old(rooms)[freshId := rooms[freshId]]
        && rooms[freshId].View() == PairedRoom(config, opponent, player)
        && rooms[freshId].outbox == [Broadcast(rooms[freshId].players,
                                               GameStart(freshId, rooms[freshId].players, config.maxRounds))]
        && playerRooms == old(playerRooms)[opponent := freshId][player := freshId]
        && reply == Matchmaking(true, None, Some(freshId))
    {
      var waiting: Option<PlayerId> := None;
      if waitingQueue != [] {
        waiting := Some(waitingQueue[|waitingQueue| - 1]);
        waitingQueue := waitingQueue[..|waitingQueue| - 1];
      }
      if waiting.Some? {
        reply := CreateMatch(waiting.value, player, freshId);
      } else {
        reply := AddToQueue(player);
      }
    }

    /** `create_match`: a new room holding both players is registered under
        the new id, both players are mapped to it, and the game start is
        announced. */
    method CreateMatch(first: PlayerId, second: PlayerId, roomId: RoomId) returns (reply: ServerMessage)
      requires Valid()
      requires roomId !in rooms
      modifies this
      ensures Valid()
      ensures roomId in rooms && fresh(rooms[roomId])
      ensures rooms == old(rooms)[roomId := rooms[roomId]]
      ensures rooms[roomId].View() == PairedRoom(config, first, second)
      ensures rooms[roomId].outbox == [Broadcast(rooms[roomId].players,
                                                 GameStart(roomId, rooms[roomId].players, config.maxRounds))]
      ensures playerRooms == old(playerRooms)[first := roomId][second := roomId]
      ensures waitingQueue == old(waitingQueue)
      ensures reply == Matchmaking(true, None, Some(roomId))
    {
      var room := new GameRoom(roomId, config);
      var _ := room.AddPlayer(first);
      var _ := room.AddPlayer(second);
      rooms := rooms[roomId := room];
      playerRooms := playerRooms[first := roomId][second := roomId];
      room.StartGame();
      reply := Matchmaking(true, None, Some(roomId));
    }

    /** `add_to_queue`: the player joins the back of the queue and is told to
        wait. */
    method AddToQueue(player: PlayerId) returns (reply: ServerMessage)
      modifies this
      ensures waitingQueue == old(waitingQueue) + [player]
      ensures rooms == old(rooms) && playerRooms == old(playerRooms)
      ensures reply == Matchmaking(false, Some(true), None)
    {
      waitingQueue := waitingQueue + [player];
      reply := Matchmaking(false, Some(true), None);
    }

    /** `get_player_room`: the room registered under the player's mapped id;
        nothing when the player has no mapping or the room is gone. */
    function GetPlayerRoom(pid: PlayerId): (found: Option<GameRoom>)
      reads this, rooms.Values
      ensures found.Some? <==> pid in playerRooms && playerRooms[pid] in rooms
      ensures found.Some? ==> found.value == rooms[playerRooms[pid]]
      ensures found.Some? && Valid() ==> found.value.id == playerRooms[pid] && found.value.Valid()
    {
      if pid in playerRooms && playerRooms[pid] in rooms then Some(rooms[playerRooms[pid]]) else None
    }

    /** `submit_move`: forward the move to the player's room, as
        `MoveOutcome` describes; `false` when the player has no room. No
        other room changes. */
    method SubmitMove(pid: PlayerId, choice: GameChoice, now: int) returns (r: Result<bool>)
      requires Valid()
      modifies rooms.Values
      ensures Valid()
      ensures GetPlayerRoom(pid).None? ==> r == Ok(false)
      ensures forall rid :: rid in rooms && (pid !in playerRooms || playerRooms[pid] != rid) ==>
        unchanged(rooms[rid])
      ensures GetPlayerRoom(pid).Some? ==>
        var room := GetPlayerRoom(pid).value;
        MoveOutcome(old(room.View()), old(room.outbox), config, pid, PlayerMove(choice, now),
                    r, room.View(), room.outbox)
    {
      var found := GetPlayerRoom(pid);
      if found.None? {
        return Ok(false);
      }
      r := MoveInRoom(found.value, pid, choice, now);
    }

    /** `remove_player`: drop the player from the queue, drop its own
        mapping, and unregister the room it was mapped to, telling that
        room's players who left. The opponent's mapping is kept. */
    method RemovePlayer(pid: PlayerId)
      requires Valid()
      modifies this, rooms.Values
      ensures Valid()
      ensures waitingQueue == Without(old(waitingQueue), pid)
      ensures playerRooms == old(playerRooms) - {pid}
      ensures rooms == if pid in old(playerRooms) then old(rooms) - {old(playerRooms)[pid]} else old(rooms)
      ensures forall rid :: rid in rooms ==> unchanged(rooms[rid])
      ensures pid in old(playerRooms) && old(playerRooms)[pid] in old(rooms) ==>
        var room := old(rooms)[old(playerRooms)[pid]];
        && room.View() == old(room.View())
        && room.outbox == old(room.outbox) + [Broadcast(old(room.players), PlayerLeft(pid))]
    {
      WithoutKeepsOthers(waitingQueue, pid);
      waitingQueue := Without(waitingQueue, pid);
      if pid in playerRooms {
        var rid := playerRooms[pid];
        playerRooms := playerRooms - {pid};
        if rid in rooms {
          var room := rooms[rid];
          rooms := rooms - {rid};
          room.NotifyPlayerLeft(pid);
        }
      }
    }

    /** `get_stats`: the number of registered rooms (finished ones
        included), of rooms being played, and of waiting players. */
    method GetStats() returns (total: nat, active: nat, waiting: nat)
      ensures total == |rooms|
      ensures active == |PlayingRooms()|
      ensures waiting == |waitingQueue|
    {
      total := |rooms|;
      active := 0;
      var pending := rooms.Keys;
      ghost var counted: set<RoomId> := {};
      while pending != {}
        invariant pending <= rooms.Keys
        invariant counted == set rid | rid in rooms && rid !in pending && rooms[rid].status == Playing
        invariant active == |counted|
        decreases pending
      {
        var rid :| rid in pending;
        if rooms[rid].status == Playing {
          active := active + 1;
          counted := counted + {rid};
        }
        pending := pending - {rid};
      }
      assert counted == PlayingRooms();
      waiting := |waitingQueue|;
    }
  }
}
