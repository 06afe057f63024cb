/** The outbound protocol events of src/domain/messages.rs, as the core
    produces them. Serialisation is not modelled. */
module Messages {
  import opened Outcomes
  import opened Game

  datatype ServerMessage =
    | Connected(playerId: PlayerId)
    | Matchmaking(matched: bool, waiting: Option<bool>, assignedRoom: Option<RoomId>)
    | GameStart(roomId: RoomId, players: seq<PlayerId>, maxRounds: nat)
    | RoundResult(round: nat, winner: Option<PlayerId>,
                  moves: map<PlayerId, GameChoice>, scores: map<PlayerId, nat>)
    | NextRound(round: nat)
    | GameEnd(winner: Option<PlayerId>, finalScores: map<PlayerId, nat>)
    | PlayerLeft(playerId: PlayerId)
    | Error(message: string)

  /** One `broadcast_to_all`: the message, and the players it was sent to, in
      the room's player order. Whether each send succeeded is not recorded,
      because a failed send is only logged. */
  datatype Broadcast = Broadcast(recipients: seq<PlayerId>, message: ServerMessage)
}
