/** The game domain of src/domain/game.rs: the three choices and the relation
    deciding which beats which, the room status, the move and result records,
    and the default game configuration. */
module Game {
  import opened Outcomes

  type PlayerId = string
  type RoomId = string

  datatype GameChoice = Rock | Paper | Scissors

  /** `GameChoice::beats`: rock beats scissors, paper beats rock, scissors
      beats paper, and nothing else holds. */
  predicate Beats(a: GameChoice, b: GameChoice)
  {
    match (a, b)
    case (Rock, Scissors) => true
    case (Paper, Rock) => true
    case (Scissors, Paper) => true
    case _ => false
  }

  const AllChoices: seq<GameChoice> := [Rock, Paper, Scissors]

  /** Position of a choice on the cycle Rock -> Paper -> Scissors -> Rock. */
  function Position(c: GameChoice): nat
  {
    match c
    case Rock => 0
    case Paper => 1
    case Scissors => 2
  }

  /** The choices `a` beats, and the choices that beat `a`. */
  function BeatenBy(a: GameChoice): set<GameChoice>
  {
    set b | b in AllChoices && Beats(a, b)
  }

  function Beating(a: GameChoice): set<GameChoice>
  {
    set b | b in AllChoices && Beats(b, a)
  }

  /** The three facts the unit test in src/main.rs:161-169 asserts, and their
      mirror images. */
  lemma BeatsTable()
    ensures Beats(Rock, Scissors) && Beats(Paper, Rock) && Beats(Scissors, Paper)
    ensures !Beats(Rock, Paper) && !Beats(Paper, Scissors) && !Beats(Scissors, Rock)
  {
  }

  /** No choice beats itself. */
  lemma BeatsIrreflexive(a: GameChoice)
    ensures !Beats(a, a)
  {
  }

  /** If `a` beats `b` then `b` does not beat `a`. */
  lemma BeatsAntisymmetric(a: GameChoice, b: GameChoice)
    ensures Beats(a, b) ==> !Beats(b, a)
  {
  }

  /** Between distinct choices exactly one beats the other; equal choices draw. */
  lemma BeatsDecides(a: GameChoice, b: GameChoice)
    ensures a != b <==> (Beats(a, b) != Beats(b, a))
  {
  }

  /** The relation is the cyclic order: a choice beats the one just before it
      on the cycle. */
  lemma BeatsIsCyclic(a: GameChoice, b: GameChoice)
    ensures Beats(a, b) <==> Position(a) == (Position(b) + 1) % 3
  {
  }

  /** Each choice beats exactly one choice and loses to exactly one, and
      these are different choices, distinct from itself. */
  lemma {:induction false} BeatsExactlyOne(a: GameChoice)
    ensures |BeatenBy(a)| == 1 && |Beating(a)| == 1
    ensures a !in BeatenBy(a) + Beating(a) && BeatenBy(a) !! Beating(a)
  {
    match a
    case Rock =>
      assert BeatenBy(a) == {Scissors} by { assert Scissors in AllChoices; }
      assert Beating(a) == {Paper} by { assert Paper in AllChoices; }
    case Paper =>
      assert BeatenBy(a) == {Rock} by { assert Rock in AllChoices; }
      assert Beating(a) == {Scissors} by { assert Scissors in AllChoices; }
    case Scissors =>
      assert BeatenBy(a) == {Paper} by { assert Paper in AllChoices; }
      assert Beating(a) == {Rock} by { assert Rock in AllChoices; }
  }

  datatype GameStatus = Waiting | Playing | Finished

  /** A submitted choice with its capture time; the clock reading is passed
      in by the caller, since the model has no clock. */
  datatype PlayerMove = PlayerMove(choice: GameChoice, timestamp: int)

  /** The outcome of one round: its number, the winner (None on a draw), the
      choice of every player and the score table. */
  datatype GameResult = GameResult(
    round: nat,
    winner: Option<PlayerId>,
    moves: map<PlayerId, GameChoice>,
    scores: map<PlayerId, nat>)

  datatype GameConfig = GameConfig(maxRounds: nat, minPlayers: nat, maxPlayers: nat)

  /** `GameConfig::default()`. */
  function DefaultConfig(): GameConfig
  {
    GameConfig(3, 2, 2)
  }

  /** The default configuration is a best-of-three between exactly two
      players. */
  lemma DefaultConfigIsHeadToHead()
    ensures DefaultConfig().maxRounds == 3
    ensures DefaultConfig().minPlayers == DefaultConfig().maxPlayers == 2
  {
  }
}
