/**
 * The creator state of a player and the three fixed tables attached to it:
 * the game mode each state grants, the name each state is shown under, and
 * the classification of a command line into a state.
 */
module CreatorStates {

  /** The four creator states a session can be in. */
  datatype CreatorState = Build | Config | View | Test

  /** The game modes of the host server. */
  datatype GameMode = Survival | Creative | Adventure | Spectator

  /** The state a session is given when it first qualifies. */
  function DefaultState(): (s: CreatorState)
    ensures ToGameMode(s) == Spectator
  {
    View
  }

  /** The game mode a creator state grants. */
  function ToGameMode(s: CreatorState): (g: GameMode)
    ensures FromGameMode(g) == s
  {
    match s
    case Build => Creative
    case Config => Adventure
    case View => Spectator
    case Test => Survival
  }

  /** The creator state that grants a given game mode: the inverse of ToGameMode. */
  function FromGameMode(g: GameMode): CreatorState
  {
    match g
    case Creative => Build
    case Adventure => Config
    case Spectator => View
    case Survival => Test
  }

  /** ToGameMode is a bijection: every game mode is granted by exactly one state. */
  lemma GameModeBijection(s: CreatorState, g: GameMode)
    ensures FromGameMode(ToGameMode(s)) == s
    ensures ToGameMode(FromGameMode(g)) == g
    ensures ToGameMode(s) == g <==> s == FromGameMode(g)
  {
  }

  /** The name under which a creator state is shown to the player. */
  function Display(s: CreatorState): string
  {
    match s
    case Build => "Build"
    case Config => "Config"
    case View => "View"
    case Test => "Test"
  }

  /** Every state has a non-empty name, and distinct states have distinct names. */
  lemma DisplayInjective(s: CreatorState, t: CreatorState)
    ensures |Display(s)| > 0
    ensures Display(s) == Display(t) <==> s == t
  {
  }

  /** The lower-case argument the host's `gamemode` command uses for each game mode. */
  function GameModeArgument(g: GameMode): string
  {
    match g
    case Survival => "survival"
    case Creative => "creative"
    case Adventure => "adventure"
    case Spectator => "spectator"
  }

  /** The full command line that requests game mode `g`. */
  function GameModeCommand(g: GameMode): string
  {
    "gamemode " + GameModeArgument(g)
  }

  /**
   * The creator state selected by a command line: exact matches of the four
   * game-mode commands select a state; every other line, the empty one
   * included, falls back to View. It never fails.
   */
  function Classify(command: string): (s: CreatorState)
    ensures s == Build <==> command == "gamemode creative"
    ensures s == Config <==> command == "gamemode adventure"
    ensures s == Test <==> command == "gamemode survival"
    ensures s == View <==> command !in {"gamemode creative", "gamemode adventure", "gamemode survival"}
  {
    if command == "gamemode creative" then Build
    else if command == "gamemode spectator" then View
    else if command == "gamemode adventure" then Config
    else if command == "gamemode survival" then Test
    else View
  }

  /**
   * A command that asks for game mode `g` selects the creator state that
   * grants exactly `g`.
   */
  lemma CommandGrantsRequestedGameMode(g: GameMode)
    ensures ToGameMode(Classify(GameModeCommand(g))) == g
    ensures Classify(GameModeCommand(g)) == FromGameMode(g)
  {
  }

  /**
   * Any line that is not one of the four game-mode commands selects View: a
   * corollary of Classify's last ensures, stated over GameModeCommand.
   */
  lemma UnknownCommandSelectsView(command: string)
    requires forall g: GameMode :: command != GameModeCommand(g)
    ensures Classify(command) == View
  {
    assert command != GameModeCommand(Creative);
    assert command != GameModeCommand(Adventure);
    assert command != GameModeCommand(Survival);
  }
}
