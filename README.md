# valence-creator: the creator-state controller, in Dafny

The plugin gives each connected player a "creator state": one of four modes, Build, Config,
View and Test. It registers four systems with the host game server:

- the privilege system toggles whether a player has a creator state whenever their operator level changes to 3 or more;
- the command system lets a player with a creator state pick one with a `gamemode …` command line;
- the effect system turns a newly written creator state into a game mode and flight permissions, and tells the player;
- the chat system echoes chat, and greets operators.

The model has three modules:

- `CreatorStates` (`creator_state.dfy`) holds the pure parts. These are the four states, the game
  mode each grants, the name each is shown under, and the classification of a command line.
- `SessionSpec` (`session_spec.dfy`) describes one player's session as a value, `SessionState`.
  It has one function per system, one for the host's end-of-tick application of queued
  insertions and removals, and the tick that runs them in the registered order. It also holds
  the lemmas that state what the plugin promises.
- `Sessions` (`session.dfy`) holds the class `Session`. Its fields are the components the systems
  update in place. It has one method per system, and each method is proved to produce the state
  the matching `SessionSpec` function describes. Every method keeps the invariant `Consistent`:
  once a creator state's change has been handled, the game mode is the one it grants.

The host's change detection on the creator-state component is the field `modeChanged`. Attaching
or assigning a creator state sets it, and the effect system consumes it. Chat messages sent to
the player are appended to `outbox`.

The privilege system does not insert or remove the creator state itself. It queues the change
through the host's command queue (src/lib.rs:68, src/lib.rs:70), and the host applies it at the
end of the tick. The model keeps this change in the field `queued` and applies it last in `Tick`.
So the command and effect systems see the presence the tick started with:

- a command in the tick that attaches a state is dropped;
- a command in the tick that removes a state is still echoed and handled;
- a newly attached View is first handled by the next tick's effect system.

Dropping below level 3 does not remove a creator state. A change to level 3 or more toggles it,
so a second qualifying change removes it (src/lib.rs:63-72). `DemotionKeepsMode` and
`RepeatedPromotionRemoves` exhibit both behaviours.

## Model

| member | source | states |
|---|---|---|
| CreatorStates.DefaultState | src/lib.rs:28-35 | The default creator state is View, which grants Spectator. |
| CreatorStates.ToGameMode | src/lib.rs:37-46 | The game mode a state grants; FromGameMode recovers the state from it, so no two states share a game mode. |
| CreatorStates.GameModeBijection | src/lib.rs:37-46 | The state-to-game-mode mapping is total and has an inverse in both directions: every game mode is granted by exactly one state. |
| CreatorStates.Display | src/lib.rs:48-57 | The name a state is shown under. Its properties are stated by DisplayInjective. |
| CreatorStates.DisplayInjective | src/lib.rs:48-57 | Every display name is non-empty, and distinct states have distinct names. |
| CreatorStates.Classify | src/lib.rs:104-121 | Build, Config and Test are selected exactly by "gamemode creative", "gamemode adventure" and "gamemode survival" (both directions). Every other line, the empty one included, selects View, and classification never fails. |
| CreatorStates.CommandGrantsRequestedGameMode | src/lib.rs:104-121 | The command asking for game mode g selects the state that grants g, which is the inverse mapping's state. |
| CreatorStates.UnknownCommandSelectsView | src/lib.rs:118-120 | A line that is none of the four game-mode commands selects View. |
| SessionSpec.OpLevelChanged | src/lib.rs:59-73 | The privilege system records the new level and touches nothing but the queued change: presence, game mode, flags and messages are as before. |
| SessionSpec.ApplyQueued | src/lib.rs:67-71 | Applying the queue empties it and changes only presence and the change flag. |
| SessionSpec.BelowThresholdIsInert | src/lib.rs:64-66 | A change to a level below 3 queues nothing and changes nothing else. |
| SessionSpec.AtThresholdTogglesPresence | src/lib.rs:67-71 | Once applied, a change to a level of 3 or more flips presence: absent becomes View, marked changed; present is removed. Game mode, flags and messages are untouched. |
| SessionSpec.ToggleTwiceRestoresPresence | src/lib.rs:67-71 | Two applied qualifying changes restore presence, and a removed state comes back as View, not as itself. |
| SessionSpec.DemotionKeepsMode | src/lib.rs:63-72 | A joined player raised to 3 in one tick and lowered to 0 in the next still has View: dropping below 3 does not remove the state. |
| SessionSpec.RepeatedPromotionRemoves | src/lib.rs:67-68 | A joined player raised to 3 in one tick and to 4 in the next has no creator state. |
| SessionSpec.CommandReceived | src/lib.rs:97-124 | One command touches only the messages, the state and its change flag, and changes nothing for a session without a state. |
| SessionSpec.CommandsReceived | src/lib.rs:97-124 | The tick's commands touch only messages, state and change flag. They only append messages and never change whether a state is present. |
| SessionSpec.CommandWithoutModeIsInert | src/lib.rs:98 | Commands for a session without a creator state change nothing and send nothing. |
| SessionSpec.CommandsOverwriteMode | src/lib.rs:97-124 | With a creator state, every command is echoed in order. The state is overwritten by the last command's classification and marked changed. |
| SessionSpec.CommandEchoesConcat | src/lib.rs:100-103 | Lines are echoed one each: the echoes of two batches of lines in turn are the echoes of the first batch followed by those of the second, and a batch of n lines gives n echoes. |
| SessionSpec.RepeatedCommandNotDeduplicated | src/lib.rs:100-121 | The same command twice, each followed by the effect system, gives two echoes and two notices. |
| SessionSpec.ApplyCreatorState | src/lib.rs:75-91 | The effect system never changes the state, the level or the queue. It never clears a flight flag and only appends messages. |
| SessionSpec.EffectAppliesMode | src/lib.rs:78-90 | After the effect system, the game mode is the one the state grants. Config turns both flight flags on; any other state leaves them as they were. Exactly one "CreatorState set to <name>" notice is appended. |
| SessionSpec.EffectNeedsWrite | src/lib.rs:76 | The effect system does nothing unless the state is present and was written. |
| SessionSpec.ChatReceived | src/lib.rs:131-137 | One chat event only appends at least one message, and touches nothing else. |
| SessionSpec.ChatsReceived | src/lib.rs:127-139 | Chat never reads or writes the creator state. It only appends messages. |
| SessionSpec.ChatReplyShape | src/lib.rs:133-136 | A chat event gives its echo first, then the greeting if and only if the level is 3 or more: one or two messages. |
| SessionSpec.ChatsOnlyReply | src/lib.rs:127-138 | The messages chat appends are each event's replies, in order. |
| SessionSpec.ChatRepliesLength | src/lib.rs:131-137 | n chat events give n messages, or 2n when the level is 3 or more. |
| SessionSpec.Tick | src/lib.rs:14-26 | A tick ends with nothing queued and only appends messages. |
| SessionSpec.StepsKeepConsistent | src/lib.rs:59-124 | Every system and the queue's application keep Consistent, and the effect system leaves a session Synced. |
| SessionSpec.TickSettles | src/lib.rs:16-23 | A tick keeps Consistent. A session with a state at the start of the tick ends it Synced, because the effect system runs after the command system. A session without one ends with none, or with a fresh View waiting to be handled. In both of these cases its game mode and flags are unchanged and only chat replies are sent. |
| SessionSpec.RunSettles | src/lib.rs:16-23 | Any run of ticks keeps Consistent and ends with nothing queued. A state still waiting at the end of a non-empty run was attached by the last tick. |
| SessionSpec.AttachHandledNextTick | src/lib.rs:21-22 | A state present after one tick ends the next tick Synced or removed. For a session that had no state before, that state is the View the first tick attached, still waiting to be handled. |
| SessionSpec.FlightIsSticky | src/lib.rs:80-86 | Flight flags, once on, stay on through any run of ticks: leaving Config never clears them. |
| SessionSpec.CommandsKeepGrounded | src/lib.rs:104-121 | Without "gamemode adventure", commands never select Config. |
| SessionSpec.FlightNeedsAdventureCommand | src/lib.rs:80-86 | A session without flight that never sends "gamemode adventure" never gets either flight flag. |
| SessionSpec.OutboxOnlyGrows | src/lib.rs:87-135 | Every sender, the effect system (src/lib.rs:87-89), the command system (src/lib.rs:100-103) and the chat system (src/lib.rs:133-135), only appends: the outbox before a run is a prefix of the outbox after it. |
| SessionSpec.AdventureCommandScenario | src/lib.rs:111-113 | "gamemode adventure" on a session with a state gives Config, Adventure and both flags on. The messages are "Command: gamemode adventure" then "CreatorState set to Config". |
| SessionSpec.UnknownCommandScenario | src/lib.rs:118-120 | "fly" on a session with a state gives View and Spectator, with the flags as they were. The messages are "Command: fly" then "CreatorState set to View". |
| SessionSpec.AttachingTickDropsCommand | src/lib.rs:98 | A command in the tick that attaches the state is dropped. The session ends with View waiting, the old game mode, no flight and no message. |
| SessionSpec.DetachingTickStillHandlesCommand | src/lib.rs:68 | A command in the tick that removes the state is echoed and handled, with its notice sent, before the state is removed. |
| SessionSpec.AttachThenCommandScenario | src/lib.rs:21-22 | Attaching in one tick and sending "gamemode adventure" in the next gives Config, Adventure and flight. The only messages are the echo and "CreatorState set to Config"; no notice for View is sent. |
| Sessions.Session.constructor | examples/server.rs:50-79 | A joined player has level 0, no creator state, nothing queued, no flight, no messages, and the game mode the server gives it. |
| Sessions.Session.ChangeOpLevel | src/lib.rs:59-73 | Updates the fields in place as OpLevelChanged says and keeps Consistent. |
| Sessions.Session.ApplyQueuedChange | src/lib.rs:67-71 | Applies the queued insertion or removal in place as ApplyQueued says and keeps Consistent. |
| Sessions.Session.HandleCommands | src/lib.rs:93-125 | Loops over the tick's command lines in place, ending as CommandsReceived says, and keeps Consistent. |
| Sessions.Session.HandleCreatorState | src/lib.rs:75-91 | Applies a written state in place as ApplyCreatorState says and keeps Consistent. |
| Sessions.Session.HandleChats | src/lib.rs:127-139 | Loops over the tick's chat events in place, ending as ChatsReceived says, and keeps Consistent. |
| Sessions.Session.Update | src/lib.rs:14-26 | Runs the systems in registered order and applies the queue last, ending as Tick says with nothing queued. A session that had a state when the tick started ends it with the game mode matching that state. |

## Left out

- Multiple players: the systems loop over every client, but each event is routed to one player and no player affects another. The model is per session.
- The source does not order the chat system against the other systems, nor the privilege system against the command system. `Tick` uses one order the registration allows: privilege, chat, command, effect. Presence changes only at the end of the tick, so the privilege and command order does not matter. The order of chat replies against command echoes within one tick does.
- The privilege system is taken to see the level the host wrote before the tick. If the host writes the level within the tick, after that system has run, the model does not capture the one-tick delay this causes.
- Packets that are not command-execution packets, or that fail to decode, never reach the model.
- The chat echo's text is the host's debug rendering of the chat event, a foreign format. The model takes that rendering as an uninterpreted string and prefixes it with "Chat: ".
- Message colours are not modelled.
- The operator level is written by the host. The example server sets it from a chat line parsed as an unsigned byte. `ChangeOpLevel` takes the new level as a parameter in 0..255.
- The example server's world setup, networking, client spawning and despawning have no decision logic and are not part of this model.
