/**
 * One connected player as the plugin's systems see it: the components they
 * read and update in place, and one method per system. Each method is
 * proved to leave the session in the state the matching function of
 * SessionSpec describes, and to keep the session Consistent.
 */
module Sessions {
  import opened CreatorStates
  import opened SessionSpec

  class Session {
    var opLevel: OpLevel
    var mode: Option<CreatorState>
    var modeChanged: bool
    var queued: QueuedChange
    var gameMode: GameMode
    var allowFlying: bool
    var flying: bool
    var outbox: seq<string>

    /** The session's fields as a value. */
    ghost function State(): SessionState
      reads this
    {
      SessionState(opLevel, mode, modeChanged, queued, gameMode, allowFlying, flying, outbox)
    }

    ghost predicate Valid()
      reads this
    {
      Consistent(State())
    }

    /** A player joins with the given game mode and operator level 0. */
    constructor (initialGameMode: GameMode)
      ensures Valid()
      ensures State() == Joined(initialGameMode)
    {
      opLevel := 0;
      mode := None;
      modeChanged := false;
      queued := NoChange;
      gameMode := initialGameMode;
      allowFlying := false;
      flying := false;
      outbox := [];
    }

    /**
     * The privilege system, run when the host has changed the operator level
     * to `level`: it queues the removal or insertion of the creator state.
     */
    method ChangeOpLevel(level: OpLevel)
      requires Valid()
      modifies this
      ensures Valid()
      ensures State() == OpLevelChanged(old(State()), level)
    {
      opLevel := level;
      if level < OpThreshold {
        return;
      }
      if mode.Some? {
        queued := Detach;
      } else {
        queued := Attach;
      }
    }

    /** The host applies the queued insertion or removal at the end of the tick. */
    method ApplyQueuedChange()
      requires Valid()
      modifies this
      ensures Valid()
      ensures State() == ApplyQueued(old(State()))
    {
      match queued {
        case NoChange =>
        case Attach =>
          mode := Some(DefaultState());
          modeChanged := true;
        case Detach =>
          mode := None;
          modeChanged := false;
      }
      queued := NoChange;
    }

    /** The command system, over the command lines this player sent in one tick. */
    method HandleCommands(commands: seq<string>)
      requires Valid()
      modifies this
      ensures Valid()
      ensures State() == CommandsReceived(old(State()), commands)
    {
      var i := 0;
      while i < |commands|
        invariant 0 <= i <= |commands|
        invariant State() == CommandsReceived(old(State()), commands[..i])
      {
        if mode.Some? {
          outbox := outbox + [CommandEcho(commands[i])];
          mode := Some(Classify(commands[i]));
          modeChanged := true;
        }
        assert commands[..i + 1][..i] == commands[..i];
        i := i + 1;
      }
      assert commands[..|commands|] == commands;
      StepsKeepConsistent(old(State()), opLevel, [], commands);
    }

    /** The effect system, applying a newly written creator state. */
    method HandleCreatorState()
      requires Valid()
      modifies this
      ensures Valid()
      ensures State() == ApplyCreatorState(old(State()))
    {
      if mode.None? || !modeChanged {
        return;
      }
      var m := mode.value;
      gameMode := ToGameMode(m);
      if m == Config {
        allowFlying := true;
        flying := true;
      }
      outbox := outbox + [ModeNotice(m)];
      modeChanged := false;
    }

    /** The chat system, over the chat events of this player in one tick. */
    method HandleChats(chats: seq<string>)
      requires Valid()
      modifies this
      ensures Valid()
      ensures State() == ChatsReceived(old(State()), chats)
    {
      var i := 0;
      while i < |chats|
        invariant 0 <= i <= |chats|
        invariant State() == ChatsReceived(old(State()), chats[..i])
      {
        outbox := outbox + [ChatEcho(chats[i])];
        if opLevel >= OpThreshold {
          outbox := outbox + [Greeting];
        }
        assert chats[..i + 1][..i] == chats[..i];
        i := i + 1;
      }
      assert chats[..|chats|] == chats;
      StepsKeepConsistent(old(State()), opLevel, chats, []);
    }

    /**
     * One tick of the plugin: the privilege, chat and command systems, the
     * effect system after the privilege and command systems, and the queued
     * insertion or removal last. A session that had a creator state when the
     * tick started ends it with every change handled.
     */
    method Update(b: Batch)
      requires Valid() && Settled(State())
      modifies this
      ensures Valid() && Settled(State())
      ensures State() == Tick(old(State()), b)
      ensures old(mode).Some? ==> Synced(State())
    {
      if b.opLevelChange.Some? {
        ChangeOpLevel(b.opLevelChange.value);
      }
      HandleChats(b.chats);
      HandleCommands(b.commands);
      HandleCreatorState();
      ApplyQueuedChange();
      TickSettles(old(State()), b);
    }
  }
}
