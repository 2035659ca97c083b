/// The debugger's control logic of src/emulator/debugger/debugger.rs and
/// src/emulator/debugger/mod.rs: the gate that decides whether the emulator
/// may execute its next instruction, and the handling of queued control
/// messages. Drawing the user interface is not modelled; reading a cartridge
/// file is a parameter `disk` from a path to the file's bytes, `None` when
/// the file cannot be read.
module Debugger {
  import opened Wrappers
  import opened Bits
  import opened Memory
  import opened RegisterFile
  import opened Device = GameBoy
  import opened Queue = MessageQueue

  /// `GlobalDebuggerState`; `Default` gives all three false.
  datatype GlobalDebuggerState = GlobalDebuggerState(isRunning: bool, shouldTickOnce: bool, isGameLoaded: bool)

  function DefaultState(): GlobalDebuggerState {
    GlobalDebuggerState(false, false, false)
  }

  /// `gameboy_should_tick` on values: the answer and the new state.
  function ShouldTick(s: GlobalDebuggerState): (bool, GlobalDebuggerState) {
    if !s.isGameLoaded then (false, s)
    else if s.shouldTickOnce then (true, s.(isRunning := false, shouldTickOnce := false))
    else (s.isRunning, s)
  }

  /// Without a game nothing runs and nothing changes, so a pending single
  /// step survives; a pending single step runs once and leaves the emulator
  /// paused; otherwise the emulator runs exactly when it is running.
  lemma ShouldTickCases(s: GlobalDebuggerState)
    ensures !s.isGameLoaded ==> !ShouldTick(s).0 && ShouldTick(s).1 == s
    ensures s.isGameLoaded && s.shouldTickOnce ==>
      && ShouldTick(s).0
      && !ShouldTick(s).1.isRunning && !ShouldTick(s).1.shouldTickOnce && ShouldTick(s).1.isGameLoaded
      && !ShouldTick(ShouldTick(s).1).0
    ensures s.isGameLoaded && !s.shouldTickOnce ==> ShouldTick(s) == (s.isRunning, s)
  {
  }

  /// The emulator ticks only with a game loaded, and only while running or
  /// with a single step pending.
  lemma TicksOnlyWhenAllowed(s: GlobalDebuggerState)
    ensures ShouldTick(s).0 <==> s.isGameLoaded && (s.shouldTickOnce || s.isRunning)
  {
  }

  /// What one message does to the debugger state and the machine, given
  /// what reading a cartridge file yields.
  function Handle(s: GlobalDebuggerState, mc: Machine, message: MessageData, disk: string -> Option<seq<u8>>)
    : (GlobalDebuggerState, Machine)
  {
    match message
    case LoadRomFromDisk(path) =>
      (match disk(path)
       case Some(data) =>
         var (loaded, after) := LoadedCartridge(mc, data);
         (s.(isGameLoaded := loaded), after)
       case None => (s, mc))
    case UpdateRunningState(isRunning) => (s.(isRunning := isRunning), mc)
    case TickOnce => (s.(shouldTickOnce := true), mc)
    case ResetGameBoy(clearMemory) =>
      (if clearMemory then s.(isGameLoaded := false) else s, ResetMachine(mc, clearMemory))
    case BreakpointTriggered => (s.(isRunning := false), mc)
  }

  /// The messages handled in order, oldest first.
  function HandleAll(s: GlobalDebuggerState, mc: Machine, messages: seq<MessageData>, disk: string -> Option<seq<u8>>)
    : (GlobalDebuggerState, Machine)
    decreases |messages|
  {
    if messages == [] then (s, mc)
    else
      var (before, machine) := HandleAll(s, mc, messages[..|messages| - 1], disk);
      Handle(before, machine, messages[|messages| - 1], disk)
  }

  /// The state changes each message makes: the three flag messages set
  /// their flag; a reset clears the loaded flag exactly when it clears memory;
  /// a readable cartridge sets the loaded flag to whether it fit, an
  /// unreadable one changes nothing.
  lemma HandleEffects(s: GlobalDebuggerState, mc: Machine, message: MessageData, disk: string -> Option<seq<u8>>)
    ensures message.UpdateRunningState? ==> Handle(s, mc, message, disk) == (s.(isRunning := message.isRunning), mc)
    ensures message == TickOnce ==> Handle(s, mc, message, disk).0.shouldTickOnce
    ensures message == BreakpointTriggered ==> !Handle(s, mc, message, disk).0.isRunning
    ensures message.ResetGameBoy? ==>
      && Handle(s, mc, message, disk).0.isGameLoaded == (s.isGameLoaded && !message.clearMemory)
      && Handle(s, mc, message, disk).1 == ResetMachine(mc, message.clearMemory)
    ensures message.LoadRomFromDisk? && disk(message.path).Some? ==>
      Handle(s, mc, message, disk).0.isGameLoaded == (|disk(message.path).value| <= MEMORY_SIZE)
    ensures message.LoadRomFromDisk? && disk(message.path).None? ==> Handle(s, mc, message, disk) == (s, mc)
    ensures Handle(s, mc, message, disk).0.isRunning == s.isRunning || message.UpdateRunningState? || message == BreakpointTriggered
  {
    if message.LoadRomFromDisk? && disk(message.path).Some? {
      LoadedCartridgeEffect(mc, disk(message.path).value);
    }
  }

  /// Handling a batch and then one more message is handling the longer batch.
  lemma HandleAllAppend(s: GlobalDebuggerState, mc: Machine, messages: seq<MessageData>, message: MessageData, disk: string -> Option<seq<u8>>)
    ensures HandleAll(s, mc, messages + [message], disk)
         == Handle(HandleAll(s, mc, messages, disk).0, HandleAll(s, mc, messages, disk).1, message, disk)
  {
    assert (messages + [message])[..|messages|] == messages;
  }

  class Debugger {
    const messageQueue: Queue.MessageQueue
    var debuggerState: GlobalDebuggerState

    /// `Debugger::new`: an empty queue and the default state.
    constructor ()
      ensures fresh(messageQueue) && messageQueue.messages == []
      ensures debuggerState == DefaultState()
    {
      messageQueue := new Queue.MessageQueue();
      debuggerState := DefaultState();
    }

    /// `gameboy_should_tick`.
    method GameboyShouldTick() returns (tick: bool)
      modifies this
      ensures (tick, debuggerState) == ShouldTick(old(debuggerState))
    {
      if !debuggerState.isGameLoaded {
        return false;
      }
      if debuggerState.shouldTickOnce {
        debuggerState := debuggerState.(isRunning := false);
        debuggerState := debuggerState.(shouldTickOnce := false);
        return true;
      }
      return debuggerState.isRunning;
    }

    /// `update`: poll and handle messages until the queue is empty.
    method Update(gameboy: Device.GameBoy, disk: string -> Option<seq<u8>>)
      requires gameboy.Valid()
      modifies this, messageQueue, gameboy.cpu, gameboy.memory.bytes
      ensures messageQueue.messages == []
      ensures (debuggerState, gameboy.State())
           == HandleAll(old(debuggerState), old(gameboy.State()), old(messageQueue.messages), disk)
    {
      ghost var pending := messageQueue.messages;
      ghost var handled := 0;
      var message := messageQueue.Poll();
      while message.Some?
        invariant 0 <= handled < |pending| + 1
        invariant message.Some? ==> handled < |pending| && message.value == pending[handled] && messageQueue.messages == pending[handled + 1..]
        invariant message.None? ==> handled == |pending| && messageQueue.messages == []
        invariant (debuggerState, gameboy.State()) == HandleAll(old(debuggerState), old(gameboy.State()), pending[..handled], disk)
        decreases |messageQueue.messages| + (if message.Some? then 1 else 0)
      {
        HandleAllAppend(old(debuggerState), old(gameboy.State()), pending[..handled], message.value, disk);
        assert pending[..handled + 1] == pending[..handled] + [message.value];
        HandleMessage(message.value, gameboy, disk);
        handled := handled + 1;
        message := messageQueue.Poll();
      }
      assert pending[..handled] == pending;
    }

    /// One arm of the `match` in `update`.
    method HandleMessage(message: MessageData, gameboy: Device.GameBoy, disk: string -> Option<seq<u8>>)
      requires gameboy.Valid()
      modifies this, gameboy.cpu, gameboy.memory.bytes
      ensures (debuggerState, gameboy.State()) == Handle(old(debuggerState), old(gameboy.State()), message, disk)
    {
      match message {
        case LoadRomFromDisk(path) =>
          LoadCartridgeFromDisk(path, gameboy, disk);
        case UpdateRunningState(isRunning) =>
          debuggerState := debuggerState.(isRunning := isRunning);
        case TickOnce =>
          debuggerState := debuggerState.(shouldTickOnce := true);
        case ResetGameBoy(clearMemory) =>
          gameboy.Reset(clearMemory);
          if clearMemory {
            debuggerState := debuggerState.(isGameLoaded := false);
          }
        case BreakpointTriggered =>
          debuggerState := debuggerState.(isRunning := false);
      }
    }

    /// `load_cartridge_from_disk`: on a readable file, load it and record
    /// whether the load succeeded; on an unreadable one, change nothing.
    method LoadCartridgeFromDisk(path: string, gameboy: Device.GameBoy, disk: string -> Option<seq<u8>>)
      requires gameboy.Valid()
      modifies this, gameboy.cpu, gameboy.memory.bytes
      ensures (debuggerState, gameboy.State())
           == Handle(old(debuggerState), old(gameboy.State()), LoadRomFromDisk(path), disk)
    {
      match disk(path) {
        case Some(cartridge) =>
          var loaded := gameboy.LoadCartridge(cartridge);
          debuggerState := debuggerState.(isGameLoaded := loaded);
        case None =>
      }
    }
  }
}
