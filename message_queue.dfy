/// The debugger's message queue of src/emulator/debugger/message_queue.rs:
/// a first-in first-out queue of control messages (a `VecDeque` in the
/// source, a sequence here, oldest first).
module MessageQueue {
  import opened Wrappers

  /// A control message. `BreakpointTriggered` is the variant the debugger's
  /// `update` handles beyond the four this file declares.
  datatype MessageData =
    | LoadRomFromDisk(path: string)
    | UpdateRunningState(isRunning: bool)
    | TickOnce
    | ResetGameBoy(clearMemory: bool)
    | BreakpointTriggered

  /// What `poll` does to a queue: the oldest message and the rest, or
  /// nothing from an empty queue.
  function Polled(messages: seq<MessageData>): (Option<MessageData>, seq<MessageData>) {
    if messages == [] then (None, []) else (Some(messages[0]), messages[1..])
  }

  /// The messages a queue yields when polled until it is empty.
  function Drained(messages: seq<MessageData>): seq<MessageData>
    decreases |messages|
  {
    match Polled(messages).0
    case None => []
    case Some(message) => [message] + Drained(Polled(messages).1)
  }

  /// The queue after `push`-ing each of `later` in turn.
  function PushedAll(messages: seq<MessageData>, later: seq<MessageData>): seq<MessageData>
    decreases |later|
  {
    if later == [] then messages else PushedAll(messages + [later[0]], later[1..])
  }

  /// Polling an empty queue gives nothing and leaves it empty; otherwise it
  /// gives the oldest message and removes exactly that one.
  lemma PollTakesOldest(messages: seq<MessageData>)
    ensures messages == [] <==> Polled(messages).0 == None
    ensures Polled(messages).0.Some? ==> [Polled(messages).0.value] + Polled(messages).1 == messages
  {
  }

  /// Draining a queue yields its messages oldest first.
  lemma {:induction false} DrainedInOrder(messages: seq<MessageData>)
    ensures Drained(messages) == messages
    decreases |messages|
  {
    if messages != [] {
      DrainedInOrder(messages[1..]);
    }
  }

  /// Pushing appends at the back.
  lemma {:induction false} PushedAllAppends(messages: seq<MessageData>, later: seq<MessageData>)
    ensures PushedAll(messages, later) == messages + later
    decreases |later|
  {
    if later != [] {
      PushedAllAppends(messages + [later[0]], later[1..]);
      assert messages + [later[0]] + later[1..] == messages + later;
    }
  }

  /// First in, first out: messages pushed onto a queue come out in the order
  /// they were pushed, after the ones already waiting.
  lemma {:induction false} FirstInFirstOut(waiting: seq<MessageData>, later: seq<MessageData>)
    ensures Drained(PushedAll(waiting, later)) == waiting + later
    ensures Drained(PushedAll([], later)) == later
  {
    PushedAllAppends(waiting, later);
    PushedAllAppends([], later);
    assert [] + later == later;
    DrainedInOrder(waiting + later);
    DrainedInOrder(later);
  }

  class MessageQueue {
    var messages: seq<MessageData>

    /// `MessageQueue::default`: empty.
    constructor ()
      ensures messages == []
    {
      messages := [];
    }

    /// `push`: append at the back.
    method Push(message: MessageData)
      modifies this
      ensures messages == old(messages) + [message]
    {
      messages := messages + [message];
    }

    /// `poll`: take the message at the front, if any.
    method Poll() returns (message: Option<MessageData>)
      modifies this
      ensures (message, messages) == Polled(old(messages))
    {
      if messages == [] {
        message := None;
      } else {
        message := Some(messages[0]);
        messages := messages[1..];
      }
    }
  }
}
