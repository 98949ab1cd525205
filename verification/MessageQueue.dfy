/** The queues for steering and follow-up messages. */
module MessageQueue {
  import opened Protocol

  datatype QueueMode = All | OneAtATime

  /** What draining hands out. */
  function Handout(messages: seq<Message>, mode: QueueMode): seq<Message> {
    match mode
    case All => messages
    case OneAtATime => if messages == [] then [] else [messages[0]]
  }

  class PendingMessageQueue {
    var messages: seq<Message>
    var mode: QueueMode

    /** Enqueued and not cleared, in order; and those of them that were drained. */
    ghost var accepted: seq<Message>
    ghost var drained: seq<Message>

    /** Nothing is lost, duplicated or reordered between enqueueing and draining. */
    ghost predicate Valid()
      reads this
    {
      accepted == drained + messages
    }

    constructor (mode: QueueMode)
      ensures Valid() && this.mode == mode && messages == accepted == drained == []
    {
      this.mode := mode;
      messages, accepted, drained := [], [], [];
    }

    method SetMode(mode: QueueMode)
      modifies this`mode
      ensures this.mode == mode
    {
      this.mode := mode;
    }

    method Enqueue(message: Message)
      requires Valid()
      modifies this
      ensures Valid() && mode == old(mode)
      ensures messages == old(messages) + [message] && accepted == old(accepted) + [message] && drained == old(drained)
    {
      messages := messages + [message];
      accepted := accepted + [message];
    }

    /** Whether something enqueued was neither handed out nor cleared: the next drain gives
        something, whatever the mode is by then. */
    method HasItems() returns (r: bool)
      requires Valid()
      ensures r <==> drained != accepted
      ensures forall later :: r <==> Handout(messages, later) != []
    {
      r := |messages| > 0;
    }

    /** Takes everything, or just the oldest message. */
    method Drain() returns (r: seq<Message>)
      requires Valid()
      modifies this
      ensures Valid() && mode == old(mode)
      ensures accepted == old(accepted) && drained == old(drained) + r && old(messages) == r + messages
      ensures r == Handout(old(messages), mode)
      ensures |r| == match mode case All => |old(messages)| case OneAtATime => if old(messages) == [] then 0 else 1
    {
      if mode == All {
        r := messages;
        messages := [];
      } else if |messages| == 0 {
        r := [];
      } else {
        r := [messages[0]];
        messages := messages[1..];
      }
      drained := drained + r;
    }

    method Clear()
      requires Valid()
      modifies this
      ensures Valid() && mode == old(mode)
      ensures messages == [] && drained == old(drained) && accepted == drained
    {
      messages := [];
      accepted := drained;
    }
  }
}
