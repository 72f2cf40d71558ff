/** The queue of messages waiting for the next turn: regular messages in order, paced or all at
    once, and priority messages, which all leave at the very next drain. */
module MessageQueues {
  datatype Mode = All | OneAtATime

  datatype Op = Enqueue(message: int) | EnqueueFront(message: int) | Drain | DrainAll

  /** The messages that a script of operations queues, of either kind, in order. */
  function Queued(ops: seq<Op>, front: bool): seq<int> {
    if ops == [] then []
    else
      Queued(ops[..|ops| - 1], front) + QueuedBy(ops[|ops| - 1], front)
  }

  function QueuedBy(op: Op, front: bool): seq<int> {
    if front && op.EnqueueFront? then [op.message] else if !front && op.Enqueue? then [op.message] else []
  }

  lemma QueuedMore(ops: seq<Op>, i: nat, front: bool)
    requires i < |ops|
    ensures Queued(ops[..i + 1], front) == Queued(ops[..i], front) + QueuedBy(ops[i], front)
  {
    assert ops[..i + 1][..i] == ops[..i];
  }

  predicate Drains(op: Op) {
    op.Drain? || op.DrainAll?
  }

  class PendingMessageQueue {
    var messages: seq<int>
    var priorityMessages: seq<int>
    const mode: Mode

    constructor (mode: Mode)
      ensures messages == [] && priorityMessages == [] && this.mode == mode
    {
      messages, priorityMessages := [], [];
      this.mode := mode;
    }

    method Enqueue(message: int)
      modifies this`messages
      ensures messages == old(messages) + [message]
    {
      messages := messages + [message];
    }

    method EnqueueFront(message: int)
      modifies this`priorityMessages
      ensures priorityMessages == old(priorityMessages) + [message]
    {
      priorityMessages := priorityMessages + [message];
    }

    /** All priority messages, then the regular ones that the mode lets go. */
    method Drain() returns (drained: seq<int>, ghost regular: seq<int>)
      modifies this
      ensures drained == old(priorityMessages) + regular && priorityMessages == [] && regular + messages == old(messages)
      ensures mode == All ==> messages == []
      ensures mode == OneAtATime ==> |regular| == if old(messages) == [] then 0 else 1
    {
      drained := priorityMessages;
      priorityMessages := [];
      if mode == All {
        regular := messages;
        drained := if |drained| > 0 then drained + messages else messages;
        messages := [];
        return;
      }
      regular := [];
      if |messages| > 0 {
        regular := [messages[0]];
        drained := drained + [messages[0]];
        messages := messages[1..];
      }
    }

    method DrainAll() returns (drained: seq<int>)
      modifies this
      ensures drained == old(priorityMessages) + old(messages) && priorityMessages == [] && messages == []
    {
      drained := priorityMessages + messages;
      priorityMessages, messages := [], [];
    }
  }

  /** A drained batch and how many of its messages, at its head, are priority messages. */
  datatype Batch = Batch(messages: seq<int>, priority: nat)

  function Part(batches: seq<Batch>, front: bool): seq<int> {
    if batches == [] then []
    else
      var b := batches[|batches| - 1];
      var k := if b.priority <= |b.messages| then b.priority else |b.messages|;
      Part(batches[..|batches| - 1], front) + if front then b.messages[..k] else b.messages[k..]
  }

  lemma PartMore(batches: seq<Batch>, priority: seq<int>, regular: seq<int>)
    ensures Part(batches + [Batch(priority + regular, |priority|)], true) == Part(batches, true) + priority
    ensures Part(batches + [Batch(priority + regular, |priority|)], false) == Part(batches, false) + regular
  {
    assert (batches + [Batch(priority + regular, |priority|)])[..|batches|] == batches;
  }

  function Drainings(ops: seq<Op>): nat {
    if ops == [] then 0 else Drainings(ops[..|ops| - 1]) + if Drains(ops[|ops| - 1]) then 1 else 0
  }

  method Act(queue: PendingMessageQueue, op: Op, before: seq<Batch>) returns (batches: seq<Batch>)
    modifies queue
    ensures |batches| == |before| + if Drains(op) then 1 else 0
    ensures Part(batches, false) + queue.messages == Part(before, false) + old(queue.messages) + QueuedBy(op, false)
    ensures Part(batches, true) + queue.priorityMessages == Part(before, true) + old(queue.priorityMessages) + QueuedBy(op, true)
    ensures Drains(op) ==> queue.priorityMessages == []
  {
    hide Part;
    batches := before;
    ghost var priority, regular := queue.priorityMessages, queue.messages;
    match op
    case Enqueue(message) => queue.Enqueue(message);
    case EnqueueFront(message) => queue.EnqueueFront(message);
    case Drain =>
      var k := |queue.priorityMessages|;
      var drained;
      drained, regular := queue.Drain();
      PartMore(batches, priority, regular);
      batches := batches + [Batch(drained, k)];
    case DrainAll =>
      var k := |queue.priorityMessages|;
      var drained := queue.DrainAll();
      PartMore(batches, priority, regular);
      batches := batches + [Batch(drained, k)];
  }

  /** Nothing is lost, repeated or reordered, on any run: what was drained of either kind,
      followed by what still waits, is what was queued of that kind. */
  method Play(mode: Mode, ops: seq<Op>) returns (batches: seq<Batch>, waiting: seq<int>, waitingFront: seq<int>)
    ensures |batches| == Drainings(ops)
    ensures Part(batches, false) + waiting == Queued(ops, false)
    ensures Part(batches, true) + waitingFront == Queued(ops, true)
    ensures ops != [] && Drains(ops[|ops| - 1]) ==> waitingFront == []
  {
    hide Part, Queued;
    var queue := new PendingMessageQueue(mode);
    batches := [];
    NothingYet();
    for i := 0 to |ops|
      invariant fresh(queue) && |batches| == Drainings(ops[..i])
      invariant Part(batches, false) + queue.messages == Queued(ops[..i], false)
      invariant Part(batches, true) + queue.priorityMessages == Queued(ops[..i], true)
      invariant i > 0 && Drains(ops[i - 1]) ==> queue.priorityMessages == []
    {
      assert ops[..i + 1][..i] == ops[..i];
      QueuedMore(ops, i, false);
      QueuedMore(ops, i, true);
      batches := Act(queue, ops[i], batches);
    }
    assert ops[..|ops|] == ops;
    waiting, waitingFront := queue.messages, queue.priorityMessages;
  }

  lemma NothingYet()
    ensures forall front :: Part([], front) == [] && Queued([], front) == []
  {
  }
}
