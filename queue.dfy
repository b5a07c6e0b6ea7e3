/**
 * The worker's message loop: control tokens are answered at once, everything
 * else is queued as a deploy task on a queue that runs one task at a time.
 */
module WorkerQueue {
  import opened Wrappers
  import opened Deployment

  /** What the parent thread posts: a control token, or the request of a deploy task. */
  datatype Message = Token(text: string) | Payload(request: Request)

  /** What the worker posts back. */
  datatype Reply = Cancelled | QueueStatus(size: nat, pending: nat, caller: string) | Crashed(reason: string)

  /** How the loop reacts to a message. */
  datatype Command = Crash | Cancel | Status(caller: string) | Flush | Enqueue

  /** The queue runs at most this many tasks at once. */
  const Concurrency: nat := 1

  const ControlTokens: set<string> := {"error", "cancel", "status:autoUpdater", "status:cleanupStorage", "action:flushQueue"}

  /** The dispatch of the message handler, in the order it tests the tokens. */
  function Classify(m: Message): Command
  {
    if m.Payload? then Enqueue
    else if m.text == "error" then Crash
    else if m.text == "cancel" then Cancel
    else if m.text == "status:autoUpdater" then Status("autoUpdater")
    else if m.text == "status:cleanupStorage" then Status("cleanupStorage")
    else if m.text == "action:flushQueue" then Flush
    else Enqueue
  }

  /** Exactly the five control tokens are handled by the loop itself; every payload and every other token becomes a task. */
  lemma ClassifyControl(m: Message)
    ensures Classify(m) == Enqueue <==> m.Payload? || m.text !in ControlTokens
  {
  }

  /** The two status tokens, and only they, ask for the queue's status, each reporting its own caller name. */
  lemma ClassifyStatus(m: Message)
    ensures Classify(m).Status? <==> m.Token? && (m.text == "status:autoUpdater" || m.text == "status:cleanupStorage")
    ensures Classify(m).Status? ==> m.text == "status:" + Classify(m).caller
  {
  }

  /** The reply the handler posts for a message, given the queue's size and pending count at that moment. */
  function ReplyTo(c: Command, size: nat, pending: nat): Option<Reply>
  {
    match c
    case Crash => Some(Crashed("oops"))
    case Cancel => Some(Cancelled)
    case Status(caller) => Some(QueueStatus(size, pending, caller))
    case _ => None
  }

  /** A queue of deploy tasks: `running` are the started ones, `waiting` the ones not started yet, oldest first. */
  class JobQueue {
    var waiting: seq<Message>
    var running: seq<Message>

    /** Never more than `Concurrency` tasks run, and a task waits only while every slot is busy. */
    predicate Valid()
      reads this
    {
      |running| <= Concurrency && (|running| < Concurrency ==> waiting == [])
    }

    /** Every task admitted and not finished or cleared, in admission order. */
    function Backlog(): seq<Message>
      reads this
    {
      running + waiting
    }

    /** `queue.size`: the tasks waiting to start. */
    function Size(): nat
      reads this
    {
      |waiting|
    }

    /** `queue.pending`: the tasks running. */
    function Pending(): nat
      reads this
    {
      |running|
    }

    constructor ()
      ensures Valid() && waiting == [] && running == []
    {
      waiting := [];
      running := [];
    }

    /** `queue.add`: the task starts at once when a slot is free and waits at the end otherwise. */
    method Add(m: Message)
      requires Valid()
      modifies this
      ensures Valid()
      ensures Backlog() == old(Backlog()) + [m]
      ensures old(|running|) < Concurrency ==> running == old(running) + [m] && waiting == []
      ensures old(|running|) == Concurrency ==> running == old(running) && waiting == old(waiting) + [m]
    {
      if |running| < Concurrency {
        running := running + [m];
        assert waiting == [];
      } else {
        waiting := waiting + [m];
      }
    }

    /** `queue.clear`: drops every waiting task; the running one goes on. */
    method Clear()
      requires Valid()
      modifies this
      ensures Valid()
      ensures waiting == [] && running == old(running)
    {
      waiting := [];
    }

    /** A running task completes: its slot goes to the oldest waiting task. */
    method Finish() returns (done: Message)
      requires Valid() && running != []
      modifies this
      ensures Valid()
      ensures done == old(running[0])
      ensures Backlog() == old(Backlog())[1..]
    {
      done := running[0];
      running := running[1..];
      if waiting != [] {
        running := running + [waiting[0]];
        waiting := waiting[1..];
      }
    }

    /** The message handler: it answers control tokens and queues everything else. */
    method OnMessage(m: Message) returns (reply: Option<Reply>)
      requires Valid()
      modifies this
      ensures Valid()
      ensures reply == ReplyTo(Classify(m), old(Size()), old(Pending()))
      ensures Classify(m) == Flush ==> waiting == [] && running == old(running)
      ensures Classify(m) == Enqueue ==> Backlog() == old(Backlog()) + [m]
      ensures Classify(m) == Enqueue ==> running == if old(Pending()) < Concurrency then old(running) + [m] else old(running)
      ensures Classify(m) != Flush && Classify(m) != Enqueue ==> waiting == old(waiting) && running == old(running)
    {
      reply := None;
      if m.Token? {
        if m.text == "error" {
          reply := Some(Crashed("oops"));
          return;
        }
        if m.text == "cancel" {
          reply := Some(Cancelled);
          return;
        }
        if m.text == "status:autoUpdater" {
          reply := Some(QueueStatus(Size(), Pending(), "autoUpdater"));
          return;
        }
        if m.text == "status:cleanupStorage" {
          reply := Some(QueueStatus(Size(), Pending(), "cleanupStorage"));
          return;
        }
        if m.text == "action:flushQueue" {
          Clear();
          return;
        }
      }
      Add(m);
    }
  }

  /**
   * Three deploys arrive while the queue is idle, then a flush and a status
   * request: the first deploy is running, the other two are dropped, and
   * once it finishes the queue is empty.
   */
  method FlushScenario(a: Request, b: Request, c: Request) returns (status: Option<Reply>, done: Message, after: Option<Reply>)
    ensures status == Some(QueueStatus(0, 1, "autoUpdater"))
    ensures done == Payload(a)
    ensures after == Some(QueueStatus(0, 0, "cleanupStorage"))
  {
    var q := new JobQueue();
    var ignored := q.OnMessage(Payload(a));
    ignored := q.OnMessage(Payload(b));
    ignored := q.OnMessage(Payload(c));
    assert q.running == [Payload(a)] && |q.waiting| == 2;
    var flush := Token("action:flushQueue");
    assert Classify(flush) == Flush;
    ignored := q.OnMessage(flush);
    var poll := Token("status:autoUpdater");
    assert Classify(poll) == Status("autoUpdater");
    status := q.OnMessage(poll);
    done := q.Finish();
    var cleanup := Token("status:cleanupStorage");
    assert Classify(cleanup) == Status("cleanupStorage");
    after := q.OnMessage(cleanup);
  }
}
