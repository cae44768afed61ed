/** Replies of the Telegram plugin: one chain of delivery tasks a chat. Each task first waits for the
    task that was the chat's tail when it was enqueued. */
module ReplyQueues {
  import opened Machines
  import opened Options

  type Chat = nat

  datatype Phase = Waiting | Sending | Ended

  /** `previous` is the tail captured at enqueue time; `calledBack` says the done callback ran. */
  datatype Task = Task(chat: Chat, previous: Option<nat>, phase: Phase, calledBack: bool)

  /** `started` lists the tasks in the order their sending began. */
  datatype Queue = Queue(tails: map<Chat, nat>, tasks: seq<Task>, started: seq<nat>)

  datatype Event = Enqueue(chat: Chat) | Start(task: nat) | End(task: nat) | CallBack(task: nat)

  const IDLE := Queue(map[], [], [])

  predicate Is(q: Queue, t: nat, phase: Phase) {
    t < |q.tasks| && q.tasks[t].phase == phase
  }

  /** The awaited predecessor is done, however it ended. */
  predicate Unblocked(q: Queue, t: nat)
    requires t < |q.tasks|
  {
    q.tasks[t].previous.None? || Is(q, q.tasks[t].previous.value, Ended)
  }

  function Step(q: Queue, e: Event): Queue {
    match e
    case Enqueue(chat) =>
      var previous := if chat in q.tails then Some(q.tails[chat]) else None;
      Queue(q.tails[chat := |q.tasks|], q.tasks + [Task(chat, previous, Waiting, false)], q.started)
    case Start(t) =>
      if Is(q, t, Waiting) && Unblocked(q, t)
      then q.(tasks := q.tasks[t := q.tasks[t].(phase := Sending)], started := q.started + [t])
      else q
    case End(t) =>
      if Is(q, t, Sending) then q.(tasks := q.tasks[t := q.tasks[t].(phase := Ended)]) else q
    case CallBack(t) =>
      if Is(q, t, Ended) && !q.tasks[t].calledBack then
        var chat := q.tasks[t].chat;
        Queue(if chat in q.tails && q.tails[chat] == t then q.tails - {chat} else q.tails,
              q.tasks[t := q.tasks[t].(calledBack := true)], q.started)
      else q
  }

  function Run(q: Queue, events: seq<Event>): Queue {
    Fold(Step, q, events)
  }

  /** The delivery chain as the plugin keeps it: `tails` is the only shared structure. */
  class Deliveries {
    var tails: map<Chat, nat>
    var tasks: seq<Task>
    ghost var started: seq<nat>

    ghost function Snapshot(): Queue
      reads this
    {
      Queue(tails, tasks, started)
    }

    /** Every chat's tasks run in order, each linked to the one before it, the last one its tail. */
    ghost predicate Valid()
      reads this
    {
      InOrder(Snapshot()) && Chained(Snapshot())
    }

    constructor ()
      ensures Valid() && Snapshot() == IDLE
    {
      tails, tasks, started := map[], [], [];
    }

    /** The new reply may be sent as soon as, and no sooner than, every earlier one of its chat has ended. */
    method EnqueueOnLoop(chat: Chat) returns (task: nat)
      requires Valid()
      modifies this
      ensures Valid() && Snapshot() == Step(old(Snapshot()), Enqueue(chat))
      ensures task == |old(tasks)| && task < |tasks|
      ensures Unblocked(Snapshot(), task) <==>
              forall i :: 0 <= i < task && tasks[i].chat == chat ==> tasks[i].phase == Ended
    {
      EnqueueKeepsOrder(Snapshot(), chat);
      var previous := if chat in tails then Some(tails[chat]) else None;
      task := |tasks|;
      tasks := tasks + [Task(chat, previous, Waiting, false)];
      tails := tails[chat := task];
      UnblockedIff(Snapshot(), task);
    }

    /** The done callback: a chat whose callbacks have all run keeps no tail, other chats keep theirs. */
    method Finished(task: nat)
      requires Valid() && Is(Snapshot(), task, Ended) && !tasks[task].calledBack
      modifies this
      ensures Valid() && Snapshot() == Step(old(Snapshot()), CallBack(task))
      ensures tails - {old(tasks[task].chat)} == old(tails) - {old(tasks[task].chat)}
      ensures (forall i :: 0 <= i < |tasks| && tasks[i].chat == old(tasks[task].chat) ==> tasks[i].calledBack) ==>
                old(tasks[task].chat) !in tails
    {
      CallBackKeepsOrder(Snapshot(), task);
      var chat := tasks[task].chat;
      if chat in tails && tails[chat] == task {
        tails := tails - {chat};
      }
      tasks := tasks[task := tasks[task].(calledBack := true)];
      if chat in tails {
        assert Tail(Snapshot(), chat);
      }
    }
  }

  // ----- Order, mutual exclusion and isolation over every schedule -----

  /** Within a chat a task leaves Waiting only after every earlier one has ended. */
  ghost predicate InOrder(q: Queue) {
    forall i, j :: 0 <= i < j < |q.tasks| && q.tasks[i].chat == q.tasks[j].chat && q.tasks[j].phase != Waiting
      ==> q.tasks[i].phase == Ended
  }

  /** A task waits for an earlier task of its chat, and every task before that one is covered by it. */
  ghost predicate Linked(q: Queue, j: nat)
    requires j < |q.tasks|
  {
    var previous := q.tasks[j].previous;
    && (previous.Some? ==> previous.value < j && q.tasks[previous.value].chat == q.tasks[j].chat)
    && (forall i :: 0 <= i < j && q.tasks[i].chat == q.tasks[j].chat ==>
          q.tasks[i].phase == Ended || (previous.Some? && i <= previous.value))
  }

  /** A tail is its chat's last task, and its done callback is still to come. */
  ghost predicate Tail(q: Queue, c: Chat)
    requires c in q.tails
  {
    && q.tails[c] < |q.tasks| && q.tasks[q.tails[c]].chat == c && !q.tasks[q.tails[c]].calledBack
    && forall i :: 0 <= i < |q.tasks| && q.tasks[i].chat == c ==> i <= q.tails[c]
  }

  ghost predicate Chained(q: Queue) {
    && (forall j: nat {:trigger Linked(q, j)} :: j < |q.tasks| ==> Linked(q, j))
    && (forall c: Chat {:trigger Tail(q, c)} :: c in q.tails ==> Tail(q, c))
    && (forall i :: 0 <= i < |q.tasks| ==> q.tasks[i].phase == Ended || q.tasks[i].chat in q.tails)
    && (forall i :: 0 <= i < |q.tasks| && q.tasks[i].calledBack ==> q.tasks[i].phase == Ended)
  }

  function Chats(q: Queue): (r: seq<Chat>)
    ensures |r| == |q.tasks| && forall i :: 0 <= i < |r| ==> r[i] == q.tasks[i].chat
  {
    seq(|q.tasks|, i requires 0 <= i < |q.tasks| => q.tasks[i].chat)
  }

  /** The tasks of a chat, in the order they were enqueued. */
  function Enqueued(chats: seq<Chat>, c: Chat): seq<nat> {
    if chats == [] then []
    else
      var n := |chats| - 1;
      Enqueued(chats[..n], c) + if chats[n] == c then [n] else []
  }

  /** The tasks of a chat, in the order they began sending. */
  function Begun(started: seq<nat>, chats: seq<Chat>, c: Chat): seq<nat> {
    if started == [] then []
    else
      var n := |started| - 1;
      Begun(started[..n], chats, c) + if started[n] < |chats| && chats[started[n]] == c then [started[n]] else []
  }

  /** What has begun in a chat is the front of what was enqueued there. */
  ghost predicate FirstComeFirstServed(q: Queue, c: Chat) {
    var begun, all := Begun(q.started, Chats(q), c), Enqueued(Chats(q), c);
    && begun <= all
    && forall k :: 0 <= k < |all| && all[k] < |q.tasks| ==> (k < |begun| <==> q.tasks[all[k]].phase != Waiting)
  }

  ghost predicate Sound(q: Queue) {
    && InOrder(q) && Chained(q)
    && (forall k :: 0 <= k < |q.started| ==> q.started[k] < |q.tasks|)
    && (forall c: Chat {:trigger FirstComeFirstServed(q, c)} :: FirstComeFirstServed(q, c))
  }

  /** A task waits for its own chat only: it may start iff every earlier task of that chat has ended. */
  lemma UnblockedIff(q: Queue, t: nat)
    requires InOrder(q) && Chained(q) && t < |q.tasks|
    ensures Unblocked(q, t) <==> forall i :: 0 <= i < t && q.tasks[i].chat == q.tasks[t].chat ==>
            q.tasks[i].phase == Ended
  {
    assert Linked(q, t);
    if Unblocked(q, t) {
      forall i | 0 <= i < t && q.tasks[i].chat == q.tasks[t].chat
        ensures q.tasks[i].phase == Ended
      {
        var previous := q.tasks[t].previous;
        if previous.Some? && i < previous.value {
          assert q.tasks[i].chat == q.tasks[previous.value].chat && q.tasks[previous.value].phase != Waiting;
        }
      }
    }
  }

  lemma EnqueueKeepsOrder(q: Queue, c: Chat)
    requires InOrder(q) && Chained(q)
    ensures InOrder(Step(q, Enqueue(c))) && Chained(Step(q, Enqueue(c)))
  {
    var r := Step(q, Enqueue(c));
    if c in q.tails { assert Tail(q, c); }
    forall j: nat | j < |r.tasks|
      ensures Linked(r, j)
    {
      if j < |q.tasks| { assert Linked(q, j); }
    }
    forall d: Chat | d in r.tails
      ensures Tail(r, d)
    {
      if d != c { assert Tail(q, d); }
    }
  }

  /** Start and End move one task along; the links and the tails stay. */
  lemma MoveKeepsOrder(q: Queue, e: Event)
    requires InOrder(q) && Chained(q) && (e.Start? || e.End?)
    ensures InOrder(Step(q, e)) && Chained(Step(q, e))
  {
    var r := Step(q, e);
    if r != q {
      UnblockedIff(q, e.task);
      forall j: nat | j < |r.tasks|
        ensures Linked(r, j)
      {
        assert Linked(q, j);
      }
      forall d: Chat | d in r.tails
        ensures Tail(r, d)
      {
        assert Tail(q, d);
      }
    }
  }

  lemma CallBackKeepsOrder(q: Queue, t: nat)
    requires InOrder(q) && Chained(q)
    ensures InOrder(Step(q, CallBack(t))) && Chained(Step(q, CallBack(t)))
  {
    var r := Step(q, CallBack(t));
    if r != q {
      var c := q.tasks[t].chat;
      if c in q.tails { assert Tail(q, c); }
      forall j: nat | j < |r.tasks|
        ensures Linked(r, j)
      {
        assert Linked(q, j);
      }
      forall d: Chat | d in r.tails
        ensures Tail(r, d)
      {
        assert Tail(q, d);
      }
    }
  }

  lemma StepKeepsOrder(q: Queue, e: Event)
    requires InOrder(q) && Chained(q)
    ensures InOrder(Step(q, e)) && Chained(Step(q, e))
  {
    match e
    case Enqueue(c) => EnqueueKeepsOrder(q, c);
    case Start(_) => MoveKeepsOrder(q, e);
    case End(_) => MoveKeepsOrder(q, e);
    case CallBack(t) => CallBackKeepsOrder(q, t);
  }

  lemma {:induction false} EnqueuedMembers(chats: seq<Chat>, c: Chat)
    ensures var r := Enqueued(chats, c);
            && (forall k :: 0 <= k < |r| ==> r[k] < |chats| && chats[r[k]] == c)
            && (forall k, l :: 0 <= k < l < |r| ==> r[k] < r[l])
            && (forall i :: 0 <= i < |chats| && chats[i] == c ==> i in r)
  {
    if chats != [] {
      EnqueuedMembers(chats[..|chats| - 1], c);
    }
  }

  lemma {:induction false} BegunAppend(started: seq<nat>, chats: seq<Chat>, d: Chat, c: Chat)
    requires forall k :: 0 <= k < |started| ==> started[k] < |chats|
    ensures Begun(started, chats + [d], c) == Begun(started, chats, c)
  {
    if started != [] {
      BegunAppend(started[..|started| - 1], chats, d, c);
    }
  }

  /** Only the chat's next reply in turn can start. */
  lemma NextInTurn(q: Queue, t: nat, c: Chat)
    requires Sound(q) && Is(q, t, Waiting) && Unblocked(q, t) && q.tasks[t].chat == c
    ensures var begun, all := Begun(q.started, Chats(q), c), Enqueued(Chats(q), c);
            |begun| < |all| && all[|begun|] == t
  {
    var begun, all := Begun(q.started, Chats(q), c), Enqueued(Chats(q), c);
    assert FirstComeFirstServed(q, c);
    EnqueuedMembers(Chats(q), c);
    UnblockedIff(q, t);
    var m :| 0 <= m < |all| && all[m] == t;
    assert |begun| <= m;
    if m > 0 {
      var before := all[m - 1];
      assert before < t && q.tasks[before].phase == Ended;
    }
  }

  lemma StartKeepsTurn(q: Queue, t: nat, c: Chat)
    requires Sound(q) && Is(q, t, Waiting) && Unblocked(q, t)
    ensures FirstComeFirstServed(Step(q, Start(t)), c)
  {
    hide Enqueued;
    var r := Step(q, Start(t));
    assert Chats(r) == Chats(q);
    assert FirstComeFirstServed(q, c);
    assert r.started[..|r.started| - 1] == q.started;
    EnqueuedMembers(Chats(q), c);
    if q.tasks[t].chat == c {
      NextInTurn(q, t, c);
    }
  }

  lemma EnqueueKeepsTurn(q: Queue, d: Chat, c: Chat)
    requires Sound(q)
    ensures FirstComeFirstServed(Step(q, Enqueue(d)), c)
  {
    var r := Step(q, Enqueue(d));
    assert FirstComeFirstServed(q, c);
    assert Chats(r) == Chats(q) + [d] && Chats(r)[..|q.tasks|] == Chats(q);
    BegunAppend(q.started, Chats(q), d, c);
    EnqueuedMembers(Chats(q), c);
  }

  lemma StepKeepsTurn(q: Queue, e: Event, c: Chat)
    requires Sound(q)
    ensures FirstComeFirstServed(Step(q, e), c)
  {
    var r := Step(q, e);
    assert FirstComeFirstServed(q, c);
    match e
    case Start(t) =>
      if Is(q, t, Waiting) && Unblocked(q, t) { StartKeepsTurn(q, t, c); }
    case Enqueue(d) => EnqueueKeepsTurn(q, d, c);
    case End(t) => assert Chats(r) == Chats(q);
    case CallBack(t) => assert Chats(r) == Chats(q);
  }

  /** Every schedule: replies to one chat are sent in the order they were enqueued, one at a time. */
  lemma {:induction false} RunIsSound(q: Queue, events: seq<Event>)
    requires Sound(q)
    ensures Sound(Run(q, events))
    decreases |events|
  {
    if events != [] {
      var r := Step(q, events[0]);
      StepKeepsOrder(q, events[0]);
      forall c: Chat
        ensures FirstComeFirstServed(r, c)
      {
        StepKeepsTurn(q, events[0], c);
      }
      RunIsSound(r, events[1..]);
    }
  }

  /** Two replies of one chat are never being sent together; a chat whose callbacks have all run keeps no tail. */
  lemma NoOverlapNoResidue(events: seq<Event>)
    ensures var q := Run(IDLE, events);
            && (forall i, j :: 0 <= i < j < |q.tasks| && q.tasks[i].phase == Sending == q.tasks[j].phase
                  ==> q.tasks[i].chat != q.tasks[j].chat)
            && (forall c: Chat :: (forall i :: 0 <= i < |q.tasks| && q.tasks[i].chat == c ==> q.tasks[i].calledBack)
                  ==> c !in q.tails)
  {
    forall c: Chat
      ensures FirstComeFirstServed(IDLE, c)
    {
    }
    RunIsSound(IDLE, events);
    var q := Run(IDLE, events);
    forall c: Chat | c in q.tails
      ensures exists i :: 0 <= i < |q.tasks| && q.tasks[i].chat == c && !q.tasks[i].calledBack
    {
      assert Tail(q, c);
    }
  }
}
