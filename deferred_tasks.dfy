/**
 * The deferred-task queue (tbd_tasks) and its drain protocol: a checkpoint walks a snapshot of the
 * queue in enqueue order, awaits each task and removes it from the live queue only once it completed.
 */
module DeferredTasks {
  import opened Outcomes

  /** A pending reply: the awaitable event.reply(text) returned; id stands for the coroutine object's identity. */
  datatype Task = Task(id: nat, text: string)

  /** What awaiting a task that cannot be delivered raises. */
  const ReplyFailure: Raised := Foreign("a queued reply could not be sent")

  /** The events of delivering these tasks one after the other. */
  function Deliveries(tasks: seq<Task>): seq<Event>
  {
    seq(|tasks|, i requires 0 <= i < |tasks| => Sent(tasks[i].text))
  }

  /** No coroutine object sits in the queue twice. */
  predicate Distinct(q: seq<Task>)
  {
    forall i, j :: 0 <= i < j < |q| ==> q[i].id != q[j].id
  }

  /** How many tasks at the head of q can be delivered before the first one whose await raises. */
  function Completed(q: seq<Task>, outage: set<nat>): (k: nat)
    ensures k <= |q|
    ensures forall i :: 0 <= i < k ==> q[i].id !in outage
    ensures k < |q| ==> q[k].id in outage
  {
    if q == [] || q[0].id in outage then 0 else 1 + Completed(q[1..], outage)
  }

  /** Where t first occurs in q. */
  function IndexOf(q: seq<Task>, t: Task): (i: nat)
    requires t in q
    ensures i < |q| && q[i] == t && t !in q[..i]
  {
    if q[0] == t then 0
    else
      var j := IndexOf(q[1..], t);
      assert q[..j + 1] == [q[0]] + q[1..][..j];
      j + 1
  }

  /** list.remove: drops the first element equal to t, and raises ValueError when there is none. */
  function Remove(q: seq<Task>, t: Task): (r: Outcome<seq<Task>>)
    ensures r.Return? <==> t in q
    ensures r.Raise? ==> r.exc.Foreign?
    ensures r.Return? ==> |r.value| + 1 == |q|
  {
    if t in q then Return(q[..IndexOf(q, t)] + q[IndexOf(q, t) + 1..])
    else Raise(Foreign("ValueError: list.remove(x): x not in list"))
  }

  /** list.remove drops the first copy of a queued task and keeps every other task, in order. */
  lemma RemoveFirst(q: seq<Task>, t: Task)
    requires t in q
    ensures exists i :: 0 <= i < |q| && q[i] == t && t !in q[..i] && Remove(q, t) == Return(q[..i] + q[i + 1..])
  {
    var i := IndexOf(q, t);
    assert 0 <= i < |q| && q[i] == t && t !in q[..i] && Remove(q, t) == Return(q[..i] + q[i + 1..]);
  }

  /** Removing the head of a queue leaves its tail. */
  lemma RemoveHead(q: seq<Task>)
    requires q != []
    ensures Remove(q, q[0]) == Return(q[1..])
  {
    assert IndexOf(q, q[0]) == 0 && q[..0] + q[1..] == q[1..];
  }

  /** Every queued task has its own id, and every id is below the next one to be handed out. */
  predicate WellNumbered(q: seq<Task>, next: nat)
  {
    Distinct(q) && forall i :: 0 <= i < |q| ==> q[i].id < next
  }

  /** What is left of a well-numbered queue after a checkpoint is well numbered. */
  lemma WellNumberedSuffix(q: seq<Task>, i: nat, next: nat)
    requires WellNumbered(q, next) && i <= |q|
    ensures WellNumbered(q[i..], next)
  {
    forall a, b | 0 <= a < b < |q[i..]|
      ensures q[i..][a].id != q[i..][b].id
    {
      assert q[i..][a] == q[i + a] && q[i..][b] == q[i + b];
    }
  }

  /** Appending a task with the next id keeps a queue well numbered. */
  lemma WellNumberedPush(q: seq<Task>, next: nat, text: string)
    requires WellNumbered(q, next)
    ensures WellNumbered(q + [Task(next, text)], next + 1)
  {
  }

  lemma DeliveriesAppend(a: seq<Task>, b: seq<Task>)
    ensures Deliveries(a + b) == Deliveries(a) + Deliveries(b)
  {
  }

  /** The state a checkpoint leaves: the live queue, what it delivered, and what it raised. */
  datatype Drained = Drained(live: seq<Task>, events: seq<Event>, error: Option<Raised>)

  /**
   * One checkpoint, `for task in list(tbd_tasks): await task; tbd_tasks.remove(task)`: walk the snapshot
   * in order over the live queue; a task whose await raises stops the walk and stays queued.
   */
  function Walk(snapshot: seq<Task>, live: seq<Task>, outage: set<nat>): Drained
    decreases |snapshot|
  {
    if snapshot == [] then Drained(live, [], None)
    else if snapshot[0].id in outage then Drained(live, [], Some(ReplyFailure))
    else
      match Remove(live, snapshot[0])
      case Raise(e) => Drained(live, [Sent(snapshot[0].text)], Some(e))
      case Return(rest) =>
        var d := Walk(snapshot[1..], rest, outage);
        Drained(d.live, [Sent(snapshot[0].text)] + d.events, d.error)
  }

  /** A checkpoint whose first task completes delivers it, removes it, and goes on with the rest. */
  lemma WalkHead(snapshot: seq<Task>, later: seq<Task>, outage: set<nat>)
    requires snapshot != [] && snapshot[0].id !in outage
    ensures var d := Walk(snapshot[1..], snapshot[1..] + later, outage);
            Walk(snapshot, snapshot + later, outage) == Drained(d.live, [Sent(snapshot[0].text)] + d.events, d.error)
  {
    var live := snapshot + later;
    assert live[0] == snapshot[0] && live[1..] == snapshot[1..] + later;
    RemoveHead(live);
  }

  lemma DeliveriesCons(t: Task, rest: seq<Task>)
    ensures Deliveries([t] + rest) == [Sent(t.text)] + Deliveries(rest)
  {
    DeliveriesAppend([t], rest);
  }

  /** The completed prefix of a queue whose head completes is that head and the completed prefix of its tail. */
  lemma CompletedHead(q: seq<Task>, outage: set<nat>)
    requires q != [] && q[0].id !in outage
    ensures var k := Completed(q, outage);
            && k == 1 + Completed(q[1..], outage)
            && q[1..][k - 1..] == q[k..]
            && Deliveries(q[..k]) == [Sent(q[0].text)] + Deliveries(q[1..][..k - 1])
  {
    var k := Completed(q, outage);
    var tail := q[1..][..k - 1];
    assert q[..k] == [q[0]] + tail;
    DeliveriesCons(q[0], tail);
  }

  /**
   * Draining a queue whose head is the snapshot delivers the snapshot's tasks in enqueue order up to
   * the first failing one, and leaves that task, the tasks after it and every task queued behind the
   * snapshot in the queue, in their order.
   */
  lemma {:induction false} WalkKeepsFifo(snapshot: seq<Task>, later: seq<Task>, outage: set<nat>)
    ensures var k := Completed(snapshot, outage);
            var d := Walk(snapshot, snapshot + later, outage);
            && d.live == snapshot[k..] + later
            && d.events == Deliveries(snapshot[..k])
            && (d.error == None <==> k == |snapshot|)
            && (d.error != None ==> d.error == Some(ReplyFailure))
  {
    if snapshot != [] && snapshot[0].id !in outage {
      WalkHead(snapshot, later, outage);
      WalkKeepsFifo(snapshot[1..], later, outage);
      CompletedHead(snapshot, outage);
    }
  }

  /** A checkpoint over the queue itself, in closed form. */
  lemma WalkClosed(q: seq<Task>, outage: set<nat>)
    ensures var k := Completed(q, outage);
            Walk(q, q, outage) == Drained(q[k..], Deliveries(q[..k]), if k == |q| then None else Some(ReplyFailure))
  {
    WalkKeepsFifo(q, [], outage);
    assert q + [] == q;
  }

  /** A task that fails at one checkpoint heads the queue at the next and blocks it: nothing more is delivered. */
  lemma FailedTaskBlocksNextDrain(q: seq<Task>, outage: set<nat>)
    requires Completed(q, outage) < |q|
    ensures var rest := Walk(q, q, outage).live;
            rest != [] && rest[0].id in outage && Walk(rest, rest, outage) == Drained(rest, [], Some(ReplyFailure))
  {
    WalkKeepsFifo(q, [], outage);
    assert q + [] == q;
  }

  /** Behind a prefix that completes entirely, a checkpoint goes on exactly as it would without it. */
  lemma {:induction false} CompletedAfter(a: seq<Task>, b: seq<Task>, outage: set<nat>)
    requires Completed(a, outage) == |a|
    ensures Completed(a + b, outage) == |a| + Completed(b, outage)
    decreases |a|
  {
    if a == [] {
      assert a + b == b;
    } else {
      assert (a + b)[0] == a[0] && (a + b)[1..] == a[1..] + b;
      CompletedAfter(a[1..], b, outage);
    }
  }

  /** A queue splits into what one checkpoint delivers and what it leaves. */
  lemma CompletedAppend(a: seq<Task>, b: seq<Task>, outage: set<nat>)
    requires Completed(a, outage) == |a|
    ensures Completed(a + b, outage) == |a| + Completed(b, outage)
    ensures Deliveries((a + b)[..Completed(a + b, outage)]) == Deliveries(a) + Deliveries(b[..Completed(b, outage)])
  {
    CompletedAfter(a, b, outage);
    var c := Completed(b, outage);
    assert (a + b)[..|a| + c] == a + b[..c];
    DeliveriesAppend(a, b[..c]);
  }

  /** A checkpoint stops exactly at the first task whose await raises. */
  lemma {:induction false} CompletedAt(q: seq<Task>, i: nat, outage: set<nat>)
    requires i <= |q| && (forall j :: 0 <= j < i ==> q[j].id !in outage) && (i < |q| ==> q[i].id in outage)
    ensures Completed(q, outage) == i
    decreases i
  {
    if i > 0 {
      assert forall j :: 0 <= j < i - 1 ==> q[1..][j] == q[j + 1];
      CompletedAt(q[1..], i - 1, outage);
    }
  }

  /** One task of a checkpoint: delivering the i-th task of the snapshot and removing it from what is left. */
  lemma DeliverNext(snapshot: seq<Task>, i: nat)
    requires i < |snapshot|
    ensures Remove(snapshot[i..], snapshot[i]) == Return(snapshot[i + 1..])
    ensures Deliveries(snapshot[..i + 1]) == Deliveries(snapshot[..i]) + [Sent(snapshot[i].text)]
  {
    RemoveHead(snapshot[i..]);
    assert snapshot[i..][1..] == snapshot[i + 1..];
    assert snapshot[..i + 1] == snapshot[..i] + [snapshot[i]];
    DeliveriesAppend(snapshot[..i], [snapshot[i]]);
  }

  /** Whatever a checkpoint leaves undelivered behind a prefix that completes, the prefix's deliveries come first. */
  lemma DeliveriesPrefix(a: seq<Task>, b: seq<Task>, outage: set<nat>)
    requires Completed(a, outage) == |a|
    ensures Deliveries(a) <= Deliveries((a + b)[..Completed(a + b, outage)])
  {
    CompletedAppend(a, b, outage);
  }
}
