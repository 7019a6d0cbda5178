/** The abortable serial queue of an I/O component. */
module IoQueue {
  // Its steps are the sections under its lock and the calls between them; any number of
  // threads post, and completions and aborts come at any time.

  const EINTR: int := 4

  /** A message in the queue: the number under which it was accepted. */
  type Ticket = nat

  /**
    The thread that drives the queue: it is about to hand the head to the
    stream, waits for the stream, holds the head's result, or tells the message
    it has just taken off while others wait behind it.
   */
  datatype Worker = Idle | Submitting | InFlight | Holding(result: int) | Telling(t: Ticket, result: int)

  /** A message whose completion is still to be called, and the result it will be given. */
  datatype Ending = Ending(t: Ticket, result: int)

  /**
    The component: the abort flag, the queue, whether the post-end callback is
    set, the worker, and the completions of threads that have left the queue
    empty. The rest is a record: how many messages were accepted, those handed
    to the stream or answered for an abort, those completed, and the calls of
    `_input_begin` and of the post-end callback.
   */
  datatype Queue = Queue(
    abort: bool, queue: seq<Ticket>, postEnd: bool, worker: Worker, leaving: seq<Ending>,
    accepted: nat, reached: seq<Ticket>, told: seq<Ending>, begins: nat, ends: nat)

  function NewQueue(): Queue { Queue(true, [], false, Idle, [], 0, [], [], 0, 0) }

  datatype Event =
    | Begin
    | End
    | Post
    | Submit(result: int)
    | Complete(result: int)
    | Pop
    | Tell
    | TellLeaving(k: nat)

  datatype Outcome = Disabled | Fault | Next(q: Queue)

  /** The post-end callback, if the queue is aborted and empty. */
  function PostEnd(q: Queue): Queue {
    if q.abort && q.queue == [] && q.postEnd then q.(postEnd := false, ends := q.ends + 1) else q
  }

  /** `_input_begin`, with its assert. */
  function StepBegin(q: Queue): Outcome {
    if q.queue != [] || q.postEnd then Fault
    else Next(q.(abort := false, postEnd := true, begins := q.begins + 1))
  }

  /** `_input_end` */
  function StepEnd(q: Queue): Queue { PostEnd(q.(abort := true)) }

  /** The locked part of `_do_post`: refused when aborted; the first message makes its poster the worker. */
  function StepPost(q: Queue): Queue {
    if q.abort then q
    else
      var first := q.queue == [];
      q.(queue := q.queue + [q.accepted], accepted := q.accepted + 1, worker := if first then Submitting else q.worker)
  }

  /** `do_input`: a result other than zero is final, zero means that the stream will complete it. */
  function StepSubmit(q: Queue, result: int): Outcome {
    if !q.worker.Submitting? then Disabled
    else if q.queue == [] then Fault
    else Next(q.(reached := q.reached + [q.queue[0]], worker := if result == 0 then InFlight else Holding(result)))
  }

  /** The locked part of `_inmsg_done`: the head leaves the queue; the last one may end the posts. */
  function StepPop(q: Queue): Outcome {
    if !q.worker.Holding? then Disabled
    else if q.queue == [] then Fault
    else
      var t, rest := q.queue[0], q.queue[1..];
      if rest != [] then Next(q.(queue := rest, worker := Telling(t, q.worker.result)))
      else Next(PostEnd(q.(queue := rest, worker := Idle, leaving := q.leaving + [Ending(t, q.worker.result)])))
  }

  /**
    The completion of a message with others behind it, and the choice for the next: an abort answers it without
    the stream.
   */
  function StepTell(q: Queue): Outcome {
    if !q.worker.Telling? then Disabled
    else if q.queue == [] then Fault
    else
      var told := q.(told := q.told + [Ending(q.worker.t, q.worker.result)]);
      Next(if q.abort then told.(reached := q.reached + [q.queue[0]], worker := Holding(-EINTR))
          else told.(worker := Submitting))
  }

  function Without<T>(s: seq<T>, k: nat): seq<T>
    requires k < |s|
  {
    s[..k] + s[k + 1..]
  }

  function Step(q: Queue, e: Event): Outcome {
    match e
    case Begin => StepBegin(q)
    case End => Next(StepEnd(q))
    case Post => Next(StepPost(q))
    case Submit(result) => StepSubmit(q, result)
    case Complete(result) => if q.worker.InFlight? then Next(q.(worker := Holding(result))) else Disabled
    case Pop => StepPop(q)
    case Tell => StepTell(q)
    case TellLeaving(k) =>
      if k < |q.leaving| then Next(q.(leaving := Without(q.leaving, k), told := q.told + [q.leaving[k]])) else Disabled
  }

  // ----- the component as an object -----

  /** The fields of the component that its locked sections update. */
  class InOut {
    var abort: bool
    var queue: seq<Ticket>
    var postEnd: bool
    var accepted: nat

    constructor ()
      ensures abort && queue == [] && !postEnd && accepted == 0
    {
      abort, queue, postEnd, accepted := true, [], false, 0;
    }

    /** The fields agree with a state of the queue. */
    predicate Agrees(q: Queue)
      reads this
    {
      abort == q.abort && queue == q.queue && postEnd == q.postEnd && accepted == q.accepted
    }

    method InputBegin(ghost q: Queue)
      requires Agrees(q) && !StepBegin(q).Fault?
      modifies this
      ensures Agrees(StepBegin(q).q)
    {
      assert queue == [] && !postEnd;
      abort := false;
      postEnd := true;
    }

    /** `_input_end`; says whether it called the post-end callback. */
    method InputEnd(ghost q: Queue) returns (called: bool)
      requires Agrees(q)
      modifies this
      ensures Agrees(StepEnd(q)) && called == (StepEnd(q).ends > q.ends)
    {
      abort := true;
      called := queue == [] && postEnd;
      if called {
        postEnd := false;
      }
    }

    /** The locked part of `_do_post`. */
    method Enqueue(ghost q: Queue) returns (refused: bool, first: bool)
      requires Agrees(q)
      modifies this
      ensures Agrees(StepPost(q)) && refused == q.abort && first == (!q.abort && q.queue == [])
    {
      if abort {
        return true, false;
      }
      first := queue == [];
      queue, accepted := queue + [accepted], accepted + 1;
      return false, first;
    }

    /** The locked part of `_inmsg_done`. */
    method Dequeue(ghost q: Queue) returns (msg: Ticket, more: bool)
      requires Agrees(q) && q.worker.Holding? && q.queue != []
      modifies this
      ensures Agrees(StepPop(q).q) && msg == q.queue[0] && more == (|q.queue| > 1)
    {
      msg, queue := queue[0], queue[1..];
      more := queue != [];
      if !more && abort && postEnd {
        postEnd := false;
      }
    }
  }

  // ----- the invariant -----

  function Numbers(n: nat): multiset<Ticket> { if n == 0 then multiset{} else Numbers(n - 1) + multiset{n - 1} }

  function Tickets(es: seq<Ending>): multiset<Ticket> {
    if es == [] then multiset{} else Tickets(es[..|es| - 1]) + multiset{es[|es| - 1].t}
  }

  /** The messages that have left the queue. */
  function Popped(q: Queue): int { q.accepted - |q.queue| }

  /**
    The queue is the accepted messages in order, less those that have left; the worker's state says how far the
    head has come.
   */
  predicate InOrder(q: Queue) {
    && Popped(q) >= 0
    && (forall i :: 0 <= i < |q.queue| ==> q.queue[i] == Popped(q) + i)
    && (forall i :: 0 <= i < |q.reached| ==> q.reached[i] == i)
    && |q.reached| == Popped(q) + if q.worker.InFlight? || q.worker.Holding? then 1 else 0
  }

  /** The completions called, and those still to be called, are those of the messages that have left, once each. */
  predicate OnceEach(q: Queue) {
    Popped(q) >= 0 &&
    Tickets(q.told) + Tickets(q.leaving) + (if q.worker.Telling? then multiset{q.worker.t} else multiset{})
        == Numbers(Popped(q))
  }

  predicate Inv(q: Queue) {
    && (q.worker.Idle? <==> q.queue == [])
    && (!q.abort || q.queue != [] ==> q.postEnd) && (q.abort && q.queue == [] ==> !q.postEnd)
    && q.begins == q.ends + (if q.postEnd then 1 else 0)
    && InOrder(q) && OnceEach(q)
  }

  lemma {:induction false} TicketsJoin(x: seq<Ending>, y: seq<Ending>)
    ensures Tickets(x + y) == Tickets(x) + Tickets(y)
  {
    if y == [] {
      assert x + y == x;
    } else {
      var init, last := y[..|y| - 1], y[|y| - 1];
      TicketsJoin(x, init);
      assert (x + y)[..|x + y| - 1] == x + init && (x + y)[|x + y| - 1] == last;
      assert Tickets(x) + (Tickets(init) + multiset{last.t}) == Tickets(x) + Tickets(init) + multiset{last.t};
    }
  }

  lemma TicketsOne(e: Ending)
    ensures Tickets([e]) == multiset{e.t}
  {
    assert [e][..0] == [];
    assert Tickets([]) == multiset{};
  }

  lemma TicketsWithout(es: seq<Ending>, k: nat)
    requires k < |es|
    ensures Tickets(es) == Tickets(Without(es, k)) + Tickets([es[k]])
  {
    hide Tickets;
    TicketsJoin(es[..k], es[k + 1..]);
    TicketsJoin(es[..k], [es[k]]);
    TicketsJoin(es[..k] + [es[k]], es[k + 1..]);
    assert es == es[..k] + [es[k]] + es[k + 1..];
  }

  lemma PostKeeps(q: Queue)
    requires Inv(q)
    ensures Inv(StepPost(q)) && Inv(StepEnd(q))
  {
    hide Tickets; hide Numbers;
  }

  lemma PopKeeps(q: Queue)
    requires Inv(q) && q.worker.Holding?
    ensures StepPop(q).Next? && Inv(StepPop(q).q)
  {
    hide Tickets; hide Numbers;
    var t, r := q.queue[0], q.worker.result;
    TicketsJoin(q.leaving, [Ending(t, r)]);
    TicketsOne(Ending(t, r));
    NumbersNext(Popped(q));
  }

  lemma NumbersNext(n: nat)
    ensures Numbers(n + 1) == Numbers(n) + multiset{n}
  {
  }

  lemma TellKeeps(q: Queue)
    requires Inv(q) && q.worker.Telling?
    ensures StepTell(q).Next? && Inv(StepTell(q).q)
  {
    hide Tickets; hide Numbers;
    var e := Ending(q.worker.t, q.worker.result);
    TicketsJoin(q.told, [e]);
    TicketsOne(e);
  }

  lemma LeavingKeeps(q: Queue, k: nat)
    requires Inv(q) && k < |q.leaving|
    ensures Inv(Step(q, TellLeaving(k)).q)
  {
    hide Tickets; hide Numbers;
    TicketsWithout(q.leaving, k);
    TicketsJoin(q.told, [q.leaving[k]]);
  }

  lemma SubmitKeeps(q: Queue, result: int)
    requires Inv(q)
    ensures var o := StepSubmit(q, result); !o.Fault? && (o.Next? ==> Inv(o.q))
  {
    hide Tickets; hide Numbers;
  }

  /**
    The only assert that a caller can break is that of `_input_begin`, by beginning again before the posts have
    ended.
   */
  lemma StepKeeps(q: Queue, e: Event)
    requires Inv(q)
    ensures var o := Step(q, e); (o.Fault? <==> e.Begin? && q.postEnd) && (o.Next? ==> Inv(o.q))
  {
    hide Tickets; hide Numbers; hide StepPop; hide StepTell; hide StepSubmit;
    match e
    case Begin =>
    case End => PostKeeps(q);
    case Post => PostKeeps(q);
    case Submit(result) => SubmitKeeps(q, result); NotFault(q, e);
    case Complete(result) =>
    case Pop => if q.worker.Holding? { PopKeeps(q); } else { NotFault(q, e); }
    case Tell => if q.worker.Telling? { TellKeeps(q); } else { NotFault(q, e); }
    case TellLeaving(k) => if k < |q.leaving| { LeavingKeeps(q, k); }
  }

  lemma NotFault(q: Queue, e: Event)
    requires Inv(q) && (e.Submit? || (e.Pop? && !q.worker.Holding?) || (e.Tell? && !q.worker.Telling?))
    ensures !Step(q, e).Fault? && (!e.Submit? ==> Step(q, e).Disabled?)
  {
  }

  // ----- runs -----

  predicate IsRun(states: seq<Queue>, events: seq<Event>) {
    && |states| == |events| + 1 && states[0] == NewQueue()
    && forall i :: 0 <= i < |events| ==> Step(states[i], events[i]) == Next(states[i + 1])
  }

  ghost predicate Reachable(q: Queue) { exists states, events :: IsRun(states, events) && states[|events|] == q }

  lemma {:induction false} RunInv(states: seq<Queue>, events: seq<Event>)
    requires IsRun(states, events)
    ensures Inv(states[|events|])
    decreases |events|
  {
    hide Step; hide Inv;
    if events == [] {
      NewIsOk();
    } else {
      var k := |events| - 1;
      assert IsRun(states[..k + 1], events[..k]) by {
        forall i | 0 <= i < k ensures Step(states[..k + 1][i], events[..k][i]) == Next(states[..k + 1][i + 1]) {
          assert Step(states[i], events[i]) == Next(states[i + 1]);
        }
      }
      RunInv(states[..k + 1], events[..k]);
      StepKeeps(states[k], events[k]);
    }
  }

  lemma NewIsOk()
    ensures Inv(NewQueue())
  {
  }

  lemma ReachableInv(q: Queue)
    requires Reachable(q)
    ensures Inv(q)
  {
    hide Step; hide Inv;
    var states, events :| IsRun(states, events) && states[|events|] == q;
    RunInv(states, events);
  }

  // ----- what every run keeps -----

  /** There is a worker exactly when the queue is not empty. */
  lemma OneWorker(q: Queue)
    requires Reachable(q)
    ensures q.worker.Idle? <==> q.queue == []
  {
    ReachableInv(q);
  }

  /** Messages leave the queue, and reach the stream or the abort, in the order of their posts. */
  lemma PostOrder(q: Queue)
    requires Reachable(q)
    ensures forall i :: 0 <= i < |q.queue| ==> q.queue[i] == q.accepted - |q.queue| + i
    ensures q.reached == seq(|q.reached|, i requires 0 <= i < |q.reached| => i)
    ensures q.accepted - |q.queue| <= |q.reached| <= q.accepted
  {
    ReachableInv(q);
  }

  lemma {:induction false} NumbersAre(n: nat, t: Ticket)
    ensures Numbers(n)[t] == if t < n then 1 else 0
  {
    if n > 0 {
      NumbersAre(n - 1, t);
    }
  }

  /** No message is completed twice; when nothing is under way every accepted message has been completed once. */
  lemma CompletedOnce(q: Queue, t: Ticket)
    requires Reachable(q)
    ensures Tickets(q.told)[t] <= 1
    ensures q.queue == [] && q.leaving == [] ==> Tickets(q.told)[t] == if t < q.accepted then 1 else 0
  {
    hide Tickets; hide Numbers;
    ReachableInv(q);
    NumbersAre(Popped(q), t);
    NoTickets();
  }

  lemma NoTickets()
    ensures Tickets([]) == multiset{}
  {
  }

  /**
    The post-end callback is called once for each `_input_begin`: not before the
    queue is aborted and empty, at once when it is, and after it nothing is
    accepted until the next `_input_begin`, which then finds the queue empty.
   */
  lemma PostsEndOnce(q: Queue)
    requires Reachable(q)
    ensures q.begins == q.ends + if q.postEnd then 1 else 0
    ensures q.abort && q.queue == [] ==> !q.postEnd
    ensures !q.postEnd ==> StepPost(q) == q && q.queue == [] && !StepBegin(q).Fault?
  {
    ReachableInv(q);
  }

  /** An event that calls the post-end callback leaves the queue aborted and empty. */
  lemma PostEndWhenDrained(q: Queue, e: Event)
    requires Reachable(q) && Step(q, e).Next? && Step(q, e).q.ends > q.ends
    ensures var n := Step(q, e).q; n.ends == q.ends + 1 && n.abort && n.queue == [] && n.worker.Idle?
  {
    ReachableInv(q);
    StepKeeps(q, e);
  }
}
