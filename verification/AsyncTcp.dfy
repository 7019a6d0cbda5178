/** The asynchronous stream on the epoll platforms: who holds an operation. */
module AsyncTcp {
  // Each direction has one atomic status word, by which the thread that makes a request
  // and the epoll thread pass the operation to one another. Each access to the word is one step.

  import opened Wrappers

  const EIO: int := 5

  datatype Status = NoStatus | Pending | Signal | Error

  /** A request: how much it is to transfer, how much it has, and whether it is to transfer all of it. */
  datatype Request = Request(size: nat, pos: nat, block: bool)

  /**
    Where a thread stands in AsyncOvlpProc: before the first exchange, at the system call, before the exchange
    that parks, or with a result.
   */
  datatype Proc = Enter | Call | Park | Result(result: int)

  datatype Dir = Send | Recv

  /** One direction: its status word, the request that is not complete, and where the requesting thread stands. */
  datatype Side = Side(status: Status, request: Option<Request>, requester: Option<Proc>, asked: nat, completed: nat)

  /**
    What the epoll thread does: nothing, the signals of an event still to be given, AsyncOvlpProc for a direction,
    or the error of the directions still to be marked.
   */
  datatype Epoll = Idle | Signals(rest: seq<Dir>) | Running(dir: Dir, proc: Proc, rest: seq<Dir>)
      | Errors(marks: seq<Dir>)

  /**
    The stream: whether it is bound to the epoll thread, whether its open is still to complete, both directions,
    and the epoll thread.
   */
  datatype Tcp = Tcp(bound: bool, opening: bool, send: Side, recv: Side, epoll: Epoll, opens: nat, opensDone: nat) {
    function Get(d: Dir): Side { match d case Send => send case Recv => recv }

    function Put(d: Dir, s: Side): Tcp { match d case Send => this.(send := s) case Recv => this.(recv := s) }
  }

  function Fresh(): Side { Side(NoStatus, None, None, 0, 0) }

  function Start(): Tcp { Tcp(false, false, Fresh(), Fresh(), Idle, 0, 0) }

  // ----- AsyncOvlpProc -----

  /** What the system call answers: an end, some bytes, an interruption, "try again", or a failure. */
  datatype Answer = Ended | Moved(n: nat) | Interrupted | Again | Failed

  /** What one step of the procedure does to the direction, and where it leads; None when the operation is parked. */
  datatype Advance = Advance(s: Side, proc: Option<Proc>)

  /** The exchange that takes a signal; without one the call is made only if the counters disagree. */
  function StepEnter(s: Side, counters: bool): Advance {
    var t := if s.status == Signal then s.(status := NoStatus) else s;
    if s.status == Error then Advance(t, Some(Result(-EIO)))
    else if s.status == Signal || counters then Advance(t, Some(Call))
    else Advance(t, Some(Park))
  }

  predicate AnswerFits(r: Request, a: Answer) { a.Moved? ==> 0 < a.n <= r.size - r.pos }

  function StepCall(s: Side, a: Answer): Advance
    requires s.request.Some? && AnswerFits(s.request.value, a)
  {
    var r := s.request.value;
    match a
    case Ended => Advance(s, Some(Result(-EIO)))
    case Moved(n) =>
      var q := r.(pos := r.pos + n);
      Advance(s.(request := Some(q)), Some(if q.pos == q.size || !q.block then Result(q.pos) else Park))
    case Interrupted => Advance(s, Some(Enter))
    case Again => Advance(s, Some(Park))
    case Failed => Advance(s, Some(Result(-EIO)))
  }

  /** The exchange that parks the operation: a signal in between means another try. */
  function StepPark(s: Side): Advance {
    match s.status
    case NoStatus => Advance(s.(status := Pending), None)
    case Signal => Advance(s, Some(Enter))
    case _ => Advance(s, Some(Result(-EIO)))
  }

  /** One step of a thread in the procedure that has no result yet. */
  function StepProc(s: Side, p: Proc, counters: bool, a: Answer): Advance
    requires !p.Result? && (p.Call? ==> s.request.Some? && AnswerFits(s.request.value, a))
  {
    match p
    case Enter => StepEnter(s, counters)
    case Call => StepCall(s, a)
    case Park => StepPark(s)
  }

  /** The request is complete: by the value returned to its caller, or by its callback. */
  function Complete(s: Side): Side { s.(request := None, completed := s.completed + 1) }

  // ----- the stream -----

  datatype Event =
    | Open
    | Accept
    | Ask(dir: Dir, size: nat, block: bool)
    | Requester(dir: Dir, counters: bool, answer: Answer)
    | Ready(output: bool, input: bool)
    | GiveSignal
    | Proceed(counters: bool, answer: Answer)
    | Hangup
    | MarkError
    | CloseDone

  datatype Outcome = Disabled | Fault | Next(t: Tcp)

  /** AsyncTcpBind: with an open still to complete, the sending direction waits for it. */
  function Bind(t: Tcp, opening: bool): Tcp {
    Tcp(true, opening,
        t.send.(status := if opening then Pending else NoStatus), t.recv.(status := NoStatus), Idle,
        t.opens + (if opening then 1 else 0), t.opensDone)
  }

  function StepRequester(t: Tcp, d: Dir, counters: bool, a: Answer): Outcome {
    var s := t.Get(d);
    if s.requester.None? then Disabled
    else if s.requester.value.Result? then Next(t.Put(d, Complete(s.(requester := None))))
    else if s.requester.value.Call? && (s.request.None? || !AnswerFits(s.request.value, a))
        then (if s.request.None? then Fault else Disabled)
    else
      var v := StepProc(s, s.requester.value, counters, a);
      Next(t.Put(d, v.s.(requester := v.proc)))
  }

  /** An event of the descriptor, in the callback of an open that is still to complete or of an open stream. */
  function StepReady(t: Tcp, output: bool, input: bool): Outcome {
    if !t.bound || !t.epoll.Idle? then Disabled
    else if t.opening then
      if !output && !input then Next(t)
      else if t.send.status == Pending
          then Next(t.(opening := false, opensDone := t.opensDone + 1, send := t.send.(status := NoStatus)))
      else Fault
    else Next(t.(epoll := Signals((if output then [Send] else []) + (if input then [Recv] else []))))
  }

  /** AsyncOvlpSignal: the word is set, and a parked operation is taken over. */
  function StepSignal(t: Tcp): Outcome {
    if !t.epoll.Signals? then Disabled
    else if t.epoll.rest == [] then Next(t.(epoll := Idle))
    else
      var d, rest := t.epoll.rest[0], t.epoll.rest[1..];
      var s := t.Get(d);
      if s.status == Error then Fault
      else
        var u := t.Put(d, s.(status := Signal));
        Next(u.(epoll := if s.status == Pending then Running(d, Enter, rest) else Signals(rest)))
  }

  /** The epoll thread in the procedure; a result other than zero is told to the request's callback. */
  function StepRunning(t: Tcp, counters: bool, a: Answer): Outcome {
    if !t.epoll.Running? then Disabled
    else
      var d, p, rest := t.epoll.dir, t.epoll.proc, t.epoll.rest;
      var s := t.Get(d);
      if p.Result? then Next(t.Put(d, Complete(s)).(epoll := Signals(rest)))
      else if p.Call? && (s.request.None? || !AnswerFits(s.request.value, a))
          then (if s.request.None? then Fault else Disabled)
      else
        var v := StepProc(s, p, counters, a);
        var u := t.Put(d, v.s);
        Next(u.(epoll := match v.proc case Some(q) => Running(d, q, rest) case None => Signals(rest)))
  }

  /** AsyncOvlpError, one direction: the word is set for good, and what waited on it is told. */
  function StepError(t: Tcp): Outcome {
    if !t.epoll.Errors? then Disabled
    else if t.epoll.marks == [] then Next(t.(epoll := Idle))
    else
      var d := t.epoll.marks[0];
      var s := t.Get(d);
      var u := t.(epoll := Errors(t.epoll.marks[1..]));
      var marked := s.(status := Error);
      if s.status != Pending then Next(u.Put(d, marked))
      else if d == Send && t.opening then Next(u.Put(d, marked).(opening := false, opensDone := t.opensDone + 1))
      else Next(u.Put(d, Complete(marked)))
  }

  /** Nothing is asked for, opening or being done. */
  predicate Quiet(t: Tcp) {
    t.epoll.Idle? && !t.opening && t.send.request.None? && t.recv.request.None? && t.send.requester.None?
        && t.recv.requester.None?
  }

  /**
    A step. A caller asks again in a direction only when its last request there
    is complete, asks nothing before an open is complete, and opens, accepts and
    closes only when nothing is asked for.
   */
  function Step(t: Tcp, e: Event): Outcome {
    match e
    case Open => if t.bound || !Quiet(t) then Disabled else Next(Bind(t, true))
    case Accept => if t.bound || !Quiet(t) then Disabled else Next(Bind(t, false))
    case Ask(d, size, block) =>
      var s := t.Get(d);
      if t.opening || s.request.Some? || s.requester.Some? || size == 0 then Disabled
      else Next(t.Put(d, s.(request := Some(Request(size, 0, block)), requester := Some(Enter), asked := s.asked + 1)))
    case Requester(d, counters, a) => StepRequester(t, d, counters, a)
    case Ready(output, input) => StepReady(t, output, input)
    case GiveSignal => StepSignal(t)
    case Proceed(counters, a) => StepRunning(t, counters, a)
    case Hangup => if t.bound && t.epoll.Idle? then Next(t.(bound := false, epoll := Errors([Recv, Send])))
        else Disabled
    case MarkError => StepError(t)
    case CloseDone =>
      if !t.bound || !Quiet(t) then Disabled
      else if t.send.status == Pending || t.recv.status == Pending then Fault
      else Next(t.(bound := false))
  }

  // ----- the invariant -----

  predicate Runs(t: Tcp, d: Dir) { t.epoll.Running? && t.epoll.dir == d }

  predicate IsError(t: Tcp, d: Dir) { t.Get(d).status == Error }

  /** A thread's place in the procedure goes with a request that still has something to do, or with its result. */
  predicate ProcFits(s: Side, p: Proc) {
    s.request.Some? &&
    var r := s.request.value;
    if p.Result? then p.result == -EIO || (p.result == r.pos && 0 < r.pos && (r.block ==> r.pos == r.size))
        else r.pos < r.size
  }

  /**
    One direction: a request is held by the requester, by the epoll thread or by
    the word, and by one of them only; a parked one has no thread.
   */
  predicate SideOk(t: Tcp, d: Dir) {
    var s := t.Get(d);
    && !(s.requester.Some? && Runs(t, d))
    && (s.status == Pending ==> s.requester.None? && !Runs(t, d))
    && (s.request.Some? <==> s.requester.Some? || Runs(t, d) || (s.status == Pending && !(t.opening && d == Send)))
    && (s.requester.Some? ==> ProcFits(s, s.requester.value))
    && (Runs(t, d) ==> ProcFits(s, t.epoll.proc))
    && (s.status == Pending && s.request.Some? ==> s.request.value.pos < s.request.value.size)
    && s.asked == s.completed + (if s.request.Some? then 1 else 0)
  }

  predicate ErrorOk(t: Tcp, d: Dir) {
    IsError(t, d) ==> !t.bound && (t.epoll.Idle? || (t.epoll.Errors? && d !in t.epoll.marks))
  }

  predicate Inv(t: Tcp) {
    && SideOk(t, Send) && SideOk(t, Recv) && ErrorOk(t, Send) && ErrorOk(t, Recv)
    && (t.epoll.Signals? || t.epoll.Running? ==> t.bound && !t.opening)
    && (t.epoll.Errors?
       ==> !t.bound
           && (t.epoll.marks == [Recv, Send] || t.epoll.marks == [Send] || (t.epoll.marks == [] && !t.opening)))
    && (t.opening ==>
       t.send.status == Pending && t.send.request.None? && t.recv.request.None?
       && (t.bound || t.epoll.Errors?))
    && t.opens == t.opensDone + (if t.opening then 1 else 0)
  }

  /** One step in the procedure keeps the request with its thread, or parks it. */
  predicate Advanced(before: Side, v: Advance) {
    && v.s == before.(status := v.s.status, request := v.s.request) && v.s.request.Some?
    && (before.status == Error ==> v.s.status == Error) && (v.s.status == Error ==> before.status == Error)
    && (if v.proc.Some? then v.s.status != Pending && ProcFits(v.s, v.proc.value)
        else v.s.status == Pending && v.s.request.value.pos < v.s.request.value.size)
  }

  lemma ProcAdvances(s: Side, p: Proc, counters: bool, a: Answer)
    requires ProcFits(s, p) && !p.Result? && s.status != Pending && (p.Call? ==> AnswerFits(s.request.value, a))
    ensures Advanced(s, StepProc(s, p, counters, a))
  {
  }

  lemma RequesterKeeps(t: Tcp, d: Dir, counters: bool, a: Answer)
    requires Inv(t)
    ensures var o := StepRequester(t, d, counters, a); !o.Fault? && (o.Next? ==> Inv(o.t))
  {
    hide StepProc;
    var s := t.Get(d);
    if s.requester.Some? && !s.requester.value.Result? && (s.requester.value.Call? ==> AnswerFits(s.request.value, a)) {
      ProcAdvances(s, s.requester.value, counters, a);
    }
  }

  lemma RunningKeeps(t: Tcp, counters: bool, a: Answer)
    requires Inv(t)
    ensures var o := StepRunning(t, counters, a); !o.Fault? && (o.Next? ==> Inv(o.t))
  {
    hide StepProc; hide ProcFits;
    if t.epoll.Running? {
      var s := t.Get(t.epoll.dir);
      if !t.epoll.proc.Result? && (t.epoll.proc.Call? ==> AnswerFits(s.request.value, a)) {
        ProcAdvances(s, t.epoll.proc, counters, a);
      }
    }
  }

  lemma SignalKeeps(t: Tcp)
    requires Inv(t)
    ensures var o := StepSignal(t); !o.Fault? && (o.Next? ==> Inv(o.t))
  {
  }

  lemma ErrorKeeps(t: Tcp)
    requires Inv(t)
    ensures var o := StepError(t); !o.Fault? && (o.Next? ==> Inv(o.t))
  {
  }

  lemma ReadyKeeps(t: Tcp, output: bool, input: bool)
    requires Inv(t)
    ensures var o := StepReady(t, output, input); !o.Fault? && (o.Next? ==> Inv(o.t))
  {
  }

  lemma CallerKeeps(t: Tcp, e: Event)
    requires Inv(t) && (e.Open? || e.Accept? || e.Ask? || e.Hangup? || e.CloseDone?)
    ensures var o := Step(t, e); !o.Fault? && (o.Next? ==> Inv(o.t))
  {
  }

  lemma StepKeeps(t: Tcp, e: Event)
    requires Inv(t)
    ensures var o := Step(t, e); !o.Fault? && (o.Next? ==> Inv(o.t))
  {
    hide Inv; hide StepRequester; hide StepRunning; hide StepSignal; hide StepError; hide StepReady;
    match e
    case Requester(d, counters, a) => RequesterKeeps(t, d, counters, a);
    case Ready(output, input) => ReadyKeeps(t, output, input);
    case GiveSignal => SignalKeeps(t);
    case Proceed(counters, a) => RunningKeeps(t, counters, a);
    case MarkError => ErrorKeeps(t);
    case _ => CallerKeeps(t, e);
  }

  // ----- runs -----

  predicate IsRun(states: seq<Tcp>, events: seq<Event>) {
    && |states| == |events| + 1 && states[0] == Start()
    && forall i :: 0 <= i < |events| ==> Step(states[i], events[i]) == Next(states[i + 1])
  }

  ghost predicate Reachable(t: Tcp) { exists states, events :: IsRun(states, events) && states[|events|] == t }

  lemma {:induction false} RunInv(states: seq<Tcp>, events: seq<Event>)
    requires IsRun(states, events)
    ensures Inv(states[|events|])
    decreases |events|
  {
    hide Step; hide Inv;
    if events == [] {
      StartIsOk();
    } else {
      var k := |events| - 1;
      assert IsRun(states[..k + 1], events[..k]) by {
        forall i | 0 <= i < k ensures Step(states[..k + 1][i], events[..k][i]) == Next(states[..k + 1][i + 1]) {
          assert Step(states[i], events[i]) == Next(states[i + 1]);
        }
      }
      RunInv(states[..k + 1], events[..k]);
      StepKeeps(states[k], events[k]);
    }
  }

  lemma StartIsOk()
    ensures Inv(Start())
  {
  }

  lemma ReachableInv(t: Tcp)
    requires Reachable(t)
    ensures Inv(t)
  {
    hide Step; hide Inv;
    var states, events :| IsRun(states, events) && states[|events|] == t;
    RunInv(states, events);
  }

  // ----- what every run keeps -----

  /** In every run the asserts hold: no signal meets the error mark, and a stream closes with nothing parked. */
  lemma NeverFaults(t: Tcp, e: Event)
    requires Reachable(t)
    ensures !Step(t, e).Fault?
  {
    hide Step; hide Inv;
    ReachableInv(t);
    StepKeeps(t, e);
  }

  /** At most one thread is in the procedure for a direction, and none while its operation is parked. */
  lemma OneRunner(t: Tcp, d: Dir)
    requires Reachable(t)
    ensures !(t.Get(d).requester.Some? && Runs(t, d))
    ensures t.Get(d).status == Pending ==> t.Get(d).requester.None? && !Runs(t, d)
  {
    hide ProcFits;
    ReachableInv(t);
  }

  /** A request that is not complete has one holder: its caller's thread, the epoll thread, or the status word. */
  lemma OneHolder(t: Tcp, d: Dir)
    requires Reachable(t) && t.Get(d).request.Some?
    ensures t.Get(d).requester.Some? || Runs(t, d) || t.Get(d).status == Pending
  {
    hide ProcFits;
    ReachableInv(t);
  }

  /** Once marked, an error stays until the stream is bound again. */
  lemma ErrorStays(t: Tcp, d: Dir, e: Event)
    requires Reachable(t) && IsError(t, d) && Step(t, e).Next? && !e.Open? && !e.Accept?
    ensures IsError(Step(t, e).t, d)
  {
    hide ProcFits;
    ReachableInv(t);
  }

  /**
    Every request, and every open, is completed once: as many are complete as were asked for, but for one that is
    under way.
   */
  lemma CompletedOnce(t: Tcp, d: Dir)
    requires Reachable(t)
    ensures t.Get(d).asked == t.Get(d).completed + if t.Get(d).request.Some? then 1 else 0
    ensures t.opens == t.opensDone + if t.opening then 1 else 0
  {
    hide ProcFits;
    ReachableInv(t);
  }

  /** A completion without an error has moved something, and for a block everything. */
  lemma ResultsFit(t: Tcp, d: Dir)
    requires Reachable(t)
    ensures var s := t.Get(d);
            var p := if Runs(t, d) then Some(t.epoll.proc) else s.requester;
            p.Some? && p.value.Result? && p.value.result != -EIO ==>
              s.request.Some? && p.value.result == s.request.value.pos > 0
                  && (s.request.value.block ==> s.request.value.pos == s.request.value.size)
  {
    ReachableInv(t);
  }
}
