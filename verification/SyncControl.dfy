/** SyncControl: requests to one inner stream, serialised per request slot, and the decision who closes the stream. */
module SyncControl {
  // The state machine below runs any number of threads of control ("acts"). An act is a
  // chain of execution: a caller, or what the inner stream still owes (`InStream`,
  // `OpenPending`, `CloseStream`). Each step is one atomic piece of a C function: an
  // interlocked operation, a plain read of `status`, or a piece of code under the slot's
  // mutex. Steps of different acts interleave freely. A failed C assertion is `Fault`.

  import opened Wrappers

  type Msg = nat
  type Act = nat
  type Index = nat

  datatype Status = Invalid | Opening | Opened | Abort | Closing | Closed

  /** What a slot's `from` or queue holds: a request with its arrival ticket, or an open or close message. */
  datatype Entry =
    | Request(msg: Msg, ticket: nat, front: bool)
    | Control(msg: Msg)

  /** Opening, or closing after an open that failed. The comment names what comes next. */
  datatype OpenPc =
    | OpenHold(m: Msg)              // raise the count
    | OpenCall(m: Msg)              // call the inner open
    | OpenPending                   // the inner open is outstanding
    | OpenStatus(result: int)       // read the status
    | OpenTry(m: Msg, result: int)  // compare-and-swap Opening to Opened
    | OpenFail                      // exchange the status for Closing
    | OpenClose                     // call the inner close
    | OpenClosePending              // that close is outstanding
    | OpenDrop                      // lower the count
    | OpenFinish                    // exchange the status for Closed

  /** Closing an open object. */
  datatype ClosePc =
    | Barrier(m: Msg)               // pass through the mutexes in `barrier`
    | CloseDrop(m: Msg)             // lower the count
    | ClearList(i: Index, todo: set<Index>)  // clear the queues in todo
    | CloseCall(i: Index)           // call the inner close
    | CloseStream(i: Index)         // that close is outstanding
    | CloseFin(i: Index)            // exchange the status for Closed

  /** A caller that holds nothing yet. */
  datatype CallPc =
    | ReqLock(i: Index, m: Msg, front: bool)  // take the mutex
    | CancelLock(i: Index, m: Msg)  // take the mutex
    | CloseCas1(m: Msg)             // compare-and-swap Opening to Abort
    | CloseCas2(m: Msg)             // compare-and-swap Opened to Closing

  /** A caller in a critical section; `live` is what it read the status to be. */
  datatype Section =
    | Post(m: Msg, front: bool)  // start or queue
    | Cancel(m: Msg)                // unlink

  /** Working one started request. */
  datatype DispPc =
    | Issue                         // call the inner request
    | InStream                      // the inner request is outstanding
    | Done(result: int)             // complete the message with what the stream returned
    | DispLock                      // take the mutex
    | DispLocked(live: bool)        // next message or none, release the mutex
    | Drop                          // lower the count

  datatype Pc =
    | Opens(open: OpenPc)
    | Closes(close: ClosePc)
    | Calls(call: CallPc)
    | Guards(i: Index, section: Section, live: bool)
    | Works(i: Index, step: DispPc)

  /**
    What became of the requests a slot accepted; each has a ticket of its own.
    `told` are the requests completed after they were started, with the results.
   */
  datatype Log = Log(
    next: nat, started: seq<Entry>, accepted: multiset<Entry>, finished: multiset<Entry>,
    interrupted: multiset<Entry>, cancelled: multiset<Entry>, told: seq<(Entry, int)>)

  /**
    One SyncRequest. `lock`, `from` and `queue` are the C fields. `owner` is the
    act that works the slot and `cur` the request it has not completed yet.
   */
  datatype Slot = Slot(
    lock: Option<Act>, from: Option<Entry>, queue: seq<Entry>,
    owner: Option<Act>, cur: Option<Entry>, log: Log)

  /**
    The object: `status`, `count` and `closeMsg` are the C fields, `barrier` is
    how far the closer's loop over the mutexes still has to go. `hold` says
    whether the open hold is part of the count, `ctl` names the act that opens
    or closes, `borrow` the slot whose `from` carries its message, and `closes`
    counts the inner closes with a message since the last open began.
   */
  datatype State = State(
    status: Status, count: int, closeMsg: Option<Msg>, slots: map<Index, Slot>,
    acts: map<Act, Pc>, barrier: set<Index>,
    ctl: Option<Act>, borrow: Option<Index>, hold: bool, closes: nat)
  {
    function Move(a: Act, pc: Pc): State { this.(acts := acts[a := pc]) }

    function End(a: Act): State { this.(acts := acts - {a}) }

    function Put(i: Index, slot: Slot): State { this.(slots := slots[i := slot]) }

  }

  datatype Outcome = Disabled | Fault | Next(state: State)

  datatype Event =
    | BeginOpen(a: Act, m: Msg)
    | BeginRequest(a: Act, i: Index, m: Msg, front: bool)
    | BeginCancel(a: Act, i: Index, m: Msg)
    | BeginClose(a: Act, m: Msg)
    | Run(a: Act)                   // a step with one outcome
    | Return(a: Act, result: int)   // an inner call ends; zero means it stays outstanding
    | Pass(a: Act, j: Index)        // the barrier or the clearing loop reaches slot j

  const EINTR: int := 4

  const EMPTY_LOG := Log(0, [], multiset{}, multiset{}, multiset{}, multiset{}, [])

  const EMPTY_SLOT := Slot(None, None, [], None, None, EMPTY_LOG)

  ghost predicate Init(s: State) {
    && s.status == Invalid && s.count == 0 && s.closeMsg.None? && s.acts == map[]
    && s.barrier == {} && s.ctl.None? && s.borrow.None? && !s.hold && s.closes == 0 && 0 in s.slots
    && forall i :: i in s.slots ==> s.slots[i] == EMPTY_SLOT
  }

  // ----- the open path -----

  function StepBeginOpen(s: State, a: Act, m: Msg): Outcome {
    if a in s.acts || (s.status != Invalid && s.status != Closed) then Disabled
    else Next(s.(status := Opening, ctl := Some(a)).Move(a, Opens(OpenHold(m))))
  }

  function StepOpenHold(s: State, a: Act, m: Msg): Outcome {
    var n := s.count + 1;
    if n != 1 then Fault
    else Next(s.(count := n, hold := true, closes := 0).Move(a, Opens(OpenCall(m))))
  }

  function StepOpenCall(s: State, a: Act, m: Msg, result: int): Outcome {
    if 0 !in s.slots then Disabled else
    var s := s.Put(0, s.slots[0].(from := Some(Control(m)))).(borrow := Some(0));
    Next(s.Move(a, Opens(if result == 0 then OpenPending else OpenStatus(result))))
  }

  /** A successful open gives up `from` before it tries to publish the status. */
  function StepOpenAnswer(s: State, a: Act, result: int): Outcome {
    if 0 !in s.slots then Disabled
    else if s.slots[0].from.None? then Fault
    else
      var m := s.slots[0].from.value.msg;
      Next(s.Put(0, s.slots[0].(from := None)).(borrow := None).Move(a, Opens(OpenTry(m, result))))
  }

  function StepOpenStatus(s: State, a: Act, result: int): Outcome {
    match s.status
    case Abort => Next(s.Move(a, Opens(OpenFail)))
    case Opening => if result < 0 then Next(s.Move(a, Opens(OpenFail))) else StepOpenAnswer(s, a, result)
    case Closing => Next(s.Move(a, Opens(OpenDrop)))
    case _ => Fault
  }

  function StepOpenTry(s: State, a: Act, m: Msg): Outcome {
    if 0 !in s.slots then Disabled
    else if s.status == Opening then Next(s.(status := Opened, ctl := None).End(a))
    else if s.status != Abort then Fault
    else Next(s.Put(0, s.slots[0].(from := Some(Control(m)))).(borrow := Some(0)).Move(a, Opens(OpenFail)))
  }

  function StepOpenFail(s: State, a: Act): Outcome {
    if (s.status != Opening && s.status != Abort) then Fault
    else Next(s.(status := Closing).Move(a, Opens(OpenClose)))
  }

  function StepOpenClose(s: State, a: Act, result: int): Outcome {
    Next(s.(closes := s.closes + 1).Move(a, Opens(if result == 0 then OpenClosePending else OpenDrop)))
  }

  function StepOpenReply(s: State, a: Act, result: int): Outcome {
    Next(s.Move(a, Opens(OpenStatus(result))))
  }

  function StepOpenDrop(s: State, a: Act): Outcome {
    var n := s.count - 1;
    if n != 0 then Fault else Next(s.(count := n, hold := false).Move(a, Opens(OpenFinish)))
  }

  function StepOpenFinish(s: State, a: Act): Outcome {
    if 0 !in s.slots then Disabled
    else if s.status != Closing then Fault
    else Next(s.Put(0, s.slots[0].(from := None)).(status := Closed, ctl := None, borrow := None).End(a))
  }

  // ----- requests and cancels -----

  function StepBeginRequest(s: State, a: Act, i: Index, m: Msg, front: bool): Outcome {
    if a in s.acts || s.status != Opened || i !in s.slots then Disabled
    else Next(s.Move(a, Calls(ReqLock(i, m, front))))
  }

  /** Take the mutex and read the status. */
  function StepGuard(s: State, a: Act, i: Index, section: Section, live: bool): Outcome {
    if i !in s.slots || s.slots[i].lock.Some? then Disabled
    else Next(s.Put(i, s.slots[i].(lock := Some(a))).Move(a, Guards(i, section, live)))
  }

  function Accept(log: Log, e: Entry): Log {
    log.(next := log.next + 1, accepted := log.accepted + multiset{e})
  }

  function LogStart(log: Log, e: Entry): Log { log.(started := log.started + [e]) }

  /** The slot when a new request is started at once. */
  function Started(slot: Slot, a: Act, e: Entry): Slot {
    slot.(lock := None, from := Some(e), owner := Some(a), cur := Some(e), log := LogStart(Accept(slot.log, e), e))
  }

  /** The slot when a new request has to wait. */
  function Queued(slot: Slot, e: Entry): Slot
    requires e.Request?
  {
    slot.(lock := None, log := Accept(slot.log, e),
          queue := if e.front then [e] + slot.queue else slot.queue + [e])
  }

  /** The slot when the queued request `k` is cancelled. */
  function Unlinked(slot: Slot, k: nat): Slot
    requires k < |slot.queue|
  {
    slot.(lock := None, queue := slot.queue[..k] + slot.queue[k+1..],
          log := slot.log.(cancelled := slot.log.cancelled + multiset{slot.queue[k]}))
  }

  /** The slot when its request is completed with a result. */
  function Finished(slot: Slot, result: int): Slot
    requires slot.cur.Some?
  {
    slot.(cur := None, log := slot.log.(finished := slot.log.finished + multiset{slot.cur.value},
                                        told := slot.log.told + [(slot.cur.value, result)]))
  }

  /** The slot when its first queued request is started. */
  function TakenNext(slot: Slot): Slot
    requires slot.queue != []
  {
    var e := slot.queue[0];
    slot.(lock := None, from := Some(e), cur := Some(e), queue := slot.queue[1..], log := LogStart(slot.log, e))
  }

  /** The slot when its queued requests are completed with -EINTR. */
  function Cleared(slot: Slot): Slot {
    slot.(queue := [], log := slot.log.(interrupted := slot.log.interrupted + multiset(slot.queue)))
  }

  function StepStart(s: State, a: Act, i: Index, e: Entry): Outcome {
    if i !in s.slots then Disabled else
    var n := s.count + 1;
    if s.slots[i].queue != [] || n <= 1 then Fault
    else Next(s.Put(i, Started(s.slots[i], a, e)).(count := n).Move(a, Works(i, Issue)))
  }

  function StepQueue(s: State, a: Act, i: Index, e: Entry): Outcome {
    if i !in s.slots || e.Control? then Disabled
    else Next(s.Put(i, Queued(s.slots[i], e)).End(a))
  }

  function StepPost(s: State, a: Act, i: Index, m: Msg, front: bool, live: bool): Outcome {
    if i !in s.slots then Disabled else
    var e := Request(m, s.slots[i].log.next, front);
    if !live then StepUnlock(s, a, i)
    else if s.slots[i].from.Some? then StepQueue(s, a, i, e)
    else StepStart(s, a, i, e)
  }

  /** Give the mutex back and return. */
  function StepUnlock(s: State, a: Act, i: Index): Outcome {
    if i !in s.slots then Disabled else Next(s.Put(i, s.slots[i].(lock := None)).End(a))
  }

  function StepBeginCancel(s: State, a: Act, i: Index, m: Msg): Outcome {
    if a in s.acts || s.status != Opened || i !in s.slots then Disabled
    else Next(s.Move(a, Calls(CancelLock(i, m))))
  }

  /** The position of the first queued entry that carries `m`, or the length of the queue. */
  function Find(queue: seq<Entry>, m: Msg): (k: nat)
    ensures k <= |queue|
    ensures k < |queue| ==> queue[k].msg == m
    ensures forall j :: 0 <= j < k ==> queue[j].msg != m
  {
    if queue == [] || queue[0].msg == m then 0 else 1 + Find(queue[1..], m)
  }

  function StepUnlink(s: State, a: Act, i: Index, k: nat): Outcome {
    if i !in s.slots || k >= |s.slots[i].queue| then Disabled
    else Next(s.Put(i, Unlinked(s.slots[i], k)).End(a))
  }

  function StepCancel(s: State, a: Act, i: Index, m: Msg, live: bool): Outcome {
    if i !in s.slots then Disabled else
    var slot := s.slots[i];
    var k := Find(slot.queue, m);
    if !live || (slot.from.Some? && slot.from.value.msg == m) || k == |slot.queue| then StepUnlock(s, a, i)
    else StepUnlink(s, a, i, k)
  }

  // ----- the dispatch loop -----

  function StepIssue(s: State, a: Act, i: Index, result: int): Outcome {
    Next(s.Move(a, Works(i, if result == 0 then InStream else Done(result))))
  }

  function StepReply(s: State, a: Act, i: Index, result: int): Outcome { Next(s.Move(a, Works(i, Done(result)))) }

  function StepDone(s: State, a: Act, i: Index, result: int): Outcome {
    if i !in s.slots then Disabled
    else if s.slots[i].cur.None? then Fault
    else Next(s.Put(i, Finished(s.slots[i], result)).Move(a, Works(i, DispLock)))
  }

  function StepDispLock(s: State, a: Act, i: Index): Outcome {
    if i !in s.slots || s.slots[i].lock.Some? then Disabled
    else Next(s.Put(i, s.slots[i].(lock := Some(a))).Move(a, Works(i, DispLocked(s.status == Opened))))
  }

  /** No next message: give the slot up, the hold on the count is still to be dropped. */
  function StepRelease(s: State, a: Act, i: Index): Outcome {
    if i !in s.slots then Disabled
    else Next(s.Put(i, s.slots[i].(lock := None, from := None, owner := None)).Move(a, Works(i, Drop)))
  }

  function StepTakeNext(s: State, a: Act, i: Index): Outcome {
    if i !in s.slots || s.slots[i].queue == [] then Disabled
    else Next(s.Put(i, TakenNext(s.slots[i])).Move(a, Works(i, Issue)))
  }

  function StepDispLocked(s: State, a: Act, i: Index, live: bool): Outcome {
    if i !in s.slots then Disabled
    else if !live || s.slots[i].queue == [] then StepRelease(s, a, i)
    else StepTakeNext(s, a, i)
  }

  function StepDrop(s: State, a: Act, i: Index): Outcome {
    var n := s.count - 1;
    if n == 0 then Next(s.(count := n, ctl := Some(a)).Move(a, Closes(ClearList(i, s.slots.Keys))))
    else Next(s.(count := n).End(a))
  }

  // ----- the close path -----

  /** The call returns without having changed anything. */
  function StepReject(s: State, a: Act): Outcome { Next(s.End(a)) }

  function StepCloseCas1(s: State, a: Act, m: Msg): Outcome {
    match s.status
    case Opening => StepAbort(s, a)
    case Opened => StepCloseOpened(s, a, m)
    case _ => StepReject(s, a)
  }

  function StepAbort(s: State, a: Act): Outcome { Next(s.(status := Abort).End(a)) }

  function StepCloseOpened(s: State, a: Act, m: Msg): Outcome { Next(s.Move(a, Calls(CloseCas2(m)))) }

  function StepShut(s: State, a: Act, m: Msg): Outcome {
    Next(s.(status := Closing, ctl := Some(a), barrier := s.slots.Keys).Move(a, Closes(Barrier(m))))
  }

  function StepCloseCas2(s: State, a: Act, m: Msg): Outcome {
    match s.status
    case Opened => StepShut(s, a, m)
    case Opening => Next(s)
    case _ => StepReject(s, a)
  }

  function StepBarrier(s: State, j: Index): Outcome {
    if j !in s.barrier || j !in s.slots || s.slots[j].lock.Some? then Disabled
    else Next(s.(barrier := s.barrier - {j}))
  }

  function StepBarrierEnd(s: State, a: Act, m: Msg): Outcome {
    if s.barrier != {} then Disabled else Next(s.(closeMsg := Some(m)).Move(a, Closes(CloseDrop(m))))
  }

  /** The close is left to whoever lowers the count to zero. */
  function StepCloseDrop(s: State, a: Act): Outcome {
    var n := s.count - 1;
    if n == 0 then StepCloseNow(s, a)
    else Next(s.(count := n, hold := false, ctl := None).End(a))
  }

  function StepCloseNow(s: State, a: Act): Outcome {
    Next(s.(count := s.count - 1, hold := false).Move(a, Closes(ClearList(0, s.slots.Keys))))
  }

  function StepClear(s: State, a: Act, i: Index, todo: set<Index>, j: Index): Outcome {
    if j !in todo || j !in s.slots then Disabled
    else Next(s.Put(j, Cleared(s.slots[j])).Move(a, Closes(ClearList(i, todo - {j}))))
  }

  function StepClearEnd(s: State, a: Act, i: Index, todo: set<Index>): Outcome {
    if todo != {} then Disabled else Next(s.Move(a, Closes(CloseCall(i))))
  }

  function StepCloseCall(s: State, a: Act, i: Index, result: int): Outcome {
    if i !in s.slots then Disabled
    else if s.closeMsg.None? then Fault
    else Next(s.Put(i, s.slots[i].(from := Some(Control(s.closeMsg.value)))).(closes := s.closes + 1, borrow := Some(i))
               .Move(a, Closes(if result == 0 then CloseStream(i) else CloseFin(i))))
  }

  function StepCloseReply(s: State, a: Act, i: Index): Outcome { Next(s.Move(a, Closes(CloseFin(i)))) }

  function StepCloseFin(s: State, a: Act, i: Index): Outcome {
    if i !in s.slots then Disabled
    else if s.closeMsg.None? || s.slots[i].from != Some(Control(s.closeMsg.value)) || s.status != Closing then Fault
    else Next(s.Put(i, s.slots[i].(from := None)).(closeMsg := None, status := Closed, ctl := None,
        borrow := None).End(a))
  }

  // ----- the machine -----

  function RunOpen(s: State, a: Act, pc: OpenPc): Outcome {
    match pc
    case OpenHold(m) => StepOpenHold(s, a, m)
    case OpenStatus(result) => StepOpenStatus(s, a, result)
    case OpenTry(m, _) => StepOpenTry(s, a, m)
    case OpenFail => StepOpenFail(s, a)
    case OpenDrop => StepOpenDrop(s, a)
    case OpenFinish => StepOpenFinish(s, a)
    case _ => Disabled
  }

  function RunClose(s: State, a: Act, pc: ClosePc): Outcome {
    match pc
    case Barrier(m) => StepBarrierEnd(s, a, m)
    case CloseDrop(_) => StepCloseDrop(s, a)
    case ClearList(i, todo) => StepClearEnd(s, a, i, todo)
    case CloseFin(i) => StepCloseFin(s, a, i)
    case _ => Disabled
  }

  function RunCall(s: State, a: Act, pc: CallPc): Outcome {
    match pc
    case ReqLock(i, m, front) => StepGuard(s, a, i, Post(m, front), s.status == Opened)
    case CancelLock(i, m) => StepGuard(s, a, i, Cancel(m), s.status == Opened)
    case CloseCas1(m) => StepCloseCas1(s, a, m)
    case CloseCas2(m) => StepCloseCas2(s, a, m)
  }

  function RunGuarded(s: State, a: Act, i: Index, section: Section, live: bool): Outcome {
    match section
    case Post(m, front) => StepPost(s, a, i, m, front, live)
    case Cancel(m) => StepCancel(s, a, i, m, live)
  }

  function RunWork(s: State, a: Act, i: Index, pc: DispPc): Outcome {
    match pc
    case Done(result) => StepDone(s, a, i, result)
    case DispLock => StepDispLock(s, a, i)
    case DispLocked(live) => StepDispLocked(s, a, i, live)
    case Drop => StepDrop(s, a, i)
    case _ => Disabled
  }

  function StepRun(s: State, a: Act): Outcome {
    if a !in s.acts then Disabled else
    match s.acts[a]
    case Opens(pc) => RunOpen(s, a, pc)
    case Closes(pc) => RunClose(s, a, pc)
    case Calls(pc) => RunCall(s, a, pc)
    case Guards(i, section, live) => RunGuarded(s, a, i, section, live)
    case Works(i, pc) => RunWork(s, a, i, pc)
  }

  function StepReturn(s: State, a: Act, result: int): Outcome {
    if a !in s.acts then Disabled else
    match s.acts[a]
    case Opens(OpenCall(m)) => StepOpenCall(s, a, m, result)
    case Opens(OpenPending) => StepOpenReply(s, a, result)
    case Opens(OpenClose) => StepOpenClose(s, a, result)
    case Opens(OpenClosePending) => StepOpenReply(s, a, result)
    case Works(i, Issue) => StepIssue(s, a, i, result)
    case Works(i, InStream) => StepReply(s, a, i, result)
    case Closes(CloseCall(i)) => StepCloseCall(s, a, i, result)
    case Closes(CloseStream(i)) => StepCloseReply(s, a, i)
    case _ => Disabled
  }

  function StepPass(s: State, a: Act, j: Index): Outcome {
    if a !in s.acts then Disabled else
    match s.acts[a]
    case Closes(Barrier(_)) => StepBarrier(s, j)
    case Closes(ClearList(i, todo)) => StepClear(s, a, i, todo, j)
    case _ => Disabled
  }

  function Step(s: State, e: Event): Outcome {
    match e
    case BeginOpen(a, m) => StepBeginOpen(s, a, m)
    case BeginRequest(a, i, m, front) => StepBeginRequest(s, a, i, m, front)
    case BeginCancel(a, i, m) => StepBeginCancel(s, a, i, m)
    case BeginClose(a, m) => if a in s.acts then Disabled else Next(s.Move(a, Calls(CloseCas1(m))))
    case Run(a) => StepRun(s, a)
    case Return(a, result) => StepReturn(s, a, result)
    case Pass(a, j) => StepPass(s, a, j)
  }
}
