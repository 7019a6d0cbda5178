/**
  What a step of SyncControl does to the data of a slot: its queue, the request
  that is worked, and the record of what became of each request.

  A run is any finite series of steps from the first state. Every state of a run
  keeps the invariant of the steps, and in each slot every accepted request is in
  exactly one place and the queue is in order.
 */
module SyncControlData {
  import opened Wrappers
  import opened SyncControl
  import opened SyncControlSafety

  // ----- what becomes of a slot's requests -----

  ghost function Cur(slot: Slot): multiset<Entry> {
    if slot.cur.Some? then multiset{slot.cur.value} else multiset{}
  }

  /** Every accepted request is in exactly one place. */
  ghost predicate Conserved(slot: Slot) { Accounted(slot.log, slot.queue, Cur(slot)) }

  ghost predicate Accounted(log: Log, queue: seq<Entry>, cur: multiset<Entry>) {
    && log.accepted == log.finished + log.interrupted + log.cancelled + multiset(queue) + cur
    && forall e :: e in log.accepted ==> e.Request? && e.ticket < log.next && log.accepted[e] == 1
  }

  predicate Numbered(es: seq<Entry>, next: nat) {
    forall k :: 0 <= k < |es| ==> es[k].Request? && es[k].ticket < next
  }

  /** Of two back posts, the first is the older one. */
  predicate Fifo(x: Entry, y: Entry) {
    x.Request? && y.Request? && (!x.front && !y.front ==> x.ticket < y.ticket)
  }

  /** The order of a queue: front posts first, newest first; then back posts, oldest first. */
  predicate Before(x: Entry, y: Entry) {
    && x.Request? && y.Request?
    && if x.front then y.front ==> x.ticket > y.ticket else !y.front && x.ticket < y.ticket
  }

  /** The queue is in order, and no back post has overtaken an older one. */
  ghost predicate Ordered(slot: Slot) { InOrder(slot.queue, slot.log.started, slot.log.next) }

  ghost predicate InOrder(q: seq<Entry>, d: seq<Entry>, next: nat) {
    && Numbered(q, next) && Numbered(d, next)
    && (forall j, k :: 0 <= j < k < |q| ==> Before(q[j], q[k]))
    && (forall j, k :: 0 <= j < k < |d| ==> Fifo(d[j], d[k]))
    && (forall j, k :: 0 <= j < |d| && 0 <= k < |q| ==> Fifo(d[j], q[k]))
  }

  lemma StartedConserved(slot: Slot, a: Act, m: Msg, front: bool)
    requires Conserved(slot) && slot.cur.None?
    ensures Conserved(Started(slot, a, Request(m, slot.log.next, front)))
  {
  }

  lemma QueuedConserved(slot: Slot, m: Msg, front: bool)
    requires Conserved(slot)
    ensures Conserved(Queued(slot, Request(m, slot.log.next, front)))
  {
    var e := Request(m, slot.log.next, front);
    assert multiset(Queued(slot, e).queue) == multiset(slot.queue) + multiset{e};
  }

  lemma UnlinkedConserved(slot: Slot, k: nat)
    requires Conserved(slot) && k < |slot.queue|
    ensures Conserved(Unlinked(slot, k))
  {
    assert slot.queue == slot.queue[..k] + [slot.queue[k]] + slot.queue[k+1..];
    assert multiset(slot.queue) == multiset(Unlinked(slot, k).queue) + multiset{slot.queue[k]};
  }

  lemma TakenNextConserved(slot: Slot)
    requires Conserved(slot) && slot.queue != [] && slot.cur.None?
    ensures Conserved(TakenNext(slot))
  {
    assert slot.queue == [slot.queue[0]] + slot.queue[1..];
  }

  lemma FinishedConserved(slot: Slot, result: int)
    requires Conserved(slot) && slot.cur.Some?
    ensures Conserved(Finished(slot, result))
  {
  }

  lemma ClearedConserved(slot: Slot)
    requires Conserved(slot)
    ensures Conserved(Cleared(slot))
  {
  }

  lemma StartedOrdered(slot: Slot, a: Act, m: Msg, front: bool)
    requires Ordered(slot) && slot.queue == []
    ensures Ordered(Started(slot, a, Request(m, slot.log.next, front)))
  {
  }

  lemma QueuedOrdered(slot: Slot, m: Msg, front: bool)
    requires Ordered(slot)
    ensures Ordered(Queued(slot, Request(m, slot.log.next, front)))
  {
    var q, e := slot.queue, Request(m, slot.log.next, front);
    var r := Queued(slot, e).queue;
    if front {
      assert forall k :: 1 <= k < |r| ==> r[k] == q[k - 1];
    } else {
      assert forall k :: 0 <= k < |q| ==> r[k] == q[k];
    }
  }

  lemma UnlinkedOrdered(slot: Slot, k: nat)
    requires Ordered(slot) && k < |slot.queue|
    ensures Ordered(Unlinked(slot, k))
  {
    var q, r := slot.queue, Unlinked(slot, k).queue;
    assert forall j :: 0 <= j < |r| ==> r[j] == if j < k then q[j] else q[j + 1];
  }

  lemma TakenNextOrdered(slot: Slot)
    requires Ordered(slot) && slot.queue != []
    ensures Ordered(TakenNext(slot))
  {
    var q, r := slot.queue, TakenNext(slot).queue;
    assert forall j :: 0 <= j < |r| ==> r[j] == q[j + 1];
  }

  /** What a step does to the requests of one slot. */
  datatype Change =
    | Same
    | Start(m: Msg, front: bool)
    | Queue(m: Msg, front: bool)
    | Unlink(k: nat)
    | Finish(result: int)
    | Take
    | Clear

  predicate SameData(x: Slot, y: Slot) { x.log == y.log && x.queue == y.queue && x.cur == y.cur }

  ghost predicate Changed(x: Slot, y: Slot, c: Change) {
    match c
    case Same => SameData(x, y)
    case Start(m, front) => x.queue == [] && x.cur.None? && SameData(Started(x, 0, Request(m, x.log.next, front)), y)
    case Queue(m, front) => SameData(Queued(x, Request(m, x.log.next, front)), y)
    case Unlink(k) => k < |x.queue| && SameData(Unlinked(x, k), y)
    case Finish(result) => x.cur.Some? && SameData(Finished(x, result), y)
    case Take => x.cur.None? && x.queue != [] && SameData(TakenNext(x), y)
    case Clear => SameData(Cleared(x), y)
  }

  /** Only slot `i` changes, and it changes by `c`. */
  ghost predicate ChangedAt(s: State, t: State, i: Index, c: Change) {
    && t.slots.Keys == s.slots.Keys && i in s.slots
    && (forall j :: j in s.slots && j != i ==> SameData(s.slots[j], t.slots[j]))
    && Changed(s.slots[i], t.slots[i], c)
  }

  lemma PostChange(s: State, a: Act) returns (c: Change)
    requires Inv(s) && a in s.acts && s.acts[a].Guards? && s.acts[a].section.Post? && StepRun(s, a).Next?
    ensures ChangedAt(s, StepRun(s, a).state, s.acts[a].i, c)
  {
    var i, p := s.acts[a].i, s.acts[a].section;
    assert SlotInv(s, i);
    c := if !s.acts[a].live then Same else if s.slots[i].from.Some? then Queue(p.m, p.front) else Start(p.m, p.front);
  }

  lemma CancelChange(s: State, a: Act) returns (c: Change)
    requires a in s.acts && s.acts[a].Guards? && s.acts[a].section.Cancel? && StepRun(s, a).Next?
    ensures ChangedAt(s, StepRun(s, a).state, s.acts[a].i, c)
  {
    var slot, m := s.slots[s.acts[a].i], s.acts[a].section.m;
    var k := Find(slot.queue, m);
    c := if !s.acts[a].live || (slot.from.Some? && slot.from.value.msg == m) || k == |slot.queue| then Same
        else Unlink(k);
  }

  lemma WorkChange(s: State, a: Act) returns (c: Change)
    requires Inv(s) && a in s.acts && s.acts[a].Works? && StepRun(s, a).Next?
    ensures ChangedAt(s, StepRun(s, a).state, s.acts[a].i, c)
  {
    var i, pc := s.acts[a].i, s.acts[a].step;
    assert ActInv(s, a);
    assert SlotInv(s, i);
    c := if pc.Done? then Finish(pc.result) else if pc.DispLocked? && pc.live && s.slots[i].queue != [] then Take
        else Same;
  }

  lemma StepChange(s: State, e: Event) returns (i: Index, c: Change)
    requires Inv(s) && Step(s, e).Next?
    ensures ChangedAt(s, Step(s, e).state, i, c)
  {
    i, c := 0, Same;
    if e.Run? && s.acts[e.a].Guards? {
      i := s.acts[e.a].i;
      if s.acts[e.a].section.Post? { c := PostChange(s, e.a); } else { c := CancelChange(s, e.a); }
    } else if e.Run? && s.acts[e.a].Works? {
      i := s.acts[e.a].i;
      c := WorkChange(s, e.a);
    } else if e.Pass? && s.acts[e.a].close.ClearList? {
      i, c := e.j, Clear;
    } else {
      OtherChange(s, e);
    }
  }

  lemma OpenChange(s: State, a: Act, pc: OpenPc)
    requires 0 in s.slots && RunOpen(s, a, pc).Next?
    ensures ChangedAt(s, RunOpen(s, a, pc).state, 0, Same)
  {
    match pc
    case OpenStatus(result) => if s.status == Opening && result >= 0 {}
    case OpenTry(m, result) => if s.status == Opening {}
    case _ =>
  }

  lemma CloseChange(s: State, a: Act, pc: ClosePc)
    requires 0 in s.slots && RunClose(s, a, pc).Next?
    ensures ChangedAt(s, RunClose(s, a, pc).state, 0, Same)
  {
  }

  lemma GuardChange(s: State, a: Act, i: Index, section: Section, live: bool)
    requires 0 in s.slots && StepGuard(s, a, i, section, live).Next?
    ensures ChangedAt(s, StepGuard(s, a, i, section, live).state, 0, Same)
  {
  }

  lemma SlotsSame(s: State, t: State)
    requires 0 in s.slots && t.slots == s.slots
    ensures ChangedAt(s, t, 0, Same)
  {
  }

  lemma CallChange(s: State, a: Act, pc: CallPc)
    requires 0 in s.slots && RunCall(s, a, pc).Next?
    ensures ChangedAt(s, RunCall(s, a, pc).state, 0, Same)
  {
    hide StepGuard;
    match pc
    case ReqLock(i, m, front) => GuardChange(s, a, i, Post(m, front), s.status == Opened);
    case CancelLock(i, m) => GuardChange(s, a, i, Cancel(m), s.status == Opened);
    case CloseCas1(m) => hide ChangedAt; SlotsSame(s, StepCloseCas1(s, a, m).state);
    case CloseCas2(m) => hide ChangedAt; SlotsSame(s, StepCloseCas2(s, a, m).state);
  }

  lemma ReturnChange(s: State, a: Act, result: int)
    requires 0 in s.slots && a in s.acts && StepReturn(s, a, result).Next?
    ensures ChangedAt(s, StepReturn(s, a, result).state, 0, Same)
  {
    match s.acts[a]
    case Opens(OpenCall(m)) =>
    case Closes(CloseCall(i)) =>
    case _ =>
  }

  lemma OtherChange(s: State, e: Event)
    requires 0 in s.slots && Step(s, e).Next?
    requires !(e.Run? && (s.acts[e.a].Guards? || s.acts[e.a].Works?))
    requires !(e.Pass? && s.acts[e.a].close.ClearList?)
    ensures ChangedAt(s, Step(s, e).state, 0, Same)
  {
    match e
    case Run(a) =>
      match s.acts[a] {
        case Opens(pc) => OpenChange(s, a, pc);
        case Closes(pc) => CloseChange(s, a, pc);
        case Calls(pc) => CallChange(s, a, pc);
        case _ =>
      }
    case Return(a, result) => ReturnChange(s, a, result);
    case _ =>
  }

  ghost predicate Sane(slot: Slot) { Conserved(slot) && Ordered(slot) }

  lemma SameConserved(x: Slot, y: Slot)
    requires Conserved(x) && SameData(x, y)
    ensures Conserved(y)
  {
  }

  lemma ChangeConserved(x: Slot, y: Slot, c: Change)
    requires Conserved(x) && Changed(x, y, c)
    ensures Conserved(y)
  {
    hide Conserved; hide Started; hide Queued; hide Unlinked; hide TakenNext; hide Finished; hide Cleared;
    hide SameData;
    match c
    case Start(m, front) =>
      StartedConserved(x, 0, m, front);
      SameConserved(Started(x, 0, Request(m, x.log.next, front)), y);
    case Queue(m, front) =>
      QueuedConserved(x, m, front);
      SameConserved(Queued(x, Request(m, x.log.next, front)), y);
    case Unlink(k) =>
      UnlinkedConserved(x, k);
      SameConserved(Unlinked(x, k), y);
    case Take =>
      TakenNextConserved(x);
      SameConserved(TakenNext(x), y);
    case Finish(result) =>
      FinishedConserved(x, result);
      SameConserved(Finished(x, result), y);
    case Clear =>
      ClearedConserved(x);
      SameConserved(Cleared(x), y);
    case Same => SameConserved(x, y);
  }

  lemma ChangeOrdered(x: Slot, y: Slot, c: Change)
    requires Ordered(x) && Changed(x, y, c)
    ensures Ordered(y)
  {
    match c
    case Start(m, front) => StartedOrdered(x, 0, m, front);
    case Queue(m, front) => QueuedOrdered(x, m, front);
    case Unlink(k) => UnlinkedOrdered(x, k);
    case Take => TakenNextOrdered(x);
    case _ =>
  }

  lemma ChangeSane(x: Slot, y: Slot, c: Change)
    requires Sane(x) && Changed(x, y, c)
    ensures Sane(y)
  {
    ChangeConserved(x, y, c);
    ChangeOrdered(x, y, c);
  }

  ghost predicate DataInv(s: State) {
    forall i :: i in s.slots ==> Sane(s.slots[i])
  }

  lemma DataFrame(s: State, t: State, i: Index, c: Change)
    requires DataInv(s) && ChangedAt(s, t, i, c)
    ensures DataInv(t)
  {
    forall j | j in t.slots ensures Sane(t.slots[j]) {
      ChangeSane(s.slots[j], t.slots[j], if j == i then c else Same);
    }
  }

  /** No step loses a request, completes one twice, or breaks the order. */
  lemma DataStep(s: State, e: Event)
    requires Inv(s) && DataInv(s) && Step(s, e).Next?
    ensures DataInv(Step(s, e).state)
  {
    var i, c := StepChange(s, e);
    DataFrame(s, Step(s, e).state, i, c);
  }

  // ----- runs -----

  /** Some steps from an initial state. */
  ghost predicate IsRun(states: seq<State>, events: seq<Event>) {
    && |states| == |events| + 1
    && Init(states[0])
    && forall k :: 0 <= k < |events| ==> Step(states[k], events[k]) == Next(states[k + 1])
  }

  ghost predicate Reachable(s: State) {
    exists states, events :: IsRun(states, events) && states[|events|] == s
  }

  lemma {:induction false} RunInv(states: seq<State>, events: seq<Event>)
    requires IsRun(states, events)
    ensures Inv(states[|events|]) && DataInv(states[|events|])
    decreases |events|
  {
    if events == [] {
      InitInv(states[0]);
    } else {
      var n := |events| - 1;
      RunInv(states[..n + 1], events[..n]);
      assert Step(states[n], events[n]) == Next(states[n + 1]);
      StepInv(states[n], events[n]);
      DataStep(states[n], events[n]);
    }
  }

  lemma ReachableInv(s: State)
    requires Reachable(s)
    ensures Inv(s) && DataInv(s)
  {
    var states, events :| IsRun(states, events) && states[|events|] == s;
    RunInv(states, events);
  }
}
