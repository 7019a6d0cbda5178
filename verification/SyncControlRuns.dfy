module SyncControlRuns {
  import opened Wrappers
  import opened SyncControl
  import opened SyncControlSafety
  import opened SyncControlData

  // What holds of every run of SyncControl: the count, who closes and when, and that every
  // accepted request is completed once and in order.

  /** No C assertion on the counter, the status or the lists ever fails. */
  lemma NeverFaults(s: State, e: Event)
    requires Reachable(s)
    ensures !Step(s, e).Fault?
  {
    ReachableInv(s);
    StepInv(s, e);
  }

  /** request_count is the open hold plus the acts that work a request. */
  lemma CountIsExact(s: State)
    requires Reachable(s)
    ensures s.count == (if s.hold then 1 else 0) + |set a | a in s.acts && s.acts[a].Works?|
  {
    ReachableInv(s);
    assert Holders(s.acts) == set a | a in s.acts && s.acts[a].Works?;
  }

  /** The next call of the act is the inner close with a message. */
  predicate CallsClose(pc: Pc) {
    (pc.Opens? && pc.open.OpenClose?) || (pc.Closes? && pc.close.CloseCall?)
  }

  /** The inner close is called at most once per open ... */
  lemma ClosesOnce(s: State, a: Act, result: int)
    requires Reachable(s) && a in s.acts && CallsClose(s.acts[a])
    ensures s.closes == 0 && s.status == Closing
    ensures StepReturn(s, a, result).Next? && StepReturn(s, a, result).state.closes == 1
  {
    ReachableInv(s);
    CloseFacts(s, a);
    if s.acts[a].Opens? {
      assert StepReturn(s, a, result) == StepOpenClose(s, a, result);
    } else {
      assert StepReturn(s, a, result) == StepCloseCall(s, a, s.acts[a].close.i, result);
    }
  }

  lemma CloseFacts(s: State, a: Act)
    requires Inv(s) && a in s.acts && CallsClose(s.acts[a])
    ensures s.closes == 0 && s.status == Closing && Idle(s)
    ensures s.acts[a].Closes? ==> s.acts[a].close.i in s.slots && s.closeMsg.Some?
  {
    assert ActInv(s, a);
  }

  lemma NobodyLeft(s: State, a: Act)
    requires Inv(s) && a in s.acts && CallsClose(s.acts[a])
    ensures s.count == (if s.hold then 1 else 0) && Idle(s)
    ensures forall b :: b in s.acts ==> !s.acts[b].Works?
  {
    assert ActInv(s, a);
    forall b | b in s.acts ensures !s.acts[b].Works? {
      assert s.acts[b].Works? ==> b in Holders(s.acts);
    }
  }

  lemma SlotIsEmpty(s: State, a: Act, i: Index)
    requires Inv(s) && a in s.acts && CallsClose(s.acts[a]) && i in s.slots
    ensures s.slots[i].queue == [] && s.slots[i].cur.None?
  {
    assert ActInv(s, a) && SlotInv(s, i);
    Unowned(s, i);
  }

  /** ... and only when every request has ended: none is worked, none waits. */
  lemma ClosesWhenIdle(s: State, a: Act)
    requires Reachable(s) && a in s.acts && CallsClose(s.acts[a])
    ensures forall b :: b in s.acts ==> !s.acts[b].Works?
    ensures forall i :: i in s.slots ==> s.slots[i].queue == [] && s.slots[i].cur.None?
  {
    hide Inv; hide Reachable; hide CallsClose;
    ReachableInv(s);
    NobodyLeft(s, a);
    forall i | i in s.slots ensures s.slots[i].queue == [] && s.slots[i].cur.None? {
      SlotIsEmpty(s, a, i);
    }
  }

  /** ... and it has been called exactly once whenever the object is closed again. */
  lemma ClosedMeansClosedOnce(s: State)
    requires Reachable(s) && s.status == Closed
    ensures s.closes == 1 && s.count == 0 && s.closeMsg.None? && s.ctl.None?
    ensures forall i :: i in s.slots ==> s.slots[i].from.None? && s.slots[i].queue == []
  {
    ReachableInv(s);
    forall i | i in s.slots ensures s.slots[i].from.None? && s.slots[i].queue == [] {
      assert SlotInv(s, i);
      Unowned(s, i);
    }
  }

  /**
    The act that starts to close an open object is the one whose decrement
    reached zero, and no request is in flight then.
   */
  lemma CloserReachedZero(s: State, a: Act)
    requires Reachable(s) && a in s.acts && StepRun(s, a).Next?
    requires !StartsClosing(s.acts, a) && StartsClosing(StepRun(s, a).state.acts, a)
    ensures var t := StepRun(s, a).state; s.count == 1 && t.count == 0 && !t.hold && forall b ::
            b in t.acts
            ==> !t.acts[b].Works?
  {
    ReachesZero(s, a);
    RunIsStep(s, a);
    hide Inv; hide StepRun; hide StartsClosing; hide Step; hide RequestsWait; hide Reachable;
    ReachableInv(s);
    StepInv(s, Run(a));
    NobodyWorks(StepRun(s, a).state);
  }

  lemma RunIsStep(s: State, a: Act)
    ensures Step(s, Run(a)) == StepRun(s, a)
  {
    hide StepRun;
  }

  lemma NobodyWorks(s: State)
    requires Inv(s) && s.count == 0
    ensures !s.hold && forall b :: b in s.acts ==> !s.acts[b].Works?
  {
    assert CountInv(s);
    hide Inv;
    forall b | b in s.acts ensures !s.acts[b].Works? {
      assert s.acts[b].Works? ==> b in Holders(s.acts);
    }
  }

  lemma ReachesZero(s: State, a: Act)
    requires a in s.acts && StepRun(s, a).Next?
    requires !StartsClosing(s.acts, a) && StartsClosing(StepRun(s, a).state.acts, a)
    ensures s.count == 1 && StepRun(s, a).state.count == 0
  {
    match s.acts[a]
    case Opens(pc) => OpenStaysOpen(s, a, pc);
    case Closes(pc) => match pc { case _ => }
    case Calls(pc) => match pc { case _ => }
    case Guards(_, _, _) =>
    case Works(_, pc) => match pc { case _ => }
  }

  lemma OpenStaysOpen(s: State, a: Act, pc: OpenPc)
    requires a in s.acts && RunOpen(s, a, pc).Next?
    ensures !StartsClosing(RunOpen(s, a, pc).state.acts, a)
  {
    match pc
    case OpenStatus(result) => if s.status == Opening && result >= 0 {}
    case _ =>
  }

  predicate StartsClosing(acts: map<Act, Pc>, a: Act) {
    a in acts && acts[a].Closes? && acts[a].close.ClearList?
  }

  /** At most one request per slot is in the inner stream. */
  lemma OneOutstanding(s: State, a: Act, b: Act)
    requires Reachable(s) && a in s.acts && b in s.acts
    requires s.acts[a].Works? && s.acts[a].step.InStream? && s.acts[b].Works? && s.acts[b].step.InStream?
    requires s.acts[a].i == s.acts[b].i
    ensures a == b
  {
    ReachableInv(s);
    assert ActInv(s, a) && ActInv(s, b);
  }

  /**
    Every accepted request is completed once at most: with the stream's result, with -EINTR, or not at all if
    cancelled.
   */
  lemma CompletedAtMostOnce(s: State, i: Index, e: Entry)
    requires Reachable(s) && i in s.slots && e in s.slots[i].log.accepted
    ensures var slot := s.slots[i];
      slot.log.finished[e] + slot.log.interrupted[e] + slot.log.cancelled[e]
      + multiset(slot.queue)[e] + (if slot.cur == Some(e) then 1 else 0) == 1
  {
    ReachableInv(s);
    assert Sane(s.slots[i]);
  }

  /** ... and when the object is closed again, every accepted request has been completed or cancelled. */
  lemma AllCompletedWhenClosed(s: State, i: Index)
    requires Reachable(s) && s.status == Closed && i in s.slots
    ensures var log := s.slots[i].log; log.accepted == log.finished + log.interrupted + log.cancelled
  {
    ReachableInv(s);
    ClosedMeansClosedOnce(s);
    assert SlotInv(s, i);
    assert Sane(s.slots[i]);
  }

  /** While the object is open, a waiting request has somebody working its slot: nothing is stranded. */
  lemma NothingStranded(s: State, i: Index)
    requires Reachable(s) && s.status == Opened && i in s.slots && s.slots[i].queue != []
    ensures s.slots[i].owner.Some? && s.slots[i].owner.value in s.acts && s.acts[s.slots[i].owner.value].Works?
  {
    ReachableInv(s);
    assert SlotInv(s, i);
  }

  predicate Back(e: Entry) { e.Request? && !e.front }

  /** Back posts to one slot are started in the order in which they were accepted, across any number of reopens. */
  lemma BackPostsStartInOrder(s: State, i: Index, j: nat, k: nat)
    requires Reachable(s) && i in s.slots && j < k < |s.slots[i].log.started|
    requires Back(s.slots[i].log.started[j]) && Back(s.slots[i].log.started[k])
    ensures s.slots[i].log.started[j].ticket < s.slots[i].log.started[k].ticket
  {
    ReachableInv(s);
    assert Sane(s.slots[i]);
    assert Fifo(s.slots[i].log.started[j], s.slots[i].log.started[k]);
  }

  /** The request started next is ahead of every request that keeps waiting: any front post before any back post. */
  lemma HeadStartsNext(s: State, a: Act, i: Index, k: nat)
    requires Reachable(s) && i in s.slots && 0 < k < |s.slots[i].queue|
    ensures var o := StepDispLocked(s, a, i, true);
      o.Next? && o.state.slots[i].cur == Some(s.slots[i].queue[0]) && o.state.slots[i].queue == s.slots[i].queue[1..]
    ensures Before(s.slots[i].queue[0], s.slots[i].queue[k])
  {
    HeadIsTaken(s, a, i);
    ReachableInv(s);
    assert Sane(s.slots[i]);
  }

  lemma HeadIsTaken(s: State, a: Act, i: Index)
    requires i in s.slots && s.slots[i].queue != []
    ensures StepDispLocked(s, a, i, true) == Next(s.Put(i, TakenNext(s.slots[i])).Move(a, Works(i, Issue)))
  {
  }
}
