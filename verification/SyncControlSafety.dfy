/**
  What every step of SyncControl keeps, and what therefore holds of every run.

  The invariant has four parts: the count, the status with the act that opens or
  closes, each act, and each slot. A step changes at most one act and one slot, so
  each kind of step has a lemma for the parts it touches, and two frame lemmas carry
  the other acts and slots over. The lemmas follow the order of the steps: opening,
  requesting and cancelling, dispatching, closing. The last ones put them together
  for a step of any kind.
 */
module SyncControlSafety {
  import opened Wrappers
  import opened SyncControl

  /** The acts whose hold on the count is not the open hold: those that work a request. */
  ghost function Holders(acts: map<Act, Pc>): set<Act> {
    set a | a in acts && acts[a].Works?
  }

  /** The slot an act works, if any: its `from` is the message the act is about. */
  function Owned(pc: Pc): Option<Index> {
    if pc.Works? && !pc.step.Drop? then Some(pc.i) else None
  }

  /** The slot whose mutex an act holds, if any. */
  function Locked(pc: Pc): Option<Index> {
    if pc.Guards? || (pc.Works? && pc.step.DispLocked?) then Some(pc.i) else None
  }

  /** The request is started and not yet completed. */
  predicate Busy(pc: Pc) { pc.Works? && (pc.step.Issue? || pc.step.InStream? || pc.step.Done?) }

  predicate Controls(pc: Pc) { pc.Opens? || pc.Closes? }

  /** Steps of the open path that come after the exchange for Closing. */
  predicate OpenFailed(pc: OpenPc) {
    pc.OpenClose? || pc.OpenClosePending? || pc.OpenDrop? || pc.OpenFinish?
  }

  /** Steps of the close path that come after the decrement that reached zero. */
  predicate Last(pc: ClosePc) { pc.ClearList? || pc.CloseCall? || pc.CloseStream? || pc.CloseFin? }

  /** What reading "Opened" under a slot's mutex still promises until the mutex is released. */
  ghost predicate LiveRead(s: State, i: Index) {
    s.status == Opened || (s.status == Closing && i in s.barrier)
  }

  ghost predicate Drained(s: State) {
    forall j :: j in s.slots ==> s.slots[j].queue == []
  }

  ghost predicate Idle(s: State) { Holders(s.acts) == {} }

  ghost predicate OpenInv(s: State, pc: OpenPc) {
    && Idle(s) && s.closeMsg.None? && s.barrier == {}
    && (s.status == Closing || s.status == Opening || s.status == Abort)
    && (s.status == Closing <== OpenFailed(pc))
    && (s.status == Closing ==> OpenFailed(pc) || pc.OpenStatus?)
    && (s.hold <==> !pc.OpenHold? && !pc.OpenFinish?)
    && (!pc.OpenHold? ==> s.closes == if s.status == Closing && !pc.OpenClose? then 1 else 0)
    && (s.status == Closing ==> Drained(s))
    && (pc.OpenTry? ==> pc.result >= 0)
    && s.borrow == if pc.OpenHold? || pc.OpenCall? || pc.OpenTry? then None else Some(0)
  }

  ghost predicate CloseInv(s: State, pc: ClosePc) {
    && s.status == Closing
    && (s.hold <==> !Last(pc))
    && (Last(pc) ==> Idle(s) && pc.i in s.slots)
    && (s.closeMsg.Some? <==> !pc.Barrier?)
    && (s.barrier != {} ==> pc.Barrier?)
    && s.closes == (if pc.CloseStream? || pc.CloseFin? then 1 else 0)
    && s.borrow == (if pc.CloseStream? || pc.CloseFin? then Some(pc.i) else None)
    && (pc.CloseStream? || pc.CloseFin? ==> s.slots[pc.i].from == Some(Control(s.closeMsg.value)))
    && (pc.ClearList? ==> forall j :: j in s.slots && j !in pc.todo ==> s.slots[j].queue == [])
    && (Last(pc) && !pc.ClearList? ==> Drained(s))
  }

  /** What the act that opens or closes knows. */
  ghost predicate CtlInv(s: State, pc: Pc) {
    match pc
    case Opens(open) => OpenInv(s, open)
    case Closes(close) => CloseInv(s, close)
    case _ => false
  }

  ghost predicate ActInv(s: State, a: Act)
    requires a in s.acts
  {
    var pc := s.acts[a];
    && (Controls(pc) ==> s.ctl == Some(a))
    && (Owned(pc).Some? ==> pc.i in s.slots && s.slots[pc.i].owner == Some(a))
    && (Locked(pc).Some? ==> pc.i in s.slots && s.slots[pc.i].lock == Some(a))
    && (pc.Works? ==> pc.i in s.slots)
    && (pc.Guards? && pc.live ==> LiveRead(s, pc.i))
    && (pc.Works? && pc.step.DispLocked? && !pc.step.live ==> s.status == Closing)
  }

  predicate LivePost(pc: Pc) { pc.Guards? && pc.section.Post? && pc.live }

  ghost predicate SlotInv(s: State, i: Index)
    requires i in s.slots
  {
    var slot := s.slots[i];
    && (slot.lock.Some? ==> slot.lock.value in s.acts && Locked(s.acts[slot.lock.value]) == Some(i))
    && (slot.owner.Some? ==> slot.owner.value in s.acts && Owned(s.acts[slot.owner.value]) == Some(i))
    && (slot.cur.Some? <==> slot.owner.Some? && Busy(s.acts[slot.owner.value]))
    && (slot.cur.Some? ==> slot.from == slot.cur)
    && (slot.owner.Some? <==> slot.from.Some? && slot.from.value.Request?)
    && (s.borrow == Some(i) <==> slot.from.Some? && slot.from.value.Control?)
    && (slot.queue != [] && slot.owner.None? ==>
          && s.status == Closing
          && (slot.lock.Some? ==> !LivePost(s.acts[slot.lock.value])))
  }

  /** request_count is the open hold plus one for every holder. */
  ghost predicate CountInv(s: State) {
    s.count == (if s.hold then 1 else 0) + |Holders(s.acts)|
  }

  /** What each status means. */
  ghost predicate GlobalInv(s: State) {
    && 0 in s.slots
    && (!Idle(s) ==> s.status == Opened || s.status == Closing)
    && (s.ctl.Some? ==> s.ctl.value in s.acts && CtlInv(s, s.acts[s.ctl.value]))
    && (s.ctl.None? ==> s.borrow.None? && s.barrier == {} && s.status != Opening && s.status != Abort)
    && (s.status == Opened ==> s.ctl.None? && s.hold && s.closes == 0 && s.closeMsg.None?)
    && (s.status == Invalid || s.status == Closed ==> s.ctl.None? && !s.hold && Idle(s) && s.closeMsg.None?)
    && (s.status == Closed ==> s.closes == 1)
    && (s.status == Closing && s.ctl.None? ==> !s.hold && !Idle(s) && s.closeMsg.Some? && s.closes == 0)
  }

  ghost predicate Inv(s: State) {
    && CountInv(s)
    && GlobalInv(s)
    && (forall a :: a in s.acts ==> ActInv(s, a))
    && (forall i :: i in s.slots ==> SlotInv(s, i))
  }

  /** Only requests are ever queued. */
  ghost predicate RequestsWait(s: State) {
    forall i :: i in s.slots && s.slots[i].queue != [] ==> s.slots[i].queue[0].Request?
  }

  lemma InitInv(s: State)
    requires Init(s)
    ensures Inv(s)
  {
  }

  function One(b: bool): nat { if b then 1 else 0 }

  /** Moving one act changes the holders by at most that act. */
  lemma HoldersMove(acts: map<Act, Pc>, a: Act, pc: Pc)
    ensures Holders(acts[a := pc]) == if pc.Works? then Holders(acts) + {a} else Holders(acts) - {a}
    ensures |Holders(acts[a := pc])| == |Holders(acts)| + One(pc.Works?) - One(a in Holders(acts))
    ensures pc.Works? <==> a in Holders(acts[a := pc])
    ensures pc.Works? == (a in Holders(acts)) ==> Holders(acts[a := pc]) == Holders(acts)
  {
    assert Holders(acts[a := pc]) == if pc.Works? then Holders(acts) + {a} else Holders(acts) - {a};
  }

  lemma HoldersEnd(acts: map<Act, Pc>, a: Act)
    ensures Holders(acts - {a}) == Holders(acts) - {a}
    ensures |Holders(acts - {a})| == |Holders(acts)| - One(a in Holders(acts))
    ensures a !in Holders(acts) ==> Holders(acts - {a}) == Holders(acts)
  {
    assert Holders(acts - {a}) == Holders(acts) - {a};
  }

  /** A step of act `a` that changes at most slot `i`, and nothing another act relies on. */
  ghost predicate Framed(s: State, t: State, a: Act, i: Option<Index>) {
    && t.acts.Keys - {a} == s.acts.Keys - {a}
    && (forall b :: b in s.acts && b != a ==> b in t.acts && t.acts[b] == s.acts[b])
    && t.slots.Keys == s.slots.Keys
    && (forall j :: j in s.slots && i != Some(j) ==> t.slots[j] == s.slots[j])
    && (t.ctl == s.ctl || s.ctl.None? || s.ctl == Some(a))
    && (i.Some? ==>
          && i.value in s.slots
          && (t.slots[i.value].owner == s.slots[i.value].owner
             || (s.slots[i.value].owner == None || s.slots[i.value].owner == Some(a)))
          && (t.slots[i.value].lock == s.slots[i.value].lock
             || (s.slots[i.value].lock == None || s.slots[i.value].lock == Some(a))))
    && (a in s.acts ==>
       (Owned(s.acts[a]) == None || Owned(s.acts[a]) == i)
       && (Locked(s.acts[a]) == None || Locked(s.acts[a]) == i))
    && (t.borrow == s.borrow || ((s.borrow == None || s.borrow == i) && (t.borrow == None || t.borrow == i)))
    && (s.status == Closing ==> t.status == Closing || (Drained(s) && Idle(s)))
    && (forall j ::
       j in s.slots && s.slots[j].lock.Some? && s.slots[j].lock != Some(a) && LiveRead(s, j)
       ==> LiveRead(t, j))
  }

  /** A step of act `a` leaves another act alone. */
  lemma ActFrame(s: State, t: State, a: Act, b: Act)
    requires b != a && b in s.acts && b in t.acts && t.acts[b] == s.acts[b] && ActInv(s, b)
    requires t.ctl == s.ctl || s.ctl.None? || s.ctl == Some(a)
    requires s.slots.Keys <= t.slots.Keys
    requires forall j :: j in s.slots && s.slots[j].owner == Some(b) ==> t.slots[j].owner == Some(b)
    requires forall j ::
             j in s.slots && s.slots[j].lock == Some(b)
             ==> t.slots[j].lock == Some(b) && (LiveRead(s, j) ==> LiveRead(t, j))
    requires s.status == Closing && s.acts[b].Works? ==> t.status == Closing
    ensures ActInv(t, b)
  {
  }

  /** A step of act `a` leaves a slot alone that it does not work. */
  lemma SlotFrame(s: State, t: State, a: Act, j: Index)
    requires j in s.slots && j in t.slots && t.slots[j] == s.slots[j] && SlotInv(s, j)
    requires forall b :: b in s.acts && b != a ==> b in t.acts && t.acts[b] == s.acts[b]
    requires s.slots[j].owner != Some(a) && s.slots[j].lock != Some(a)
    requires s.borrow == t.borrow || (s.borrow != Some(j) && t.borrow != Some(j))
    requires s.status == Closing ==> t.status == Closing || s.slots[j].queue == [] || s.slots[j].owner.Some?
    ensures SlotInv(t, j)
  {
  }

  ghost predicate Kept(o: Outcome) {
    match o
    case Disabled => true
    case Fault => false
    case Next(t) => Inv(t)
  }

  lemma FrameActs(s: State, t: State, a: Act, i: Option<Index>)
    requires Inv(s) && Framed(s, t, a, i)
    ensures forall b :: b in t.acts && b != a ==> ActInv(t, b)
  {
    forall b | b in t.acts && b != a ensures ActInv(t, b) {
      assert b in t.acts.Keys - {a};
      assert s.acts[b].Works? ==> b in Holders(s.acts);
      ActFrame(s, t, a, b);
    }
  }

  lemma FrameSlots(s: State, t: State, a: Act, i: Option<Index>)
    requires Inv(s) && Framed(s, t, a, i)
    ensures forall j :: j in t.slots && i != Some(j) ==> SlotInv(t, j)
  {
    forall j | j in t.slots && i != Some(j) ensures SlotInv(t, j) {
      SlotFrame(s, t, a, j);
    }
  }

  /** What one step has to show: the global part, the act that moved, the slot that changed, and the frame. */
  ghost predicate Sound(s: State, o: Outcome, a: Act, i: Option<Index>) {
    match o
    case Disabled => true
    case Fault => false
    case Next(t) =>
      && CountInv(t) && GlobalInv(t) && Framed(s, t, a, i)
      && (a in t.acts ==> ActInv(t, a))
      && (i.Some? ==> SlotInv(t, i.value))
  }

  lemma SoundInv(s: State, o: Outcome, a: Act, i: Option<Index>)
    requires Inv(s) && Sound(s, o, a, i)
    ensures Kept(o)
  {
    if o.Next? {
      FrameActs(s, o.state, a, i);
      FrameSlots(s, o.state, a, i);
    }
  }

  lemma NotIdle(acts: map<Act, Pc>, a: Act)
    requires a in acts && acts[a].Works?
    ensures Holders(acts) != {}
  {
    assert a in Holders(acts);
  }

  /** Nobody works a slot when nobody holds the count. */
  lemma Unowned(s: State, i: Index)
    requires Idle(s) && i in s.slots && SlotInv(s, i)
    ensures s.slots[i].owner.None?
  {
    var owner := s.slots[i].owner;
    if owner.Some? { NotIdle(s.acts, owner.value); }
  }

  // ----- steps -----

  lemma CallerHolders(acts: map<Act, Pc>, a: Act, pc: CallPc)
    requires a in acts ==> acts[a].Calls?
    ensures Holders(acts[a := Calls(pc)]) == Holders(acts)
  {
    HoldersMove(acts, a, Calls(pc));
  }

  lemma CallerControl(s: State, t: State, pc: Pc)
    requires t == s.(acts := t.acts) && Holders(t.acts) == Holders(s.acts) && CtlInv(s, pc)
    ensures CtlInv(t, pc)
  {
    hide Holders; hide OpenFailed; hide Last;
  }

  lemma CallerGlobal(s: State, a: Act, pc: CallPc)
    requires GlobalInv(s) && (a in s.acts ==> s.acts[a].Calls?)
    ensures GlobalInv(s.Move(a, Calls(pc)))
  {
    var t := s.Move(a, Calls(pc));
    CallerHolders(s.acts, a, pc);
    if s.ctl.Some? {
      assert s.ctl != Some(a);
      CallerControl(s, t, s.acts[s.ctl.value]);
    }
    hide Holders; hide CtlInv;
  }

  /** Only a caller moves, which neither opens nor closes nor works a request. */
  lemma CallerMoves(s: State, a: Act, pc: CallPc)
    requires CountInv(s) && GlobalInv(s) && (a in s.acts ==> s.acts[a].Calls?)
    ensures Sound(s, Next(s.Move(a, Calls(pc))), a, None)
  {
    CallerFramed(s, a, pc);
    CallerGlobal(s, a, pc);
    CallerHolders(s.acts, a, pc);
    hide Holders; hide Framed; hide GlobalInv;
  }

  lemma CallerFramed(s: State, a: Act, pc: CallPc)
    requires a in s.acts ==> s.acts[a].Calls?
    ensures Framed(s, s.Move(a, Calls(pc)), a, None)
  {
    hide Drained; hide Idle;
  }

  lemma OpenHoldStep(s: State, a: Act)
    requires CountInv(s) && GlobalInv(s) && a in s.acts && ActInv(s, a) && s.acts[a].Opens? && s.acts[a].open.OpenHold?
    ensures Sound(s, StepOpenHold(s, a, s.acts[a].open.m), a, None)
  {
    HoldersMove(s.acts, a, Opens(OpenCall(s.acts[a].open.m)));
  }

  lemma OpenCallStep(s: State, a: Act, result: int)
    requires CountInv(s) && GlobalInv(s) && a in s.acts && ActInv(s, a) && s.acts[a].Opens? && s.acts[a].open.OpenCall?
    requires 0 in s.slots && SlotInv(s, 0)
    ensures Sound(s, StepOpenCall(s, a, s.acts[a].open.m, result), a, Some(0))
  {
    HoldersMove(s.acts, a, Opens(if result == 0 then OpenPending else OpenStatus(result)));
    if Idle(s) { Unowned(s, 0); }
  }

  lemma OpenReplyStep(s: State, a: Act, result: int)
    requires CountInv(s) && GlobalInv(s) && a in s.acts && ActInv(s, a) && s.acts[a].Opens?
             && (s.acts[a].open.OpenPending? || s.acts[a].open.OpenClosePending?)
    ensures Sound(s, StepOpenReply(s, a, result), a, None)
  {
    HoldersMove(s.acts, a, Opens(OpenStatus(result)));
  }

  lemma OpenAnswerStep(s: State, a: Act)
    requires CountInv(s) && GlobalInv(s) && a in s.acts && ActInv(s, a) && s.acts[a].Opens?
             && s.acts[a].open.OpenStatus?
    requires 0 in s.slots && SlotInv(s, 0)
    requires s.status == Opening && s.acts[a].open.result >= 0
    ensures Sound(s, StepOpenAnswer(s, a, s.acts[a].open.result), a, Some(0))
  {
    HoldersMove(s.acts, a, Opens(OpenTry(s.slots[0].from.value.msg, s.acts[a].open.result)));
    if Idle(s) { Unowned(s, 0); }
  }

  lemma OpenStatusStep(s: State, a: Act)
    requires CountInv(s) && GlobalInv(s) && a in s.acts && ActInv(s, a) && s.acts[a].Opens?
             && s.acts[a].open.OpenStatus?
    requires !(s.status == Opening && s.acts[a].open.result >= 0)
    ensures Sound(s, StepOpenStatus(s, a, s.acts[a].open.result), a, None)
  {
    HoldersMove(s.acts, a, Opens(OpenFail));
    HoldersMove(s.acts, a, Opens(OpenDrop));
  }

  lemma OpenTryStep(s: State, a: Act)
    requires CountInv(s) && GlobalInv(s) && a in s.acts && ActInv(s, a) && s.acts[a].Opens? && s.acts[a].open.OpenTry?
    requires 0 in s.slots && SlotInv(s, 0)
    ensures Sound(s, StepOpenTry(s, a, s.acts[a].open.m), a, Some(0))
  {
    HoldersMove(s.acts, a, Opens(OpenFail));
    HoldersEnd(s.acts, a);
    if Idle(s) { Unowned(s, 0); }
  }

  lemma OpenFailStep(s: State, a: Act)
    requires CountInv(s) && GlobalInv(s) && a in s.acts && ActInv(s, a) && s.acts[a].Opens? && s.acts[a].open.OpenFail?
    requires Drained(s)
    ensures Sound(s, StepOpenFail(s, a), a, None)
  {
    HoldersMove(s.acts, a, Opens(OpenClose));
  }

  lemma OpenCloseStep(s: State, a: Act, result: int)
    requires CountInv(s) && GlobalInv(s) && a in s.acts && ActInv(s, a) && s.acts[a].Opens? && s.acts[a].open.OpenClose?
    ensures Sound(s, StepOpenClose(s, a, result), a, None)
  {
    HoldersMove(s.acts, a, Opens(if result == 0 then OpenClosePending else OpenDrop));
  }

  lemma OpenDropStep(s: State, a: Act)
    requires CountInv(s) && GlobalInv(s) && a in s.acts && ActInv(s, a) && s.acts[a].Opens? && s.acts[a].open.OpenDrop?
    ensures Sound(s, StepOpenDrop(s, a), a, None)
  {
    HoldersMove(s.acts, a, Opens(OpenFinish));
  }

  lemma OpenFinishStep(s: State, a: Act)
    requires CountInv(s) && GlobalInv(s) && a in s.acts && ActInv(s, a) && s.acts[a].Opens?
             && s.acts[a].open.OpenFinish?
    requires 0 in s.slots && SlotInv(s, 0)
    ensures Sound(s, StepOpenFinish(s, a), a, Some(0))
  {
    HoldersEnd(s.acts, a);
    if Idle(s) { Unowned(s, 0); }
  }

  lemma GuardGlobal(s: State, a: Act, i: Index, section: Section, live: bool)
    requires CountInv(s) && GlobalInv(s) && a in s.acts && ActInv(s, a) && s.acts[a].Calls?
    requires i in s.slots && s.slots[i].lock.None?
    ensures var t := StepGuard(s, a, i, section, live).state; CountInv(t) && GlobalInv(t)
  {
    HoldersMove(s.acts, a, Guards(i, section, live));
  }

  lemma GuardSlot(s: State, a: Act, i: Index, section: Section, live: bool)
    requires a in s.acts && s.acts[a].Calls?
    requires i in s.slots && SlotInv(s, i) && s.slots[i].lock.None? && (live <==> s.status == Opened)
    ensures SlotInv(StepGuard(s, a, i, section, live).state, i)
  {
  }

  lemma GuardFrame(s: State, a: Act, i: Index, section: Section, live: bool)
    requires a in s.acts && s.acts[a].Calls? && ActInv(s, a)
    requires i in s.slots && s.slots[i].lock.None? && (live <==> s.status == Opened)
    ensures var t := StepGuard(s, a, i, section, live).state; Framed(s, t, a, Some(i)) && ActInv(t, a)
  {
  }

  lemma GuardInv(s: State, a: Act, i: Index, section: Section, live: bool)
    requires Inv(s) && a in s.acts && s.acts[a].Calls? && (live <==> s.status == Opened)
    ensures Kept(StepGuard(s, a, i, section, live))
  {
    if i in s.slots && s.slots[i].lock.None? {
      var t := StepGuard(s, a, i, section, live).state;
      GuardGlobal(s, a, i, section, live);
      GuardSlot(s, a, i, section, live);
      GuardFrame(s, a, i, section, live);
      FrameActs(s, t, a, Some(i));
      FrameSlots(s, t, a, Some(i));
    }
  }

  lemma UnlockStep(s: State, a: Act)
    requires CountInv(s) && GlobalInv(s) && a in s.acts && ActInv(s, a) && s.acts[a].Guards?
    requires s.acts[a].i in s.slots && SlotInv(s, s.acts[a].i)
    ensures Sound(s, StepUnlock(s, a, s.acts[a].i), a, Some(s.acts[a].i))
  {
    HoldersEnd(s.acts, a);
  }

  lemma QueueStep(s: State, a: Act, e: Entry)
    requires CountInv(s) && GlobalInv(s) && a in s.acts && ActInv(s, a) && LivePost(s.acts[a])
    requires s.acts[a].i in s.slots && SlotInv(s, s.acts[a].i)
    requires s.slots[s.acts[a].i].from.Some?
    ensures Sound(s, StepQueue(s, a, s.acts[a].i, e), a, Some(s.acts[a].i))
  {
    HoldersEnd(s.acts, a);
  }

  lemma StartStep(s: State, a: Act, e: Entry)
    requires CountInv(s) && GlobalInv(s) && a in s.acts && ActInv(s, a) && LivePost(s.acts[a])
    requires s.acts[a].i in s.slots && SlotInv(s, s.acts[a].i)
    requires s.slots[s.acts[a].i].from.None? && e.Request?
    ensures Sound(s, StepStart(s, a, s.acts[a].i, e), a, Some(s.acts[a].i))
  {
    HoldersMove(s.acts, a, Works(s.acts[a].i, Issue));
  }

  lemma UnlinkStep(s: State, a: Act, k: nat)
    requires CountInv(s) && GlobalInv(s) && a in s.acts && ActInv(s, a) && s.acts[a].Guards?
             && s.acts[a].section.Cancel?
    requires s.acts[a].i in s.slots && SlotInv(s, s.acts[a].i)
    ensures Sound(s, StepUnlink(s, a, s.acts[a].i, k), a, Some(s.acts[a].i))
  {
    HoldersEnd(s.acts, a);
  }

  lemma IssueStep(s: State, a: Act, result: int)
    requires CountInv(s) && GlobalInv(s) && a in s.acts && ActInv(s, a) && s.acts[a].Works? && s.acts[a].step.Issue?
    requires s.acts[a].i in s.slots && SlotInv(s, s.acts[a].i)
    ensures Sound(s, StepIssue(s, a, s.acts[a].i, result), a, Some(s.acts[a].i))
  {
    HoldersMove(s.acts, a, Works(s.acts[a].i, if result == 0 then InStream else Done(result)));
  }

  lemma ReplyStep(s: State, a: Act, result: int)
    requires CountInv(s) && GlobalInv(s) && a in s.acts && ActInv(s, a) && s.acts[a].Works? && s.acts[a].step.InStream?
    requires s.acts[a].i in s.slots && SlotInv(s, s.acts[a].i)
    ensures Sound(s, StepReply(s, a, s.acts[a].i, result), a, Some(s.acts[a].i))
  {
    HoldersMove(s.acts, a, Works(s.acts[a].i, Done(result)));
  }

  lemma DoneStep(s: State, a: Act)
    requires CountInv(s) && GlobalInv(s) && a in s.acts && ActInv(s, a) && s.acts[a].Works? && s.acts[a].step.Done?
    requires s.acts[a].i in s.slots && SlotInv(s, s.acts[a].i)
    ensures Sound(s, StepDone(s, a, s.acts[a].i, s.acts[a].step.result), a, Some(s.acts[a].i))
  {
    HoldersMove(s.acts, a, Works(s.acts[a].i, DispLock));
  }

  lemma DispLockStep(s: State, a: Act)
    requires CountInv(s) && GlobalInv(s) && a in s.acts && ActInv(s, a) && s.acts[a].Works? && s.acts[a].step.DispLock?
    requires s.acts[a].i in s.slots && SlotInv(s, s.acts[a].i)
    ensures Sound(s, StepDispLock(s, a, s.acts[a].i), a, Some(s.acts[a].i))
  {
    HoldersMove(s.acts, a, Works(s.acts[a].i, DispLocked(s.status == Opened)));
  }

  lemma ReleaseStep(s: State, a: Act)
    requires CountInv(s) && GlobalInv(s) && a in s.acts && ActInv(s, a) && s.acts[a].Works?
             && s.acts[a].step.DispLocked?
    requires s.acts[a].i in s.slots && SlotInv(s, s.acts[a].i)
    requires s.acts[a].step.live ==> s.slots[s.acts[a].i].queue == []
    ensures Sound(s, StepRelease(s, a, s.acts[a].i), a, Some(s.acts[a].i))
  {
    HoldersMove(s.acts, a, Works(s.acts[a].i, Drop));
  }

  lemma TakeNextStep(s: State, a: Act)
    requires CountInv(s) && GlobalInv(s) && a in s.acts && ActInv(s, a) && s.acts[a].Works?
             && s.acts[a].step.DispLocked?
    requires s.acts[a].i in s.slots && SlotInv(s, s.acts[a].i)
    requires s.slots[s.acts[a].i].queue != [] ==> s.slots[s.acts[a].i].queue[0].Request?
    ensures Sound(s, StepTakeNext(s, a, s.acts[a].i), a, Some(s.acts[a].i))
  {
    HoldersMove(s.acts, a, Works(s.acts[a].i, Issue));
  }

  lemma DropStep(s: State, a: Act)
    requires CountInv(s) && GlobalInv(s) && a in s.acts && ActInv(s, a) && s.acts[a].Works? && s.acts[a].step.Drop?
    ensures Sound(s, StepDrop(s, a, s.acts[a].i), a, None)
  {
    HoldersMove(s.acts, a, Closes(ClearList(s.acts[a].i, s.slots.Keys)));
    HoldersEnd(s.acts, a);
  }

  lemma AbortStep(s: State, a: Act)
    requires CountInv(s) && GlobalInv(s) && a in s.acts && ActInv(s, a) && s.acts[a].Calls?
    requires s.status == Opening
    ensures Sound(s, StepAbort(s, a), a, None)
  {
    HoldersEnd(s.acts, a);
  }

  lemma CloseOpenedStep(s: State, a: Act, m: Msg)
    requires CountInv(s) && GlobalInv(s) && a in s.acts && ActInv(s, a) && s.acts[a].Calls?
    ensures Sound(s, StepCloseOpened(s, a, m), a, None)
  {
    hide CountInv; hide GlobalInv; hide ActInv; hide Sound;
    CallerMoves(s, a, CloseCas2(m));
  }

  lemma ShutStep(s: State, a: Act)
    requires CountInv(s) && GlobalInv(s) && a in s.acts && ActInv(s, a) && s.acts[a].Calls? && s.acts[a].call.CloseCas2?
    requires s.status == Opened
    ensures Sound(s, StepShut(s, a, s.acts[a].call.m), a, None)
  {
    HoldersMove(s.acts, a, Closes(Barrier(s.acts[a].call.m)));
  }

  lemma RejectStep(s: State, a: Act)
    requires CountInv(s) && GlobalInv(s) && a in s.acts && ActInv(s, a) && s.acts[a].Calls?
    ensures Sound(s, StepReject(s, a), a, None)
  {
    HoldersEnd(s.acts, a);
  }

  lemma BarrierStep(s: State, a: Act, j: Index)
    requires CountInv(s) && GlobalInv(s) && a in s.acts && ActInv(s, a) && s.acts[a].Closes? && s.acts[a].close.Barrier?
    ensures Sound(s, StepBarrier(s, j), a, None)
  {
  }

  lemma BarrierEndStep(s: State, a: Act)
    requires CountInv(s) && GlobalInv(s) && a in s.acts && ActInv(s, a) && s.acts[a].Closes? && s.acts[a].close.Barrier?
    ensures Sound(s, StepBarrierEnd(s, a, s.acts[a].close.m), a, None)
  {
    HoldersMove(s.acts, a, Closes(CloseDrop(s.acts[a].close.m)));
  }

  lemma CloseNowStep(s: State, a: Act)
    requires CountInv(s) && GlobalInv(s) && a in s.acts && ActInv(s, a) && s.acts[a].Closes?
             && s.acts[a].close.CloseDrop?
    requires s.count == 1
    ensures Sound(s, StepCloseNow(s, a), a, None)
  {
    HoldersMove(s.acts, a, Closes(ClearList(0, s.slots.Keys)));
  }

  lemma CloseDropStep(s: State, a: Act)
    requires CountInv(s) && GlobalInv(s) && a in s.acts && ActInv(s, a) && s.acts[a].Closes?
             && s.acts[a].close.CloseDrop?
    requires s.count != 1
    ensures Sound(s, StepCloseDrop(s, a), a, None)
  {
    HoldersEnd(s.acts, a);
  }

  lemma ClearEndStep(s: State, a: Act)
    requires CountInv(s) && GlobalInv(s) && a in s.acts && ActInv(s, a) && s.acts[a].Closes?
             && s.acts[a].close.ClearList?
    ensures Sound(s, StepClearEnd(s, a, s.acts[a].close.i, s.acts[a].close.todo), a, None)
  {
    HoldersMove(s.acts, a, Closes(CloseCall(s.acts[a].close.i)));
  }

  lemma CloseCallStep(s: State, a: Act, result: int)
    requires CountInv(s) && GlobalInv(s) && a in s.acts && ActInv(s, a) && s.acts[a].Closes?
             && s.acts[a].close.CloseCall?
    requires s.acts[a].close.i in s.slots && SlotInv(s, s.acts[a].close.i)
    ensures Sound(s, StepCloseCall(s, a, s.acts[a].close.i, result), a, Some(s.acts[a].close.i))
  {
    HoldersMove(s.acts, a, Closes(if result == 0 then CloseStream(s.acts[a].close.i) else CloseFin(s.acts[a].close.i)));
    Unowned(s, s.acts[a].close.i);
  }

  lemma CloseReplyStep(s: State, a: Act)
    requires CountInv(s) && GlobalInv(s) && a in s.acts && ActInv(s, a) && s.acts[a].Closes?
             && s.acts[a].close.CloseStream?
    ensures Sound(s, StepCloseReply(s, a, s.acts[a].close.i), a, None)
  {
    HoldersMove(s.acts, a, Closes(CloseFin(s.acts[a].close.i)));
  }

  lemma CloseFinStep(s: State, a: Act)
    requires CountInv(s) && GlobalInv(s) && a in s.acts && ActInv(s, a) && s.acts[a].Closes?
             && s.acts[a].close.CloseFin?
    requires s.acts[a].close.i in s.slots && SlotInv(s, s.acts[a].close.i)
    ensures Sound(s, StepCloseFin(s, a, s.acts[a].close.i), a, Some(s.acts[a].close.i))
  {
    HoldersEnd(s.acts, a);
    Unowned(s, s.acts[a].close.i);
  }

  lemma ClearStep(s: State, a: Act, j: Index)
    requires CountInv(s) && GlobalInv(s) && a in s.acts && ActInv(s, a) && s.acts[a].Closes?
             && s.acts[a].close.ClearList?
    requires j in s.slots && SlotInv(s, j)
    ensures Sound(s, StepClear(s, a, s.acts[a].close.i, s.acts[a].close.todo, j), a, Some(j))
  {
    HoldersMove(s.acts, a, Closes(ClearList(s.acts[a].close.i, s.acts[a].close.todo - {j})));
    Unowned(s, j);
  }

  // ----- the machine -----

  lemma BeginOpenInv(s: State, a: Act, m: Msg)
    requires Inv(s)
    ensures Kept(StepBeginOpen(s, a, m))
  {
    HoldersMove(s.acts, a, Opens(OpenHold(m)));
    if a !in s.acts && (s.status == Invalid || s.status == Closed) {
      SoundInv(s, StepBeginOpen(s, a, m), a, None);
    }
  }

  lemma BeginCallInv(s: State, a: Act, pc: CallPc)
    requires Inv(s) && a !in s.acts
    ensures Inv(s.Move(a, Calls(pc)))
  {
    CallerMoves(s, a, pc);
    SoundInv(s, Next(s.Move(a, Calls(pc))), a, None);
  }

  lemma RunOpenInv(s: State, a: Act)
    requires Inv(s) && a in s.acts && s.acts[a].Opens?
    ensures Kept(StepRun(s, a))
  {
    var o := StepRun(s, a);
    assert s.ctl == Some(a) && SlotInv(s, 0) by { assert ActInv(s, a); }
    match s.acts[a].open
    case OpenHold(m) => OpenHoldStep(s, a); SoundInv(s, o, a, None);
    case OpenStatus(result) =>
      if s.status == Opening && result >= 0 {
        OpenAnswerStep(s, a); SoundInv(s, o, a, Some(0));
      } else {
        OpenStatusStep(s, a); SoundInv(s, o, a, None);
      }
    case OpenTry(m, _) => OpenTryStep(s, a); SoundInv(s, o, a, Some(0));
    case OpenFail => AllUnowned(s); OpenFailStep(s, a); SoundInv(s, o, a, None);
    case OpenDrop => OpenDropStep(s, a); SoundInv(s, o, a, None);
    case OpenFinish => OpenFinishStep(s, a); SoundInv(s, o, a, Some(0));
    case _ =>
  }

  /** While nothing is open and nobody works, no request waits. */
  lemma AllUnowned(s: State)
    requires Inv(s) && Idle(s) && s.status != Closing
    ensures Drained(s)
  {
    forall j | j in s.slots ensures s.slots[j].queue == [] {
      assert SlotInv(s, j);
      Unowned(s, j);
    }
  }

  lemma RunCloseInv(s: State, a: Act)
    requires Inv(s) && a in s.acts && s.acts[a].Closes?
    ensures Kept(StepRun(s, a))
  {
    var o := StepRun(s, a);
    assert ActInv(s, a);
    match s.acts[a].close
    case Barrier(m) => BarrierEndStep(s, a); SoundInv(s, o, a, None);
    case CloseDrop(_) =>
      if s.count == 1 { CloseNowStep(s, a); } else { CloseDropStep(s, a); }
      SoundInv(s, o, a, None);
    case ClearList(i, todo) => ClearEndStep(s, a); SoundInv(s, o, a, None);
    case CloseFin(i) => assert SlotInv(s, i); CloseFinStep(s, a); SoundInv(s, o, a, Some(i));
    case _ =>
  }

  lemma RunCallInv(s: State, a: Act)
    requires Inv(s) && a in s.acts && s.acts[a].Calls?
    ensures Kept(StepRun(s, a))
  {
    var o := StepRun(s, a);
    assert ActInv(s, a);
    match s.acts[a].call
    case ReqLock(i, m, front) => GuardInv(s, a, i, Post(m, front), s.status == Opened);
    case CancelLock(i, m) => GuardInv(s, a, i, Cancel(m), s.status == Opened);
    case CloseCas1(m) =>
      if s.status == Opening { AbortStep(s, a); }
      else if s.status == Opened { CloseOpenedStep(s, a, m); }
      else { RejectStep(s, a); }
      SoundInv(s, o, a, None);
    case CloseCas2(m) =>
      if s.status == Opened { ShutStep(s, a); SoundInv(s, o, a, None); }
      else if s.status != Opening { RejectStep(s, a); SoundInv(s, o, a, None); }
  }

  lemma RunGuardedInv(s: State, a: Act)
    requires Inv(s) && a in s.acts && s.acts[a].Guards?
    ensures Kept(StepRun(s, a))
  {
    var o, i, live := StepRun(s, a), s.acts[a].i, s.acts[a].live;
    assert ActInv(s, a);
    assert SlotInv(s, i);
    match s.acts[a].section
    case Post(m, front) =>
      var e := Request(m, s.slots[i].log.next, front);
      if !live { UnlockStep(s, a); }
      else if s.slots[i].from.Some? { QueueStep(s, a, e); }
      else { StartStep(s, a, e); }
      SoundInv(s, o, a, Some(i));
    case Cancel(m) =>
      UnlockStep(s, a);
      UnlinkStep(s, a, Find(s.slots[i].queue, m));
      SoundInv(s, o, a, Some(i));
  }

  lemma RunWorkInv(s: State, a: Act)
    requires Inv(s) && a in s.acts && s.acts[a].Works? && RequestsWait(s)
    ensures Kept(StepRun(s, a))
  {
    var o, i := StepRun(s, a), s.acts[a].i;
    assert ActInv(s, a);
    assert SlotInv(s, i);
    match s.acts[a].step
    case Done(_) => DoneStep(s, a); SoundInv(s, o, a, Some(i));
    case DispLock => DispLockStep(s, a); SoundInv(s, o, a, Some(i));
    case DispLocked(live) =>
      if !live || s.slots[i].queue == [] { ReleaseStep(s, a); } else { TakeNextStep(s, a); }
      SoundInv(s, o, a, Some(i));
    case Drop => DropStep(s, a); SoundInv(s, o, a, None);
    case _ =>
  }

  lemma ReturnInv(s: State, a: Act, result: int)
    requires Inv(s) && a in s.acts
    ensures Kept(StepReturn(s, a, result))
  {
    var o := StepReturn(s, a, result);
    assert ActInv(s, a) && SlotInv(s, 0);
    match s.acts[a]
    case Opens(OpenCall(m)) => OpenCallStep(s, a, result); SoundInv(s, o, a, Some(0));
    case Opens(OpenPending) => OpenReplyStep(s, a, result); SoundInv(s, o, a, None);
    case Opens(OpenClose) => OpenCloseStep(s, a, result); SoundInv(s, o, a, None);
    case Opens(OpenClosePending) => OpenReplyStep(s, a, result); SoundInv(s, o, a, None);
    case Works(i, Issue) => assert SlotInv(s, i); IssueStep(s, a, result); SoundInv(s, o, a, Some(i));
    case Works(i, InStream) => assert SlotInv(s, i); ReplyStep(s, a, result); SoundInv(s, o, a, Some(i));
    case Closes(CloseCall(i)) => assert SlotInv(s, i); CloseCallStep(s, a, result); SoundInv(s, o, a, Some(i));
    case Closes(CloseStream(i)) => CloseReplyStep(s, a); SoundInv(s, o, a, None);
    case _ =>
  }

  lemma PassInv(s: State, a: Act, j: Index)
    requires Inv(s) && a in s.acts
    ensures Kept(StepPass(s, a, j))
  {
    var o := StepPass(s, a, j);
    assert ActInv(s, a);
    match s.acts[a]
    case Closes(Barrier(_)) => BarrierStep(s, a, j); SoundInv(s, o, a, None);
    case Closes(ClearList(i, todo)) =>
      if j in s.slots { assert SlotInv(s, j); ClearStep(s, a, j); SoundInv(s, o, a, Some(j)); }
    case _ =>
  }

  /** No step breaks the invariant, and no C assertion fails. */
  lemma StepInv(s: State, e: Event)
    requires Inv(s) && RequestsWait(s)
    ensures Kept(Step(s, e))
  {
    match e
    case BeginOpen(a, m) => BeginOpenInv(s, a, m);
    case BeginRequest(a, i, m, front) => if a !in s.acts { BeginCallInv(s, a, ReqLock(i, m, front)); }
    case BeginCancel(a, i, m) => if a !in s.acts { BeginCallInv(s, a, CancelLock(i, m)); }
    case BeginClose(a, m) => if a !in s.acts { BeginCallInv(s, a, CloseCas1(m)); }
    case Run(a) =>
      if a in s.acts {
        match s.acts[a]
        case Opens(_) => RunOpenInv(s, a);
        case Closes(_) => RunCloseInv(s, a);
        case Calls(_) => RunCallInv(s, a);
        case Guards(_, _, _) => RunGuardedInv(s, a);
        case Works(_, _) => RunWorkInv(s, a);
      }
    case Return(a, result) => if a in s.acts { ReturnInv(s, a, result); }
    case Pass(a, j) => if a in s.acts { PassInv(s, a, j); }
  }
}
