/** Which result a request is completed with: the one that the stream returned for it. */
module SyncControlResults {
  import opened Wrappers
  import opened SyncControl
  import opened SyncControlSafety
  import opened SyncControlData

  /** The act is about to complete a message of slot i. */
  predicate Answered(pc: Pc, i: Index) { pc.Works? && pc.i == i && pc.step.Done? }

  /** The act is in the inner request for slot i: its return is the stream's answer. */
  predicate Asks(pc: Pc, i: Index) { pc.Works? && pc.i == i && (pc.step.Issue? || pc.step.InStream?) }

  /** What the stream has answered and the message has not been told. */
  function Pending(s: State, i: Index): seq<(Entry, int)>
    requires i in s.slots
  {
    var slot := s.slots[i];
    if slot.cur.Some? && slot.owner.Some? && slot.owner.value in s.acts && Answered(s.acts[slot.owner.value], i)
    then [(slot.cur.value, s.acts[slot.owner.value].step.result)] else []
  }

  /** What a step says of slot i if it is an answer of the stream: the request it is for, and the result. */
  function Answer(s: State, e: Event, i: Index): seq<(Entry, int)>
    requires i in s.slots
  {
    if e.Return? && e.a in s.acts && Asks(s.acts[e.a], i) && (s.acts[e.a].step.InStream? || e.result != 0)
        && s.slots[i].cur.Some?
    then [(s.slots[i].cur.value, e.result)] else []
  }

  // ----- what a step leaves alone -----

  predicate ToldSame(s: State, t: State) {
    t.slots.Keys == s.slots.Keys && forall i :: i in s.slots ==> t.slots[i].log.told == s.slots[i].log.told
  }

  /** Other acts stay where they are. */
  ghost predicate OthersStay(s: State, t: State, a: Act) {
    forall b :: b != a ==> (b in t.acts <==> b in s.acts) && (b in s.acts ==> t.acts[b] == s.acts[b])
  }

  predicate AtDone(s: State, a: Act) { a in s.acts && s.acts[a].Works? && s.acts[a].step.Done? }

  /** An act moves that does not complete a message, and is not about to. */
  ghost predicate Quiet(s: State, t: State, a: Act) { OthersStay(s, t, a) && ToldSame(s, t) && !AtDone(t, a) }

  lemma RunIsQuiet(s: State, a: Act)
    requires StepRun(s, a).Next? && !AtDone(s, a)
    ensures Quiet(s, StepRun(s, a).state, a)
  {
    match s.acts[a]
    case Opens(pc) => OpenIsQuiet(s, a, pc);
    case Closes(pc) => CloseIsQuiet(s, a, pc);
    case Calls(pc) => CallIsQuiet(s, a, pc);
    case Guards(i, section, live) => GuardIsQuiet(s, a, i, section, live);
    case Works(i, pc) => WorkIsQuiet(s, a, i, pc);
  }

  lemma OpenIsQuiet(s: State, a: Act, pc: OpenPc)
    requires RunOpen(s, a, pc).Next?
    ensures Quiet(s, RunOpen(s, a, pc).state, a)
  {
    hide StepOpenStatus; hide StepOpenTry;
    match pc
    case OpenStatus(result) => OpenStatusIsQuiet(s, a, result);
    case OpenTry(m, result) => OpenTryIsQuiet(s, a, m);
    case _ =>
  }

  lemma OpenStatusIsQuiet(s: State, a: Act, result: int)
    requires StepOpenStatus(s, a, result).Next?
    ensures Quiet(s, StepOpenStatus(s, a, result).state, a)
  {
    if s.status == Opening && result >= 0 {
    }
  }

  lemma OpenTryIsQuiet(s: State, a: Act, m: Msg)
    requires StepOpenTry(s, a, m).Next?
    ensures Quiet(s, StepOpenTry(s, a, m).state, a)
  {
    if s.status == Opening {
    }
  }

  lemma CloseIsQuiet(s: State, a: Act, pc: ClosePc)
    requires RunClose(s, a, pc).Next?
    ensures Quiet(s, RunClose(s, a, pc).state, a)
  {
    match pc
    case _ =>
  }

  lemma CallIsQuiet(s: State, a: Act, pc: CallPc)
    requires RunCall(s, a, pc).Next? && a in s.acts && s.acts[a].Calls?
    ensures Quiet(s, RunCall(s, a, pc).state, a)
  {
    match pc
    case _ =>
  }

  lemma GuardIsQuiet(s: State, a: Act, i: Index, section: Section, live: bool)
    requires RunGuarded(s, a, i, section, live).Next?
    ensures Quiet(s, RunGuarded(s, a, i, section, live).state, a)
  {
    match section
    case Post(m, front) => if live && i in s.slots && s.slots[i].from.Some? {}
    case Cancel(m) =>
  }

  lemma WorkIsQuiet(s: State, a: Act, i: Index, pc: DispPc)
    requires RunWork(s, a, i, pc).Next? && !pc.Done?
    ensures Quiet(s, RunWork(s, a, i, pc).state, a)
  {
    match pc
    case DispLocked(live) => if live && i in s.slots && s.slots[i].queue != [] {}
    case _ =>
  }

  /** A return leads to the completion of a message exactly when it answers a request. */
  lemma ReturnIsQuiet(s: State, a: Act, result: int)
    requires StepReturn(s, a, result).Next?
    ensures var t := StepReturn(s, a, result).state;
            && OthersStay(s, t, a) && ToldSame(s, t)
            && (AtDone(t, a) ==> s.acts[a].Works? && t == s.Move(a, Works(s.acts[a].i, Done(result)))
                                 && (s.acts[a].step.InStream? || (s.acts[a].step.Issue? && result != 0)))
            && (s.acts[a].Works? && (s.acts[a].step.InStream? || (s.acts[a].step.Issue? && result != 0))
               ==> AtDone(t, a))
  {
    match s.acts[a]
    case Opens(_) =>
    case Works(_, _) =>
    case Closes(_) =>
    case _ =>
  }

  lemma PassIsQuiet(s: State, a: Act, j: Index)
    requires StepPass(s, a, j).Next?
    ensures Quiet(s, StepPass(s, a, j).state, a)
  {
  }

  lemma BeginIsQuiet(s: State, e: Event)
    requires Step(s, e).Next? && (e.BeginOpen? || e.BeginRequest? || e.BeginCancel? || e.BeginClose?)
    ensures Quiet(s, Step(s, e).state, e.a)
  {
  }

  // ----- what is pending -----

  /** The request worked stays, unless there was none. */
  lemma CurStays(s: State, t: State, i0: Index, c: Change, i: Index)
    requires ChangedAt(s, t, i0, c) && ToldSame(s, t) && i in s.slots
    ensures t.slots[i].cur == s.slots[i].cur || s.slots[i].cur.None?
  {
  }

  /** Nobody else's answer is lost or made up. */
  lemma PendingSame(s: State, t: State, a: Act, i: Index)
    requires Inv(s) && Inv(t) && i in s.slots && i in t.slots && OthersStay(s, t, a)
    requires !(a in s.acts && Answered(s.acts[a], i)) && !(a in t.acts && Answered(t.acts[a], i))
    requires t.slots[i].cur == s.slots[i].cur || s.slots[i].cur.None?
    ensures Pending(t, i) == Pending(s, i)
  {
    if Pending(s, i) != [] {
      OwnerIs(t, s.slots[i].owner.value, i);
    } else if Pending(t, i) != [] {
      OwnerIs(s, t.slots[i].owner.value, i);
      assert false;
    }
  }

  lemma OwnerIs(s: State, a: Act, i: Index)
    requires Inv(s) && a in s.acts && Answered(s.acts[a], i) && i in s.slots
    ensures s.slots[i].owner == Some(a) && s.slots[i].cur.Some?
    ensures Pending(s, i) == [(s.slots[i].cur.value, s.acts[a].step.result)]
  {
    assert ActInv(s, a);
    assert SlotInv(s, i);
  }

  lemma AskerIs(s: State, a: Act, i: Index)
    requires Inv(s) && a in s.acts && Asks(s.acts[a], i) && i in s.slots
    ensures s.slots[i].cur.Some? && Pending(s, i) == []
  {
    assert ActInv(s, a);
    assert SlotInv(s, i);
  }

  /** What one slot's messages have been told and will be told, as it was but for the answer of the step. */
  ghost predicate Follows(s: State, e: Event, t: State, i: Index)
    requires i in s.slots
  {
    i in t.slots && t.slots[i].log.told + Pending(t, i) == s.slots[i].log.told + Pending(s, i) + Answer(s, e, i)
  }

  lemma QuietFollows(s: State, e: Event, t: State, i: Index)
    requires Inv(s) && Inv(t) && Step(s, e) == Next(t) && Quiet(s, t, e.a) && !AtDone(s, e.a) && i in s.slots
    requires Answer(s, e, i) == []
    ensures Follows(s, e, t, i)
  {
    var i0, c := StepChange(s, e);
    CurStays(s, t, i0, c, i);
    hide Inv; hide Step;
    PendingSame(s, t, e.a, i);
  }

  lemma DoneFollows(s: State, a: Act, t: State, i: Index)
    requires Inv(s) && Inv(t) && Step(s, Run(a)) == Next(t) && AtDone(s, a) && i in s.slots
    ensures Follows(s, Run(a), t, i)
  {
    var j, result := s.acts[a].i, s.acts[a].step.result;
    assert t == StepDone(s, a, j, result).state;
    hide Step;
    if i == j {
      OwnerIs(s, a, i);
      assert t.slots[i].cur.None?;
    } else {
      hide Inv;
      PendingSame(s, t, a, i);
    }
  }

  /** The stream answers a request of slot j. */
  lemma AnswerFollows(s: State, a: Act, result: int, t: State, i: Index)
    requires Inv(s) && Inv(t) && a in s.acts && s.acts[a].Works? && i in s.slots
    requires s.acts[a].step.InStream? || (s.acts[a].step.Issue? && result != 0)
    requires t == s.Move(a, Works(s.acts[a].i, Done(result)))
    ensures Follows(s, Return(a, result), t, i)
  {
    hide Inv;
    if i == s.acts[a].i {
      AskerIs(s, a, i);
      OwnerIs(t, a, i);
    } else {
      PendingSame(s, t, a, i);
    }
  }

  lemma NotAnswered(s: State, a: Act, result: int, i: Index)
    requires i in s.slots
    requires a in s.acts && s.acts[a].Works? ==> !(s.acts[a].step.InStream? || (s.acts[a].step.Issue? && result != 0))
    ensures Answer(s, Return(a, result), i) == []
  {
  }

  lemma ReturnFollows(s: State, a: Act, result: int, t: State, i: Index)
    requires Inv(s) && Inv(t) && Step(s, Return(a, result)) == Next(t) && i in s.slots && !AtDone(s, a)
    ensures Follows(s, Return(a, result), t, i)
  {
    assert StepReturn(s, a, result) == Next(t);
    hide Inv; hide Step; hide StepReturn; hide Follows; hide OthersStay; hide ToldSame;
    ReturnIsQuiet(s, a, result);
    if AtDone(t, a) {
      AnswerFollows(s, a, result, t, i);
    } else {
      NotAnswered(s, a, result, i);
      QuietFollows(s, Return(a, result), t, i);
    }
  }

  lemma ReturnNotDone(s: State, a: Act, result: int)
    requires StepReturn(s, a, result).Next?
    ensures !AtDone(s, a)
  {
  }

  lemma StepFollows(s: State, e: Event, i: Index)
    requires Inv(s) && Step(s, e).Next? && Inv(Step(s, e).state) && i in s.slots
    ensures Follows(s, e, Step(s, e).state, i)
  {
    var t := Step(s, e).state;
    hide Inv; hide Follows; hide Quiet; hide Answer; hide StepRun; hide StepReturn; hide StepPass; hide AtDone;
    match e
    case Return(a, result) =>
      ReturnNotDone(s, a, result);
      ReturnFollows(s, a, result, t, i);
    case Run(a) =>
      if AtDone(s, a) {
        DoneFollows(s, a, t, i);
      } else {
        RunIsQuiet(s, a);
        NoAnswer(s, e, i);
        QuietFollows(s, e, t, i);
      }
    case Pass(a, j) =>
      PassIsQuiet(s, a, j);
      PassNotDone(s, a, j);
      NoAnswer(s, e, i);
      QuietFollows(s, e, t, i);
    case _ =>
      BeginIsQuiet(s, e);
      BeginNotDone(s, e);
      NoAnswer(s, e, i);
      QuietFollows(s, e, t, i);
  }

  lemma NoAnswer(s: State, e: Event, i: Index)
    requires i in s.slots && !e.Return?
    ensures Answer(s, e, i) == []
  {
  }

  lemma PassNotDone(s: State, a: Act, j: Index)
    requires StepPass(s, a, j).Next?
    ensures !AtDone(s, a)
  {
  }

  lemma BeginNotDone(s: State, e: Event)
    requires Step(s, e).Next? && (e.BeginOpen? || e.BeginRequest? || e.BeginCancel? || e.BeginClose?)
    ensures !AtDone(s, e.a)
  {
  }

  // ----- runs -----

  /** All the answers of the stream for the requests of a slot, in a run of n steps. */
  function Answers(states: seq<State>, events: seq<Event>, i: Index, n: nat): seq<(Entry, int)>
    requires n <= |events| && |states| == |events| + 1 && forall k :: 0 <= k <= n ==> i in states[k].slots
  {
    if n == 0 then [] else Answers(states, events, i, n - 1) + Answer(states[n - 1], events[n - 1], i)
  }

  lemma {:induction false} RunKeeps(states: seq<State>, events: seq<Event>, i: Index, n: nat)
    requires IsRun(states, events) && n <= |events| && i in states[0].slots
    ensures Inv(states[n]) && DataInv(states[n]) && forall k :: 0 <= k <= n ==> i in states[k].slots
  {
    hide Step; hide Inv; hide DataInv;
    if n == 0 {
      assert Init(states[0]);
      FirstState(states[0]);
    } else {
      RunKeeps(states, events, i, n - 1);
      assert Step(states[n - 1], events[n - 1]) == Next(states[n]);
      NextState(states[n - 1], events[n - 1], i);
    }
  }

  lemma FirstState(s: State)
    requires Init(s)
    ensures Inv(s) && DataInv(s)
  {
    InitInv(s);
  }

  lemma NextState(s: State, e: Event, i: Index)
    requires Inv(s) && DataInv(s) && Step(s, e).Next? && i in s.slots
    ensures var t := Step(s, e).state; Inv(t) && DataInv(t) && i in t.slots
  {
    StepInv(s, e);
    DataStep(s, e);
    var i0, c := StepChange(s, e);
    hide Step; hide Inv; hide DataInv;
  }

  lemma FirstTold(s: State, i: Index)
    requires Init(s) && i in s.slots
    ensures s.slots[i].log.told == [] && Pending(s, i) == []
  {
  }

  /**
    In every run, what the messages of a slot have been told, with the one that is
    about to be told, are the requests the stream has answered, each with the
    stream's own result, in the order of the answers.
   */
  lemma {:induction false} AnswersAreTold(states: seq<State>, events: seq<Event>, i: Index, n: nat)
    requires IsRun(states, events) && n <= |events| && i in states[0].slots
    ensures forall k :: 0 <= k <= n ==> i in states[k].slots
    ensures states[n].slots[i].log.told + Pending(states[n], i) == Answers(states, events, i, n)
  {
    hide Step; hide Inv; hide DataInv; hide Pending; hide Answer;
    RunKeeps(states, events, i, n);
    if n == 0 {
      assert Init(states[0]);
      FirstTold(states[0], i);
    } else {
      AnswersAreTold(states, events, i, n - 1);
      RunKeeps(states, events, i, n - 1);
      assert Step(states[n - 1], events[n - 1]) == Next(states[n]);
      StepFollows(states[n - 1], events[n - 1], i);
    }
  }

  function Requests(told: seq<(Entry, int)>): multiset<Entry> {
    if told == [] then multiset{} else Requests(told[..|told| - 1]) + multiset{told[|told| - 1].0}
  }

  lemma RequestsGrow(told: seq<(Entry, int)>, e: Entry, result: int)
    ensures Requests(told + [(e, result)]) == Requests(told) + multiset{e}
  {
    assert (told + [(e, result)])[..|told|] == told;
  }

  lemma ChangeFinishes(s: State, t: State, i0: Index, c: Change, i: Index)
    requires ChangedAt(s, t, i0, c) && i in s.slots && s.slots[i].log.finished == Requests(s.slots[i].log.told)
    ensures t.slots[i].log.finished == Requests(t.slots[i].log.told)
  {
    hide Requests;
    if c.Finish? && i == i0 {
      RequestsGrow(s.slots[i].log.told, s.slots[i].cur.value, c.result);
    }
  }

  /** The requests completed are those that have been told a result. */
  lemma {:induction false} FinishedAreTold(states: seq<State>, events: seq<Event>, i: Index, n: nat)
    requires IsRun(states, events) && n <= |events| && i in states[0].slots
    ensures i in states[n].slots && states[n].slots[i].log.finished == Requests(states[n].slots[i].log.told)
  {
    hide Step; hide Inv; hide DataInv; hide Requests;
    RunKeeps(states, events, i, n);
    if n == 0 {
      assert Init(states[0]);
      NothingTold(states[0], i);
    } else {
      FinishedAreTold(states, events, i, n - 1);
      RunKeeps(states, events, i, n - 1);
      assert Step(states[n - 1], events[n - 1]) == Next(states[n]);
      var i0, c := StepChange(states[n - 1], events[n - 1]);
      ChangeFinishes(states[n - 1], states[n], i0, c, i);
    }
  }

  lemma NothingTold(s: State, i: Index)
    requires Init(s) && i in s.slots
    ensures s.slots[i].log.finished == Requests(s.slots[i].log.told)
  {
  }

  lemma {:induction false} RequestIsTold(told: seq<(Entry, int)>, e: Entry) returns (k: nat)
    requires e in Requests(told)
    ensures k < |told| && told[k].0 == e
  {
    if told[|told| - 1].0 == e {
      k := |told| - 1;
    } else {
      k := RequestIsTold(told[..|told| - 1], e);
    }
  }

  /**
    Every request completed after it was started is completed with the result that
    the stream returned for it.
   */
  lemma CompletedWithAnswer(states: seq<State>, events: seq<Event>, i: Index, e: Entry) returns (k: nat)
    requires IsRun(states, events) && i in states[0].slots
    requires i in states[|events|].slots && e in states[|events|].slots[i].log.finished
    ensures forall j :: 0 <= j <= |events| ==> i in states[j].slots
    ensures var told := states[|events|].slots[i].log.told;
            k < |told| && told[k].0 == e && told <= Answers(states, events, i, |events|)
  {
    hide Requests; hide Pending;
    AnswersAreTold(states, events, i, |events|);
    FinishedAreTold(states, events, i, |events|);
    k := RequestIsTold(states[|events|].slots[i].log.told, e);
  }
}
