/** The MQTT client: the client system's component and the serial queue under one roof. */
module MqttClient {
  // A login takes two holds on the component. The reader gives one back when it fails, the
  // queue's post-end callback gives back the other.

  import opened Wrappers
  import C = ClientSystem
  import R = ClientRuns
  import Q = IoQueue

  /** How far the thread that logs in has come: it has taken the holds, begun the queue, started the reader. */
  datatype Login = NoLogin | Held | Begun | Started

  /** The heartbeat message: not in use, refused by the queue, in the queue, or completed with a result. */
  datatype Beat = NoBeat | Refused | Queued(t: Q.Ticket) | Finished(result: int)

  /**
    The client: whether the system still lists its component, the component, its
    queue, the login under way, the reader, the readers that have failed and given
    their hold back but have not yet ended the queue, and the heartbeat. A reader
    is known by the number of its login, and `queueOf` is the number of the login
    that began the queue last. The counts record the logins and the holds given
    back by readers and by the post-end callback.
   */
  datatype State = State(
    listed: bool, cl: R.State, q: Q.Queue, login: Login, reader: Option<nat>, late: seq<nat>, queueOf: nat, beat: Beat,
    logins: nat, readerDrops: nat, endDrops: nat)

  datatype Event =
    | Check(due: C.Due)
    | Run(close: int)
    | OpenDone(result: int, close: int)
    | CloseDone(result: int)
    | BeatDone(close: int)
    | TakeHolds
    | BeginQueue
    | StartReader
    | ReaderFails
    | ReaderEnds(k: nat)
    | AbortToken
    | ExternalAbort
    | Post
    | QueueEvent(e: Q.Event)

  datatype Outcome = Disabled | Fault | Next(s: State)

  function Start(): State { State(true, R.Start(), Q.NewQueue(), NoLogin, None, [], 0, NoBeat, 0, 0, 0) }

  /** The component's options: MQTT implements every callback. */
  predicate IsMqtt(cfg: C.Config) { cfg.hasHeart && cfg.hasAbort }

  function Client(cfg: C.Config, s: State, e: R.Event): Outcome {
    match R.Step(cfg, s.cl, e) case Disabled => Disabled case Fault => Fault case Next(cl) => Next(s.(cl := cl))
  }

  /** The queue moves to a new state; if that called the post-end callback, a hold is given back. */
  function Moved(cfg: C.Config, s: State, q: Q.Queue): Outcome {
    if q.ends == s.q.ends then Next(s.(q := q))
    else
      match R.Step(cfg, s.cl, R.Release)
      case Next(cl) => Next(s.(cl := cl, q := q, endDrops := s.endDrops + 1))
      case _ => Fault
  }

  /** MQTTHeart: the heartbeat message is posted; its completion comes later even if the queue refuses it. */
  function Posted(s: State): State {
    s.(q := Q.StepPost(s.q), beat := if s.q.abort then Refused else Queued(s.q.accepted))
  }

  /** What a call of MQTTAbort gives back. */
  function Drops(q: Q.Queue): nat { if Q.StepEnd(q).ends > q.ends then 1 else 0 }

  /** A segment of the component's run, with MQTT's callbacks. */
  function Segment(cfg: C.Config, s: State, e: R.Event, result: int, a: C.Answers): Outcome {
    var calls := C.RunInternal(cfg, s.cl.c, result, a).calls;
    if C.Open in calls && s.q.queue != [] then Fault
    else
      match Client(cfg, s, e)
      case Next(t) =>
        if C.Abort in calls then Next(t.(q := Q.StepEnd(s.q), endDrops := s.endDrops + Drops(s.q)))
        else if C.Beat in calls then Next(Posted(t))
        else Next(t)
      case o => o
  }

  /** open and the heartbeat finish later; abort gives back what the queue's end gives back. */
  function Answers(s: State, close: int): C.Answers { C.Answers(0, 0, 0, Drops(s.q), close) }

  function Done(cfg: C.Config, s: State, result: int, close: int): Outcome {
    var a := Answers(s, close);
    if s.cl.token.Waits? then Segment(cfg, s, R.DoDone(result, a), result, a) else Fault
  }

  /** A message is completed: if it is the heartbeat, the component is to be told. */
  function Heard(s: State, told: seq<Q.Ending>): State {
    if s.beat.Queued? && |told| > |s.q.told| && told[|told| - 1].t == s.beat.t
        then s.(beat := Finished(told[|told| - 1].result)) else s
  }

  function QueueStep(cfg: C.Config, s: State, e: Q.Event): Outcome {
    if e.Begin? || e.End? || e.Post? then Disabled
    else
      match Q.Step(s.q, e)
      case Disabled => Disabled
      case Fault => Fault
      case Next(q) => Moved(cfg, Heard(s, q.told), q)
  }

  function Step(cfg: C.Config, s: State, e: Event): Outcome {
    match e
    case Check(due) => if s.listed then Client(cfg, s, R.DoCheck(due)) else Disabled
    case Run(close) =>
      var a := Answers(s, close);
      if s.cl.token.Issued? then Segment(cfg, s, R.DoRun(a), 0, a) else Disabled
    case OpenDone(result, close) =>
      if s.cl.token != R.Waits(C.InOpen) || result == 0
          || (if result > 0 then s.login != Started else s.login != NoLogin) then Disabled
      else Done(cfg, s.(login := NoLogin), result, close)
    case CloseDone(result) => if s.cl.token == R.Waits(C.InClose) then Done(cfg, s, result, 0) else Disabled
    case BeatDone(close) =>
      (match s.beat
       case Refused => Done(cfg, s.(beat := NoBeat), -Q.EINTR, close)
       case Finished(result) => Done(cfg, s.(beat := NoBeat), result, close)
       case _ => Disabled)
    case TakeHolds =>
      if s.cl.token != R.Waits(C.InOpen) || s.login != NoLogin then Disabled
      else
        (match Client(cfg, s, R.AcquireInOpen)
         case Next(t) => (match Client(cfg, t,
             R.AcquireInOpen) case Next(u) => Next(u.(login := Held, logins := s.logins + 1)) case o => o)
         case o => o)
    case BeginQueue =>
      if s.login != Held then Disabled
      else (match Q.StepBegin(s.q) case Next(q) => Next(s.(q := q, queueOf := s.logins,
          login := Begun)) case _ => Fault)
    case StartReader => if s.login == Begun then Next(s.(login := Started, reader := Some(s.logins))) else Disabled
    case ReaderFails =>
      if s.reader.None? then Disabled
      else
        (match Client(cfg, s.(cl := s.cl.(c := s.cl.c.(mainAbort := true))), R.Release)
         case Next(t) => Next(t.(reader := None, late := s.late + [s.reader.value], readerDrops := s.readerDrops + 1))
         case _ => Fault)
    case ReaderEnds(k) => if k < |s.late| then Moved(cfg, s.(late := Q.Without(s.late, k)), Q.StepEnd(s.q))
        else Disabled
    case AbortToken =>
      if s.cl.aborts == 0 then Disabled
      else
        (match Client(cfg, s, R.DoAbort(Drops(s.q)))
         case Next(t) => Next(t.(q := Q.StepEnd(s.q), endDrops := s.endDrops + Drops(s.q)))
         case _ => Fault)
    case ExternalAbort => if s.listed then Moved(cfg, s.(listed := false), Q.StepEnd(s.q)) else Disabled
    case Post => Next(s.(q := Q.StepPost(s.q)))
    case QueueEvent(e) => QueueStep(cfg, s, e)
  }

  // ----- the invariant -----

  /** The reader's hold, from the login until the reader fails. */
  predicate ReaderOwes(s: State) { s.login == Held || s.login == Begun || s.reader.Some? }

  /** The queue's hold, from the login until the post-end callback. */
  predicate QueueOwes(s: State) { s.login == Held || s.q.postEnd }

  predicate BeatFits(s: State) {
    match s.beat
    case NoBeat => s.cl.token != R.Waits(C.InHeart)
    case _ => s.cl.token == R.Waits(C.InHeart)
  }

  predicate Owed(s: State) {
    && s.cl.holds == (if ReaderOwes(s) then 1 else 0) + (if QueueOwes(s) then 1 else 0)
    && s.logins == s.readerDrops + (if ReaderOwes(s) then 1 else 0)
    && s.logins == s.endDrops + (if QueueOwes(s) then 1 else 0)
  }

  predicate LoginFits(s: State) {
    && (s.login != NoLogin ==> s.cl.token == R.Waits(C.InOpen))
    && (s.login == Held ==> !s.q.postEnd && s.reader.None?) && (s.login == Begun ==> s.reader.None?)
    && (s.cl.token == R.Waits(C.InOpen) && s.login == NoLogin ==> s.cl.holds == 0)
  }

  /**
    The numbers of the readers: the one that runs is of the last login, and the late ones of that or of earlier
    logins.
   */
  predicate Numbered(s: State) {
    && s.logins == s.queueOf + (if s.login == Held then 1 else 0)
    && (s.reader.Some? ==> s.reader.value == s.logins)
    && forall k :: 0 <= k < |s.late| ==> s.late[k] <= s.queueOf && (ReaderOwes(s) ==> s.late[k] < s.logins)
  }

  predicate Inv(cfg: C.Config, s: State) {
    R.Inv(cfg, s.cl) && Q.Inv(s.q) && Owed(s) && LoginFits(s) && BeatFits(s) && Numbered(s)
  }

  lemma EndOfQueue(q: Q.Queue)
    requires Q.Inv(q)
    ensures var n := Q.StepEnd(q);
            && Q.Inv(n) && n.ends == q.ends + Drops(q) && n.postEnd == (q.postEnd && Drops(q) == 0)
               && (Drops(q) == 1 ==> q.postEnd)
  {
    hide Q.Tickets; hide Q.Numbers;
    Q.PostKeeps(q);
  }

  lemma PostOfQueue(q: Q.Queue)
    requires Q.Inv(q)
    ensures var n := Q.StepPost(q); Q.Inv(n) && n.ends == q.ends && n.postEnd == q.postEnd
  {
    Q.PostKeeps(q);
  }

  lemma NoPostsNoQueue(q: Q.Queue)
    requires Q.Inv(q) && !q.postEnd
    ensures q.queue == [] && q.abort && q.worker.Idle? && !Q.StepBegin(q).Fault?
  {
    hide Q.Tickets; hide Q.Numbers;
  }

  /** Which callbacks a segment calls when open and the heartbeat always finish later. */
  lemma Calls(cfg: C.Config, c: C.Client, result: int, a: C.Answers)
    requires a.open == 0 && a.heart == 0
    ensures var seg := C.RunInternal(cfg, c, result, a);
            && (C.Open in seg.calls <==> c.status == C.Invalid) && (seg.stop == C.InOpen <==> c.status == C.Invalid)
            && (C.Beat in seg.calls <==> seg.stop == C.InHeart)
               && (C.Abort in seg.calls ==> C.Beat !in seg.calls && C.Open !in seg.calls)
            && (C.Open in seg.calls ==> C.Beat !in seg.calls) && (C.Close in seg.calls ==> seg.c.status == C.Closed)
  {
  }

  /** A segment of the component's run keeps the invariant and breaks no assert. */
  lemma SegmentKeeps(cfg: C.Config, s: State, e: R.Event, result: int, a: C.Answers, close: int)
    requires IsMqtt(cfg) && R.Inv(cfg, s.cl) && Q.Inv(s.q) && Owed(s) && Numbered(s)
    requires s.login == NoLogin && s.beat == NoBeat && a == Answers(s, close)
    requires (e == R.DoRun(a) && result == 0 && s.cl.token.Issued?) || (e == R.DoDone(result, a) && s.cl.token.Waits?)
    requires s.cl.token == R.Waits(C.InOpen) && s.cl.holds > 0 ==> result > 0
    ensures var o := Segment(cfg, s, e, result, a); !o.Fault? && (o.Next? ==> Inv(cfg, o.s))
  {
    hide C.RunInternal; hide R.OpensAndCloses; hide R.Alternate; hide Q.Inv; hide Q.StepEnd; hide Q.StepPost;
    R.StepKeeps(cfg, s.cl, e);
    EndOfQueue(s.q);
    PostOfQueue(s.q);
    Calls(cfg, s.cl.c, result, a);
    if !s.q.postEnd {
      NoPostsNoQueue(s.q);
    }
  }

  lemma MovedKeeps(cfg: C.Config, s: State, q: Q.Queue)
    requires Inv(cfg, s) && Q.Inv(q) && s.q.ends <= q.ends <= s.q.ends + 1
    requires q.postEnd == (s.q.postEnd && q.ends == s.q.ends) && (q.ends > s.q.ends ==> s.q.postEnd)
    ensures var o := Moved(cfg, s, q); o.Next? && Inv(cfg, o.s)
  {
    hide R.Alternate; hide R.RunStep; hide Q.Inv;
    R.StepKeeps(cfg, s.cl, R.Release);
  }

  lemma LoginKeeps(cfg: C.Config, s: State, e: Event)
    requires Inv(cfg, s) && (e.TakeHolds? || e.BeginQueue? || e.StartReader?)
    ensures var o := Step(cfg, s, e); !o.Fault? && (o.Next? ==> Inv(cfg, o.s))
  {
    hide R.Alternate; hide Q.Tickets; hide Q.Numbers;
    if !s.q.postEnd {
      NoPostsNoQueue(s.q);
    }
  }

  lemma ReaderKeeps(cfg: C.Config, s: State, e: Event)
    requires Inv(cfg, s) && (e.ReaderFails? || e.ReaderEnds? || e.ExternalAbort? || e.Post?)
    ensures var o := Step(cfg, s, e); !o.Fault? && (o.Next? ==> Inv(cfg, o.s))
  {
    hide R.Alternate; hide R.RunStep; hide Q.Inv; hide Q.StepEnd; hide Q.StepPost; hide Moved;
    EndOfQueue(s.q);
    PostOfQueue(s.q);
    if e.ReaderEnds? && e.k < |s.late| {
      MovedKeeps(cfg, s.(late := Q.Without(s.late, e.k)), Q.StepEnd(s.q));
    } else if e.ExternalAbort? {
      MovedKeeps(cfg, s.(listed := false), Q.StepEnd(s.q));
    }
  }

  lemma AbortKeeps(cfg: C.Config, s: State)
    requires Inv(cfg, s)
    ensures var o := Step(cfg, s, AbortToken); !o.Fault? && (o.Next? ==> Inv(cfg, o.s))
  {
    hide R.Alternate; hide R.RunStep; hide Q.Inv; hide Q.StepEnd;
    EndOfQueue(s.q);
  }

  lemma CheckKeeps(cfg: C.Config, s: State, due: C.Due)
    requires Inv(cfg, s)
    ensures var o := Step(cfg, s, Check(due)); !o.Fault? && (o.Next? ==> Inv(cfg, o.s))
  {
    hide R.Alternate; hide R.RunStep; hide Q.Inv; hide C.Check;
    R.StepKeeps(cfg, s.cl, R.DoCheck(due));
  }

  lemma DoneKeeps(cfg: C.Config, s: State, result: int, close: int)
    requires IsMqtt(cfg) && R.Inv(cfg, s.cl) && Q.Inv(s.q) && Owed(s) && Numbered(s) && s.cl.token.Waits?
             && s.login == NoLogin && s.beat == NoBeat
    requires s.cl.token == R.Waits(C.InOpen) && s.cl.holds > 0 ==> result > 0
    ensures var o := Done(cfg, s, result, close); !o.Fault? && (o.Next? ==> Inv(cfg, o.s))
  {
    hide Segment; hide R.Inv; hide Q.Inv;
    var a := Answers(s, close);
    SegmentKeeps(cfg, s, R.DoDone(result, a), result, a, close);
  }

  lemma DonesKeep(cfg: C.Config, s: State, e: Event)
    requires IsMqtt(cfg) && Inv(cfg, s) && (e.OpenDone? || e.CloseDone? || e.BeatDone?)
    ensures var o := Step(cfg, s, e); !o.Fault? && (o.Next? ==> Inv(cfg, o.s))
  {
    hide Done; hide R.Inv; hide Q.Inv;
    match e
    case OpenDone(result, close) =>
      if Step(cfg, s, e) != Disabled {
        DoneKeeps(cfg, s.(login := NoLogin), result, close);
      }
    case CloseDone(result) =>
      if s.cl.token == R.Waits(C.InClose) {
        DoneKeeps(cfg, s, result, 0);
      }
    case BeatDone(close) =>
      if s.beat.Refused? {
        DoneKeeps(cfg, s.(beat := NoBeat), -Q.EINTR, close);
      } else if s.beat.Finished? {
        DoneKeeps(cfg, s.(beat := NoBeat), s.beat.result, close);
      }
  }

  lemma RunsKeep(cfg: C.Config, s: State, close: int)
    requires IsMqtt(cfg) && Inv(cfg, s)
    ensures var o := Step(cfg, s, Run(close)); !o.Fault? && (o.Next? ==> Inv(cfg, o.s))
  {
    hide Segment; hide R.Inv; hide Q.Inv;
    if s.cl.token.Issued? {
      var a := Answers(s, close);
      SegmentKeeps(cfg, s, R.DoRun(a), 0, a, close);
    }
  }

  /** A step of the queue calls the post-end callback at most once, and only if it is set. */
  lemma QueueMoves(q: Q.Queue, e: Q.Event)
    requires Q.Inv(q) && !e.Begin? && Q.Step(q, e).Next?
    ensures var n := Q.Step(q, e).q;
            Q.Inv(n) && q.ends <= n.ends <= q.ends + 1
            && n.postEnd == (q.postEnd && n.ends == q.ends) && (n.ends > q.ends ==> q.postEnd)
    ensures !Q.Step(q, e).Fault?
  {
    hide Q.Tickets; hide Q.Numbers; hide Q.InOrder; hide Q.OnceEach;
    Q.StepKeeps(q, e);
  }

  lemma QueueKeeps(cfg: C.Config, s: State, e: Q.Event)
    requires Inv(cfg, s)
    ensures var o := QueueStep(cfg, s, e); !o.Fault? && (o.Next? ==> Inv(cfg, o.s))
  {
    hide R.Inv; hide Q.Inv; hide Q.Step; hide Moved;
    if !(e.Begin? || e.End? || e.Post?) {
      Q.StepKeeps(s.q, e);
      if Q.Step(s.q, e).Next? {
        QueueMoves(s.q, e);
        var q := Q.Step(s.q, e).q;
        MovedKeeps(cfg, Heard(s, q.told), q);
      }
    }
  }

  lemma StepKeeps(cfg: C.Config, s: State, e: Event)
    requires IsMqtt(cfg) && Inv(cfg, s)
    ensures var o := Step(cfg, s, e); !o.Fault? && (o.Next? ==> Inv(cfg, o.s))
  {
    hide Inv; hide QueueStep;
    match e
    case Check(due) => CheckKeeps(cfg, s, due);
    case Run(close) => RunsKeep(cfg, s, close);
    case OpenDone(_, _) => DonesKeep(cfg, s, e);
    case CloseDone(_) => DonesKeep(cfg, s, e);
    case BeatDone(_) => DonesKeep(cfg, s, e);
    case TakeHolds => LoginKeeps(cfg, s, e);
    case BeginQueue => LoginKeeps(cfg, s, e);
    case StartReader => LoginKeeps(cfg, s, e);
    case ReaderFails => ReaderKeeps(cfg, s, e);
    case ReaderEnds(_) => ReaderKeeps(cfg, s, e);
    case AbortToken => AbortKeeps(cfg, s);
    case ExternalAbort => ReaderKeeps(cfg, s, e);
    case Post => ReaderKeeps(cfg, s, e);
    case QueueEvent(q) => QueueKeeps(cfg, s, q);
  }

  // ----- runs -----

  predicate IsRun(cfg: C.Config, states: seq<State>, events: seq<Event>) {
    && |states| == |events| + 1 && states[0] == Start()
    && forall i :: 0 <= i < |events| ==> Step(cfg, states[i], events[i]) == Next(states[i + 1])
  }

  ghost predicate Reachable(cfg: C.Config, s: State) {
    exists states, events :: IsRun(cfg, states, events) && states[|events|] == s
  }

  lemma {:induction false} RunInv(cfg: C.Config, states: seq<State>, events: seq<Event>)
    requires IsMqtt(cfg) && IsRun(cfg, states, events)
    ensures Inv(cfg, states[|events|])
    decreases |events|
  {
    hide Step; hide Inv;
    if events == [] {
      StartIsOk(cfg);
    } else {
      var k := |events| - 1;
      assert IsRun(cfg, states[..k + 1], events[..k]) by {
        forall i | 0 <= i < k ensures Step(cfg, states[..k + 1][i], events[..k][i]) == Next(states[..k + 1][i + 1]) {
          assert Step(cfg, states[i], events[i]) == Next(states[i + 1]);
        }
      }
      RunInv(cfg, states[..k + 1], events[..k]);
      StepKeeps(cfg, states[k], events[k]);
    }
  }

  lemma StartIsOk(cfg: C.Config)
    ensures Inv(cfg, Start())
  {
    R.StartIsOk(cfg);
    Q.NewIsOk();
  }

  lemma ReachableInv(cfg: C.Config, s: State)
    requires IsMqtt(cfg) && Reachable(cfg, s)
    ensures Inv(cfg, s)
  {
    hide Step; hide Inv;
    var states, events :| IsRun(cfg, states, events) && states[|events|] == s;
    RunInv(cfg, states, events);
  }

  // ----- what every run keeps -----

  /**
    In every run no assert fails: the queue is empty when open is called and when
    a login begins it, and every completion of a callback finds the run token held.
   */
  lemma NeverFaults(cfg: C.Config, s: State, e: Event)
    requires IsMqtt(cfg) && Reachable(cfg, s)
    ensures !Step(cfg, s, e).Fault?
  {
    hide Step; hide Inv;
    ReachableInv(cfg, s);
    StepKeeps(cfg, s, e);
  }

  /**
    Each login takes two holds. One is given back once, by its reader's failure,
    the other once, by the post-end callback; between those each is still out.
   */
  lemma EachHoldDroppedOnce(cfg: C.Config, s: State)
    requires IsMqtt(cfg) && Reachable(cfg, s)
    ensures s.logins == s.readerDrops + if ReaderOwes(s) then 1 else 0
    ensures s.logins == s.endDrops + if QueueOwes(s) then 1 else 0
    ensures s.cl.holds == 2 * s.logins - s.readerDrops - s.endDrops
  {
    hide R.Inv; hide Q.Inv;
    ReachableInv(cfg, s);
  }

  lemma {:induction false} NoneFiltered(calls: seq<C.Call>)
    requires C.Open !in calls && C.Close !in calls
    ensures R.OpensAndCloses(calls) == []
  {
    if calls != [] {
      NoneFiltered(calls[..|calls| - 1]);
    }
  }

  /** A segment that calls open waits for it, and one that calls close ends closed. */
  lemma SegmentCalls(cfg: C.Config, s: State, e: R.Event, result: int, a: C.Answers)
    requires a.open == 0 && a.heart == 0 && ((e == R.DoRun(a) && result == 0) || e == R.DoDone(result, a))
    requires Segment(cfg, s, e, result, a).Next? && |Segment(cfg, s, e, result, a).s.cl.calls| > |s.cl.calls|
    ensures var n := Segment(cfg, s, e, result, a).s;
    n.login == s.login && (n.cl.token == R.Waits(C.InOpen) || n.cl.c.status == C.Closed)
  {
    hide C.RunInternal;
    var seg := C.RunInternal(cfg, s.cl.c, result, a);
    Calls(cfg, s.cl.c, result, a);
    if C.Open !in seg.calls && C.Close !in seg.calls {
      NoneFiltered(seg.calls);
    }
  }

  lemma NothingHeld(cfg: C.Config, s: State, e: Event)
    requires Inv(cfg, s) && Step(cfg, s, e).Next? && |Step(cfg, s, e).s.cl.calls| > |s.cl.calls|
             && Inv(cfg, Step(cfg, s, e).s)
    ensures Step(cfg, s, e).s.cl.holds == 0
  {
    hide C.RunInternal; hide Segment; hide R.RunStep; hide R.Alternate; hide Q.Inv; hide Q.Step; hide C.Check;
    var a := match e
      case Run(close) => Answers(s, close)
      case OpenDone(_, close) => Answers(s.(login := NoLogin), close)
      case CloseDone(_) => Answers(s, 0)
      case BeatDone(close) => Answers(s.(beat := NoBeat), close)
      case _ => Answers(s, 0);
    match e
    case Run(_) => SegmentCalls(cfg, s, R.DoRun(a), 0, a);
    case OpenDone(result, _) => SegmentCalls(cfg, s.(login := NoLogin), R.DoDone(result, a), result, a);
    case CloseDone(result) => SegmentCalls(cfg, s, R.DoDone(result, a), result, a);
    case BeatDone(_) =>
      var result := if s.beat.Refused? then -Q.EINTR else s.beat.result;
      SegmentCalls(cfg, s.(beat := NoBeat), R.DoDone(result, a), result, a);
    case _ => assert false by { OtherCalls(cfg, s, e); }
  }

  lemma OtherCalls(cfg: C.Config, s: State, e: Event)
    requires !(e.Run? || e.OpenDone? || e.CloseDone? || e.BeatDone?) && Step(cfg, s, e).Next?
    ensures Step(cfg, s, e).s.cl.calls == s.cl.calls
  {
    hide C.RunInternal; hide R.RunStep; hide Q.Step; hide C.Check;
  }

  /** A reader still executes: it runs, or it has failed and not yet ended the queue. */
  predicate Executes(s: State) { s.reader.Some? || s.late != [] }

  /**
    When an event calls open or close, every hold is back, and the queue is empty,
    refuses posts and has no worker. No reader executes then if and only if none
    that has failed is late in ending the queue.
   */
  lemma NoOverlap(cfg: C.Config, s: State, e: Event)
    requires IsMqtt(cfg) && Reachable(cfg, s) && Step(cfg, s, e).Next?
    requires |Step(cfg, s, e).s.cl.calls| > |s.cl.calls|
    ensures var n := Step(cfg, s, e).s;
            && n.cl.holds == 0 && !n.q.postEnd && n.q.queue == [] && n.q.worker.Idle? && n.q.abort
            && (!Executes(n) <==> n.late == [])
  {
    hide R.Inv; hide Step; hide Q.Inv;
    ReachableInv(cfg, s);
    StepKeeps(cfg, s, e);
    NothingHeld(cfg, s, e);
    NoPostsNoQueue(Step(cfg, s, e).s.q);
  }

  // ----- a reader's last act comes after its hold is gone -----

  /** The last act of the k-th late reader changes the queue, or gives back the hold, of another login's session. */
  predicate HitsOther(cfg: C.Config, s: State, k: nat) {
    k < |s.late| && s.late[k] != s.queueOf &&
    match Step(cfg, s, ReaderEnds(k)) case Next(n) => n.q != s.q || n.cl.holds != s.cl.holds case _ => false
  }

  lemma EndDoesNothing(q: Q.Queue)
    ensures Q.StepEnd(q) == q <==> q.abort && !(q.postEnd && q.queue == [])
  {
  }

  lemma HitsAre(cfg: C.Config, s: State, k: nat)
    requires Inv(cfg, s) && k < |s.late|
    ensures HitsOther(cfg, s, k) <==> s.late[k] < s.queueOf && Q.StepEnd(s.q) != s.q
  {
    EndOfQueue(s.q);
    hide R.Alternate; hide R.RunStep; hide Q.Inv; hide Q.StepEnd; hide Moved;
    var t := s.(late := Q.Without(s.late, k));
    MovedKeeps(cfg, t, Q.StepEnd(s.q));
    MovedTo(cfg, t, Q.StepEnd(s.q));
  }

  lemma MovedTo(cfg: C.Config, s: State, q: Q.Queue)
    requires Moved(cfg, s, q).Next?
    ensures var n := Moved(cfg, s, q).s; n.q == q && n.cl.holds == s.cl.holds - (if q.ends == s.q.ends then 0 else 1)
  {
    hide R.RunStep; hide C.Check;
  }

  /**
    In every state a late reader hits another session if and only if a later login
    has begun the queue and the queue is not ended yet.
   */
  lemma LateEndIsExact(cfg: C.Config, s: State, k: nat)
    requires IsMqtt(cfg) && Reachable(cfg, s) && k < |s.late|
    ensures HitsOther(cfg, s, k) <==> s.late[k] < s.queueOf && (!s.q.abort || (s.q.postEnd && s.q.queue == []))
  {
    hide Inv; hide Step; hide HitsOther; hide Q.StepEnd;
    ReachableInv(cfg, s);
    HitsAre(cfg, s, k);
    EndDoesNothing(s.q);
  }

  /** All late readers are of the login that began the queue last. */
  predicate OnTime(s: State) { forall k :: 0 <= k < |s.late| ==> s.late[k] == s.queueOf }

  lemma OnTimeStays(cfg: C.Config, s: State, e: Event)
    requires IsMqtt(cfg) && Inv(cfg, s) && OnTime(s) && Step(cfg, s, e).Next? && (e.BeginQueue? ==> s.late == [])
    ensures OnTime(Step(cfg, s, e).s)
  {
    hide C.RunInternal; hide R.Inv; hide Q.Inv; hide R.RunStep; hide Q.Step; hide C.Check; hide Q.StepEnd;
    hide Q.StepPost;
  }

  lemma BeginHits(cfg: C.Config, s: State)
    requires Inv(cfg, s) && Step(cfg, s, BeginQueue).Next? && s.late != []
    ensures HitsOther(cfg, Step(cfg, s, BeginQueue).s, 0)
  {
    var n := Step(cfg, s, BeginQueue).s;
    LoginKeeps(cfg, s, BeginQueue);
    hide R.Inv; hide Q.Inv; hide HitsOther;
    HitsAre(cfg, n, 0);
    EndDoesNothing(n.q);
  }

  lemma StepAt(cfg: C.Config, states: seq<State>, events: seq<Event>, i: nat)
    requires IsRun(cfg, states, events) && i < |events|
    ensures Step(cfg, states[i], events[i]) == Next(states[i + 1])
  {
    hide Step;
  }

  lemma StartsOnTime(cfg: C.Config)
    ensures Inv(cfg, Start()) && OnTime(Start())
  {
    StartIsOk(cfg);
    hide Inv;
  }

  lemma {:induction false} RunInvAt(cfg: C.Config, states: seq<State>, events: seq<Event>, j: nat)
    requires IsMqtt(cfg) && IsRun(cfg, states, events) && j <= |events|
    ensures Inv(cfg, states[j])
  {
    hide Step; hide Inv;
    if j == 0 {
      StartIsOk(cfg);
    } else {
      RunInvAt(cfg, states, events, j - 1);
      StepAt(cfg, states, events, j - 1);
      StepKeeps(cfg, states[j - 1], events[j - 1]);
    }
  }

  lemma {:induction false} RunOnTime(cfg: C.Config, states: seq<State>, events: seq<Event>, j: nat)
    requires IsMqtt(cfg) && |states| == |events| + 1 && IsRun(cfg, states, events) && j <= |events|
    requires !BeginsLate(states, events)
    ensures OnTime(states[j])
  {
    if j == 0 {
      StartsOnTime(cfg);
    } else {
      assert events[j - 1].BeginQueue? ==> states[j - 1].late == [];
      hide Step; hide Inv; hide OnTime; hide IsRun; hide BeginsLate;
      RunOnTime(cfg, states, events, j - 1);
      RunInvAt(cfg, states, events, j - 1);
      StepAt(cfg, states, events, j - 1);
      OnTimeStays(cfg, states[j - 1], events[j - 1]);
    }
  }

  /** Some state of a run lets a late reader hit another session. */
  ghost predicate CanHit(cfg: C.Config, states: seq<State>) {
    exists j, k: nat :: 0 <= j < |states| && HitsOther(cfg, states[j], k)
  }

  /** Some login of a run begins the queue while a reader is late. */
  predicate BeginsLate(states: seq<State>, events: seq<Event>)
    requires |states| == |events| + 1
  {
    exists i :: 0 <= i < |events| && events[i].BeginQueue? && states[i].late != []
  }

  /**
    A run can hit another session if and only if a login of it began the queue
    while a failed reader had still to end it. Reconnecting is safe exactly when
    it waits for that.
   */
  lemma HitsExactlyAfterLateBegin(cfg: C.Config, states: seq<State>, events: seq<Event>)
    requires IsMqtt(cfg) && IsRun(cfg, states, events)
    ensures CanHit(cfg, states) <==> BeginsLate(states, events)
  {
    hide Step; hide Inv; hide HitsOther;
    if BeginsLate(states, events) {
      var i :| 0 <= i < |events| && events[i].BeginQueue? && states[i].late != [];
      RunInvAt(cfg, states, events, i);
      assert Step(cfg, states[i], events[i]) == Next(states[i + 1]);
      BeginHits(cfg, states[i]);
      assert HitsOther(cfg, states[i + 1], 0);
    } else {
      forall j, k: nat | 0 <= j < |states| ensures !HitsOther(cfg, states[j], k) {
        RunOnTime(cfg, states, events, j);
        NoHitOnTime(cfg, states[j], k);
      }
    }
  }

  lemma NoHitOnTime(cfg: C.Config, s: State, k: nat)
    requires OnTime(s)
    ensures !HitsOther(cfg, s, k)
  {
  }

  lemma ReachNext(cfg: C.Config, s: State, e: Event, n: State)
    requires Reachable(cfg, s) && Step(cfg, s, e) == Next(n)
    ensures Reachable(cfg, n)
  {
    hide Step;
    var states, events :| IsRun(cfg, states, events) && states[|events|] == s;
    var ss, es := states + [n], events + [e];
    forall i | 0 <= i < |es| ensures Step(cfg, ss[i], es[i]) == Next(ss[i + 1]) {
      if i < |events| {
        assert Step(cfg, states[i], events[i]) == Next(states[i + 1]);
      }
    }
    assert IsRun(cfg, ss, es) && ss[|es|] == n;
  }

  function Options(): C.Config { C.Config(true, true, false, true, true) }

  /** At rest: not open, nothing held, nothing under way. */
  predicate AtRest(s: State) {
    && s.cl.c == C.Client(C.Invalid, s.cl.c.mainAbort, s.cl.c.heart, s.cl.c.lastOpened, 0)
    && s.cl.token == R.Free && s.cl.aborts == 0 && s.cl.holds == 0 && s.login == NoLogin && s.reader.None?
       && s.beat == NoBeat && s.listed
    && s.q == Q.Queue(true, [], false, Q.Idle, [], 0, [], [], s.q.begins, s.q.ends)
  }

  /** Open: logged in, the reader running, the queue taking posts. */
  predicate InSession(s: State) {
    && s.cl.c == C.Client(C.Opened, false, C.HeartNone, true, 2)
    && s.cl.token == R.Free && s.cl.aborts == 0 && s.cl.holds == 2 && s.login == NoLogin && s.reader.Some?
       && s.beat == NoBeat && s.listed
    && s.q == Q.Queue(false, [], true, Q.Idle, [], 0, [], [], s.q.begins, s.q.ends)
  }

  /** open has been called and has still to finish; the login has begun the queue or not. */
  predicate InOpening(s: State, login: Login) {
    && s.cl.c == C.Client(C.Opening, false, C.HeartChecking, s.cl.c.lastOpened, if login == NoLogin then 1 else 3)
    && s.cl.token == R.Waits(C.InOpen) && s.cl.aborts == 0 && s.cl.holds == (if login == NoLogin then 0 else 2)
    && s.login == login && s.reader.None? && s.beat == NoBeat && s.listed
    && s.q == Q.Queue(login == NoLogin, [], login != NoLogin, Q.Idle, [], 0, [], [], s.q.begins, s.q.ends)
  }

  lemma OpenCalled(s: State) returns (n: State)
    requires AtRest(s) && Reachable(Options(), s)
    ensures InOpening(n, NoLogin) && Reachable(Options(), n) && n.late == s.late
  {
    hide Reachable;
    var cfg := Options();
    var checked := Step(cfg, s, Check(C.Due(true, true, true))).s;
    ReachNext(cfg, s, Check(C.Due(true, true, true)), checked);
    n := Step(cfg, checked, Run(1)).s;
    ReachNext(cfg, checked, Run(1), n);
  }

  lemma LoginBegun(s: State) returns (n: State)
    requires InOpening(s, NoLogin) && Reachable(Options(), s)
    ensures InOpening(n, Begun) && Reachable(Options(), n) && n.late == s.late
  {
    hide Reachable; hide R.RunStep; hide C.Check;
    var cfg := Options();
    var held := Step(cfg, s, TakeHolds).s;
    ReachNext(cfg, s, TakeHolds, held);
    n := Step(cfg, held, BeginQueue).s;
    ReachNext(cfg, held, BeginQueue, n);
  }

  lemma SessionOpens(s: State) returns (n: State)
    requires AtRest(s) && Reachable(Options(), s)
    ensures InSession(n) && Reachable(Options(), n) && n.late == s.late
  {
    hide Reachable; hide AtRest;
    var cfg := Options();
    var opening := OpenCalled(s);
    var begun := LoginBegun(opening);
    var started := Step(cfg, begun, StartReader).s;
    ReachNext(cfg, begun, StartReader, started);
    n := Step(cfg, started, OpenDone(1, 1)).s;
    ReachNext(cfg, started, OpenDone(1, 1), n);
  }

  /** The check finds the session silent for too long: client_abort ends the queue, and the reader fails. */
  lemma SessionAborted(s: State) returns (n: State)
    requires InSession(s) && Reachable(Options(), s)
    ensures n.cl.c == C.Client(C.Opened, true, C.HeartNone, true, 0) && n.cl.token == R.Free && n.cl.aborts == 0
            && n.cl.holds == 0
    ensures n.listed && n.login == NoLogin && n.reader.None? && n.beat == NoBeat && Reachable(Options(), n)
            && n.late == s.late + [s.reader.value]
    ensures n.q == Q.Queue(true, [], false, Q.Idle, [], 0, [], [], n.q.begins, n.q.ends)
  {
    hide Reachable; hide R.OpensAndCloses;
    var cfg, silent := Options(), Check(C.Due(false, true, false));
    var checked := Step(cfg, s, silent).s;
    ReachNext(cfg, s, silent, checked);
    var aborted := Step(cfg, checked, AbortToken).s;
    ReachNext(cfg, checked, AbortToken, aborted);
    n := Step(cfg, aborted, ReaderFails).s;
    ReachNext(cfg, aborted, ReaderFails, n);
  }

  lemma SessionFails(s: State) returns (n: State)
    requires InSession(s) && Reachable(Options(), s)
    ensures AtRest(n) && Reachable(Options(), n) && n.late == s.late + [s.reader.value]
  {
    var cfg, due := Options(), Check(C.Due(true, false, true));
    hide Reachable; hide R.OpensAndCloses; hide InSession;
    var failed := SessionAborted(s);
    var closing := Step(cfg, failed, due).s;
    ReachNext(cfg, failed, due, closing);
    var waiting := Step(cfg, closing, Run(0)).s;
    ReachNext(cfg, closing, Run(0), waiting);
    var closed := Step(cfg, waiting, CloseDone(1)).s;
    ReachNext(cfg, waiting, CloseDone(1), closed);
    n := Step(cfg, closed, due).s;
    ReachNext(cfg, closed, due, n);
  }

  /**
    A failed reader gives its hold back before it ends the queue. If that last
    act is late it falls on the next session: there is a run in which it aborts
    the queue of a session that is open, and gives back that session's hold,
    while that session's reader still runs.
   */
  lemma LateEndHitsNextSession() returns (s: State, n: State)
    ensures Reachable(Options(), s) && HitsOther(Options(), s, 0) && Step(Options(), s, ReaderEnds(0)) == Next(n)
    ensures s.cl.c.Valid() && s.reader.Some? && !s.q.abort && s.q.postEnd
    ensures n.reader.Some? && n.q.abort && !n.q.postEnd && n.cl.holds == 1
  {
    var cfg := Options();
    var start := Start();
    var none: seq<Event> := [];
    assert IsRun(cfg, [start], none) && [start][|none|] == start;
    var first := SessionOpens(start);
    var rest := SessionFails(first);
    s := SessionOpens(rest);
    ReachableInv(cfg, s);
    LateEndIsExact(cfg, s, 0);
    n := Step(cfg, s, ReaderEnds(0)).s;
  }
}
