module ClientRuns {
  import opened ClientSystem

  // Every run of the client system: its checks, the segments of its runs, its aborts, and the
  // holds others take.

  /** Where the run token is: nobody has it, it has been issued, or it waits for a callback to finish. */
  datatype Token = Free | Issued | Waits(stop: Stop)

  /** The component, with a record of its tokens, the holds of others, and the calls of open and close so far. */
  datatype State = State(c: Client, token: Token, aborts: nat, holds: nat, calls: seq<Call>)

  datatype Event =
    | DoCheck(due: Due)
    | DoRun(a: Answers)
    | DoDone(result: int, a: Answers)
    | DoAbort(drops: nat)
    | Acquire
    | AcquireInOpen
    | Release
    | SetAbort

  /** The outcome of an event: it cannot happen now, an assert of the code fails, or the next state. */
  datatype Outcome = Disabled | Fault | Next(state: State)

  function Start(): State { State(NewClient(), Free, 0, 0, []) }

  /** The calls of open and close among some calls. */
  function OpensAndCloses(calls: seq<Call>): seq<Call> {
    if calls == [] then []
    else OpensAndCloses(calls[..|calls| - 1]) + var k := calls[|calls| - 1]; if k.Open? || k.Close? then [k] else []
  }

  /** One segment of the run: open may take holds, and abort may drop them. */
  function RunStep(cfg: Config, s: State, result: int, a: Answers): Outcome {
    var seg := RunInternal(cfg, s.c, result, a);
    var holds := s.holds + (if Open in seg.calls then a.openHolds else 0) - (if Abort in seg.calls then a.abortDrops
        else 0);
    if !seg.asserts then Fault
    else if holds < 0 then Disabled
    else Next(State(seg.c, if seg.stop == Over then Free
        else Waits(seg.stop), s.aborts, holds, s.calls + OpensAndCloses(seg.calls)))
  }

  function Step(cfg: Config, s: State, e: Event): Outcome {
    match e
    case DoCheck(due) =>
      var r := Check(cfg, s.c, due);
      var t := s.(c := r.c);
      (match r.verdict
       case Nothing => Next(t)
       case AbortToken => Next(t.(aborts := s.aborts + 1))
       case RunToken => if s.token.Free? then Next(t.(token := Issued)) else Fault)
    case DoRun(a) => if s.token.Issued? then RunStep(cfg, s, 0, a) else Disabled
    case DoDone(result, a) =>
      if !s.token.Waits? then Disabled
      else if (s.c.status == Invalid || s.c.status == Closing) && result != 0 then Fault
      else RunStep(cfg, s, result, a)
    case DoAbort(drops) =>
      if s.aborts == 0 || drops > s.holds then Disabled
      else Next(s.(c := s.c.Use(0 - drops).Use(-1), aborts := s.aborts - 1, holds := s.holds - drops))
    case Acquire => if s.c.Valid() then Next(s.(c := s.c.Use(1), holds := s.holds + 1)) else Disabled
    case AcquireInOpen => if s.token == Waits(InOpen) then Next(s.(c := s.c.Use(1), holds := s.holds + 1)) else Disabled
    case Release => if s.holds > 0 then Next(s.(c := s.c.Use(-1), holds := s.holds - 1)) else Disabled
    case SetAbort => Next(s.(c := s.c.(mainAbort := true)))
  }

  // ----- the invariant -----

  function Busy(s: State): int { (if s.token.Free? then 0 else 1) + s.aborts + s.holds }

  /** Between an open and its close. */
  predicate InUse(c: Client) { c.status == Opening || c.status == Opened || c.status == Closing }

  /** open and close alternate, beginning with open; `last` says whether an open is still to be closed. */
  predicate Alternate(calls: seq<Call>) {
    forall i :: 0 <= i < |calls| ==> calls[i] == if i % 2 == 0 then Open else Close
  }

  predicate TokenFits(cfg: Config, c: Client, t: Token) {
    match t
    case Free => c.status != Opening && (c.status == Opened ==> c.heart.HeartNone?)
    case Issued => c.status != Opening && (c.status == Opened ==> c.heart.HeartChecking? && cfg.hasHeart)
    case Waits(stop) =>
      match stop
      case Over => false
      case InOpen => c.status == Opening
      case InHeart => c.status == Opened && c.heart.HeartCheckDone?
      case InClose => c.status == Closed
  }

  predicate Inv(cfg: Config, s: State) {
    && s.c.busy == Busy(s)
    && TokenFits(cfg, s.c, s.token)
    && (s.holds > 0 ==> InUse(s.c) && (s.c.status == Closing ==> s.token.Free?))
    && Alternate(s.calls) && (InUse(s.c) <==> |s.calls| % 2 == 1)
  }

  lemma CheckKeeps(cfg: Config, s: State, due: Due)
    requires Inv(cfg, s)
    ensures var o := Step(cfg, s, DoCheck(due)); o.Next? && Inv(cfg, o.state)
  {
  }

  function TokenAfter(stop: Stop): Token { if stop == Over then Free else Waits(stop) }

  /** What a segment has done with the count and the status. */
  predicate Fits(cfg: Config, c: Client, a: Answers, s: Segment) {
    && s.asserts && TokenFits(cfg, s.c, TokenAfter(s.stop))
    && s.c.busy == c.busy + (if Open in s.calls then a.openHolds else 0) - (if Abort in s.calls then a.abortDrops
       else 0) - (if s.stop == Over then 1 else 0)
    && (s.c.status == Opening || s.c.status == Opened || s.c.status == Closing || s.c.status == Closed)
    && (s.c.status == Closing ==> s.stop == Over)
  }

  lemma ClosingFits(cfg: Config, c: Client, a: Answers)
    ensures var s := AtClosing(c, a); Fits(cfg, c, a, s) && s.c.status == Closed && s.calls == [Close]
  {
  }

  /** What the end of a segment from Opening or Opened looks like. */
  predicate Ends(cfg: Config, c: Client, a: Answers, s: Segment) {
    && Fits(cfg, c, a, s) && Open !in s.calls && s.c.status != Opening
    && OpensAndCloses(s.calls) == (if s.c.status == Closed then [Close] else [])
    && (s.c.status == Closed ==> c.busy - (if Abort in s.calls then a.abortDrops else 0) == 1)
  }

  lemma FailedFits(cfg: Config, c: Client, a: Answers)
    ensures Ends(cfg, c, a, Failed(cfg, c, a)) && Beat !in Failed(cfg, c, a).calls
  {
    hide OpensAndCloses;
    Filtered();
    var d := (if cfg.hasAbort then c.Use(0 - a.abortDrops) else c).(mainAbort := true, status := Closing);
    var s := Failed(cfg, c, a);
    ClosingFits(cfg, d, a);
    if d.busy == 1 {
      assert s.calls == if cfg.hasAbort then [Abort, Close] else [Close];
    } else {
      assert s.calls == if cfg.hasAbort then [Abort] else [];
    }
  }

  lemma {:induction false} FilterJoin(x: seq<Call>, y: seq<Call>)
    ensures OpensAndCloses(x + y) == OpensAndCloses(x) + OpensAndCloses(y)
  {
    if y == [] {
      assert x + y == x;
    } else {
      FilterJoin(x, y[..|y| - 1]);
      assert (x + y)[..|x + y| - 1] == x + y[..|y| - 1];
    }
  }

  lemma BeatFits(cfg: Config, c: Client, a: Answers, s: Segment)
    requires Ends(cfg, c, a, s)
    ensures Ends(cfg, c, a, After([Beat], true, s))
  {
    hide TokenFits; hide OpensAndCloses;
    FilterJoin([Beat], s.calls);
    Filtered();
  }

  lemma OpenedFits(cfg: Config, c: Client, result: int, a: Answers)
    requires c.status == Opening || c.status == Opened
    requires result >= 0 ==> c.status == Opened && (c.heart.HeartCheckDone? || (c.heart.HeartChecking? && cfg.hasHeart))
    ensures Ends(cfg, c, a, AtOpened(cfg, c, result, a))
  {
    hide Failed; hide OpensAndCloses;
    var d := c.(heart := HeartCheckDone);
    if result < 0 {
      FailedFits(cfg, c, a);
    } else if c.heart.HeartChecking? && a.heart < 0 {
      FailedFits(cfg, d, a);
      BeatFits(cfg, d, a, Failed(cfg, d, a));
    } else {
      Filtered();
      assert [Beat] + [] == [Beat];
    }
  }

  lemma OpeningFits(cfg: Config, c: Client, result: int, a: Answers)
    requires c.status == Opening
    ensures Ends(cfg, c, a, AtOpening(cfg, c, result, a))
  {
    hide AtOpened; hide Ends;
    if result < 0 {
      OpenedFits(cfg, c, result, a);
    } else if cfg.openHeart && cfg.hasHeart {
      OpenedFits(cfg, c.(status := Opened, lastOpened := true, heart := HeartChecking), result, a);
      EndsFrom(cfg, c.(status := Opened, lastOpened := true, heart := HeartChecking), c, a,
          AtOpening(cfg, c, result, a));
    } else {
      EndsOver(cfg, c, a);
    }
  }

  lemma EndsOver(cfg: Config, c: Client, a: Answers)
    ensures Ends(cfg, c, a, Finish(c.(status := Opened, lastOpened := true, heart := HeartNone)))
  {
    Filtered();
  }

  lemma EndsFrom(cfg: Config, c: Client, d: Client, a: Answers, s: Segment)
    requires Ends(cfg, c, a, s) && c.busy == d.busy
    ensures Ends(cfg, d, a, s)
  {
    hide TokenFits;
  }

  /** The lists of callbacks that segments call. */
  lemma Filtered()
    ensures OpensAndCloses([]) == [] && OpensAndCloses([Close]) == [Close] && OpensAndCloses([Open]) == [Open]
    ensures OpensAndCloses([Beat]) == [] && OpensAndCloses([Abort]) == [] && OpensAndCloses([Beat, Abort]) == []
    ensures OpensAndCloses([Abort, Close]) == [Close] && OpensAndCloses([Beat, Abort, Close]) == [Close]
            && OpensAndCloses([Beat, Close]) == [Close]
  {
    assert [Abort, Close][..1] == [Abort];
    assert [Beat, Abort][..1] == [Beat];
    assert [Beat, Close][..1] == [Beat];
    assert [Beat, Abort, Close][..2] == [Beat, Abort];
  }

  // ----- steps keep the invariant -----

  lemma AlternateGrows(calls: seq<Call>, more: seq<Call>)
    requires Alternate(calls)
    requires more == [] || (more == [Open] && |calls| % 2 == 0) || (more == [Close] && |calls| % 2 == 1)
             || (more == [Open, Close] && |calls| % 2 == 0)
    ensures Alternate(calls + more)
  {
  }

  /** A segment that continues an open component. */
  lemma ContinuesKeeps(cfg: Config, s: State, result: int, a: Answers)
    requires Inv(cfg, s) && !s.token.Free? && (s.c.status == Opening || s.c.status == Opened)
    ensures var o := RunStep(cfg, s, result, a); !o.Fault? && (o.Next? ==> Inv(cfg, o.state))
  {
    hide AtOpening; hide AtOpened; hide OpensAndCloses; hide Alternate;
    if s.c.status == Opening {
      OpeningFits(cfg, s.c, result, a);
    } else {
      OpenedFits(cfg, s.c, result, a);
    }
    var seg := RunInternal(cfg, s.c, result, a);
    AlternateGrows(s.calls, OpensAndCloses(seg.calls));
  }

  /** A segment that opens the component. */
  lemma OpensKeeps(cfg: Config, s: State, a: Answers)
    requires Inv(cfg, s) && s.token.Issued? && s.c.status == Invalid
    ensures var o := RunStep(cfg, s, 0, a); !o.Fault? && (o.Next? ==> Inv(cfg, o.state))
  {
    hide AtOpening; hide OpensAndCloses; hide Alternate;
    var d := s.c.(status := Opening).Use(a.openHolds);
    var seg := RunInternal(cfg, s.c, 0, a);
    Filtered();
    if a.open != 0 {
      OpeningFits(cfg, d, a.open, a);
      FilterJoin([Open], AtOpening(cfg, d, a.open, a).calls);
    }
    AlternateGrows(s.calls, OpensAndCloses(seg.calls));
  }

  /** A segment that closes the component, or has closed it. */
  lemma ClosesKeeps(cfg: Config, s: State, result: int, a: Answers)
    requires Inv(cfg, s) && !s.token.Free? && (s.c.status == Closing || s.c.status == Closed)
    ensures var o := RunStep(cfg, s, result, a); !o.Fault? && (o.Next? ==> Inv(cfg, o.state))
  {
    hide Alternate; hide OpensAndCloses;
    Filtered();
    AlternateGrows(s.calls, OpensAndCloses(RunInternal(cfg, s.c, result, a).calls));
  }

  lemma RunKeeps(cfg: Config, s: State, result: int, a: Answers)
    requires Inv(cfg, s) && !s.token.Free? && (s.c.status == Invalid ==> s.token.Issued? && result == 0)
    ensures var o := RunStep(cfg, s, result, a); !o.Fault? && (o.Next? ==> Inv(cfg, o.state))
  {
    hide RunStep; hide Alternate;
    match s.c.status
    case Invalid => OpensKeeps(cfg, s, a);
    case Opening => ContinuesKeeps(cfg, s, result, a);
    case Opened => ContinuesKeeps(cfg, s, result, a);
    case Closing => ClosesKeeps(cfg, s, result, a);
    case Closed => ClosesKeeps(cfg, s, result, a);
  }

  lemma StepKeeps(cfg: Config, s: State, e: Event)
    requires Inv(cfg, s)
    ensures var o := Step(cfg, s, e); !o.Fault? && (o.Next? ==> Inv(cfg, o.state))
  {
    hide RunStep; hide Alternate;
    match e
    case DoCheck(due) => CheckKeeps(cfg, s, due);
    case DoRun(a) => if s.token.Issued? { RunKeeps(cfg, s, 0, a); }
    case DoDone(result, a) => if s.token.Waits? { RunKeeps(cfg, s, result, a); }
    case _ =>
  }

  // ----- runs -----

  /** A run: states that follow one another by events that can happen. */
  predicate IsRun(cfg: Config, states: seq<State>, events: seq<Event>) {
    && |states| == |events| + 1 && states[0] == Start()
    && forall i :: 0 <= i < |events| ==> Step(cfg, states[i], events[i]) == Next(states[i + 1])
  }

  ghost predicate Reachable(cfg: Config, s: State) {
    exists states, events :: IsRun(cfg, states, events) && states[|events|] == s
  }

  lemma {:induction false} RunInv(cfg: Config, states: seq<State>, events: seq<Event>)
    requires IsRun(cfg, states, events)
    ensures Inv(cfg, states[|events|])
    decreases |events|
  {
    hide Step; hide Inv;
    if events == [] {
      StartIsOk(cfg);
    } else {
      var k := |events| - 1;
      assert IsRun(cfg, states[..k + 1], events[..k]) by {
        forall i | 0 <= i < k ensures Step(cfg, states[..k + 1][i], events[..k][i]) == Next(states[..k + 1][i + 1]) {
          assert Step(cfg, states[i], events[i]) == Next(states[i + 1]);
        }
      }
      RunInv(cfg, states[..k + 1], events[..k]);
      StepKeeps(cfg, states[k], events[k]);
    }
  }

  lemma StartIsOk(cfg: Config)
    ensures Inv(cfg, Start())
  {
  }

  lemma ReachableInv(cfg: Config, s: State)
    requires Reachable(cfg, s)
    ensures Inv(cfg, s)
  {
    hide Step; hide Inv;
    var states, events :| IsRun(cfg, states, events) && states[|events|] == s;
    RunInv(cfg, states, events);
  }

  // ----- what every run keeps -----

  /**
    In every run no assert fails and no second run token is issued: a check that
    grants one finds it free. The busy count is the tokens and the holds.
   */
  lemma OneToken(cfg: Config, s: State, e: Event)
    requires Reachable(cfg, s)
    ensures !Step(cfg, s, e).Fault?
    ensures s.c.busy == (if s.token.Free? then 0 else 1) + s.aborts + s.holds
    ensures e.DoCheck? && Check(cfg, s.c, e.due).verdict.RunToken? ==> s.token.Free?
  {
    ReachableInv(cfg, s);
    StepKeeps(cfg, s, e);
  }

  /** open and close are called in strict alternation, beginning with open. */
  lemma OpensAndClosesAlternate(cfg: Config, s: State)
    requires Reachable(cfg, s)
    ensures Alternate(s.calls)
    ensures InUse(s.c) <==> |s.calls| % 2 == 1
  {
    ReachableInv(cfg, s);
  }

  lemma {:induction false} FilterKeeps(calls: seq<Call>, k: Call)
    requires k in calls && (k.Open? || k.Close?)
    ensures k in OpensAndCloses(calls)
  {
    if calls[|calls| - 1] != k {
      FilterKeeps(calls[..|calls| - 1], k);
    }
  }

  /** Whenever an event calls close, no hold is live; and none is taken until the next open. */
  lemma ClosesAlone(cfg: Config, s: State, e: Event)
    requires Reachable(cfg, s) && (e.DoRun? || e.DoDone?) && Step(cfg, s, e).Next?
    requires Close in RunInternal(cfg, s.c, if e.DoRun? then 0 else e.result, e.a).calls
    ensures Step(cfg, s, e).state.holds == 0
  {
    hide AtOpening; hide AtOpened; hide OpensAndCloses; hide Alternate;
    ReachableInv(cfg, s);
    var result := if e.DoRun? then 0 else e.result;
    var d := s.c.(status := Opening).Use(e.a.openHolds);
    if s.c.status == Opening {
      OpeningFits(cfg, s.c, result, e.a);
    } else if s.c.status == Opened {
      OpenedFits(cfg, s.c, result, e.a);
    } else if s.c.status == Invalid {
      OpeningFits(cfg, d, e.a.open, e.a);
      FilterJoin([Open], AtOpening(cfg, d, e.a.open, e.a).calls);
    }
    Filtered();
    FilterKeeps(RunInternal(cfg, s.c, result, e.a).calls, Close);
    StepKeeps(cfg, s, e);
  }

  /** A component that is not in use has no hold. */
  lemma NoHoldUnlessInUse(cfg: Config, s: State)
    requires Reachable(cfg, s) && s.holds > 0
    ensures InUse(s.c)
    ensures s.c.status == Closing ==> s.token.Free?
  {
    ReachableInv(cfg, s);
  }
}
