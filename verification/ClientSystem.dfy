/** The client system: a component that is opened, kept alive by heartbeats, aborted and closed. */
module ClientSystem {
  // It works under a busy count and a single run token. Each call of the check and each
  // segment of the run between two asynchronous calls is one step.

  datatype Status = Invalid | Opening | Opened | Closing | Closed

  datatype Heart = HeartNone | HeartChecking | HeartCheckDone

  /** The options of a component that steer the system. */
  datatype Config = Config(hasHeart: bool, hasAbort: bool, openHeart: bool, autoReopen: bool, autoRemove: bool)

  /** The fields of a component. */
  datatype Client = Client(status: Status, mainAbort: bool, heart: Heart, lastOpened: bool, busy: int) {
    predicate Valid() { status.Opened? && !mainAbort }

    function Use(n: int): Client { this.(busy := busy + n) }
  }

  function NewClient(): Client { Client(Invalid, false, HeartNone, false, 0) }

  // ----- the check -----

  /** Which of the time limits have passed since the component's tick. */
  datatype Due = Due(reopen: bool, abort: bool, heart: bool)

  datatype Verdict = Nothing | RunToken | AbortToken

  datatype Checked = Checked(c: Client, verdict: Verdict)

  function Granted(c: Client): Checked { Checked(c.Use(1), RunToken) }

  function Aborted(cfg: Config, c: Client): Checked {
    var d := c.(mainAbort := true);
    if cfg.hasAbort then Checked(d.Use(1), AbortToken) else Checked(d, Nothing)
  }

  function Waiting(c: Client): Checked { Checked(c, Nothing) }

  /** check_one */
  function Check(cfg: Config, c: Client, due: Due): Checked {
    match c.status
    case Invalid =>
      if c.busy != 0 || !due.reopen then Waiting(c) else Granted(c.(mainAbort := false, heart := HeartChecking))
    case Opening => if due.abort then Aborted(cfg, c) else Waiting(c)
    case Opened =>
      if due.abort then Aborted(cfg, c)
      else if c.mainAbort then (if c.busy != 0 then Waiting(c) else Granted(c.(status := Closing)))
      else if !due.heart || !cfg.hasHeart || !c.heart.HeartNone? then Waiting(c)
      else Granted(c.(heart := HeartChecking))
    case Closing =>
      if c.busy == 0 then Granted(c) else if due.abort then Aborted(cfg, c) else Waiting(c)
    case Closed =>
      if c.busy != 0 then Waiting(c)
      else if !cfg.autoReopen then (if cfg.autoRemove then Granted(c) else Waiting(c))
      else Waiting(c.(status := Invalid, mainAbort := false))
  }

  // ----- the run -----

  /** What the callbacks answer, should they be called, and how they change the holds meanwhile. */
  datatype Answers = Answers(open: int, openHolds: nat, heart: int, abortDrops: nat, close: int)

  /** A call of one of the component's callbacks. */
  datatype Call = Open | Beat | Abort | Close

  /** Where a segment stops: the run is over, or a callback answered that it will finish later. */
  datatype Stop = Over | InOpen | InHeart | InClose

  /** The end of a segment: the component, where it stopped, the callbacks it called, and whether its asserts held. */
  datatype Segment = Segment(c: Client, stop: Stop, calls: seq<Call>, asserts: bool)

  function Finish(c: Client): Segment { Segment(c.Use(-1), Over, [], true) }

  function AtClosed(c: Client): Segment { Finish(c.(lastOpened := false)) }

  function AtClosing(c: Client, a: Answers): Segment {
    var d := c.(status := Closed);
    if a.close == 0 then Segment(d, InClose, [Close], true) else AtClosed(d).(calls := [Close])
  }

  function Failed(cfg: Config, c: Client, a: Answers): Segment {
    var d := (if cfg.hasAbort then c.Use(0 - a.abortDrops) else c).(mainAbort := true, status := Closing);
    After(if cfg.hasAbort then [Abort] else [], true, if d.busy != 1 then Finish(d) else AtClosing(d, a))
  }

  /** A segment after what earlier labels of the switch have done. */
  function After(calls: seq<Call>, asserts: bool, s: Segment): Segment {
    s.(calls := calls + s.calls, asserts := asserts && s.asserts)
  }

  function AtOpened(cfg: Config, c: Client, result: int, a: Answers): Segment {
    if result < 0 then Failed(cfg, c, a)
    else if c.heart.HeartChecking? then
      var d := c.(heart := HeartCheckDone);
      if a.heart == 0 then Segment(d, InHeart, [Beat], cfg.hasHeart)
      else After([Beat], cfg.hasHeart, if a.heart > 0 then Finish(d.(heart := HeartNone)) else Failed(cfg, d, a))
    else Finish(c.(heart := HeartNone)).(asserts := c.heart.HeartCheckDone?)
  }

  function AtOpening(cfg: Config, c: Client, result: int, a: Answers): Segment {
    if result < 0 then AtOpened(cfg, c, result, a)
    else
      var d := c.(status := Opened, lastOpened := true);
      if cfg.openHeart && cfg.hasHeart then AtOpened(cfg, d.(heart := HeartChecking), result, a)
      else Finish(d.(heart := HeartNone))
  }

  function AtInvalid(cfg: Config, c: Client, a: Answers): Segment {
    var d := c.(status := Opening).Use(a.openHolds);
    if a.open == 0 then Segment(d, InOpen, [Open], true)
    else After([Open], true, AtOpening(cfg, d, a.open, a))
  }

  /** client_run_internal: the switch that falls through from state to state. */
  function RunInternal(cfg: Config, c: Client, result: int, a: Answers): Segment {
    match c.status
    case Invalid => AtInvalid(cfg, c, a)
    case Opening => AtOpening(cfg, c, result, a)
    case Opened => AtOpened(cfg, c, result, a)
    case Closing => AtClosing(c, a)
    case Closed => AtClosed(c)
  }

  // ----- the component as an object -----

  /** The component: its fields, updated in place by the check and by the segments of the run. */
  class Component {
    const cfg: Config
    var status: Status
    var mainAbort: bool
    var heart: Heart
    var lastOpened: bool
    var busy: int

    constructor (cfg: Config)
      ensures this.cfg == cfg && Fields() == NewClient()
    {
      this.cfg := cfg;
      status, mainAbort, heart, lastOpened, busy := Invalid, false, HeartNone, false, 0;
    }

    function Fields(): Client
      reads this
    {
      Client(status, mainAbort, heart, lastOpened, busy)
    }

    /** check_one, with its two ways out for a token. */
    method CheckOne(due: Due) returns (verdict: Verdict)
      modifies this
      ensures Checked(Fields(), verdict) == Check(cfg, old(Fields()), due)
    {
      var aborting := false;
      match status {
        case Invalid =>
          if busy != 0 || !due.reopen {
            return Nothing;
          }
          mainAbort := false;
          heart := HeartChecking;
        case Opening =>
          if !due.abort {
            return Nothing;
          }
          aborting := true;
        case Opened =>
          if due.abort {
            aborting := true;
          } else if mainAbort {
            if busy != 0 {
              return Nothing;
            }
            status := Closing;
          } else {
            if !due.heart || !cfg.hasHeart || !heart.HeartNone? {
              return Nothing;
            }
            heart := HeartChecking;
          }
        case Closing =>
          if busy != 0 {
            if !due.abort {
              return Nothing;
            }
            aborting := true;
          }
        case Closed =>
          if busy != 0 {
            return Nothing;
          }
          if !cfg.autoReopen {
            if !cfg.autoRemove {
              return Nothing;
            }
            busy := busy + 1;
            return RunToken;
          }
          status := Invalid;
          mainAbort := false;
          return Nothing;
      }
      if aborting {
        mainAbort := true;
        if !cfg.hasAbort {
          return Nothing;
        }
        busy := busy + 1;
        return AbortToken;
      }
      busy := busy + 1;
      return RunToken;
    }

    /** The labels Closing and Closed. */
    method RunClosing(a: Answers) returns (stop: Stop, calls: seq<Call>)
      modifies this
      ensures Segment(Fields(), stop, calls, true) == AtClosing(old(Fields()), a)
    {
      status := Closed;
      calls := [Close];
      if a.close == 0 {
        return InClose, calls;
      }
      lastOpened := false;
      busy := busy - 1;
      return Over, calls;
    }

    /** The label Opened, which falls into Closing when the heartbeat fails and nothing else is busy. */
    method RunOpened(result: int, a: Answers) returns (stop: Stop, calls: seq<Call>, asserts: bool)
      modifies this
      ensures Segment(Fields(), stop, calls, asserts) == AtOpened(cfg, old(Fields()), result, a)
    {
      var r := result;
      calls, asserts := [], true;
      if r >= 0 && heart == HeartChecking {
        heart := HeartCheckDone;
        calls, asserts := [Beat], cfg.hasHeart;
        r := a.heart;
        if r == 0 {
          return InHeart, calls, asserts;
        }
      }
      if r >= 0 {
        asserts := asserts && heart == HeartCheckDone;
        heart := HeartNone;
      } else {
        mainAbort := true;
        if cfg.hasAbort {
          calls := calls + [Abort];
          busy := busy - a.abortDrops;
        }
        status := Closing;
        if busy == 1 {
          var more;
          stop, more := RunClosing(a);
          return stop, calls + more, asserts;
        }
      }
      busy := busy - 1;
      return Over, calls, asserts;
    }

    /** client_run_internal: the switch, whose labels fall into one another. */
    method Run(result: int, a: Answers) returns (stop: Stop, calls: seq<Call>, asserts: bool)
      modifies this
      ensures Segment(Fields(), stop, calls, asserts) == RunInternal(cfg, old(Fields()), result, a)
    {
      hide AtOpened; hide AtClosing;
      if status == Closed {
        lastOpened := false;
        busy := busy - 1;
        return Over, [], true;
      }
      if status == Closing {
        stop, calls := RunClosing(a);
        return stop, calls, true;
      }
      var r := result;
      var opens: seq<Call> := [];
      if status == Invalid {
        status := Opening;
        opens := [Open];
        busy := busy + a.openHolds;
        r := a.open;
        if r == 0 {
          return InOpen, opens, true;
        }
      }
      if status == Opening && r >= 0 {
        status := Opened;
        lastOpened := true;
        if cfg.openHeart && cfg.hasHeart {
          heart := HeartChecking;
        } else {
          heart := HeartNone;
          busy := busy - 1;
          return Over, opens, true;
        }
      }
      stop, calls, asserts := RunOpened(r, a);
      calls := opens + calls;
    }
  }
}
