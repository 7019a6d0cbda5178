/** One direction of the asynchronous stream as the object that two threads share. */
module AsyncOvlp {
  // Each method is one access to the status word, or the system call between two of them.

  import opened Wrappers
  import opened AsyncTcp

  class Ovlp {
    var status: Status
    var size: nat
    var pos: nat
    var block: bool

    constructor ()
      ensures status == NoStatus && size == pos == 0
    {
      status, size, pos, block := NoStatus, 0, 0, false;
    }

    /** The fields are those of a side of the machine with a request. */
    ghost predicate Agrees(s: Side)
      reads this
    {
      status == s.status && s.request == Some(Request(size, pos, block))
    }

    /** The first exchange of AsyncOvlpProc: a signal is taken. */
    method TakeSignal(counters: bool, ghost s: Side) returns (next: Proc)
      requires Agrees(s)
      modifies this`status
      ensures var v := StepEnter(s, counters); Agrees(v.s) && v.proc == Some(next)
    {
      var was := status;
      if was == Signal {
        status := NoStatus;
      }
      if was == Error {
        return Result(-EIO);
      }
      return if was == Signal || counters then Call else Park;
    }

    /** What the answer of send or recv does. */
    method Transfer(a: Answer, ghost s: Side) returns (next: Proc)
      requires Agrees(s) && AnswerFits(Request(size, pos, block), a)
      modifies this`pos
      ensures var v := StepCall(s, a); Agrees(v.s) && v.proc == Some(next)
    {
      match a {
        case Moved(n) =>
          pos := pos + n;
          if pos == size || !block {
            return Result(pos);
          }
          return Park;
        case Interrupted => return Enter;
        case Again => return Park;
        case _ => return Result(-EIO);
      }
    }

    /** The second exchange: the operation is parked unless something has happened. */
    method TryPark(ghost s: Side) returns (next: Option<Proc>)
      requires Agrees(s)
      modifies this`status
      ensures var v := StepPark(s); Agrees(v.s) && v.proc == next
    {
      var was := status;
      if was == NoStatus {
        status := Pending;
        return None;
      }
      return Some(if was == Signal then Enter else Result(-EIO));
    }

    /**
      AsyncOvlpProc from one entry to its return or to an exchange that another
      thread has come before: every step is a step of the machine.
     */
    method Proc(counters: bool, a: Answer, ghost s: Side) returns (next: Option<Proc>, ghost t: Side)
      requires Agrees(s) && AnswerFits(Request(size, pos, block), a)
      modifies this`status, this`pos
      ensures Agrees(t) && Advance(t, next) == Through(s, counters, a)
    {
      var p := TakeSignal(counters, s);
      t := StepEnter(s, counters).s;
      next := Some(p);
      if p == Call {
        p := Transfer(a, t);
        t := StepCall(t, a).s;
        next := Some(p);
      }
      if p == Park {
        next := TryPark(t);
        t := StepPark(t).s;
      }
    }

    /** The exchange of AsyncOvlpSignal; says whether a parked operation is taken over. */
    method GiveSignal() returns (takesOver: bool)
      requires status != Error
      modifies this`status
      ensures status == Signal && takesOver == (old(status) == Pending)
    {
      takesOver := status == Pending;
      status := Signal;
    }

    /** The exchange of AsyncOvlpError; says whether a parked operation has to be told. */
    method MarkError() returns (tells: bool)
      modifies this`status
      ensures status == Error && tells == (old(status) == Pending)
    {
      tells := status == Pending;
      status := Error;
    }
  }

  /** The procedure when nobody comes between its steps: entering, the call if there is to be one, and parking. */
  function Through(s: Side, counters: bool, a: Answer): Advance
    requires s.request.Some? && AnswerFits(s.request.value, a)
  {
    var v := StepEnter(s, counters);
    var w := if v.proc == Some(Call) then StepCall(v.s, a) else v;
    if w.proc == Some(Park) then StepPark(w.s) else w
  }

  /** Undisturbed, the procedure parks the operation, comes back with a result, or was interrupted and enters again. */
  lemma ThroughEnds(s: Side, counters: bool, a: Answer)
    requires s.request.Some? && AnswerFits(s.request.value, a)
    ensures var v := Through(s, counters, a);
            match v.proc
            case None => v.s.status == Pending && (s.status == NoStatus || s.status == Signal)
            case Some(p) => p.Result? || (p == Enter && a.Interrupted?)
  {
  }
}
