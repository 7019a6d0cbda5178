/** SyncControl as the object that its callers share. */
module SyncControlObject {
  // Each method is one atomic piece of the code, with the mutex of the request held where the
  // code holds it; what it leaves is what the step of the state machine says.

  import opened Wrappers
  import opened SyncControl

  const ENOENT: int := 2
  const EBUSY: int := 16

  class Sync {
    var status: Status
    var requestCount: int
    var closeMsg: Option<Msg>
    var from: map<Index, Option<Entry>>
    var requests: map<Index, seq<Entry>>

    constructor (indices: set<Index>)
      ensures status == Invalid && requestCount == 0 && closeMsg == None
      ensures from.Keys == requests.Keys == indices && forall i :: i in indices ==> from[i] == None && requests[i] == []
    {
      status, requestCount, closeMsg := Invalid, 0, None;
      from := map i | i in indices :: None;
      requests := map i | i in indices :: [];
    }

    /** The fields are those of a state of the machine. */
    ghost predicate Agrees(s: State)
      reads this
    {
      status == s.status && requestCount == s.count && closeMsg == s.closeMsg &&
      from.Keys == s.slots.Keys && requests.Keys == s.slots.Keys &&
      forall i :: i in s.slots ==> from[i] == s.slots[i].from && requests[i] == s.slots[i].queue
    }

    ghost predicate Became(o: Outcome)
      reads this
    {
      o.Next? && Agrees(o.state)
    }

    /** The two exchanges of SyncControlOpen. */
    method TryOpen(ghost s: State, ghost a: Act, ghost m: Msg) returns (ok: bool)
      requires Agrees(s) && a !in s.acts
      modifies this`status
      ensures ok == StepBeginOpen(s, a, m).Next?
      ensures if ok then Became(StepBeginOpen(s, a, m)) else Agrees(s)
    {
      ok := status == Invalid || status == Closed;
      if ok {
        status := Opening;
      }
    }

    /** The exchange that publishes a successful open; an abort in between takes it back. */
    method Publish(m: Msg, ghost s: State, ghost a: Act) returns (published: bool)
      requires Agrees(s) && 0 in s.slots && StepOpenTry(s, a, m).Next?
      modifies this`status, this`from
      ensures Became(StepOpenTry(s, a, m)) && published == (old(status) == Opening)
    {
      published := status == Opening;
      if published {
        status := Opened;
      } else {
        assert status == Abort;
        from := from[0 := Some(Entry.Control(m))];
      }
    }

    /** Giving the mutex back leaves the fields alone. */
    lemma Unlocks(s: State, a: Act, i: Index)
      requires Agrees(s) && i in s.slots
      ensures Became(StepUnlock(s, a, i))
    {
    }

    /** The request is the one to start. */
    method Start(i: Index, e: Entry, ghost s: State, ghost a: Act) returns (count: int)
      requires Agrees(s) && i in s.slots && StepStart(s, a, i, e).Next?
      modifies this`from, this`requestCount
      ensures Became(StepStart(s, a, i, e)) && count == requestCount > 1
    {
      assert requests[i] == [];
      from := from[i := Some(e)];
      requestCount := requestCount + 1;
      return requestCount;
    }

    /** The request has to wait. */
    method Wait(i: Index, e: Entry, ghost s: State, ghost a: Act)
      requires Agrees(s) && i in s.slots && e.Request?
      modifies this`requests
      ensures Became(StepQueue(s, a, i, e))
    {
      requests := requests[i := if e.front then [e] + requests[i] else requests[i] + [e]];
    }

    /** The critical section of SyncControlRequest: start the request, queue it, or refuse it. */
    method Post(i: Index, m: Msg, front: bool, ticket: nat, ghost s: State, ghost a: Act) returns (result: int)
      requires Agrees(s) && i in s.slots && ticket == s.slots[i].log.next
               && StepPost(s, a, i, m, front, status == Opened).Next?
      modifies this`from, this`requests, this`requestCount
      ensures Became(StepPost(s, a, i, m, front, old(status) == Opened))
      ensures if old(status) != Opened then result == -EINTR
              else if old(from)[i].Some? then result == 0
              else result == requestCount > 1
    {
      hide StepStart; hide StepQueue; hide StepUnlock;
      if status != Opened {
        Unlocks(s, a, i);
        return -EINTR;
      }
      var e := Request(m, ticket, front);
      if from[i].None? {
        result := Start(i, e, s, a);
        return;
      }
      Wait(i, e, s, a);
      return 0;
    }

    /** list_del_init of a waiting request. */
    method Unlink(i: Index, k: nat, ghost s: State, ghost a: Act)
      requires Agrees(s) && i in s.slots && k < |requests[i]|
      modifies this`requests
      ensures Became(StepUnlink(s, a, i, k)) && requests[i] == old(requests)[i][..k] + old(requests)[i][k + 1..]
    {
      requests := requests[i := requests[i][..k] + requests[i][k + 1..]];
    }

    /** The critical section of SyncControlCancel. */
    method Cancel(i: Index, m: Msg, ghost s: State, ghost a: Act) returns (found: bool)
      requires Agrees(s) && i in s.slots
      modifies this`requests
      ensures Became(StepCancel(s, a, i, m, status == Opened))
      ensures found == (|requests[i]| < |old(requests)[i]|)
    {
      Unlocks(s, a, i);
      hide StepUnlock; hide StepUnlink;
      found := false;
      if status == Opened && !(from[i].Some? && from[i].value.msg == m) {
        var k := Find(requests[i], m);
        if k < |requests[i]| {
          found := true;
          Unlink(i, k, s, a);
        }
      }
    }

    /** The critical section of the dispatch loop: the next message, or none. */
    method TakeNext(i: Index, ghost s: State, ghost a: Act) returns (more: bool)
      requires Agrees(s) && i in s.slots
      modifies this`from, this`requests
      ensures Became(StepDispLocked(s, a, i, status == Opened))
      ensures more == (status == Opened && old(requests)[i] != [])
      ensures more ==> from[i] == Some(old(requests)[i][0]) && requests[i] == old(requests)[i][1..]
    {
      hide LogStart;
      more := status == Opened && requests[i] != [];
      if more {
        from, requests := from[i := Some(requests[i][0])], requests[i := requests[i][1..]];
        assert Became(StepTakeNext(s, a, i));
      } else {
        from := from[i := None];
        assert Became(StepRelease(s, a, i));
      }
    }

    /** A dispatcher lowers the count; at zero it is the one to close. */
    method Drop(i: Index, ghost s: State, ghost a: Act) returns (closes: bool)
      requires Agrees(s)
      modifies this`requestCount
      ensures Became(StepDrop(s, a, i)) && closes == (requestCount == 0)
    {
      requestCount := requestCount - 1;
      closes := requestCount == 0;
    }

    /** One exchange of SyncControlClose's loop, which first tries Opening for Abort and then Opened for Closing. */
    method TryClose(first: bool, m: Msg, ghost s: State, ghost a: Act) returns (result: Option<int>)
      requires Agrees(s)
      modifies this`status
      ensures Became(if first then StepCloseCas1(s, a, m) else StepCloseCas2(s, a, m))
      ensures result == if old(status) == Opened then (if first then None else Some(0))
                        else if old(status) == Opening then (if first then Some(1) else None)
                        else if old(status) == Invalid || old(status) == Closed then Some(-ENOENT) else Some(-EBUSY)
    {
      var before := status;
      if status == (if first then Opening else Opened) {
        status := if first then Abort else Closing;
      }
      if before == Invalid || before == Closed { return Some(-ENOENT); }
      if before == Abort || before == Closing { return Some(-EBUSY); }
      if before != (if first then Opening else Opened) { return None; }
      return Some(if before == Opening then 1 else 0);
    }

    /** The closer gives up the open hold; when requests are left, their last dispatcher closes. */
    method GiveUpHold(ghost s: State, ghost a: Act) returns (closes: bool)
      requires Agrees(s)
      modifies this`requestCount
      ensures Became(StepCloseDrop(s, a)) && closes == (requestCount == 0)
    {
      requestCount := requestCount - 1;
      closes := requestCount == 0;
    }

    /** AMsgListClear of one request. */
    method Clear(j: Index, ghost s: State, ghost a: Act, ghost i: Index,
        ghost todo: set<Index>) returns (interrupted: seq<Entry>)
      requires Agrees(s) && j in todo && j in s.slots
      modifies this`requests
      ensures Became(StepClear(s, a, i, todo, j)) && interrupted == old(requests)[j]
    {
      interrupted := requests[j];
      requests := requests[j := []];
    }

    /** SyncControlClosed. */
    method Finish(i: Index, ghost s: State, ghost a: Act)
      requires Agrees(s) && i in s.slots && StepCloseFin(s, a, i).Next?
      modifies this`closeMsg, this`from, this`status
      ensures Became(StepCloseFin(s, a, i))
    {
      assert closeMsg.Some? && from[i] == Some(Entry.Control(closeMsg.value));
      closeMsg := None;
      from := from[i := None];
      assert status == Closing;
      status := Closed;
    }
  }
}
