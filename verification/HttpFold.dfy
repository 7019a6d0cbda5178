/** What feeding bytes to the parser means, one byte at a time. */
module HttpFold {
  // Three things depend on how the input is cut into fragments: which bytes of a header value
  // are vetted, how often the bytes of a name or value are counted, and which bytes are still
  // marked and undelivered when an error is found.

  import opened Wrappers
  import opened HttpTypes
  import opened HttpStep
  import opened HttpInv

  /**
    Whether the last byte of the fragment was consumed by the loop over a
    header's name or value. The value loop works on a copy of the header state,
    which began as `saved`; once the copy is General it skips, without looking,
    to the end of the line.
   */
  datatype Run = Outside | InName | InValue(saved: HeaderState) | Vetted

  /**
    The parser part-way through a fragment: its header count and whether it
    has exceeded the limit, the bytes used, what the callbacks have been told,
    what is marked but not yet told, and whether an upgrade stopped it.
   */
  datatype Acc = Acc(p: Parser, nread: nat, over: bool, used: nat, told: seq<Atom>, held: seq<Atom>, stop: bool,
      run: Run)

  predicate Halted(a: Acc) { a.stop || a.p.errno != OK }

  function Start(p: Parser, nread: nat, told: seq<Atom>): Acc { Acc(p, nread, false, 0, told, [], false, Outside) }

  /** The states whose bytes count towards the header limit. */
  predicate Counts(s: State) { ParsingHeader(s) || s == Body(ChunkNextSize) }

  predicate EndsLine(ch: byte) { ch == CR || ch == LF }

  /** What a byte does in a fragment; an illegal byte leaves the header state the value loop began with. */
  function Outcome(cfg: Settings, a: Acc, ch: byte): Out {
    if a.run.Vetted? && !EndsLine(ch) then Carry(a.p, a.p.state, ValueText)
    else
      var o := Step(cfg, a.p, ch);
      if a.run.InValue? && o.p.errno == InvalidHeaderToken then o.(p := o.p.(headerState := a.run.saved)) else o
  }

  /** The run after a byte that was carried. */
  function RunAfter(p: Parser, run: Run): Run {
    if p.state == Head(Value) then
      if p.headerState.General? then Vetted else if run.InValue? then run else InValue(p.headerState)
    else if p.state == Head(Field) then InName
    else Outside
  }

  function Carried(o: Out, ch: byte): seq<Atom> { if o.carry.Some? then [Byte(o.carry.value, ch)] else [] }

  function Count(a: Acc): nat { a.nread + if Counts(a.p.state) then 1 else 0 }

  function Absorb(a: Acc, o: Out, ch: byte): Acc {
    var n := Count(a);
    var over := a.over || (Counts(a.p.state) && n > HTTP_MAX_HEADER_SIZE);
    if o.p.errno != OK then a.(p := o.p, nread := n, over := over)
    else if o.carry.Some? && o.notes == [] then
      Acc(o.p, n, over, a.used + 1, a.told, a.held + Carried(o, ch), o.stop, RunAfter(a.p, a.run))
    else
      Acc(o.p, if Clears(o.notes) then 0
          else n, over, a.used + 1, a.told + (a.held + Carried(o, ch)) + ToldAll(o.notes), [], o.stop, Outside)
  }

  function Next(cfg: Settings, a: Acc, ch: byte): Acc {
    if Halted(a) then a else Absorb(a, Outcome(cfg, a, ch), ch)
  }

  /** The first n bytes of a fragment. */
  function Upto(cfg: Settings, s: Acc, data: seq<byte>, n: nat): Acc
    requires n <= |data|
  {
    if n == 0 then s else Next(cfg, Upto(cfg, s, data, n - 1), data[n - 1])
  }

  /** The end of a fragment: what is marked is told, and an unfinished run is counted once more. */
  function End(a: Acc): Acc {
    if Halted(a) then a.(held := [], run := Outside)
    else
      var n := a.nread + if a.run.Outside? then 0 else 1;
      var over := a.over || (!a.run.Outside? && n > HTTP_MAX_HEADER_SIZE);
      Acc(a.p, n, over, a.used, a.told + a.held, [], false, Outside)
  }

  function Feed(cfg: Settings, s: Acc, data: seq<byte>): Acc { End(Upto(cfg, s, data, |data|)) }

  // ----- what every byte keeps -----

  predicate AccOk(a: Acc) {
    a.p.errno == OK ==>
      && Inv(a.p)
      && (AtChunkSize(a.p.state) ==> a.nread == 0 && a.run.Outside?)
      && (a.run.Vetted? ==> a.p.state == Head(Value) && a.p.headerState.General?)
      && (a.run.InValue? ==> a.p.state == Head(Value))
      && (a.run.InName? ==> a.p.state == Head(Field))
  }

  lemma NextKeeps(cfg: Settings, a: Acc, ch: byte)
    requires AccOk(a)
    ensures AccOk(Next(cfg, a, ch))
  {
    if !Halted(a) {
      StepKeeps(cfg, a.p, ch);
    }
  }

  lemma {:induction false} UptoKeeps(cfg: Settings, s: Acc, data: seq<byte>, n: nat)
    requires AccOk(s) && n <= |data|
    ensures AccOk(Upto(cfg, s, data, n))
  {
    if n > 0 {
      UptoKeeps(cfg, s, data, n - 1);
      NextKeeps(cfg, Upto(cfg, s, data, n - 1), data[n - 1]);
    }
  }

  lemma {:induction false} StaysOver(cfg: Settings, s: Acc, data: seq<byte>, i: nat, j: nat)
    requires i <= j <= |data| && Upto(cfg, s, data, i).over
    ensures Upto(cfg, s, data, j).over
  {
    if i < j {
      StaysOver(cfg, s, data, i, j - 1);
    }
  }

  lemma {:induction false} StaysHalted(cfg: Settings, s: Acc, data: seq<byte>, i: nat, j: nat)
    requires i <= j <= |data| && Halted(Upto(cfg, s, data, i))
    ensures Upto(cfg, s, data, j) == Upto(cfg, s, data, i)
  {
    if i < j {
      StaysHalted(cfg, s, data, i, j - 1);
    }
  }
}
