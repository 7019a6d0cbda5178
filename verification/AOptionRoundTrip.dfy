/** Decoding what encoding wrote rebuilds the tree. */
module AOptionRoundTrip {
  import opened Wrappers
  import opened AOption
  import opened AOptionDecode

  // ----- which trees -----

  /** Free of the quotation mark and the backslash; a string of a node is free of zero characters anyway. */
  predicate Clean(s: string) { forall i :: 0 <= i < |s| ==> s[i] != '"' && s[i] != '\\' && s[i] != NUL }

  predicate IsSeparator(c: char) {
    c == '{' || c == '[' || c == '}' || c == ']' || c == ',' || IsQuote(c) || IsBlank(c) || c == NUL
  }

  predicate FreeOfSeparators(s: string) { forall i :: 0 <= i < |s| ==> !IsSeparator(s[i]) }

  /** A name that decoding can hold below an array or elsewhere. */
  predicate NameOk(n: Node, inArray: bool) { Clean(n.Name()) && |n.Name()| <= NameLimit(inArray) }

  /** A value that is read back as it is; an empty value needs the byte before it not to be a quotation mark. */
  predicate ValueOk(n: Node) {
    && |n.Value()| <= VALUE_SIZE - 1
    && if Unquoted(n) then FreeOfSeparators(n.Value()) else
       Clean(n.Value())
       && (n.Value() == "" ==> n.mem[NAME_SIZE - 1] != '"')
  }

  /** A node below one of type `above`, which is printed as an array or not. */
  predicate Printable(n: Node, above: Option<Type>, inArray: bool)
    decreases n
  {
    if n.Bare(above) then
      n.Named() && NameOk(n, inArray) && (n.nameLen >= NAME_SIZE <==> |n.Name()| >= NAME_SIZE)
    else
      && NameOk(n, false)
      && (if n.IsArray() then n.Value() == "" || n.Value() == "["
          else if n.IsScalar() then n.Named() && ValueOk(n)
          else n.Value() == "")
      && forall i :: 0 <= i < |n.kids| ==> Printable(n.kids[i], Some(n.typ), n.IsArray())
  }

  /** The same name, value and shape; an array has the value that decoding gives every array. */
  predicate Same(n: Node, above: Option<Type>, t: Node)
    decreases n
  {
    && t.Name() == n.Name()
    && if n.Bare(above) || n.IsScalar() then t.kids == [] && t.Value() == n.Value()
       else
         && (if n.IsArray() then t.typ.ArrayType? && t.Value() == "[" else t.typ.ObjectType? && t.Value() == "")
         && |t.kids| == |n.kids| && forall i :: 0 <= i < |n.kids| ==> Same(n.kids[i], Some(n.typ), t.kids[i])
  }

  // ----- strings in memory -----

  lemma {:induction false} TextIs(mem: seq<char>, from: nat, to: nat)
    requires from <= to < |mem| && mem[to] == NUL
    requires forall i :: from <= i < to ==> mem[i] != NUL
    ensures Text(mem, from) == mem[from..to]
    decreases |mem| - from
  {
    if from < to {
      TextIs(mem, from + 1, to);
      assert mem[from..to] == [mem[from]] + mem[from + 1..to];
    }
  }

  /** A string is made of the bytes where it lies. */
  lemma {:induction false} TextLies(mem: seq<char>, from: nat)
    requires from <= |mem|
    ensures var s := Text(mem, from);
            && from + |s| <= |mem| && s == mem[from..from + |s|] && (from + |s| < |mem| ==> mem[from + |s|] == NUL)
            && forall i :: 0 <= i < |s| ==> s[i] != NUL
    decreases |mem| - from
  {
    if from < |mem| && mem[from] != NUL {
      TextLies(mem, from + 1);
      var t := Text(mem, from + 1);
      assert mem[from..from + 1 + |t|] == [mem[from]] + mem[from + 1..from + 1 + |t|];
    }
  }

  lemma {:induction false} TextSuffix(mem: seq<char>, from: nat, k: nat)
    requires from + k <= |mem| && k <= |Text(mem, from)|
    ensures Text(mem, from)[k..] == Text(mem, from + k)
    decreases k
  {
    if k > 0 {
      TextSuffix(mem, from + 1, k - 1);
    }
  }

  // ----- running the machine -----

  lemma {:induction false} RunJoin(r: Result, x: string, y: string)
    ensures Run(r, x + y) == Run(Run(r, x), y)
    decreases |y|
  {
    hide Next;
    if y == "" {
      assert x + y == x;
    } else {
      var init, last := y[..|y| - 1], y[|y| - 1];
      RunJoin(r, x, init);
      assert (x + y)[..|x + y| - 1] == x + init;
    }
  }

  lemma RunOne(r: Result, c: char)
    ensures Run(r, [c]) == Next(r, c)
  {
    hide Next;
    assert [c][..0] == "";
    assert Run(r, "") == r;
  }

  /** Between words: nothing open. */
  function At(above: seq<Cell>, cur: Cell, keysep: nat, ended: bool, used: nat): Machine {
    Machine(above, cur, NUL, false, keysep, false, ended, used)
  }

  /** All the characters of a word put into a node. */
  function PutAll(n: Cell, inArray: bool, s: string, keysep: nat): Cell {
    if s == "" then n else SetChar(PutAll(n, inArray, s[..|s| - 1], keysep), inArray, s[|s| - 1], keysep)
  }

  lemma {:induction false} InsideQuotes(m: Machine, s: string)
    requires m.ident == '"' && !m.slash && Clean(s)
    ensures Run(Going(m), s)
            == Going(m.(cur := PutAll(m.cur, InArray(m.above), s, m.keysep), ended := m.ended
                && s == "", used := m.used + |s|))
    decreases |s|
  {
    hide SetChar;
    if s != "" {
      InsideQuotes(m, s[..|s| - 1]);
    }
  }

  lemma {:induction false} OutsideQuotes(m: Machine, s: string)
    requires m.ident == NUL && !m.comment && FreeOfSeparators(s)
    ensures Run(Going(m), s)
            == Going(m.(cur := PutAll(m.cur, InArray(m.above), s, m.keysep), ended := m.ended
                && s == "", used := m.used + |s|))
    decreases |s|
  {
    hide SetChar;
    if s != "" {
      OutsideQuotes(m, s[..|s| - 1]);
    }
  }

  /** A fresh name fills the memory from its start. */
  lemma {:induction false} NamePut(n: Cell, inArray: bool, s: string)
    requires n.nameLen == 0 && |s| <= NameLimit(inArray)
    ensures var t := PutAll(n, inArray, s, 0); t == n.(mem := t.mem, nameLen := |s|) && t.mem == s + n.mem[|s|..]
    decreases |s|
  {
    if s == "" {
      assert n.mem == "" + n.mem[0..];
    } else {
      NamePut(n, inArray, s[..|s| - 1]);
      assert n.mem[|s| - 1..] == [n.mem[|s| - 1]] + n.mem[|s|..];
    }
  }

  /** A fresh value fills its memory from its start. */
  lemma {:induction false} ValuePut(n: Cell, inArray: bool, s: string)
    requires n.valueLen == 0 && |s| <= VALUE_SIZE - 1
    ensures var t := PutAll(n, inArray, s, 1);
            t == n.(mem := t.mem, valueLen := |s|) && t.mem == n.mem[..NAME_SIZE] + s + n.mem[NAME_SIZE + |s|..]
    decreases |s|
  {
    if s == "" {
      assert n.mem == n.mem[..NAME_SIZE] + "" + n.mem[NAME_SIZE..];
    } else {
      ValuePut(n, inArray, s[..|s| - 1]);
      assert n.mem[NAME_SIZE + |s| - 1..] == [n.mem[NAME_SIZE + |s| - 1]] + n.mem[NAME_SIZE + |s|..];
    }
  }

  // ----- words -----

  function Tagged(n: Cell, keysep: nat): Cell { if keysep == 1 && n.typ.AnyType? then n.(typ := StringType) else n }

  /** A word in quotation marks. */
  lemma QuotedRun(m: Machine, s: string)
    requires m == At(m.above, m.cur, m.keysep, true, m.used) && m.keysep < 2 && Clean(s)
    ensures var n := Tagged(m.cur, m.keysep);
            Run(Going(m), "\"" + s + "\"")
            == Going(if s == "" then At(m.above, n, m.keysep, true, m.used + 2)
                     else At(m.above, EndKeyOrValue(PutAll(n, InArray(m.above), s, m.keysep), m.keysep),
                         m.keysep + 1, true, m.used + |s| + 2))
  {
    hide PutAll; hide EndKeyOrValue; hide Run;
    RunJoin(Going(m), "\"" + s, "\"");
    RunJoin(Going(m), "\"", s);
    RunOne(Going(m), '"');
    var n := Tagged(m.cur, m.keysep);
    var inside := Machine(m.above, n, '"', false, m.keysep, false, true, m.used + 1);
    assert Next(Going(m), '"') == Going(inside);
    InsideQuotes(inside, s);
    PutNone(n, InArray(m.above), m.keysep);
    RunOne(Run(Going(inside), s), '"');
  }

  lemma PutNone(n: Cell, inArray: bool, keysep: nat)
    ensures PutAll(n, inArray, "", keysep) == n
  {
  }

  /** A fresh node with a name. */
  function WithName(s: string): Cell
    requires |s| < NAME_SIZE + VALUE_SIZE
  {
    if s == "" then Empty() else Empty().(mem := s + [NUL] + Empty().mem[|s| + 1..], nameLen := |s|)
  }

  lemma WithNameReads(s: string)
    requires |s| < NAME_SIZE + VALUE_SIZE && Clean(s)
    ensures var n := WithName(s);
            n.Name() == s && (|s| <= NAME_SIZE ==> n.Value() == "" && n.mem[NAME_SIZE] == NUL)
                && (|s| >= NAME_SIZE ==> n.Value() == s[NAME_SIZE..])
    ensures (WithName(s).mem[0] == NUL) == (s == "")
  {
    var n := WithName(s);
    TextIs(n.mem, 0, |s|);
    if |s| >= NAME_SIZE {
      TextSuffix(n.mem, 0, NAME_SIZE);
    }
  }

  /** The name of a node. */
  lemma NameRun(n: Node, m: Machine)
    requires m == At(m.above, Empty(), 0, true, m.used) && NameOk(n, InArray(m.above))
    ensures Run(Going(m), NameText(n))
            == Going(At(m.above, WithName(n.Name()), if n.Named() then 1 else 0, true, m.used + |NameText(n)|))
  {
    hide Run; hide PutAll;
    TextLies(n.mem, 0);
    var s := n.Name();
    if s == "" {
      RunNone(Going(m));
    } else {
      assert NameText(n) == "\"" + s + "\"";
      QuotedRun(m, s);
      NamePut(m.cur, InArray(m.above), s);
      var mem := m.cur.mem;
      assert (s + mem[|s|..])[|s| := NUL] == s + [NUL] + mem[|s| + 1..];
    }
  }

  lemma RunNone(r: Result)
    ensures Run(r, "") == r
  {
  }

  lemma ColonRun(m: Machine)
    requires m == At(m.above, m.cur, m.keysep, true, m.used)
    ensures Run(Going(m), ":") == Going(m.(used := m.used + 1))
  {
    hide Run;
    RunOne(Going(m), ':');
  }

  /** A node with a short name, and then a value. */
  function WithValue(n: Cell, s: string): Cell
    requires |s| < VALUE_SIZE
  {
    if s == "" then n else n.(mem := n.mem[..NAME_SIZE] + s + [NUL] + n.mem[NAME_SIZE + |s| + 1..], valueLen := |s|)
  }

  lemma WithValueReads(name: string, s: string)
    requires |name| < NAME_SIZE && |s| < VALUE_SIZE && Clean(name) && forall i :: 0 <= i < |s| ==> s[i] != NUL
    ensures var n := WithValue(WithName(name), s);
    n.Name() == name && n.Value() == s && (name != "" ==> n.mem[0] != NUL)
  {
    WithNameReads(name);
    var n := WithValue(WithName(name), s);
    TextIs(n.mem, 0, |name|);
    if s != "" {
      assert n.mem[NAME_SIZE..NAME_SIZE + |s|] == s;
      TextIs(n.mem, NAME_SIZE, NAME_SIZE + |s|);
    }
  }

  /** The value of a scalar; an unquoted one is still open afterwards. */
  lemma ScalarRun(n: Node, m: Machine)
    requires m == At(m.above, m.cur, 1, true, m.used) && |n.Name()| < NAME_SIZE && m.cur == WithName(n.Name())
             && ValueOk(n)
    ensures var r := Run(Going(m), ScalarText(n));
            && r.Going? && r.m == At(m.above, r.m.cur, r.m.keysep, r.m.ended, m.used + |ScalarText(n)|)
            && Settled(r.m) == WithValue(m.cur, n.Value()).(typ := Settled(r.m).typ)
  {
    hide Run; hide PutAll;
    TextLies(n.mem, NAME_SIZE);
    var s := n.Value();
    var mem := m.cur.mem;
    ValuePut(m.cur, InArray(m.above), s);
    ValuePut(Tagged(m.cur, 1), InArray(m.above), s);
    if s != "" {
      assert (mem[..NAME_SIZE] + s + mem[NAME_SIZE + |s|..])[NAME_SIZE + |s| := NUL]
          == mem[..NAME_SIZE] + s + [NUL] + mem[NAME_SIZE + |s| + 1..];
    }
    if Unquoted(n) {
      OutsideQuotes(m, s);
    } else {
      assert ScalarText(n) == "\"" + s + "\"";
      QuotedRun(m, s);
    }
  }

  // ----- trees -----

  /** The machine stands after a node that has been read in full. */
  predicate Done(n: Node, above: Option<Type>, m: Machine, after: Machine, len: nat) {
    && after == At(m.above, after.cur, after.keysep, after.ended, m.used + len)
    && Same(n, above, Settled(after)) && !InVain(Settled(after))
  }

  /** The nodes of `ts` are those of the first `|ts|` children of n. */
  predicate SameKids(n: Node, ts: seq<Node>) {
    |ts| <= |n.kids| && forall i :: 0 <= i < |ts| ==> Same(n.kids[i], Some(n.typ), ts[i])
  }

  /** The machine stands after the first k children of n, inside its brackets; `p` is the node when they opened. */
  predicate Inside(n: Node, k: nat, base: seq<Cell>, p: Cell, m: Machine) {
    && m == At(m.above, m.cur, m.keysep, m.ended, m.used)
    && |m.above| == |base| + 1 && m.above[..|base|] == base
    && (var up := m.above[|base|]; up == p.(kids := up.kids) && up.typ.ArrayType? == n.IsArray())
    && var up := m.above[|base|];
       if k == 0 then up.kids == [] && m.cur == Empty() && m.keysep == 0 && m.ended
       else |up.kids| == k - 1 && SameKids(n, up.kids + [Settled(m)]) && !InVain(Settled(m))
  }

  lemma CommaRun(n: Node, k: nat, base: seq<Cell>, p: Cell, m: Machine)
    requires Inside(n, k, base, p, m) && k > 0
    ensures var up := m.above[|base|];
            Run(Going(m), ",") == Going(At(base + [up.(kids := up.kids + [Settled(m)])], Empty(), 0, true, m.used + 1))
  {
    hide Run;
    RunOne(Going(m), ',');
  }

  /** The children are the whole of the node when its brackets close. */
  lemma ClosesSame(n: Node, above: Option<Type>, base: seq<Cell>, p: Cell, m: Machine)
    requires Inside(n, |n.kids|, base, p, m) && !n.Bare(above) && !n.IsScalar() && p.kids == []
    requires p.Name() == n.Name() && (if n.IsArray() then p.typ.ArrayType? && p.Value() == "[" else
             p.typ.ObjectType?
             && p.Value() == "")
    ensures var t := Closed(m.above[|base|], Settled(m)); Same(n, above, t) && !InVain(t)
  {
    hide Text;
  }

  function CloseChar(n: Node): char { if n.IsArray() then ']' else '}' }

  lemma CloseRun(n: Node, k: nat, base: seq<Cell>, p: Cell, m: Machine)
    requires Inside(n, k, base, p, m)
    ensures var t := Closed(m.above[|base|], Settled(m));
            Run(Going(m), [CloseChar(n)]) == if base == [] then Decoded(t, m.used + 1)
                else Going(At(base, t, 0, true, m.used + 1))
  {
    hide Run;
    RunOne(Going(m), CloseChar(n));
  }

  function OpenChar(n: Node): char { if n.IsArray() then '[' else '{' }

  lemma OpenRun(n: Node, m: Machine)
    requires m == At(m.above, m.cur, m.keysep, true, m.used) && m.cur.mem[NAME_SIZE] == NUL && m.cur.typ.AnyType?
             && m.cur.kids == []
    ensures var p := Opened(m.cur, OpenChar(n));
            var r := Run(Going(m), [OpenChar(n)]);
            r == Going(At(m.above + [p], Empty(), 0, true, m.used + 1)) && Inside(n, 0, m.above, p, r.m)
  {
    hide Run;
    RunOne(Going(m), OpenChar(n));
  }

  lemma OpenedReads(name: string, n: Node)
    requires |name| < NAME_SIZE && Clean(name)
    ensures var p := Opened(WithName(name), OpenChar(n));
            && p.Name() == name && p.kids == []
            && (if n.IsArray() then p.typ.ArrayType? && p.Value() == "[" else p.typ.ObjectType? && p.Value() == "")
  {
    WithNameReads(name);
    var p := Opened(WithName(name), OpenChar(n));
    TextIs(p.mem, 0, |name|);
    if n.IsArray() {
      TextIs(p.mem, NAME_SIZE, NAME_SIZE + 1);
    }
  }

  lemma NodeFinishesKid(n: Node, k: nat, base: seq<Cell>, p: Cell, m: Machine, after: Machine, len: nat)
    requires k < |n.kids| && Inside(n, k, base, p, m) && k == 0
    requires Done(n.kids[k], Some(n.typ), m, after, len)
    ensures Inside(n, k + 1, base, p, after)
  {
    hide Same; hide Settled; hide InVain;
    assert SameKids(n, [] + [Settled(after)]);
  }

  lemma NodeFinishesNext(n: Node, k: nat, base: seq<Cell>, p: Cell, m: Machine, next: Machine, after: Machine, len: nat)
    requires 0 < k < |n.kids| && Inside(n, k, base, p, m)
    requires next
             == At(base + [m.above[|base|].(kids := m.above[|base|].kids + [Settled(m)])], Empty(), 0, true, next.used)
    requires Done(n.kids[k], Some(n.typ), next, after, len)
    ensures Inside(n, k + 1, base, p, after)
  {
    hide Same; hide InVain; hide EndKeyOrValue;
    var up := after.above[|base|];
    assert after.above == base + [up];
    assert SameKids(n, up.kids + [Settled(after)]);
  }

  lemma TailIs(kids: seq<Node>, typ: Type, k: nat)
    requires k <= |kids|
    ensures Tail(kids, typ, k) == if k == |kids| then "" else "," + Print(kids[k], Some(typ)) + Tail(kids, typ, k + 1)
  {
  }

  /** The children from the k-th on, each after a comma. */
  lemma {:induction false} TailRun(n: Node, above: Option<Type>, inArray: bool, k: nat, base: seq<Cell>, p: Cell,
      m: Machine)
    requires Printable(n, above, inArray) && !n.Bare(above) && 0 < k <= |n.kids| && Inside(n, k, base, p, m)
    ensures var text := Tail(n.kids, n.typ, k);
            var r := Run(Going(m), text);
            r.Going? && Inside(n, |n.kids|, base, p, r.m) && r.m.used == m.used + |text|
    decreases n, 1, |n.kids| - k
  {
    hide Run; hide Print; hide Inside;
    TailIs(n.kids, n.typ, k);
    if k == |n.kids| {
      RunNone(Going(m));
    } else {
      var kid := Print(n.kids[k], Some(n.typ));
      var rest := Tail(n.kids, n.typ, k + 1);
      RunJoin(Going(m), "," + kid, rest);
      RunJoin(Going(m), ",", kid);
      CommaRun(n, k, base, p, m);
      var next := Run(Going(m), ",").m;
      InsideArray(n, k, base, p, m);
      NodeRun(n.kids[k], Some(n.typ), next);
      var after := Run(Going(next), kid).m;
      NodeFinishesNext(n, k, base, p, m, next, after, |kid|);
      TailRun(n, above, inArray, k + 1, base, p, after);
    }
  }

  lemma InsideArray(n: Node, k: nat, base: seq<Cell>, p: Cell, m: Machine)
    requires Inside(n, k, base, p, m)
    ensures InArray(m.above) == n.IsArray() && m.above != [] && |m.above| == |base| + 1
            && InArray(base + [m.above[|base|]]) == n.IsArray()
  {
  }

  /** All the children of a node, inside its brackets. */
  lemma {:induction false} KidsRun(n: Node, above: Option<Type>, inArray: bool, base: seq<Cell>, p: Cell, m: Machine)
    requires Printable(n, above, inArray) && !n.Bare(above) && Inside(n, 0, base, p, m)
    ensures var text := Kids(n.kids, n.typ);
            var r := Run(Going(m), text);
            r.Going? && Inside(n, |n.kids|, base, p, r.m) && r.m.used == m.used + |text|
    decreases n, 2, 0
  {
    hide Run; hide Print; hide Tail;
    if n.kids == [] {
      RunNone(Going(m));
    } else {
      var kid := Print(n.kids[0], Some(n.typ));
      RunJoin(Going(m), kid, Tail(n.kids, n.typ, 1));
      InsideArray(n, 0, base, p, m);
      NodeRun(n.kids[0], Some(n.typ), m);
      var after := Run(Going(m), kid).m;
      NodeFinishesKid(n, 0, base, p, m, after, |kid|);
      TailRun(n, above, inArray, 1, base, p, after);
    }
  }

  /** The name of a node with a short name, and the colon after it. */
  function Intro(n: Node): string { NameText(n) + if n.Named() then ":" else "" }

  lemma IntroRun(n: Node, m: Machine)
    requires m == At(m.above, Empty(), 0, true, m.used) && NameOk(n, false)
    ensures Run(Going(m), Intro(n))
            == Going(At(m.above, WithName(n.Name()), if n.Named() then 1 else 0, true, m.used + |Intro(n)|))
  {
    hide Run; hide NameText;
    NameRun(n, m);
    if n.Named() {
      RunJoin(Going(m), NameText(n), ":");
      ColonRun(Run(Going(m), NameText(n)).m);
    } else {
      assert Intro(n) == NameText(n);
    }
  }

  /** A node with brackets, up to the last of its children. */
  lemma {:induction false} BracketRun(n: Node, above: Option<Type>, inArray: bool, m: Machine)
    requires Printable(n, above, inArray) && !n.Bare(above) && !n.IsScalar()
    requires m == At(m.above, Empty(), 0, true, m.used)
    ensures var text := Intro(n) + [OpenChar(n)] + Kids(n.kids, n.typ);
            var r := Run(Going(m), text);
            && r.Going? && r.m.used == m.used + |text|
               && Inside(n, |n.kids|, m.above, Opened(WithName(n.Name()), OpenChar(n)), r.m)
    decreases n, 3, 0
  {
    hide Run; hide Inside; hide Kids; hide Intro;
    IntroRun(n, m);
    WithNameReads(n.Name());
    var a := Run(Going(m), Intro(n)).m;
    RunJoin(Going(m), Intro(n), [OpenChar(n)]);
    OpenRun(n, a);
    var b := Run(Going(a), [OpenChar(n)]).m;
    RunJoin(Going(m), Intro(n) + [OpenChar(n)], Kids(n.kids, n.typ));
    KidsRun(n, above, inArray, a.above, Opened(a.cur, OpenChar(n)), b);
  }

  lemma BracketPrint(n: Node, above: Option<Type>)
    requires !n.Bare(above) && !n.IsScalar()
    ensures Print(n, above) == Intro(n) + [OpenChar(n)] + Kids(n.kids, n.typ) + [CloseChar(n)]
  {
    hide NameText; hide Kids;
  }

  lemma BareRun(n: Node, above: Option<Type>, m: Machine)
    requires n.Bare(above) && Printable(n, above, InArray(m.above)) && m == At(m.above, Empty(), 0, true, m.used)
    ensures var r := Run(Going(m), Print(n, above)); r.Going? && Done(n, above, m, r.m, |Print(n, above)|)
  {
    hide Run; hide NameText;
    assert Print(n, above) == NameText(n);
    NameRun(n, m);
    WithNameReads(n.Name());
    if |n.Name()| >= NAME_SIZE {
      TextSuffix(n.mem, 0, NAME_SIZE);
    }
  }

  lemma ScalarNodeRun(n: Node, above: Option<Type>, m: Machine)
    requires !n.Bare(above) && n.IsScalar() && Printable(n, above, InArray(m.above))
             && m == At(m.above, Empty(), 0, true, m.used)
    ensures var r := Run(Going(m), Print(n, above)); r.Going? && Done(n, above, m, r.m, |Print(n, above)|)
  {
    hide Run; hide NameText; hide ScalarText; hide Text;
    assert Print(n, above) == Intro(n) + ScalarText(n);
    IntroRun(n, m);
    RunJoin(Going(m), Intro(n), ScalarText(n));
    ScalarRun(n, Run(Going(m), Intro(n)).m);
    TextLies(n.mem, NAME_SIZE);
    WithValueReads(n.Name(), n.Value());
  }

  /** A node below another. */
  lemma {:induction false} NodeRun(n: Node, above: Option<Type>, m: Machine)
    requires Printable(n, above, InArray(m.above)) && m == At(m.above, Empty(), 0, true, m.used) && m.above != []
    ensures var r := Run(Going(m), Print(n, above)); r.Going? && Done(n, above, m, r.m, |Print(n, above)|)
    decreases n, 4, 0
  {
    hide Run; hide Print; hide Inside; hide Kids; hide Intro;
    if n.Bare(above) {
      BareRun(n, above, m);
    } else if n.IsScalar() {
      ScalarNodeRun(n, above, m);
    } else {
      BracketRun(n, above, InArray(m.above), m);
      BracketPrint(n, above);
      var text := Intro(n) + [OpenChar(n)] + Kids(n.kids, n.typ);
      var p := Opened(WithName(n.Name()), OpenChar(n));
      RunJoin(Going(m), text, [CloseChar(n)]);
      var last := Run(Going(m), text).m;
      CloseRun(n, |n.kids|, m.above, p, last);
      OpenedReads(n.Name(), n);
      ClosesSame(n, above, m.above, p, last);
    }
  }

  lemma {:induction false} DecodedStays(r: Result, text: string)
    requires r.Decoded?
    ensures Run(r, text) == r
    decreases |text|
  {
    if text != "" {
      DecodedStays(r, text[..|text| - 1]);
    }
  }

  /**
    Decoding the text of an object or array, with anything after it, gives a
    tree with the same names, values and shape, and uses exactly the characters
    that encoding wrote.
   */
  lemma RoundTrip(n: Node, above: Option<Type>, more: string)
    requires Printable(n, above, false) && !n.Bare(above) && !n.IsScalar()
    ensures var r := Run(Going(Begin()), Print(n, above) + more);
            r.Decoded? && Same(n, above, r.tree) && r.used == |Print(n, above)|
  {
    hide Run; hide Print; hide Inside; hide Kids; hide Intro;
    var m := Begin();
    BracketRun(n, above, false, m);
    BracketPrint(n, above);
    var text := Intro(n) + [OpenChar(n)] + Kids(n.kids, n.typ);
    var p := Opened(WithName(n.Name()), OpenChar(n));
    RunJoin(Going(m), text, [CloseChar(n)]);
    var last := Run(Going(m), text).m;
    CloseRun(n, |n.kids|, m.above, p, last);
    OpenedReads(n.Name(), n);
    ClosesSame(n, above, m.above, p, last);
    RunJoin(Going(m), Print(n, above), more);
    DecodedStays(Run(Going(m), Print(n, above)), more);
  }
}
