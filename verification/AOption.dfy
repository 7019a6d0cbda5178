/** Option trees, and the text they are printed as. */
module AOption {
  import opened Wrappers

  const NUL: char := 0 as char
  const NAME_SIZE: nat := 32
  const VALUE_SIZE: nat := 144

  datatype Type = AnyType | FalseType | TrueType | NullType | NumberType | DoubleType | StringType | ArrayType
      | ObjectType

  /** The bytes of a node's name and value, which lie next to each other: a long name runs into the value. */
  type Memory = m: seq<char> | |m| == NAME_SIZE + VALUE_SIZE witness seq(NAME_SIZE + VALUE_SIZE, _ => 0 as char)

  /** An option: its memory, the lengths that decoding keeps, its type and its children. */
  datatype Node = Node(mem: Memory, nameLen: nat, valueLen: nat, typ: Type, kids: seq<Node>) {
    function Name(): string { Text(mem, 0) }

    function Value(): string { Text(mem, NAME_SIZE) }

    predicate Named() { mem[0] != NUL }

    /** The array test: by type, or by the first character of the value. */
    predicate IsArray() { typ.ArrayType? || mem[NAME_SIZE] == '[' }

    predicate IsScalar() { !IsArray() && !typ.ObjectType? && kids == [] }

    /** Printed by its name alone, below a node of type `above`. */
    predicate Bare(above: Option<Type>) {
      && ((mem[NAME_SIZE] == NUL && typ.AnyType?) || nameLen >= NAME_SIZE)
      && kids == [] && above != Some(ObjectType)
    }
  }

  /** The string that begins at a position and ends before the next zero character. */
  function Text(mem: seq<char>, from: nat): (text: string)
    ensures |text| <= if from <= |mem| then |mem| - from else 0
    ensures from < |mem| && mem[from] != NUL ==> text != ""
    decreases |mem| - from
  {
    if from >= |mem| || mem[from] == NUL then "" else [mem[from]] + Text(mem, from + 1)
  }

  // ----- the text of a tree -----

  /** A quotation mark, unless the character beside it is one. */
  function Mark(c: char): string { if c == '"' then "" else "\"" }

  function NameText(n: Node): string {
    if n.Named() then Mark(n.mem[0]) + n.Name() + Mark(n.mem[|n.Name()| - 1]) else ""
  }

  predicate IsDigit(c: char) { '0' <= c <= '9' }

  predicate Unquoted(n: Node) {
    && !n.typ.StringType?
    && (|| n.typ.FalseType? || n.typ.TrueType? || n.typ.NullType? || n.typ.NumberType?
        || n.mem[NAME_SIZE] == '+' || n.mem[NAME_SIZE] == '-' || IsDigit(n.mem[NAME_SIZE]))
  }

  /** The text of a scalar's value; the closing mark looks at the byte before the value when that is empty. */
  function ScalarText(n: Node): string {
    if Unquoted(n) then n.Value() else Mark(n.mem[NAME_SIZE]) + n.Value() + Mark(n.mem[NAME_SIZE + |n.Value()| - 1])
  }

  /** What a recursive printer writes for a node below one of type `above`. */
  function Print(n: Node, above: Option<Type>): string
    decreases n, 1
  {
    NameText(n) + if n.Bare(above) then "" else (if n.Named() then ":" else "") + Inner(n)
  }

  function Inner(n: Node): string
    decreases n, 0
  {
    if n.IsArray() then "[" + Kids(n.kids, n.typ) + "]"
    else if n.IsScalar() then ScalarText(n)
    else "{" + Kids(n.kids, n.typ) + "}"
  }

  function Kids(kids: seq<Node>, typ: Type): string
    decreases kids, |kids| + 1
  {
    if kids == [] then "" else Print(kids[0], Some(typ)) + Tail(kids, typ, 1)
  }

  /** The children from the k-th on, each after a comma. */
  function Tail(kids: seq<Node>, typ: Type, k: nat): string
    decreases kids, |kids| - k
  {
    if k >= |kids| then "" else "," + Print(kids[k], Some(typ)) + Tail(kids, typ, k + 1)
  }

  // ----- the walk that prints -----

  /**
    The callback that takes the text: what it has taken, and what it will answer; a negative answer refuses the
    text.
   */
  class Sink {
    var text: string
    var answers: seq<int>

    constructor (answers: seq<int>)
      ensures text == "" && this.answers == answers
    {
      text := "";
      this.answers := answers;
    }

    method Write(s: string) returns (ret: int)
      modifies this
      ensures ret == if old(answers) == [] then 0 else old(answers)[0]
      ensures answers == if old(answers) == [] then [] else old(answers)[1..]
      ensures text == if ret < 0 then old(text) else old(text) + s
    {
      ret := 0;
      if answers != [] {
        ret, answers := answers[0], answers[1..];
      }
      if ret >= 0 {
        text := text + s;
      }
    }
  }

  /** A node on the way from the root to the current one: the parent, and which child comes next on the way. */
  datatype Frame = Frame(parent: Node, k: nat)

  /** The parent pointers from the current node to the root. */
  predicate Chain(root: Node, cur: Node, path: seq<Frame>)
    decreases |path|
  {
    if path == [] then cur == root
    else
      var f := path[|path| - 1];
      f.k < |f.parent.kids| && cur == f.parent.kids[f.k] && Chain(root, f.parent, path[..|path| - 1])
  }

  function Above(path: seq<Frame>, above: Option<Type>): Option<Type> {
    if path == [] then above else Some(path[|path| - 1].parent.typ)
  }

  function Close(n: Node): string { if n.IsArray() then "]" else "}" }

  /** What is still to be written once the current node is done. */
  function Rest(path: seq<Frame>): string {
    if path == [] then ""
    else
      var f := path[|path| - 1];
      Tail(f.parent.kids, f.parent.typ, f.k + 1) + (Close(f.parent) + Rest(path[..|path| - 1]))
  }

  /** All that is left to write. */
  function Left(cur: Node, path: seq<Frame>, above: Option<Type>, atNode: bool): string {
    (if atNode then Print(cur, Above(path, above)) else "") + Rest(path)
  }

  predicate Agreeable(answers: seq<int>) { forall i :: 0 <= i < |answers| ==> answers[i] >= 0 }

  /** One piece of text; `size` counts what has been written, or carries the refusal. */
  method Put(s: string, sink: Sink, size: int, ghost todo: string, ghost goal: string,
      ghost start: nat) returns (size': int)
    requires size >= 0 ==> sink.text + (s + todo) == goal && |sink.text| == start + size
    requires size < 0 ==> sink.text <= goal
    modifies sink
    ensures size' >= 0 ==>
            size >= 0 && sink.text + todo == goal && sink.text == old(sink.text) + s
            && |sink.text| == start + size'
    ensures size' < 0 ==> sink.text <= goal
    ensures |sink.text| >= |old(sink.text)|
    ensures size >= 0 && Agreeable(old(sink.answers)) ==> size' >= 0 && Agreeable(sink.answers)
  {
    if size < 0 {
      return size;
    }
    var ret := sink.Write(s);
    if ret < 0 {
      return ret;
    }
    size' := size + |s|;
  }

  lemma Assoc(a: string, b: string, c: string, d: string)
    ensures a + b + c + d == a + (b + (c + d))
  {
  }

  /** The name of a node. */
  method PutName(n: Node, sink: Sink, size: int, ghost todo: string, ghost goal: string,
      ghost start: nat) returns (size': int)
    requires size >= 0 && sink.text + (NameText(n) + todo) == goal && |sink.text| == start + size
    modifies sink
    ensures size' >= 0 ==> sink.text + todo == goal && |sink.text| == start + size'
    ensures size' < 0 ==> sink.text <= goal
    ensures |sink.text| >= |old(sink.text)|
    ensures Agreeable(old(sink.answers)) ==> size' >= 0 && Agreeable(sink.answers)
  {
    if !n.Named() {
      return size;
    }
    hide Mark; hide Text;
    var name := n.Name();
    var a, z := Mark(n.mem[0]), Mark(n.mem[|name| - 1]);
    Assoc(a, name, z, todo);
    size' := Put(a, sink, size, name + (z + todo), goal, start);
    size' := Put(name, sink, size', z + todo, goal, start);
    size' := Put(z, sink, size', todo, goal, start);
  }

  /** The value of a scalar. */
  method PutScalar(n: Node, sink: Sink, size: int, ghost todo: string, ghost goal: string,
      ghost start: nat) returns (size': int)
    requires size >= 0 && sink.text + (ScalarText(n) + todo) == goal && |sink.text| == start + size
    modifies sink
    ensures size' >= 0 ==> sink.text + todo == goal && |sink.text| == start + size'
    ensures size' < 0 ==> sink.text <= goal
    ensures |sink.text| >= |old(sink.text)|
    ensures Agreeable(old(sink.answers)) ==> size' >= 0 && Agreeable(sink.answers)
  {
    hide Mark; hide Text;
    var value := n.Value();
    if Unquoted(n) {
      size' := Put(value, sink, size, todo, goal, start);
    } else {
      var a, z := Mark(n.mem[NAME_SIZE]), Mark(n.mem[NAME_SIZE + |value| - 1]);
      Assoc(a, value, z, todo);
      size' := Put(a, sink, size, value + (z + todo), goal, start);
      size' := Put(value, sink, size', z + todo, goal, start);
      size' := Put(z, sink, size', todo, goal, start);
    }
  }

  /** One visit of a node: its name, and then its value or the bracket that opens its children. */
  method Visit(n: Node, above: Option<Type>, sink: Sink, size: int, ghost rest: string, ghost goal: string,
      ghost start: nat)
    returns (size': int, down: bool)
    requires size >= 0 && sink.text + (Print(n, above) + rest) == goal && |sink.text| == start + size
    modifies sink
    ensures down ==>
            size' >= 0 && n.kids != [] && |sink.text| > |old(sink.text)|
            && sink.text + (Print(n.kids[0], Some(n.typ)) + (Tail(n.kids, n.typ, 1) + (Close(n) + rest))) == goal
    ensures size' >= 0 && !down ==> sink.text + rest == goal
    ensures |sink.text| >= |old(sink.text)| && (size' >= 0 ==> |sink.text| == start + size')
    ensures size' < 0 ==> sink.text <= goal
    ensures Agreeable(old(sink.answers)) ==> size' >= 0 && Agreeable(sink.answers)
  {
    hide NameText; hide ScalarText; hide Tail;
    down := false;
    ghost var body := if n.Bare(above) then "" else (if n.Named() then ":" else "") + Inner(n);
    assert NameText(n) + (body + rest) == Print(n, above) + rest;
    size' := PutName(n, sink, size, body + rest, goal, start);
    if size' < 0 || n.Bare(above) {
      assert body + rest == rest || size' < 0;
      return;
    }
    assert body + rest == (if n.Named() then ":" else "") + (Inner(n) + rest);
    if n.Named() {
      size' := Put(":", sink, size', Inner(n) + rest, goal, start);
    }
    if size' < 0 {
      return;
    }
    if n.IsScalar() {
      size' := PutScalar(n, sink, size', rest, goal, start);
      return;
    }
    var open := if n.IsArray() then "[" else "{";
    ghost var inside := Kids(n.kids, n.typ) + (Close(n) + rest);
    assert Inner(n) + rest == open + inside;
    size' := Put(open, sink, size', inside, goal, start);
    if size' < 0 {
      return;
    }
    if n.kids != [] {
      assert inside == Print(n.kids[0], Some(n.typ)) + (Tail(n.kids, n.typ, 1) + (Close(n) + rest));
      down := true;
    } else {
      assert inside == Close(n) + rest;
      size' := Put(Close(n), sink, size', rest, goal, start);
    }
  }

  lemma GoDown(root: Node, cur: Node, path: seq<Frame>, above: Option<Type>)
    requires Chain(root, cur, path) && cur.kids != []
    ensures var down := path + [Frame(cur, 0)];
            && Chain(root, cur.kids[0], down)
            && Left(cur.kids[0], down, above, true)
               == Print(cur.kids[0], Some(cur.typ)) + (Tail(cur.kids, cur.typ, 1) + (Close(cur) + Rest(path)))
  {
    hide Print; hide Tail;
    assert (path + [Frame(cur, 0)])[..|path|] == path;
  }

  lemma GoUp(root: Node, cur: Node, path: seq<Frame>)
    requires Chain(root, cur, path) && path != [] && path[|path| - 1].k == |path[|path| - 1].parent.kids| - 1
    ensures var f, up := path[|path| - 1], path[..|path| - 1];
            Chain(root, f.parent, up) && Rest(path) == Close(f.parent) + Rest(up)
  {
    hide Print;
  }

  lemma NextChain(root: Node, cur: Node, up: seq<Frame>, f: Frame)
    requires Chain(root, cur, up + [f]) && f.k + 1 < |f.parent.kids|
    ensures Chain(root, f.parent.kids[f.k + 1], up + [Frame(f.parent, f.k + 1)])
  {
    hide Print; hide Tail;
    assert (up + [f])[..|up|] == up;
    assert (up + [Frame(f.parent, f.k + 1)])[..|up|] == up;
  }

  lemma NextRest(up: seq<Frame>, parent: Node, k: nat, above: Option<Type>)
    requires k + 1 < |parent.kids|
    ensures Rest(up + [Frame(parent, k)]) == "," + Left(parent.kids[k + 1], up + [Frame(parent, k + 1)], above, true)
  {
    hide Print; hide Close; hide Tail; hide Rest;
    TailNext(parent.kids, parent.typ, k + 1);
    RestAfter(up, Frame(parent, k));
    RestAfter(up, Frame(parent, k + 1));
    Regroup(",", Print(parent.kids[k + 1], Some(parent.typ)), Tail(parent.kids, parent.typ, k + 2),
        Close(parent) + Rest(up));
  }

  lemma GoNext(root: Node, cur: Node, up: seq<Frame>, f: Frame, above: Option<Type>)
    requires Chain(root, cur, up + [f]) && f.k + 1 < |f.parent.kids|
    ensures var next := up + [Frame(f.parent, f.k + 1)];
            && Chain(root, f.parent.kids[f.k + 1], next)
            && Rest(up + [f]) == "," + Left(f.parent.kids[f.k + 1], next, above, true)
  {
    NextChain(root, cur, up, f);
    NextRest(up, f.parent, f.k, above);
  }

  lemma TailNext(kids: seq<Node>, typ: Type, k: nat)
    requires k < |kids|
    ensures Tail(kids, typ, k) == "," + Print(kids[k], Some(typ)) + Tail(kids, typ, k + 1)
  {
  }

  lemma RestAfter(up: seq<Frame>, f: Frame)
    ensures Rest(up + [f]) == Tail(f.parent.kids, f.parent.typ, f.k + 1) + (Close(f.parent) + Rest(up))
  {
    hide Print; hide Tail; hide Close;
    assert (up + [f])[..|up|] == up;
  }

  lemma Regroup(a: string, b: string, c: string, d: string)
    ensures a + b + c + d == a + (b + (c + d))
  {
  }

  lemma Within(start: string, text: string, goal: string)
    requires start <= goal && text <= goal && |start| <= |text|
    ensures start <= text
  {
  }

  /**
    AOptionEncode: the walk over children, brothers and parents writes what the
    recursive printer writes, and returns its length; a refusal of the callback
    ends it with part of that text.
   */
  method Encode(option: Node, above: Option<Type>, sink: Sink) returns (size: int)
    modifies sink
    ensures size >= 0 ==> sink.text == old(sink.text) + Print(option, above) && size == |Print(option, above)|
    ensures size < 0 ==> old(sink.text) <= sink.text <= old(sink.text) + Print(option, above)
    ensures Agreeable(old(sink.answers)) ==> size >= 0
  {
    hide Print; hide Tail; hide Chain; hide Rest;
    ghost var goal, start := sink.text + Print(option, above), |sink.text|;
    size := Walk(option, above, sink, goal, start);
    if size < 0 {
      Within(old(sink.text), sink.text, goal);
    }
  }

  method Walk(option: Node, above: Option<Type>, sink: Sink, ghost goal: string, ghost start: nat) returns (size: int)
    requires goal == sink.text + Print(option, above) && start == |sink.text|
    modifies sink
    ensures |sink.text| >= start && sink.text <= goal
    ensures size >= 0 ==> sink.text == goal && |sink.text| == start + size
    ensures Agreeable(old(sink.answers)) ==> size >= 0
  {
    hide Print; hide Tail; hide Chain; hide Rest;
    var current: Node, path: seq<Frame>, atNode := option, [], true;
    size := 0;
    LeftAll(option, above);
    while true
      invariant Chain(option, current, path)
      invariant size >= 0 && |sink.text| == start + size
      invariant sink.text + Left(current, path, above, atNode) == goal
      invariant Agreeable(old(sink.answers)) ==> Agreeable(sink.answers)
      decreases |goal| - |sink.text|, atNode
    {
      if atNode {
        var down;
        size, down := Visit(current, Above(path, above), sink, size, Rest(path), goal, start);
        if down {
          GoDown(option, current, path, above);
          current, path := current.kids[0], path + [Frame(current, 0)];
        } else {
          atNode := false;
        }
      } else if path == [] {
        RestNone();
        return;
      } else {
        var f, up := path[|path| - 1], path[..|path| - 1];
        ChainFits(option, current, path);
        if f.k == |f.parent.kids| - 1 {
          GoUp(option, current, path);
          current, path := f.parent, up;
          size := Put(Close(current), sink, size, Rest(path), goal, start);
        } else {
          assert path == up + [f];
          GoNext(option, current, up, f, above);
          current, path, atNode := f.parent.kids[f.k + 1], up + [Frame(f.parent, f.k + 1)], true;
          size := Put(",", sink, size, Left(current, path, above, true), goal, start);
        }
      }
      if size < 0 {
        return;
      }
    }
  }

  lemma LeftAll(option: Node, above: Option<Type>)
    ensures Chain(option, option, []) && Left(option, [], above, true) == Print(option, above)
  {
  }

  lemma RestNone()
    ensures Rest([]) == ""
  {
  }

  lemma ChainFits(root: Node, cur: Node, path: seq<Frame>)
    requires Chain(root, cur, path) && path != []
    ensures path[|path| - 1].k < |path[|path| - 1].parent.kids|
  {
  }
}
