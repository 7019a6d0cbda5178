/** Reading an option tree back from its text, one character at a time. */
module AOptionDecode {
  import opened Wrappers
  import opened AOption

  /** A node without name, value or children. */
  function Empty(): Cell { Node(seq(NAME_SIZE + VALUE_SIZE, _ => NUL), 0, 0, AnyType, []) }

  /** The lengths that decoding keeps stay inside the node's memory. */
  predicate Fits(n: Node) { n.nameLen < NAME_SIZE + VALUE_SIZE && n.valueLen < VALUE_SIZE }

  type Cell = n: Node | Fits(n) witness Node(seq(NAME_SIZE + VALUE_SIZE, _ => 0 as char), 0, 0, AnyType, [])

  /** How long a name may grow: a child of an array may use the memory of its value as well. */
  function NameLimit(inArray: bool): nat { NAME_SIZE - 1 + if inArray then VALUE_SIZE else 0 }

  function SetChar(n: Cell, inArray: bool, c: char, keysep: nat): Cell {
    if keysep == 0 && n.nameLen < NameLimit(inArray) then n.(mem := n.mem[n.nameLen := c], nameLen := n.nameLen + 1)
    else if keysep == 1 && n.valueLen < VALUE_SIZE - 1
        then n.(mem := n.mem[NAME_SIZE + n.valueLen := c], valueLen := n.valueLen + 1)
    else n
  }

  function EndKeyOrValue(n: Cell, keysep: nat): Cell {
    if keysep == 0 then n.(mem := n.mem[n.nameLen := NUL])
    else if keysep == 1 then n.(mem := n.mem[NAME_SIZE + n.valueLen := NUL])
    else n
  }

  /** What a character stands for after a backslash; none for the start of a code point, which is dropped. */
  function Unslash(c: char): Option<char> {
    if c == 'b' then Some(8 as char) else if c == 'f' then Some(12 as char) else if c == 'n' then Some('\n')
    else if c == 'r' then Some('\r') else if c == 't' then Some('\t') else if c == 'u' then None else Some(c)
  }

  /**
    The machine between two characters: the nodes above the current one, each
    with its finished children, the open quotation mark, the flags, the number
    of separators seen in the current node, whether the last character ended a
    word (`sep == name`), and how many characters have been read.
   */
  datatype Machine = Machine(above: seq<Cell>, cur: Cell, ident: char, comment: bool, keysep: nat, slash: bool,
      ended: bool, used: nat)

  datatype Result = Going(m: Machine) | Decoded(tree: Node, used: nat) | Refused

  function Begin(): Machine { Machine([], Empty(), NUL, false, 0, false, true, 0) }

  predicate InArray(above: seq<Cell>) { above != [] && above[|above| - 1].typ.ArrayType? }

  function Put(m: Machine, c: char): Machine {
    m.(cur := SetChar(m.cur, InArray(m.above), c, m.keysep), ended := false)
  }

  /** The current node with its open word ended. */
  function Settled(m: Machine): Cell { if m.ended then m.cur else EndKeyOrValue(m.cur, m.keysep) }

  function Opened(n: Cell, c: char): Cell {
    if n.mem[NAME_SIZE] != NUL then n
    else if c == '[' then n.(mem := n.mem[NAME_SIZE := '['][NAME_SIZE + 1 := NUL], typ := ArrayType)
    else n.(typ := ObjectType)
  }

  /** The empty child that an opening bracket or a comma has made in vain. */
  predicate InVain(n: Node) { n.mem[0] == NUL && n.typ.AnyType? && n.kids == [] }

  function Closed(parent: Cell, child: Cell): Cell {
    if InVain(child) then parent else parent.(kids := parent.kids + [child])
  }

  predicate IsQuote(c: char) { c == '"' || c == '\'' || c == '`' }

  predicate IsBlank(c: char) { c == ' ' || c == '\t' || c == '\n' || c == '\r' || c == ':' || c == '=' || c == '#' }

  /**
    A bracket, comma, quotation mark, blank or ordinary character outside quotation marks and comments; `m` has
    counted it.
   */
  function Switch(m: Machine, c: char): Result {
    if c == '{' || c == '[' then
      Going(m.(above := m.above + [Opened(Settled(m), c)], cur := Empty(), keysep := 0, ended := true))
    else if c == '}' || c == ']' then
      if m.above == [] then Refused
      else
        var up := m.above[..|m.above| - 1];
        var closed := Closed(m.above[|m.above| - 1], Settled(m));
        if up == [] then Decoded(closed, m.used) else Going(m.(above := up, cur := closed, keysep := 0, ended := true))
    else if c == ',' then
      if m.above == [] then Refused
      else
        var parent := m.above[|m.above| - 1];
        Going(m.(above := m.above[..|m.above| - 1] + [parent.(kids := parent.kids + [Settled(m)])], cur := Empty(),
            keysep := 0, ended := true))
    else if IsQuote(c) || IsBlank(c) then
      var opens := IsQuote(c) && m.ident == NUL;
      var cur := Settled(m);
      var tagged := if opens && m.keysep == 1 && m.cur.typ.AnyType? then cur.(typ := StringType) else cur;
      var ident := if opens then c else if IsQuote(c) then NUL else m.ident;
      var keysep := if m.ended then m.keysep else (m.keysep + 1) % 256;
      Going(Machine(m.above, tagged, ident, c == '#', keysep, m.slash, true, m.used))
    else Going(Put(m, c))
  }

  function Step(m: Machine, c: char): Result {
    var n := m.(used := m.used + 1);
    if c == NUL then
      if m.above == [] then Decoded(EndKeyOrValue(m.cur, m.keysep), m.used) else Refused
    else if m.ident != NUL && m.slash then
      var d := Unslash(c);
      var put := if d.Some? then Put(n, d.value) else n;
      Going(put.(slash := false, ended := false))
    else if m.ident != NUL && c == '\\' then Going(n.(slash := true, ended := false))
    else if m.ident != NUL && c != m.ident then Going(Put(n, c))
    else if m.comment && c != '\n' then Going(n.(ended := true))
    else Switch(n.(comment := false), c)
  }

  function Next(r: Result, c: char): Result { if r.Going? then Step(r.m, c) else r }

  function Run(r: Result, text: string): Result {
    if text == "" then r else Next(Run(r, text[..|text| - 1]), text[|text| - 1])
  }

  // ----- the loop over the text -----

  const EINVAL: int := 22

  /** What AOptionDecode returns for a result of the machine; a failure releases the tree. */
  predicate Returns(r: Result, option: Option<Node>, result: int) {
    match r
    case Decoded(tree, used) => option == Some(tree) && result == used
    case _ => option == None && result == -EINVAL
  }

  lemma RunNext(r: Result, text: string, i: nat)
    requires i < |text|
    ensures Run(r, text[..i + 1]) == Next(Run(r, text[..i]), text[i])
  {
    hide Next;
    assert text[..i + 1][..i] == text[..i];
  }

  lemma {:induction false} RunStops(r: Result, text: string, i: nat)
    requires i <= |text| && !Run(r, text[..i]).Going?
    ensures Run(r, text) == Run(r, text[..i])
    decreases |text|
  {
    hide Step;
    if i == |text| {
      assert text[..i] == text;
    } else {
      assert text[..|text| - 1][..i] == text[..i];
      RunStops(r, text[..|text| - 1], i);
    }
  }

  /** AOptionDecode: the loop with its flags, its pointer to the start of the word, and the nesting depth. */
  method Decode(text: string) returns (option: Option<Node>, result: int)
    ensures Returns(Run(Going(Begin()), text), option, result)
  {
    hide Run; hide SetChar; hide EndKeyOrValue; hide Opened; hide InVain; hide Empty;
    var above: seq<Cell>, current: Cell := [], Empty();
    var ident, comment, slash := NUL, false, false;
    var keysep: nat, name: nat, sep: nat := 0, 0, 0;
    var layer := 0;
    RunNothing(Going(Begin()));
    assert text[..0] == "";
    while sep != |text|
      invariant 0 <= name <= sep <= |text| && layer == |above|
      invariant Run(Going(Begin()), text[..sep])
                == Going(Machine(above, current, ident, comment, keysep, slash, sep == name, sep))
      decreases |text| - sep
    {
      var c := text[sep];
      RunNext(Going(Begin()), text, sep);
      ghost var m := Machine(above, current, ident, comment, keysep, slash, sep == name, sep);
      assert Run(Going(Begin()), text[..sep + 1]) == Step(m, c);
      if c == NUL {
        current := EndKeyOrValue(current, keysep);
        RunStops(Going(Begin()), text, sep + 1);
        if layer == 0 {
          return Some(current), sep;
        }
        return None, -EINVAL;
      }
      var inArray := InArray(above);
      if ident != NUL && slash {
        var d := Unslash(c);
        if d.Some? {
          current := SetChar(current, inArray, d.value, keysep);
        }
        slash := false;
      } else if ident != NUL && c == '\\' {
        slash := true;
      } else if ident != NUL && c != ident {
        current := SetChar(current, inArray, c, keysep);
      } else if comment && c != '\n' {
        name := sep + 1;
      } else {
        comment := false;
        if c == '{' || c == '[' {
          if sep != name {
            current := EndKeyOrValue(current, keysep);
          }
          current := Opened(current, c);
          above, current := above + [current], Empty();
          layer, keysep, name := layer + 1, 0, sep + 1;
        } else if c == '}' || c == ']' {
          if sep != name {
            current := EndKeyOrValue(current, keysep);
          }
          layer := layer - 1;
          if layer < 0 {
            RunStops(Going(Begin()), text, sep + 1);
            return None, -EINVAL;
          }
          var parent := above[layer];
          if InVain(current) {
            current := parent;
          } else {
            current := parent.(kids := parent.kids + [current]);
          }
          above := above[..layer];
          if layer == 0 {
            RunStops(Going(Begin()), text, sep + 1);
            return Some(current), sep + 1;
          }
          keysep, name := 0, sep + 1;
        } else if c == ',' {
          if sep != name {
            current := EndKeyOrValue(current, keysep);
          }
          if layer == 0 {
            RunStops(Going(Begin()), text, sep + 1);
            return None, -EINVAL;
          }
          var parent := above[layer - 1];
          above := above[..layer - 1] + [parent.(kids := parent.kids + [current])];
          current := Empty();
          keysep, name := 0, sep + 1;
        } else if IsQuote(c) || IsBlank(c) {
          var tag := false;
          if IsQuote(c) {
            if ident == NUL {
              ident := c;
              tag := keysep == 1 && current.typ.AnyType?;
            } else {
              assert ident == c;
              ident := NUL;
            }
          }
          if sep != name {
            current := EndKeyOrValue(current, keysep);
            keysep := (keysep + 1) % 256;
          }
          if tag {
            current := current.(typ := StringType);
          }
          name := sep + 1;
          if c == '#' {
            comment := true;
          }
        } else {
          current := SetChar(current, inArray, c, keysep);
        }
      }
      sep := sep + 1;
    }
    assert text[..sep] == text;
    return None, -EINVAL;
  }

  lemma RunNothing(r: Result)
    ensures Run(r, "") == r
  {
  }
}
