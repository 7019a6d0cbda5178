/** iot/mqtt_codec.c, receiving: the packet machine as a function of its bytes, and the codec that runs it. */
module MqttCodec {
  import opened Wrappers

  type Byte = x: int | 0 <= x < 256

  const CONNACK := 0x20
  const PUBLISH := 0x30
  const PUBACK := 0x40
  const PUBREC := 0x50
  const PUBREL := 0x60
  const PUBCOMP := 0x70
  const SUBACK := 0x90
  const UNSUBACK := 0xB0
  const PINGRESP := 0xD0
  const ERROR := 0xE1
  const UNKNOWN := 0xE2

  datatype Phase = FixedHeader | VarHeader

  datatype Qos = AtMostOnce | AtLeastOnce | ExactlyOnce | Failure

  /** PUBLISH_MSG. The topic is a C string without its terminator, or a null pointer. */
  datatype PublishMsg = PublishMsg(id: nat, topic: Option<seq<Byte>>, qos: Qos, payload: seq<Byte>,
                                   duplicate: bool, retained: bool)

  /** The last argument of packetComplete. Beyond stands for whatever a reader that leaves the body comes back with. */
  datatype Info =
    | NoInfo
    | Connack(present: bool, code: nat)
    | Publish(msg: PublishMsg)
    | Ack(id: nat)
    | Suback(subId: nat, codes: seq<Byte>)
    | Beyond

  /** One call of packetComplete: the buffer has `size` bytes and `body` of them are written. */
  datatype Packet = Packet(kind: nat, flags: nat, size: nat, body: seq<Byte>, info: Info)

  /** MQTTCODEC_INSTANCE. A null buffer has size zero, and `got` is what lies before bufferOffset. */
  datatype Codec = Codec(phase: Phase, kind: nat, flags: nat, store: seq<Byte>, index: nat, size: nat, got: seq<Byte>)

  const ZEROS: seq<Byte> := [0, 0, 0, 0]

  const START := Codec(FixedHeader, UNKNOWN, 0, ZEROS, 0, 0, [])

  predicate Valid(c: Codec) {
    |c.store| == 4 && c.index <= 4 &&
    if c.phase.FixedHeader? then c.size == 0 && c.got == [] else |c.got| < c.size || c.size == |c.got| == 0
  }

  /** The remaining length the stored digits stand for, and whether the reader gave up at the fourth. */
  function Remaining(store: seq<Byte>, i: nat): (r: (nat, bool))
    requires i < 4 == |store|
    decreases 4 - i
  {
    if i == 3 then (store[3] % 128, false)
    else if store[i] < 128 then (store[i], true)
    else var rest := Remaining(store, i + 1); (store[i] % 128 + 128 * rest.0, rest.1)
  }

  /** The weight of a digit. */
  function Weight(i: nat): nat
    requires i < 4
  {
    if i == 0 then 1 else if i == 1 then 128 else if i == 2 then 128 * 128 else 128 * 128 * 128
  }

  /** The digits before `i` add up to `total`. */
  ghost predicate Added(store: seq<Byte>, i: nat, total: nat)
    requires i < 4 == |store|
  {
    Remaining(store, 0) == (total + Weight(i) * Remaining(store, i).0, Remaining(store, i).1)
  }

  lemma AddsNone(store: seq<Byte>)
    requires |store| == 4
    ensures Added(store, 0, 0)
  {
  }

  lemma AddDigit(store: seq<Byte>, i: nat, total: nat)
    requires i < 4 == |store| && Added(store, i, total)
    ensures var sum := total + Weight(i) * (store[i] % 128);
            if i < 3 && store[i] >= 128 then Added(store, i + 1, sum) && Weight(i + 1) == Weight(i) * 128
            else Remaining(store, 0) == (sum, i < 3)
  {
    var d, r := store[i] % 128, Remaining(store, i);
    if i < 3 && store[i] >= 128 {
      var w, rest := Weight(i), Remaining(store, i + 1).0;
      assert w * (d + 128 * rest) == w * d + 128 * w * rest;
    } else {
      assert r.0 == d;
    }
  }

  function Prepare(c: Codec, b: Byte): (r: (Codec, bool))
    requires Valid(c) && c.phase.FixedHeader?
    ensures Valid(r.0)
  {
    if c.index == 4 then (c, false)
    else
      var store := c.store[c.index := b];
      if b >= 0x7f then (c.(store := store, index := c.index + 1), true)
      else
        var n := Remaining(store, 0);
        (Codec(VarHeader, c.kind, c.flags, ZEROS, 0, n.0, []), n.1)
  }

  function Word(s: seq<Byte>, i: nat): nat
    requires i + 2 <= |s|
  {
    (s[i] as int) * 256 + s[i + 1]
  }

  function QosOf(flags: nat): Qos {
    if flags == 0 then AtMostOnce else if flags / 2 % 2 == 1 then AtLeastOnce else ExactlyOnce
  }

  function ParsePublish(flags: nat, body: seq<Byte>): Info {
    if |body| < 2 then Beyond
    else
      var n := Word(body, 0);
      if n == 0 then NoInfo
      else if 2 + n > |body| then Beyond
      else
        var qos := QosOf(flags);
        var read := qos != AtMostOnce && 2 + n + 2 <= |body|;
        Publish(PublishMsg(if read then Word(body, 2 + n) else 0, Some(body[2..2 + n]), qos,
                           body[if read then 2 + n + 2 else 2 + n..], flags / 8 % 2 == 1, flags % 2 == 1))
  }

  /** completePacketData up to its call. An UNSUBACK reads its identifier two bytes too far. */
  function Parse(kind: nat, flags: nat, body: seq<Byte>): Info {
    if kind == CONNACK then
      if |body| < 2 then Beyond else Connack(body[0] == 1, body[1])
    else if kind == PUBLISH then ParsePublish(flags, body)
    else if kind == PUBACK || kind == PUBREC || kind == PUBREL || kind == PUBCOMP then
      Ack(if |body| < 2 then 0 else Word(body, 0))
    else if kind == SUBACK then
      if |body| < 2 then Beyond else Suback(Word(body, 0), body[2..])
    else if kind == UNSUBACK then
      if |body| < 2 then Ack(0) else if |body| < 4 then Beyond else Ack(Word(body, 2))
    else NoInfo
  }

  /** What one byte does: the codec after it, the call it makes if it makes one, and whether reading goes on. */
  datatype Outcome = Outcome(codec: Codec, sent: Option<Packet>, ok: bool)

  function Complete(c: Codec): Outcome {
    Outcome(Codec(FixedHeader, UNKNOWN, 0, c.store, c.index, 0, []),
            Some(Packet(c.kind, c.flags, c.size, c.got, Parse(c.kind, c.flags, c.got))), true)
  }

  function Next(c: Codec, b: Byte): (r: Outcome)
    requires Valid(c)
    ensures Valid(r.codec)
  {
    if c.phase.FixedHeader? then
      if c.kind == UNKNOWN then Outcome(c.(kind := b - b % 16, flags := b % 16), None, true)
      else
        var p := Prepare(c, b);
        if !p.1 then Outcome(p.0.(kind := ERROR), None, false)
        else if c.kind == PINGRESP then Complete(p.0)
        else Outcome(p.0, None, true)
    else if c.size == 0 then Outcome(c.(kind := ERROR), None, false)
    else
      var d := c.(got := c.got + [b]);
      if |d.got| == c.size then Complete(d) else Outcome(d, None, true)
  }

  /** What a run of bytes does. The rest of the call is dropped at the first failure. */
  datatype Fed = Fed(codec: Codec, sent: seq<Packet>, ok: bool)

  function Sent(p: Option<Packet>): seq<Packet> {
    if p.Some? then [p.value] else []
  }

  function Feed(c: Codec, bytes: seq<Byte>): (r: Fed)
    requires Valid(c)
    ensures Valid(r.codec)
    decreases |bytes|
  {
    if bytes == [] then Fed(c, [], true)
    else
      var n := Next(c, bytes[0]);
      if !n.ok then Fed(n.codec, Sent(n.sent), false)
      else var f := Feed(n.codec, bytes[1..]); Fed(f.codec, Sent(n.sent) + f.sent, f.ok)
  }

  /** Calls in a row; the first that fails ends the connection. */
  function FeedAll(c: Codec, calls: seq<seq<Byte>>): (r: Fed)
    requires Valid(c)
    ensures Valid(r.codec)
    decreases |calls|
  {
    if calls == [] then Fed(c, [], true)
    else
      var f := Feed(c, calls[0]);
      if !f.ok then f else var g := FeedAll(f.codec, calls[1..]); Fed(g.codec, f.sent + g.sent, g.ok)
  }

  function Join(calls: seq<seq<Byte>>): seq<Byte> {
    if calls == [] then [] else calls[0] + Join(calls[1..])
  }

  lemma {:induction false} FeedJoin(c: Codec, a: seq<Byte>, b: seq<Byte>)
    requires Valid(c)
    ensures var f := Feed(c, a);
            Feed(c, a + b) == if !f.ok then f else var g := Feed(f.codec, b); Fed(g.codec, f.sent + g.sent, g.ok)
    decreases |a|
  {
    hide Next;
    if a == [] {
      assert a + b == b;
    } else {
      assert (a + b)[1..] == a[1..] + b;
      FeedJoin(Next(c, a[0]).codec, a[1..], b);
    }
  }

  /** However the bytes are cut, the calls do what one call on all of them does. */
  lemma {:induction false} CutsAgree(c: Codec, calls: seq<seq<Byte>>)
    requires Valid(c)
    ensures FeedAll(c, calls) == Feed(c, Join(calls))
    decreases |calls|
  {
    hide Feed;
    if calls == [] {
      assert Feed(c, []) == Fed(c, [], true) by { Empty(c); }
    } else {
      FeedJoin(c, calls[0], Join(calls[1..]));
      var f := Feed(c, calls[0]);
      CutsAgree(f.codec, calls[1..]);
    }
  }

  /** One more byte. */
  lemma FeedOne(c: Codec, bytes: seq<Byte>, i: nat)
    requires Valid(c) && i < |bytes|
    ensures var f := Feed(c, bytes[..i]);
            if !f.ok then Feed(c, bytes) == f
            else
              var n := Next(f.codec, bytes[i]);
              Feed(c, bytes[..i + 1]) == Fed(n.codec, f.sent + Sent(n.sent), n.ok) &&
              (!n.ok ==> Feed(c, bytes) == Feed(c, bytes[..i + 1]))
  {
    hide Next;
    assert bytes == bytes[..i] + bytes[i..];
    FeedJoin(c, bytes[..i], bytes[i..]);
    assert bytes[..i + 1] == bytes[..i] + [bytes[i]];
    FeedJoin(c, bytes[..i], [bytes[i]]);
  }

  lemma Empty(c: Codec)
    requires Valid(c)
    ensures Feed(c, []) == Fed(c, [], true)
  {
  }

  /** The codec itself: the fields of MQTTCODEC_INSTANCE, with the calls of packetComplete recorded. */
  class Instance {
    var phase: Phase
    var kind: nat
    var flags: nat
    const store: array<Byte>
    var index: nat
    var header: array?<Byte>
    var offset: nat
    var sent: seq<Packet>

    ghost predicate Good()
      reads this, store, header
    {
      store.Length == 4 && (header != null ==> header != store && offset < header.Length) &&
      (phase.FixedHeader? ==> header == null) && Valid(State())
    }

    ghost function State(): Codec
      reads this, store, header
    {
      Codec(phase, kind, flags, store[..], index, if header == null then 0 else header.Length,
            if header == null || offset > header.Length then [] else header[..offset])
    }

    constructor ()
      ensures Good() && State() == START && sent == []
    {
      phase, kind, flags, index, header, offset, sent := FixedHeader, UNKNOWN, 0, 0, null, 0, [];
      store := new Byte[4](_ => 0);
      new;
      assert store[..] == ZEROS;
    }

    /** The loop of prepareheaderDataInfo that adds up the digits. */
    method Length() returns (total: nat, ok: bool)
      requires store.Length == 4
      ensures (total, ok) == Remaining(store[..], 0)
    {
      hide Remaining; hide Added;
      AddsNone(store[..]);
      var multiplier: nat, i: nat := 1, 0;
      total, ok := 0, true;
      var more := true;
      while more && ok
        invariant 0 <= i <= 4
        invariant more && ok ==> i < 4 && multiplier == Weight(i)
        invariant more && ok ==> Added(store[..], i, total)
        invariant !(more && ok) ==> (total, ok) == Remaining(store[..], 0)
        decreases 4 - i, more && ok
      {
        var digit: nat := store[i];
        AddDigit(store[..], i, total);
        total := total + multiplier * (digit % 128);
        multiplier := multiplier * 128;
        i := i + 1;
        ok := multiplier <= 128 * 128 * 128;
        more := digit >= 128;
      }
    }

    /** prepareheaderDataInfo. */
    method TakeLength(b: Byte) returns (ok: bool)
      requires Good() && phase.FixedHeader?
      modifies this`phase, this`index, this`header, this`offset, store
      ensures Good() && (header == null || fresh(header))
      ensures (State(), ok) == Prepare(old(State()), b)
    {
      if index >= 4 { return false; }
      store[index] := b;
      index := index + 1;
      if b >= 0x7f {
        assert store[..] == old(store[..])[old(index) := b];
        return true;
      }
      assert store[..] == old(store[..])[old(index) := b];
      var total;
      total, ok := Length();
      if total > 0 {
        header := new Byte[total];
        offset := 0;
      }
      phase := VarHeader;
      index := 0;
      for i := 0 to 4
        modifies store
        invariant forall k :: 0 <= k < i ==> store[k] == 0
      {
        store[i] := 0;
      }
      assert store[..] == ZEROS;
      assert header != null ==> header[..0] == [];
    }

    /** completePacketData, `written` being what the buffer holds. */
    method Finish()
      requires store.Length == 4 && index <= 4 && (header != null ==> offset <= header.Length)
      modifies this`phase, this`kind, this`flags, this`header, this`sent
      ensures header == null && Good()
      ensures |sent| == |old(sent)| + 1 && sent[..|old(sent)|] == old(sent)
      ensures Outcome(State(), Some(sent[|old(sent)|]), true) == Complete(old(State()))
    {
      var body := if header == null then [] else header[..offset];
      sent := sent + [Packet(kind, flags, if header == null then 0 else header.Length, body, Parse(kind, flags, body))];
      kind, phase, flags, header := UNKNOWN, FixedHeader, 0, null;
    }

    /** The body of the loop of mqtt_codec_bytesReceived. */
    method Receive(b: Byte) returns (ok: bool)
      requires Good()
      modifies this, store, header
      ensures Good() && (header == null || header == old(header) || fresh(header))
      ensures var n := Next(old(State()), b); State() == n.codec && ok == n.ok && sent == old(sent) + Sent(n.sent)
    {
      ok := true;
      if phase.FixedHeader? {
        if kind == UNKNOWN {
          kind, flags := b - b % 16, b % 16;
        } else {
          ok := TakeLength(b);
          if !ok {
            kind := ERROR;
          }
          if kind == PINGRESP {
            Finish();
          }
        }
      } else if header == null {
        kind, ok := ERROR, false;
      } else {
        ghost var was := State();
        header[offset] := b;
        offset := offset + 1;
        assert header[..offset] == was.got + [b];
        if offset >= header.Length {
          Finish();
        }
      }
    }

    /** mqtt_codec_bytesReceived: one call is one run of the machine. */
    method BytesReceived(bytes: seq<Byte>) returns (ok: bool)
      requires Good()
      modifies this, store, header
      ensures Good() && (header == null || header == old(header) || fresh(header))
      ensures var f := Feed(old(State()), bytes); State() == f.codec && ok == f.ok && sent == old(sent) + f.sent
    {
      assert Valid(State());
      hide Next; hide Good; hide Feed;
      Empty(State());
      assert bytes[..0] == [];
      ok := true;
      var i := 0;
      ghost var start, before, out: seq<Packet> := State(), sent, [];
      while i < |bytes| && ok
        invariant 0 <= i <= |bytes| && Good() && (header == null || header == old(header) || fresh(header))
        invariant Feed(start, bytes[..i]) == Fed(State(), out, ok) && sent == before + out
        invariant !ok ==> Feed(start, bytes) == Feed(start, bytes[..i])
      {
        FeedOne(start, bytes, i);
        ghost var n := Next(State(), bytes[i]);
        out := out + Sent(n.sent);
        ok := Receive(bytes[i]);
        i := i + 1;
      }
      assert bytes[..|bytes|] == bytes;
    }
  }
}
