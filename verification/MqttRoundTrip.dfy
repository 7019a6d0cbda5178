/** What is framed comes back, and exactly when. */
module MqttRoundTrip {
  import opened Wrappers
  import opened MqttCodec
  import opened MqttFrame

  /** The highest digit of a length. */
  function Top(n: nat): nat {
    if n < 128 then n else Top(n / 128)
  }

  predicate IsType(kind: nat, flags: nat) {
    kind < 256 && kind % 16 == 0 && flags < 16
  }

  /** The lengths the receiver reads as the sender meant them. */
  predicate Framed(kind: nat, n: nat) {
    if kind == PINGRESP then n == 0 else 0 < n < 128 * 128 * 128 && Top(n) != 127
  }

  function Whole(kind: nat, flags: nat, body: seq<Byte>): Packet {
    Packet(kind, flags, |body|, body, Parse(kind, flags, body))
  }

  /** The codec past the fixed header, `got` of the body being there. */
  function Filling(kind: nat, flags: nat, size: nat, got: seq<Byte>): Codec {
    Codec(VarHeader, kind, flags, ZEROS, 0, size, got)
  }

  function Typed(kind: nat, flags: nat, store: seq<Byte>, index: nat): Codec {
    Codec(FixedHeader, kind, flags, store, index, 0, [])
  }

  lemma BodyByte(kind: nat, flags: nat, size: nat, got: seq<Byte>, b: Byte, rest: seq<Byte>)
    requires |got| + 1 < size
    ensures Feed(Filling(kind, flags, size, got), [b] + rest) == Feed(Filling(kind, flags, size, got + [b]), rest)
  {
    assert ([b] + rest)[1..] == rest;
    assert Next(Filling(kind, flags, size, got), b) == Outcome(Filling(kind, flags, size, got + [b]), None, true);
  }

  lemma {:induction false} BodyFills(kind: nat, flags: nat, size: nat, got: seq<Byte>, bytes: seq<Byte>)
    requires |got| + |bytes| < size
    ensures Feed(Filling(kind, flags, size, got), bytes) == Fed(Filling(kind, flags, size, got + bytes), [], true)
    decreases |bytes|
  {
    if bytes == [] {
      assert got + bytes == got;
    } else {
      hide Feed; hide Next; hide Filling; hide Valid;
      Apart(got, bytes);
      BodyByte(kind, flags, size, got, bytes[0], bytes[1..]);
      BodyFills(kind, flags, size, got + [bytes[0]], bytes[1..]);
    }
  }

  lemma Apart(got: seq<Byte>, bytes: seq<Byte>)
    requires bytes != []
    ensures bytes == [bytes[0]] + bytes[1..] && got + [bytes[0]] + bytes[1..] == got + bytes
  {
  }

  lemma BodyCompletes(kind: nat, flags: nat, body: seq<Byte>)
    requires |body| > 0
    ensures Feed(Filling(kind, flags, |body|, []), body) == Fed(START, [Whole(kind, flags, body)], true)
  {
    hide Feed; hide Next; hide Parse; hide Whole;
    var n := |body| - 1;
    LastByte(kind, flags, body[..n], body[n]);
    BodyFills(kind, flags, |body|, [], body[..n]);
    assert [] + body[..n] == body[..n];
    FeedOne(Filling(kind, flags, |body|, []), body, n);
    assert body[..n] + [body[n]] == body;
    assert body[..n + 1] == body;
  }

  lemma LastByte(kind: nat, flags: nat, got: seq<Byte>, b: Byte)
    ensures Next(Filling(kind, flags, |got| + 1, got), b) == Outcome(START, Some(Whole(kind, flags, got + [b])), true)
  {
  }

  /** The first byte gives the type and the flags. */
  lemma TypeRead(kind: nat, flags: nat, rest: seq<Byte>)
    requires IsType(kind, flags)
    ensures Feed(START, [kind + flags] + rest) == Feed(Typed(kind, flags, ZEROS, 0), rest)
  {
    var all := [kind + flags] + rest;
    assert all[1..] == rest;
    assert Next(START, kind + flags) == Outcome(Typed(kind, flags, ZEROS, 0), None, true);
  }

  /** A digit that is not the last one is stored. */
  lemma DigitStored(kind: nat, flags: nat, store: seq<Byte>, index: nat, b: Byte, rest: seq<Byte>)
    requires kind != UNKNOWN && kind != PINGRESP && |store| == 4 && index < 4 && b >= 127
    ensures Feed(Typed(kind, flags, store, index), [b] + rest)
            == Feed(Typed(kind, flags, store[index := b], index + 1), rest)
  {
    var all := [b] + rest;
    assert all[1..] == rest;
  }

  /** The last digit starts the body, or fails when it is the fourth. */
  lemma DigitLast(kind: nat, flags: nat, store: seq<Byte>, index: nat, b: Byte, rest: seq<Byte>)
    requires kind != UNKNOWN && kind != PINGRESP && |store| == 4 && index < 4 && b < 127
    ensures var n := Remaining(store[index := b], 0);
            if n.1 then Feed(Typed(kind, flags, store, index), [b] + rest) == Feed(Filling(kind, flags, n.0, []), rest)
            else !Feed(Typed(kind, flags, store, index), [b] + rest).ok
  {
    var all := [b] + rest;
    assert all[1..] == rest;
  }

  /** With four digits stored every byte fails. */
  lemma NoRoom(kind: nat, flags: nat, store: seq<Byte>, bytes: seq<Byte>)
    requires kind != UNKNOWN && |store| == 4 && |bytes| > 0
    ensures !Feed(Typed(kind, flags, store, 4), bytes).ok
  {
  }

  lemma HeaderRead(kind: nat, flags: nat, n: nat, rest: seq<Byte>)
    requires kind != UNKNOWN && kind != PINGRESP && n < 128 * 128 * 128 && Top(n) != 127
    ensures Feed(Typed(kind, flags, ZEROS, 0), Digits(n) + rest) == Feed(Filling(kind, flags, n, []), rest)
  {
    hide Feed;
    if n < 128 {
      DigitLast(kind, flags, ZEROS, 0, n, rest);
    } else {
      var a, m := 128 + n % 128, n / 128;
      var s := ZEROS[0 := a];
      assert Digits(n) + rest == [a] + (Digits(m) + rest);
      DigitStored(kind, flags, ZEROS, 0, a, Digits(m) + rest);
      if m < 128 {
        DigitLast(kind, flags, s, 1, m, rest);
      } else {
        var b, k := 128 + m % 128, m / 128;
        assert Digits(m) + rest == [b] + ([k] + rest);
        DigitStored(kind, flags, s, 1, b, [k] + rest);
        DigitLast(kind, flags, s[1 := b], 2, k, rest);
      }
    }
  }

  /** One packet, whole: it comes back and the codec is where it started. */
  lemma PacketArrives(kind: nat, flags: nat, body: seq<Byte>)
    requires IsType(kind, flags) && Framed(kind, |body|)
    ensures Feed(START, Frame(kind, flags, body)) == Fed(START, [Whole(kind, flags, body)], true)
  {
    hide Parse;
    var rest := Digits(|body|) + body;
    assert Frame(kind, flags, body) == [kind + flags] + rest;
    TypeRead(kind, flags, rest);
    if kind == PINGRESP {
      assert rest == [0];
      assert Next(Typed(kind, flags, ZEROS, 0), 0).codec == START;
    } else {
      HeaderRead(kind, flags, |body|, body);
      BodyCompletes(kind, flags, body);
    }
  }

  /** Stored digits that end in 127: their length is settled, but the receiver waits for another byte. */
  ghost predicate Stuck(store: seq<Byte>, index: nat, n: nat, t: nat) {
    t < 3 && t < index <= 4 && |store| == 4 && store[t] == 127 && (forall k :: 0 <= k < t ==> store[k] >= 128) &&
    Remaining(store, 0) == (n, true)
  }

  lemma {:induction false} StoreAfter(store: seq<Byte>, j: nat, b: Byte, t: nat, i: nat)
    requires i <= t < j < 4 == |store| && t < 3 && store[t] < 128
    ensures Remaining(store[j := b], i) == Remaining(store, i)
    decreases t - i
  {
    if i < t {
      StoreAfter(store, j, b, t, i + 1);
    }
  }

  /** The waiting receiver takes bytes of the body for digits, and so never has a whole body. */
  lemma {:induction false} Swallows(kind: nat, flags: nat, store: seq<Byte>, index: nat, n: nat, t: nat,
      bytes: seq<Byte>)
    requires kind != UNKNOWN && kind != PINGRESP && Stuck(store, index, n, t) && |bytes| <= n
    ensures Feed(Typed(kind, flags, store, index), bytes).sent == []
    decreases |bytes|
  {
    if bytes == [] {
    } else if index == 4 {
    } else {
      var b, rest := bytes[0], bytes[1..];
      assert bytes == [b] + rest;
      StoreAfter(store, index, b, t, 0);
      hide Feed; hide Next; hide Remaining;
      if b >= 127 {
        DigitStored(kind, flags, store, index, b, rest);
        Swallows(kind, flags, store[index := b], index + 1, n, t, rest);
      } else {
        DigitLast(kind, flags, store, index, b, rest);
        BodyFills(kind, flags, n, [], rest);
      }
    }
  }

  lemma HeaderSticks(kind: nat, flags: nat, n: nat, rest: seq<Byte>) returns (store: seq<Byte>, index: nat, t: nat)
    requires kind != UNKNOWN && kind != PINGRESP && n < 128 * 128 * 128 && Top(n) == 127
    ensures |store| == 4 && index <= 4 && Stuck(store, index, n, t)
    ensures Feed(Typed(kind, flags, ZEROS, 0), Digits(n) + rest) == Feed(Typed(kind, flags, store, index), rest)
  {
    hide Feed;
    if n < 128 {
      DigitStored(kind, flags, ZEROS, 0, n, rest);
      store, index, t := ZEROS[0 := n], 1, 0;
    } else {
      var a, m := 128 + n % 128, n / 128;
      var s := ZEROS[0 := a];
      assert Digits(n) + rest == [a] + (Digits(m) + rest);
      DigitStored(kind, flags, ZEROS, 0, a, Digits(m) + rest);
      if m < 128 {
        DigitStored(kind, flags, s, 1, m, rest);
        store, index, t := s[1 := m], 2, 1;
      } else {
        var b, k := 128 + m % 128, m / 128;
        assert Top(n) == Top(m) == Top(k) && k == 127;
        assert Digits(m) + rest == [b] + ([k] + rest);
        DigitStored(kind, flags, s, 1, b, [k] + rest);
        DigitStored(kind, flags, s[1 := b], 2, k, rest);
        store, index, t := s[1 := b][2 := k], 3, 2;
      }
    }
  }

  lemma LongDigits(n: nat, body: seq<Byte>) returns (a: Byte, b: Byte, c: Byte, l: nat)
    requires n >= 128 * 128 * 128
    ensures a >= 128 && b >= 128 && c >= 128 && Digits(n) + body == [a] + ([b] + ([c] + (Digits(l) + body)))
  {
    var m := n / 128;
    var k := m / 128;
    a, b, c, l := 128 + n % 128, 128 + m % 128, 128 + k % 128, k / 128;
    assert Digits(n) == [a] + Digits(m);
    assert Digits(m) == [b] + Digits(k);
    assert Digits(k) == [c] + Digits(l);
  }

  /** A length of four digits or more is refused. */
  lemma HeaderFails(kind: nat, flags: nat, n: nat, body: seq<Byte>)
    requires kind != UNKNOWN && kind != PINGRESP && n >= 128 * 128 * 128 && |body| > 0
    ensures !Feed(Typed(kind, flags, ZEROS, 0), Digits(n) + body).ok
  {
    hide Feed; hide Digits; hide Remaining; hide Next;
    var a, b, c, l := LongDigits(n, body);
    var one := Digits(l) + body;
    var s1 := [a, 0, 0, 0];
    var s2 := [a, b, 0, 0];
    DigitStored(kind, flags, ZEROS, 0, a, [b] + ([c] + one));
    assert ZEROS[0 := a] == s1;
    DigitStored(kind, flags, s1, 1, b, [c] + one);
    assert s1[1 := b] == s2;
    DigitStored(kind, flags, s2, 2, c, one);
    FourthFails(kind, flags, s2[2 := c], l, body);
  }

  lemma FourthFails(kind: nat, flags: nat, s: seq<Byte>, l: nat, body: seq<Byte>)
    requires kind != UNKNOWN && kind != PINGRESP && |body| > 0
    requires |s| == 4 && s[0] >= 128 && s[1] >= 128 && s[2] >= 128
    ensures !Feed(Typed(kind, flags, s, 3), Digits(l) + body).ok
  {
    hide Feed;
    var d := Digits(l)[0];
    var rest := Digits(l)[1..] + body;
    assert Digits(l) + body == [d] + rest;
    if d < 127 {
      var q := s[3 := d];
      assert !Remaining(q, 2).1 && !Remaining(q, 1).1 && !Remaining(q, 0).1;
      DigitLast(kind, flags, s, 3, d, rest);
    } else {
      DigitStored(kind, flags, s, 3, d, rest);
      NoRoom(kind, flags, s[3 := d], rest);
    }
  }

  /** A ping response is taken to be complete at its first length byte. */
  lemma PingEarly(flags: nat, d: Byte, rest: seq<Byte>)
    ensures var f := Feed(Typed(PINGRESP, flags, ZEROS, 0), [d] + rest); |f.sent| > 0 && f.sent[0].body == []
  {
    var c := Typed(PINGRESP, flags, ZEROS, 0);
    var s := ZEROS[0 := d];
    assert d < 127 ==> Remaining(s, 0).1;
    assert ([d] + rest)[1..] == rest;
    var n := Next(c, d);
    assert n.ok && n.sent.Some? && n.sent.value.body == [];
  }

  /**
    The framing law: a packet made by constructFixedHeader is delivered once,
    with its type, flags and body, and leaves the codec as it was, exactly when
    its length is one the receiver can read.
   */
  lemma FramingIsExact(kind: nat, flags: nat, body: seq<Byte>, calls: seq<seq<Byte>>)
    requires IsType(kind, flags) && Join(calls) == Frame(kind, flags, body)
    ensures FeedAll(START, calls) == Fed(START, [Whole(kind, flags, body)], true) <==> Framed(kind, |body|)
  {
    CutsAgree(START, calls);
    if Framed(kind, |body|) {
      PacketArrives(kind, flags, body);
    } else {
      PacketFails(kind, flags, body);
    }
  }

  lemma PacketFails(kind: nat, flags: nat, body: seq<Byte>)
    requires IsType(kind, flags) && !Framed(kind, |body|)
    ensures var f := Feed(START, Frame(kind, flags, body)); !f.ok || f.sent == [] || f.sent[0].body != body
  {
    var n := |body|;
    var rest := Digits(n) + body;
    assert Frame(kind, flags, body) == [kind + flags] + rest;
    TypeRead(kind, flags, rest);
    hide Next; hide Remaining; hide Parse;
    if kind == PINGRESP {
      assert rest == [rest[0]] + rest[1..];
      PingEarly(flags, rest[0], rest[1..]);
    } else if n == 0 {
      HeaderRead(kind, flags, 0, body);
    } else if n >= 128 * 128 * 128 {
      hide Feed; hide Digits;
      HeaderFails(kind, flags, n, body);
    } else {
      hide Feed; hide Digits;
      var store, index, t := HeaderSticks(kind, flags, n, body);
      Swallows(kind, flags, store, index, n, t, body);
    }
  }

  datatype Sending = Sending(kind: nat, flags: nat, body: seq<Byte>)

  predicate Readable(p: Sending) {
    IsType(p.kind, p.flags) && Framed(p.kind, |p.body|)
  }

  function Stream(packets: seq<Sending>): seq<Byte>
    requires forall i :: 0 <= i < |packets| ==> Readable(packets[i])
  {
    if packets == [] then []
    else assert Readable(packets[0]); Frame(packets[0].kind, packets[0].flags, packets[0].body) + Stream(packets[1..])
  }

  function Wholes(packets: seq<Sending>): seq<Packet> {
    if packets == [] then []
    else [Whole(packets[0].kind, packets[0].flags, packets[0].body)] + Wholes(packets[1..])
  }

  /** Packets one after the other, however the stream is cut: each is delivered, in order. */
  lemma {:induction false} StreamArrives(packets: seq<Sending>, calls: seq<seq<Byte>>)
    requires (forall i :: 0 <= i < |packets| ==> Readable(packets[i])) && Join(calls) == Stream(packets)
    ensures FeedAll(START, calls) == Fed(START, Wholes(packets), true)
    decreases |packets|
  {
    hide Feed; hide Frame; hide Whole;
    CutsAgree(START, calls);
    if packets == [] {
      Empty(START);
    } else {
      var p, rest := packets[0], packets[1..];
      PacketArrives(p.kind, p.flags, p.body);
      assert Readable(p);
      assert forall i :: 0 <= i < |rest| ==> rest[i] == packets[i + 1];
      FeedJoin(START, Frame(p.kind, p.flags, p.body), Stream(rest));
      assert Join([Stream(rest)]) == Stream(rest);
      StreamArrives(rest, [Stream(rest)]);
      CutsAgree(START, [Stream(rest)]);
    }
  }

  /** What the receiver of a PUBLISH is given: without a QoS there is no identifier. */
  function Received(m: PublishMsg): PublishMsg {
    if m.qos == AtMostOnce then m.(id := 0) else m
  }

  /** The header flags tell the QoS apart unless it is 0 and another flag is set. */
  predicate Told(m: PublishMsg) {
    m.qos != Failure && (m.qos == AtMostOnce ==> !m.duplicate && !m.retained)
  }

  lemma FlagsTold(m: PublishMsg)
    ensures QosOf(Flags(m)) == m.qos <==> Told(m)
    ensures Flags(m) / 8 % 2 == 1 <==> m.duplicate
    ensures Flags(m) % 2 == 1 <==> m.retained
  {
  }

  lemma PublishParses(m: PublishMsg)
    requires Sendable(m) && Told(m) && m.topic.value != []
    ensures ParsePublish(Flags(m), Body(m)) == Publish(Received(m))
  {
    FlagsTold(m);
    hide Flags;
    var t, body := m.topic.value, Body(m);
    var n := |t|;
    assert body[..2] == Two(n) && Word(body, 0) == n;
    assert body[2..2 + n] == t;
    if m.qos == AtMostOnce {
      assert body[2 + n..] == m.payload;
    } else {
      assert body[2 + n..2 + n + 2] == Two(m.id) && body[2 + n] == m.id / 256 && body[2 + n + 1] == m.id % 256;
      assert body[2 + n + 2..] == m.payload;
    }
  }

  lemma PublishParsesOnly(m: PublishMsg)
    requires Sendable(m) && ParsePublish(Flags(m), Body(m)) == Publish(Received(m))
    ensures Told(m) && m.topic.value != []
  {
    FlagsTold(m);
    hide Flags;
    var body := Body(m);
    assert body[..2] == Two(|m.topic.value|) && Word(body, 0) == |m.topic.value|;
  }

  /**
    The PUBLISH law: what mqtt_codec_publish sends arrives with its topic,
    identifier, payload and flags, exactly when the frame can be read, the
    topic is not empty and the flags tell the QoS.
   */
  lemma PublishIsExact(m: PublishMsg, calls: seq<seq<Byte>>)
    requires Sendable(m) && Join(calls) == Frame(PUBLISH, Flags(m), Body(m))
    ensures FeedAll(START, calls) ==
            Fed(START, [Packet(PUBLISH, Flags(m), |Body(m)|, Body(m), Publish(Received(m)))], true) <==>
            Framed(PUBLISH, |Body(m)|) && m.topic.value != [] && Told(m)
  {
    hide Feed; hide Flags; hide Body; hide Frame; hide Framed; hide Told; hide ParsePublish;
    FramingIsExact(PUBLISH, Flags(m), Body(m), calls);
    CutsAgree(START, calls);
    if !Framed(PUBLISH, |Body(m)|) {
      PacketFails(PUBLISH, Flags(m), Body(m));
    } else if m.topic.value != [] && Told(m) {
      PublishParses(m);
    } else if ParsePublish(Flags(m), Body(m)) == Publish(Received(m)) {
      PublishParsesOnly(m);
    }
  }

  /** The replies to a PUBLISH bring back the identifier they answer. */
  lemma ReplyArrives(kind: nat, flags: nat, id: nat, calls: seq<seq<Byte>>)
    requires kind == PUBACK || kind == PUBREC || kind == PUBREL || kind == PUBCOMP
    requires flags < 16 && id <= USHRT_MAX && Join(calls) == Frame(kind, flags, Two(id))
    ensures FeedAll(START, calls) == Fed(START, [Packet(kind, flags, 2, Two(id), Ack(id))], true)
  {
    hide Feed;
    FramingIsExact(kind, flags, Two(id), calls);
    assert Word(Two(id), 0) == id;
  }
}
