/** iot/mqtt_codec.c, sending: the fixed header, PUBLISH and its replies. */
module MqttFrame {
  import opened Wrappers
  import opened MqttCodec
  import opened MqttBuffer

  const MAX_SEND_SIZE := 0xFFFFFF7F
  const USHRT_MAX := 65535

  /** The length in digits of seven bits, the lowest first, all but the last marked. */
  function Digits(n: nat): (r: seq<Byte>)
    ensures |r| > 0
  {
    if n < 128 then [n] else [128 + n % 128] + Digits(n / 128)
  }

  function Frame(kind: Byte, flags: Byte, body: seq<Byte>): seq<Byte>
    requires kind + flags < 256
  {
    [kind + flags] + Digits(|body|) + body
  }

  function Two(n: nat): seq<Byte>
    requires n <= USHRT_MAX
  {
    [n / 256, n % 256]
  }

  function Flags(m: PublishMsg): (r: Byte)
    ensures r < 16
  {
    (if m.duplicate then 8 else 0) + (if m.retained then 1 else 0) +
    (if m.qos == AtMostOnce then 0 else if m.qos == AtLeastOnce then 2 else 4)
  }

  /** What mqtt_codec_publish can send, the identifier being a 16-bit field. */
  predicate Sendable(m: PublishMsg) {
    m.topic.Some? && |m.topic.value| <= USHRT_MAX && |m.payload| <= MAX_SEND_SIZE && m.id <= USHRT_MAX
  }

  function Body(m: PublishMsg): seq<Byte>
    requires Sendable(m)
  {
    Two(|m.topic.value|) + m.topic.value + (if m.qos == AtMostOnce then [] else Two(m.id)) + m.payload
  }

  /** The header fits the array of six for every length below 128^5, which is above every length that is sent. */
  lemma {:induction false} HeaderFits(n: nat, k: nat)
    requires n < Power(k) && k > 0
    ensures |Digits(n)| <= k
  {
    if n >= 128 {
      assert n / 128 < Power(k - 1);
      HeaderFits(n / 128, k - 1);
    }
  }

  function Power(k: nat): nat {
    if k == 0 then 1 else 128 * Power(k - 1)
  }

  lemma NextDigit(n: nat, k: nat)
    requires n < Power(k) && k > 0
    ensures Digits(n) == if n / 128 == 0 then [n] else [n % 128 + 128] + Digits(n / 128)
    ensures n / 128 > 0 ==> k > 1 && n / 128 < Power(k - 1)
  {
    HeaderFits(n, k);
  }

  /** The loop of constructFixedHeader, after the byte of the type. */
  method PutDigits(header: array<Byte>, n: nat) returns (index: nat)
    requires header.Length == 6 && n < 0x8_0000_0000
    modifies header
    ensures 1 <= index <= 6 && header[..index] == [old(header[0])] + Digits(n)
  {
    assert Power(5) == 0x8_0000_0000;
    hide Digits; hide Power;
    var length: nat, more := n, true;
    index := 1;
    ghost var room: nat, rest := 5, Digits(n);
    ghost var all := [header[0]] + rest;
    while more
      invariant 1 <= index <= 6 && index == 6 - room
      invariant if more then room > 0 && length < Power(room) && rest == Digits(length) else rest == []
      invariant header[..index] + rest == all
      decreases more, room
    {
      NextDigit(length, room);
      ghost var was := header[..index];
      var encode := length % 128;
      length := length / 128;
      if length > 0 {
        encode := encode + 128;
      }
      more := length > 0;
      header[index] := encode;
      index, room := index + 1, room - 1;
      assert header[..index] == was + [encode];
      rest := if more then Digits(length) else [];
      assert all == was + ([encode] + rest);
    }
  }

  /** constructFixedHeader. */
  method FixedHeader(packet: Buffer, kind: Byte, flags: Byte)
    requires packet.Good() && kind + flags < 256 && |packet.Contents()| < 0x8_0000_0000
    modifies packet
    ensures packet.Good() && packet.Contents() == Frame(kind, flags, old(packet.Contents()))
  {
    hide Digits;
    var header := new Byte[6];
    header[0] := kind + flags;
    var index := PutDigits(header, packet.size);
    packet.Prepend(header[..index]);
  }

  /** constructPublishVariableHeader: the topic after what is there, then the identifier unless the QoS is 0. */
  method VariableHeader(packet: Buffer, topic: seq<Byte>, qos: Qos, id: nat)
    requires packet.Good() && |topic| <= USHRT_MAX && id <= USHRT_MAX
    modifies packet
    ensures packet.Good() && (packet.buffer != null && fresh(packet.buffer))
    ensures packet.Contents() == old(packet.Contents()) + Two(|topic|) + topic + if qos == AtMostOnce then []
            else Two(id)
  {
    ghost var was := packet.Contents();
    var at := packet.size;
    packet.Enlarge(|topic| + 2 + if qos == AtMostOnce then 0 else 2);
    packet.Write(at, Two(|topic|) + topic);
    if qos != AtMostOnce {
      packet.Write(at + 2 + |topic|, Two(id));
    }
  }

  method Append(packet: Buffer, payload: seq<Byte>)
    requires packet.Good()
    modifies packet, packet.buffer
    ensures packet.Good() && packet.Contents() == old(packet.Contents()) + payload
  {
    if |payload| > 0 {
      var at := packet.size;
      packet.Enlarge(|payload|);
      packet.Write(at, payload);
    }
  }

  /** mqtt_codec_publish: what is in the buffer already comes before the topic. */
  method Send(packet: Buffer, m: PublishMsg) returns (ok: bool)
    requires packet.Good() && m.id <= USHRT_MAX && |packet.Contents()| < 0x1_0000_0000
    modifies packet
    ensures packet.Good() && ok == Sendable(m)
    ensures ok ==> packet.Contents() == Frame(PUBLISH, Flags(m), old(packet.Contents()) + Body(m))
    ensures !ok ==> packet.Contents() == if m.topic.Some? && |m.payload| <= MAX_SEND_SIZE then []
            else old(packet.Contents())
  {
    hide Frame; hide Flags;
    if m.topic == None { return false; }
    if |m.payload| > MAX_SEND_SIZE { return false; }
    if |m.topic.value| > USHRT_MAX {
      packet.Unbuild();
      return false;
    }
    ghost var was := packet.Contents();
    VariableHeader(packet, m.topic.value, m.qos, m.id);
    Append(packet, m.payload);
    assert packet.Contents() == was + Body(m);
    FixedHeader(packet, PUBLISH, Flags(m));
    return true;
  }

  /** constructPublishReply: PUBACK, PUBREC, PUBREL or PUBCOMP in a buffer that has nothing yet. */
  method Reply(packet: Buffer, kind: Byte, flags: Byte, id: nat) returns (ok: bool)
    requires packet.Good() && kind + flags < 256 && id <= USHRT_MAX
    modifies packet
    ensures packet.Good() && ok == (old(packet.buffer) == null)
    ensures packet.Contents() == if ok then Frame(kind, flags, Two(id)) else []
  {
    ok := packet.PreBuild(4);
    if ok {
      packet.Write(0, [kind + flags, 2] + Two(id));
    } else {
      packet.Unbuild();
    }
  }
}
