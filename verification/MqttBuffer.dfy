/** iot/buffer.c: the growing byte buffer the packets are built in. Allocation does not fail. */
module MqttBuffer {
  import opened MqttCodec

  class Buffer {
    var buffer: array?<Byte>
    var size: nat

    ghost predicate Good()
      reads this, buffer
    {
      if buffer == null then size == 0 else size <= buffer.Length
    }

    ghost function Contents(): seq<Byte>
      reads this, buffer
      requires Good()
    {
      if buffer == null then [] else buffer[..size]
    }

    constructor ()
      ensures Good() && Contents() == []
    {
      buffer, size := null, 0;
    }

    /** malloc and the copies into it. The rest is whatever the memory held. */
    method Fill(length: nat, at: nat, bytes: seq<Byte>) returns (temp: array<Byte>)
      requires at + |bytes| <= length
      ensures fresh(temp) && temp.Length == length && temp[at..at + |bytes|] == bytes
    {
      temp := new Byte[length];
      forall i | 0 <= i < |bytes| {
        temp[at + i] := bytes[i];
      }
    }

    /** BUFFER_pre_build refuses a buffer that is there already. */
    method PreBuild(n: nat) returns (ok: bool)
      requires Good()
      modifies this
      ensures Good() && ok == (old(buffer) == null)
      ensures ok ==> fresh(buffer) && |Contents()| == n
      ensures !ok ==> buffer == old(buffer) && size == old(size)
    {
      if buffer != null { return false; }
      buffer := new Byte[if n == 0 then 1 else n];
      size := n;
      return true;
    }

    /** BUFFER_enlarge keeps what is there. */
    method Enlarge(n: nat)
      requires Good()
      modifies this
      ensures Good() && |Contents()| == |old(Contents())| + n && Contents()[..|old(Contents())|] == old(Contents())
      ensures n > 0 ==> buffer != null && fresh(buffer)
      ensures n == 0 ==> buffer == old(buffer)
    {
      if n == 0 { return; }
      ghost var was := Contents();
      buffer := Fill(size + n, 0, if buffer == null then [] else buffer[..size]);
      size := size + n;
      assert Contents()[..|was|] == was;
    }

    /** The writes through the iterator. */
    method Write(at: nat, bytes: seq<Byte>)
      requires Good() && at + |bytes| <= |Contents()|
      modifies buffer
      ensures Good() && Contents() == old(Contents())[..at] + bytes + old(Contents())[at + |bytes|..]
    {
      if buffer == null { return; }
      forall i | 0 <= i < |bytes| {
        buffer[at + i] := bytes[i];
      }
    }

    /** BUFFER_prepend. */
    method Prepend(bytes: seq<Byte>)
      requires Good()
      modifies this
      ensures Good() && Contents() == bytes + old(Contents())
    {
      if bytes == [] { return; }
      var all := bytes + (if buffer == null then [] else buffer[..size]);
      buffer := Fill(|all|, 0, all);
      size := |all|;
    }

    /** BUFFER_unbuild. */
    method Unbuild()
      requires Good()
      modifies this
      ensures Good() && Contents() == []
    {
      if buffer != null {
        buffer, size := null, 0;
      }
    }
  }
}
