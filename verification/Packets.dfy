/** Packets as buffers with a moving position: the encoders fill them, the
    decoders walk over them. */
module Packets {
  import opened Common
  import opened Framing
  import opened Wire

  // -------------------------------------------------------------- writing

  class OutPacket {
    const payload: array<Byte>
    var pos: nat

    /** The bytes written so far. */
    ghost function Written(): seq<Byte>
      requires pos <= payload.Length
      reads this, payload
    {
      payload[..pos]
    }

    /** Room for the whole packet, with its fixed header filled in. */
    constructor (command: Byte, remainingLength: nat, remainingBytes: array<Byte>, remainingCount: nat)
      requires remainingCount <= remainingBytes.Length
      ensures fresh(payload) && payload.Length == 1 + remainingCount + remainingLength
      ensures pos == 1 + remainingCount && Written() == [command] + remainingBytes[..remainingCount]
    {
      payload := new Byte[remainingLength + 1 + remainingCount];
      pos := 1 + remainingCount;
      new;
      payload[0] := command;
      for i := 0 to remainingCount
        invariant payload[0] == command && payload[1..i + 1] == remainingBytes[..i]
        modifies payload
      {
        payload[i + 1] := remainingBytes[i];
      }
    }

    method WriteByte(b: Byte)
      requires pos + 1 <= payload.Length
      modifies this, payload
      ensures pos == old(pos) + 1 && Written() == old(Written()) + [b]
    {
      payload[pos] := b;
      pos := pos + 1;
    }

    method WriteBytes(s: seq<Byte>)
      requires pos + |s| <= payload.Length
      modifies this, payload
      ensures pos == old(pos) + |s| && Written() == old(Written()) + s
    {
      var at := pos;
      forall k | 0 <= k < |s| {
        payload[at + k] := s[k];
      }
      pos := pos + |s|;
      assert payload[..at] == old(Written()) && payload[at..pos] == s;
      assert payload[..pos] == payload[..at] + payload[at..pos];
    }

    method WriteU16(n: nat)
      requires pos + 2 <= payload.Length
      modifies this, payload
      ensures pos == old(pos) + 2 && Written() == old(Written()) + U16(n)
    {
      WriteByte((n / 256) % 256);
      WriteByte(n % 256);
    }

    /** The length is passed on in sixteen bits. */
    method WriteString(s: seq<Byte>)
      requires pos + 2 + |s| % 0x10000 <= payload.Length
      modifies this, payload
      ensures pos == old(pos) + |StringBytes(s)| && Written() == old(Written()) + StringBytes(s)
    {
      var length := |s| % 0x10000;
      WriteU16(length);
      WriteBytes(s[..length]);
    }
  }

  /** A packet of this command and remaining length, or none if the length is
      too large to be written. */
  method PacketAlloc(command: Byte, remainingLength: nat) returns (packet: OutPacket?)
    ensures packet == null <==> remainingLength > LARGEST
    ensures packet != null ==>
              fresh(packet) && fresh(packet.payload) && packet.pos <= packet.payload.Length &&
              packet.payload.Length == packet.pos + remainingLength &&
              packet.Written() == [command] + EncodeLength(remainingLength)
  {
    var remainingBytes := new Byte[5];
    var remaining, count := remainingLength, 0;
    var more := true;
    while more
      invariant 0 <= count <= 5 && (more ==> count < 5)
      invariant remainingBytes[..count] +
                (if more then EncodeLength(remaining) else []) == EncodeLength(remainingLength)
                || (count == 5 && !more && |EncodeLength(remainingLength)| >= 5)
      invariant !more && |EncodeLength(remainingLength)| >= 5 ==> count == 5
      decreases 5 - count, more
    {
      ghost var before := remainingBytes[..count];
      var byte: Byte := remaining % 128;
      remaining := remaining / 128;
      if remaining > 0 {
        byte := byte + 128;
      }
      remainingBytes[count] := byte;
      count := count + 1;
      assert remainingBytes[..count] == before + [byte];
      more := remaining > 0 && count < 5;
    }
    LengthRoundTrip(remainingLength, []);
    if count == 5 {
      return null;
    }
    packet := new OutPacket(command, remainingLength, remainingBytes, count);
  }

  /** Encode a PUBLISH. The buffer is filled exactly when the topic is not
      longer than its 16-bit length field can say. */
  lemma PublishFits(p: Publish)
    ensures |PublishBody(p)| <= PublishLength(p) && (|PublishBody(p)| == PublishLength(p) <==> Word(|p.topic|))
  {
    hide StringBytes, U16;
  }

  method SendPublish(p: Publish) returns (packet: OutPacket?)
    requires p.qos <= 2
    ensures packet == null <==> PublishLength(p) > LARGEST
    ensures packet != null ==>
              packet.pos <= packet.payload.Length &&
              packet.Written() == Framed(PublishCommand(p), PublishLength(p), PublishBody(p)) &&
              (packet.pos == packet.payload.Length <==> Word(|p.topic|))
  {
    var packetlen := 2 + |p.topic| + |p.payload|;
    if p.qos > 0 {
      packetlen := packetlen + 2;
    }
    packet := PacketAlloc(PublishCommand(p), packetlen);
    if packet == null {
      return;
    }
    PublishFits(p);
    hide EncodeLength, StringBytes, U16, PublishCommand, Word;
    ghost var head := packet.Written();
    packet.WriteString(p.topic);
    if p.qos > 0 {
      packet.WriteU16(p.mid);
    }
    ghost var mid := packet.Written();
    assert mid == head + (StringBytes(p.topic) + if p.qos > 0 then U16(p.mid) else []);
    if |p.payload| > 0 {
      packet.WriteBytes(p.payload);
    }
    assert packet.Written() == mid + p.payload;
    assert packet.Written() == head + PublishBody(p);
  }

  method WriteWill(packet: OutPacket, will: Option<Will>)
    requires packet.pos + |WillBytes(will)| <= packet.payload.Length
    modifies packet, packet.payload
    ensures packet.pos == old(packet.pos) + |WillBytes(will)| && packet.pos <= packet.payload.Length
    ensures packet.Written() == old(packet.Written()) + WillBytes(will)
  {
    hide StringBytes;
    if will.Some? {
      packet.WriteString(will.value.topic);
      packet.WriteString(will.value.payload);
      assert old(packet.Written()) + StringBytes(will.value.topic) + StringBytes(will.value.payload) ==
             old(packet.Written()) + WillBytes(will);
    }
  }

  method WriteLogin(packet: OutPacket, username: Option<seq<Byte>>, password: Option<seq<Byte>>)
    requires packet.pos + |LoginBytes(username, password)| <= packet.payload.Length
    modifies packet, packet.payload
    ensures packet.pos == old(packet.pos) + |LoginBytes(username, password)| && packet.pos <= packet.payload.Length
    ensures packet.Written() == old(packet.Written()) + LoginBytes(username, password)
  {
    hide StringBytes;
    if username.Some? {
      packet.WriteString(username.value);
      if password.Some? {
        packet.WriteString(password.value);
        assert old(packet.Written()) + StringBytes(username.value) + StringBytes(password.value) ==
               old(packet.Written()) + LoginBytes(username, password);
      } else {
        assert StringBytes(username.value) + [] == StringBytes(username.value);
      }
    }
  }

  method WriteHeader(packet: OutPacket, c: Connect)
    requires (c.will.Some? ==> c.will.value.qos <= 2) && packet.pos + |ConnectHeader(c)| <= packet.payload.Length
    modifies packet, packet.payload
    ensures packet.pos == old(packet.pos) + |ConnectHeader(c)| && packet.pos <= packet.payload.Length
    ensures packet.Written() == old(packet.Written()) + ConnectHeader(c)
  {
    hide StringBytes, ProtocolName, ConnectFlags, U16;
    packet.WriteString(ProtocolName(c.v311));
    packet.WriteByte(if c.v311 then 4 else 3);
    packet.WriteByte(ConnectFlags(c));
    packet.WriteU16(c.keepalive);
    packet.WriteString(c.id);
    var w, version := old(packet.Written()), if c.v311 then 4 else 3;
    assert w + StringBytes(ProtocolName(c.v311)) + [version] + [ConnectFlags(c)] + U16(c.keepalive) +
           StringBytes(c.id) ==
           w + ConnectHeader(c);
  }

  /** Encode a CONNECT of a client that is not a bridge. */
  method SendConnect(c: Connect) returns (packet: OutPacket?)
    requires c.will.Some? ==> c.will.value.qos <= 2
    ensures packet == null <==> ConnectLength(c) > LARGEST
    ensures packet != null ==>
              packet.pos <= packet.payload.Length &&
              packet.Written() == Framed(CONNECT, ConnectLength(c), ConnectBody(c)) &&
              packet.payload.Length - packet.pos == ConnectLength(c) - |ConnectBody(c)|
  {
    var length := ConnectSize(c);
    packet := PacketAlloc(CONNECT, length);
    if packet == null {
      return;
    }
    ConnectFits(c);
    hide ConnectHeader, EncodeLength, WillBytes, LoginBytes, ConnectLength, ConnectBody;
    ghost var head := packet.Written();
    WriteHeader(packet, c);
    WriteWill(packet, c.will);
    WriteLogin(packet, c.username, c.password);
    Assemble(head, c);
  }

  lemma Assemble(head: seq<Byte>, c: Connect)
    requires c.will.Some? ==> c.will.value.qos <= 2
    ensures head + ConnectHeader(c) + WillBytes(c.will) + LoginBytes(c.username, c.password) == head + ConnectBody(c)
    ensures |ConnectHeader(c)| + |WillBytes(c.will)| + |LoginBytes(c.username, c.password)| == |ConnectBody(c)|
  {
    hide ConnectHeader, WillBytes, LoginBytes;
  }

  method ConnectSize(c: Connect) returns (length: nat)
    ensures length == ConnectLength(c)
  {
    var headerlen := if c.v311 then 10 else 12;
    var payloadlen := 2 + |c.id|;
    if c.will.Some? {
      payloadlen := payloadlen + 2 + |c.will.value.topic| + 2 + |c.will.value.payload|;
    }
    if c.username.Some? {
      payloadlen := payloadlen + 2 + |c.username.value|;
      if c.password.Some? {
        payloadlen := payloadlen + 2 + |c.password.value|;
      }
    }
    length := headerlen + payloadlen;
  }

  lemma ConnectFits(c: Connect)
    requires c.will.Some? ==> c.will.value.qos <= 2
    ensures |ConnectHeader(c)| + |WillBytes(c.will)| + |LoginBytes(c.username, c.password)| <= ConnectLength(c)
  {
    hide StringBytes, ProtocolName, ConnectFlags, U16;
  }

  // -------------------------------------------------------------- reading

  /** The body of a received packet, read from `pos` on. */
  class Cursor {
    const payload: seq<Byte>
    var pos: nat

    predicate Valid()
      reads this
    {
      pos <= |payload|
    }

    function Rest(): seq<Byte>
      requires Valid()
      reads this
    {
      payload[pos..]
    }

    constructor (body: seq<Byte>)
      ensures Valid() && Rest() == body
    {
      payload, pos := body, 0;
    }

    method ReadByte() returns (ok: bool, b: Byte)
      requires Valid()
      modifies this
      ensures Valid()
      ensures if ok then TakeByte(old(Rest())) == Read(b, Rest()) else TakeByte(old(Rest())) == Fail
    {
      if pos + 1 > |payload| {
        return false, 0;
      }
      b := payload[pos];
      pos := pos + 1;
      return true, b;
    }

    method ReadBytes(count: nat) returns (ok: bool, bytes: seq<Byte>)
      requires Valid()
      modifies this
      ensures Valid()
      ensures if ok then TakeBytes(old(Rest()), count) == Read(bytes, Rest()) else TakeBytes(old(Rest()), count) == Fail
    {
      if pos + count > |payload| {
        return false, [];
      }
      bytes := payload[pos..pos + count];
      assert Rest()[..count] == bytes && Rest()[count..] == payload[pos + count..];
      pos := pos + count;
      return true, bytes;
    }

    method ReadU16() returns (ok: bool, word: nat)
      requires Valid()
      modifies this
      ensures Valid() && Word(word)
      ensures if ok then TakeU16(old(Rest())) == Read(word, Rest()) else TakeU16(old(Rest())) == Fail
    {
      if pos + 2 > |payload| {
        return false, 0;
      }
      var msb := payload[pos];
      pos := pos + 1;
      var lsb := payload[pos];
      pos := pos + 1;
      word := (msb as int) * 256 + lsb;
      return true, word;
    }

    method ReadString() returns (ok: bool, str: seq<Byte>)
      requires Valid()
      modifies this
      ensures Valid()
      ensures if ok then TakeString(old(Rest())) == Read(str, Rest()) else TakeString(old(Rest())) == Fail
    {
      var len;
      ok, len := ReadU16();
      if !ok {
        return false, [];
      }
      if pos + len > |payload| {
        return false, [];
      }
      str := payload[pos..pos + len];
      assert Rest()[..len] == str && Rest()[len..] == payload[pos + len..];
      pos := pos + len;
      return true, str;
    }
  }

  /** The client library decodes a PUBLISH. */
  method HandlePublish(command: Byte, packet: Cursor) returns (message: Option<Publish>)
    requires packet.Valid()
    modifies packet
    ensures message == DecodePublish(command, old(packet.Rest()))
  {
    var dup, qos, retain := command / 8 % 2 == 1, command / 2 % 4, command % 2 == 1;
    hide TakeString, TakeU16;
    var ok, topic := packet.ReadString();
    if !ok || CString(topic) == [] {
      return None;
    }
    var mid := 0;
    if qos > 0 {
      ok, mid := packet.ReadU16();
      if !ok {
        return None;
      }
    }
    ghost var rest := packet.Rest();
    var payloadlen, payload := |packet.payload| - packet.pos, [];
    assert rest[..payloadlen] == rest;
    if payloadlen > 0 {
      ok, payload := packet.ReadBytes(payloadlen);
      if !ok {
        return None;
      }
    }
    if qos > 2 {
      return None;
    }
    return Some(Publish(dup, qos, retain, CString(topic), mid, payload));
  }

  method ReadWill(flags: Byte, packet: Cursor) returns (ok: bool, will: Option<Will>)
    requires packet.Valid()
    modifies packet
    ensures packet.Valid()
    ensures if ok then TakeWill(flags, old(packet.Rest())) == Read(will, packet.Rest())
            else TakeWill(flags, old(packet.Rest())) == Fail
  {
    hide BitSet, WillQos, TakeU16, CString, NoWildBytes;
    if !BitSet(flags, 4) {
      return true, None;
    }
    var topic, length, payload;
    ok, topic := packet.ReadString();
    if !ok || CString(topic) == [] || !NoWildBytes(CString(topic)) {
      return false, None;
    }
    ok, length := packet.ReadU16();
    if !ok {
      return false, None;
    }
    payload := [];
    if length > 0 {
      ok, payload := packet.ReadBytes(length);
      if !ok {
        return false, None;
      }
    }
    return true, Some(Will(CString(topic), payload, WillQos(flags), BitSet(flags, 32)));
  }

  method ReadLogin(v311: bool, flags: Byte, packet: Cursor)
    returns (ok: bool, username: Option<seq<Byte>>, password: Option<seq<Byte>>)
    requires packet.Valid()
    modifies packet
    ensures packet.Valid()
    ensures var login := TakeLogin(v311, flags, old(packet.Rest()));
            if ok then login.Read? && login.value == (username, password) else login.Fail?
  {
    hide BitSet, TakeString, CString;
    username, password := None, None;
    if !BitSet(flags, 128) {
      return !(v311 && BitSet(flags, 64)), None, None;
    }
    var str;
    ok, str := packet.ReadString();
    if !ok {
      return !v311, None, None;
    }
    username := Some(CString(str));
    if BitSet(flags, 64) {
      ok, str := packet.ReadString();
      if ok {
        password := Some(CString(str));
      } else if v311 {
        return false, None, None;
      }
    }
    return true, username, password;
  }

  method ReadName(command: Byte, packet: Cursor) returns (ok: bool, v311: bool)
    requires packet.Valid()
    modifies packet
    ensures packet.Valid()
    ensures forall zeroIds :: DecodeConnect(command, old(packet.Rest()), zeroIds) ==
                              if ok then DecodeRest(v311, packet.Rest(), zeroIds) else None
  {
    hide TakeString, DecodeRest, ProtocolName, CString;
    var name, version;
    v311 := false;
    ok, name := packet.ReadString();
    if !ok {
      return false, false;
    }
    ok, version := packet.ReadByte();
    if !ok {
      return false, false;
    }
    if CString(name) == ProtocolName(true) {
      v311 := true;
      return version % 128 == 4 && command % 16 == 0, true;
    }
    if CString(name) == ProtocolName(false) {
      return version % 128 == 3, false;
    }
    return false, false;
  }

  /** The broker decodes a CONNECT, up to what it asks of the request itself. */
  method HandleConnect(command: Byte, packet: Cursor, zeroIds: bool) returns (request: Option<Connect>)
    requires packet.Valid()
    modifies packet
    ensures request == DecodeConnect(command, old(packet.Rest()), zeroIds)
  {
    var ok, v311 := ReadName(command, packet);
    if !ok {
      return None;
    }
    request := HandleRest(v311, packet, zeroIds);
  }

  method HandleRest(v311: bool, packet: Cursor, zeroIds: bool) returns (request: Option<Connect>)
    requires packet.Valid()
    modifies packet
    ensures request == DecodeRest(v311, old(packet.Rest()), zeroIds)
  {
    hide TakeString, TakeU16, TakeWill, TakeLogin, CString, BitSet, WillQos;
    var ok, flags := packet.ReadByte();
    if !ok || WillQos(flags) == 3 {
      return None;
    }
    var keepalive, id, will, username, password;
    ok, keepalive := packet.ReadU16();
    if !ok {
      return None;
    }
    ok, id := packet.ReadString();
    if !ok {
      return None;
    }
    var clean := BitSet(flags, 2);
    if CString(id) == [] && (!v311 || !clean || !zeroIds) {
      return None;
    }
    if !BitSet(flags, 4) && v311 && (WillQos(flags) != 0 || BitSet(flags, 32)) {
      return None;
    }
    ok, will := ReadWill(flags, packet);
    if !ok {
      return None;
    }
    ok, username, password := ReadLogin(v311, flags, packet);
    if !ok {
      return None;
    }
    return Some(Connect(v311, clean, keepalive, CString(id), will, username, password));
  }
}
