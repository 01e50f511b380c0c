/** The bytes of PUBLISH and CONNECT (sections 2.2, 3.1, 3.3 of MQTT 3.1.1). */
module Wire {
  import opened Common
  import opened Framing

  const LARGEST := 268435455
  const PUBLISH := 0x30
  const CONNECT := 0x10

  // ------------------------------------------------------ remaining length

  /** Seven bits a byte, lowest first; the top bit says that more follow. */
  function EncodeLength(n: nat): (r: seq<Byte>)
    ensures |r| > 0
  {
    if n < 128 then [n] else [n % 128 + 128] + EncodeLength(n / 128)
  }

  lemma {:induction false} EncodedSize(n: nat, k: nat)
    requires k > 0
    ensures |EncodeLength(n)| <= k <==> n < Pow128(k)
    decreases k
  {
    if k == 1 {
      assert Pow128(1) == 128 * Pow128(0);
    } else if n >= 128 {
      EncodedSize(n / 128, k - 1);
      assert Pow128(k) == 128 * Pow128(k - 1);
    } else {
      assert Pow128(k) == 128 * Pow128(k - 1);
    }
  }

  lemma {:induction false} DecodeEncoded(n: nat, more: seq<Byte>, seen: nat)
    requires seen + |EncodeLength(n)| <= 4
    ensures DecodeLength(EncodeLength(n) + more, seen) == Length(n, |EncodeLength(n)|)
    decreases n
  {
    var s := EncodeLength(n) + more;
    if n >= 128 {
      DecodeEncoded(n / 128, more, seen + 1);
      assert s[1..] == EncodeLength(n / 128) + more;
    }
  }

  /** Every length up to 268435455 takes one to four bytes and comes back; a
      larger one takes more than four and is rejected by reader and writer. */
  lemma LengthRoundTrip(n: nat, more: seq<Byte>)
    ensures |EncodeLength(n)| <= 4 <==> n <= LARGEST
    ensures n <= LARGEST ==> DecodeLength(EncodeLength(n) + more, 0) == Length(n, |EncodeLength(n)|)
  {
    EncodedSize(n, 4);
    Pow128Values();
    if n <= LARGEST { DecodeEncoded(n, more, 0); }
  }

  /** No shorter sequence of bytes means the same length. */
  lemma {:induction false} LengthMinimal(s: seq<Byte>, seen: nat)
    requires DecodeLength(s, seen).Length?
    ensures var l := DecodeLength(s, seen); |EncodeLength(l.value)| <= l.used
    decreases |s|
  {
    if s[0] >= 128 {
      LengthMinimal(s[1..], seen + 1);
      var v := DecodeLength(s[1..], seen + 1).value;
      assert (s[0] - 128 + 128 * v) / 128 == v;
    }
  }

  // ---------------------------------------------------- the parts of a packet

  predicate Word(n: nat) {
    n < 0x10000
  }

  function U16(n: nat): (r: seq<Byte>)
    ensures |r| == 2
  {
    [(n / 256) % 256, n % 256]
  }

  /** The length of a string is cut to sixteen bits, and so is the string. */
  function StringBytes(s: seq<Byte>): (r: seq<Byte>)
    ensures |r| == 2 + |s| % 0x10000
  {
    U16(|s| % 0x10000) + s[..|s| % 0x10000]
  }

  datatype Read<T> = Read(value: T, rest: seq<Byte>) | Fail

  function TakeByte(s: seq<Byte>): Read<Byte> {
    if s == [] then Fail else Read(s[0], s[1..])
  }

  function TakeU16(s: seq<Byte>): (r: Read<nat>)
    ensures r.Read? ==> Word(r.value)
  {
    if |s| < 2 then Fail
    else
      var n: nat := (s[0] as int) * 256 + s[1];
      Read(n, s[2..])
  }

  function TakeBytes(s: seq<Byte>, n: nat): Read<seq<Byte>> {
    if |s| < n then Fail else Read(s[..n], s[n..])
  }

  function TakeString(s: seq<Byte>): Read<seq<Byte>> {
    var len := TakeU16(s);
    if len.Fail? then Fail else TakeBytes(len.rest, len.value)
  }

  /** What C makes of the bytes: a string ends at its first zero. */
  function CString(s: seq<Byte>): (r: seq<Byte>)
    ensures 0 !in s ==> r == s
  {
    if s == [] || s[0] == 0 then [] else [s[0]] + CString(s[1..])
  }

  lemma U16Back(n: nat, more: seq<Byte>)
    requires Word(n)
    ensures TakeU16(U16(n) + more) == Read(n, more)
  {
    assert n / 256 * 256 + n % 256 == n;
    assert (U16(n) + more)[2..] == more;
  }

  lemma StringBack(s: seq<Byte>, more: seq<Byte>)
    requires Word(|s|)
    ensures TakeString(StringBytes(s) + more) == Read(s, more)
  {
    assert s[..|s|] == s && StringBytes(s) + more == U16(|s|) + (s + more);
    U16Back(|s|, s + more);
    assert (s + more)[..|s|] == s && (s + more)[|s|..] == more;
  }

  function Bit(b: bool): nat {
    if b then 1 else 0
  }

  // ---------------------------------------------------------------- PUBLISH

  /** A PUBLISH of QoS 0 carries no message id. */
  datatype Publish = Publish(dup: bool, qos: nat, retain: bool, topic: seq<Byte>, mid: nat, payload: seq<Byte>)

  function PublishCommand(p: Publish): Byte
    requires p.qos <= 2
  {
    PUBLISH + 8 * Bit(p.dup) + 2 * p.qos + Bit(p.retain)
  }

  function PublishLength(p: Publish): nat {
    2 + |p.topic| + |p.payload| + if p.qos > 0 then 2 else 0
  }

  function PublishBody(p: Publish): seq<Byte> {
    StringBytes(p.topic) + (if p.qos > 0 then U16(p.mid) else []) + p.payload
  }

  /** The client library as reader. */
  function DecodePublish(command: Byte, body: seq<Byte>): Option<Publish> {
    var dup, qos, retain := command / 8 % 2 == 1, command / 2 % 4, command % 2 == 1;
    var topic := TakeString(body);
    if topic.Fail? || CString(topic.value) == [] then None
    else
      var mid := if qos > 0 then TakeU16(topic.rest) else Read(0, topic.rest);
      if mid.Fail? || qos > 2 then None
      else Some(Publish(dup, qos, retain, CString(topic.value), mid.value, mid.rest))
  }

  /** What a publish call may ask for. */
  predicate Sendable(p: Publish) {
    p.qos <= 2 && Word(p.mid) && (p.qos == 0 ==> p.mid == 0) && 0 < |p.topic| && Word(|p.topic|) && 0 !in p.topic
  }

  lemma PublishFlags(p: Publish)
    requires p.qos <= 2
    ensures var c := PublishCommand(p);
            c / 16 == 3 && (c / 8 % 2 == 1 <==> p.dup) && c / 2 % 4 == p.qos && (c % 2 == 1 <==> p.retain)
  {
  }

  lemma PublishBack(p: Publish)
    requires Sendable(p)
    ensures DecodePublish(PublishCommand(p), PublishBody(p)) == Some(p) && |PublishBody(p)| == PublishLength(p)
  {
    PublishFlags(p);
    var tail := (if p.qos > 0 then U16(p.mid) else []) + p.payload;
    assert PublishBody(p) == StringBytes(p.topic) + tail;
    StringBack(p.topic, tail);
    if p.qos > 0 { U16Back(p.mid, p.payload); }
  }

  /** A packet as it goes out: command, remaining length, body. */
  function Framed(command: Byte, length: nat, body: seq<Byte>): seq<Byte> {
    [command] + EncodeLength(length) + body
  }

  /** A packet sent whole is framed as itself, whatever follows. */
  lemma FramedBack(command: Byte, body: seq<Byte>, more: seq<Byte>)
    requires |body| <= LARGEST
    ensures var p := OneShot(false, Framed(command, |body|, body) + more);
            p == OneShot(false, more).(packets := [Packet(command, body)] + OneShot(false, more).packets)
  {
    var s, len := Framed(command, |body|, body) + more, EncodeLength(|body|);
    assert s[1..] == len + (body + more);
    LengthRoundTrip(|body|, body + more);
    assert s[1 + |len|..1 + |len| + |body|] == body && s[1 + |len| + |body|..] == more;
  }

  /** PUBLISH goes round: written, framed and decoded it is the same message. */
  lemma PublishRoundTrip(p: Publish, more: seq<Byte>)
    requires Sendable(p) && PublishLength(p) <= LARGEST
    ensures var parsed := OneShot(false, Framed(PublishCommand(p), PublishLength(p), PublishBody(p)) + more);
            |parsed.packets| > 0 && parsed.packets[1..] == OneShot(false, more).packets &&
            parsed.packets[0].command / 16 == 3 &&
            DecodePublish(parsed.packets[0].command, parsed.packets[0].body) == Some(p)
  {
    PublishBack(p);
    PublishFlags(p);
    hide DecodePublish, PublishBody, PublishCommand, Framed;
    FramedBack(PublishCommand(p), PublishBody(p), more);
  }

  // ---------------------------------------------------------------- CONNECT

  datatype Will = Will(topic: seq<Byte>, payload: seq<Byte>, qos: nat, retain: bool)

  datatype Connect = Connect(v311: bool, clean: bool, keepalive: nat, id: seq<Byte>, will: Option<Will>,
                             username: Option<seq<Byte>>, password: Option<seq<Byte>>)

  function ProtocolName(v311: bool): (r: seq<Byte>)
    ensures |r| == if v311 then 4 else 6
    ensures 0 !in r
  {
    if v311 then [0x4D, 0x51, 0x54, 0x54] else [0x4D, 0x51, 0x49, 0x73, 0x64, 0x70]
  }

  function ConnectFlags(c: Connect): Byte
    requires c.will.Some? ==> c.will.value.qos <= 2
  {
    2 * Bit(c.clean)
    + (if c.will.Some? then 32 * Bit(c.will.value.retain) + 8 * c.will.value.qos + 4 else 0)
    + (if c.username.Some? then 128 + 64 * Bit(c.password.Some?) else 0)
  }

  function WillBytes(will: Option<Will>): seq<Byte> {
    if will.Some? then StringBytes(will.value.topic) + StringBytes(will.value.payload) else []
  }

  /** A password goes out only with a user name. */
  function LoginBytes(username: Option<seq<Byte>>, password: Option<seq<Byte>>): seq<Byte> {
    if username == None then []
    else StringBytes(username.value) + if password.Some? then StringBytes(password.value) else []
  }

  function ConnectBody(c: Connect): seq<Byte>
    requires c.will.Some? ==> c.will.value.qos <= 2
  {
    ConnectHeader(c) + WillBytes(c.will) + LoginBytes(c.username, c.password)
  }

  /** What comes before the will and the login. */
  function ConnectHeader(c: Connect): seq<Byte>
    requires c.will.Some? ==> c.will.value.qos <= 2
  {
    StringBytes(ProtocolName(c.v311)) + [if c.v311 then 4 else 3, ConnectFlags(c)] + U16(c.keepalive) +
        StringBytes(c.id)
  }

  function ConnectLength(c: Connect): nat {
    (if c.v311 then 10 else 12) + 2 + |c.id|
    + (if c.will.Some? then 2 + |c.will.value.topic| + 2 + |c.will.value.payload| else 0)
    + (if c.username.Some? then 2 + |c.username.value| + (if c.password.Some? then 2 + |c.password.value| else 0)
       else 0)
  }

  predicate BitSet(flags: Byte, weight: nat)
    requires weight > 0
  {
    flags / weight % 2 == 1
  }

  function WillQos(flags: Byte): nat {
    flags / 8 % 4
  }

  predicate NoWildBytes(s: seq<Byte>) {
    0x2B !in s && 0x23 !in s
  }

  /** The will: its topic must be a topic. */
  function TakeWill(flags: Byte, s: seq<Byte>): Read<Option<Will>> {
    if !BitSet(flags, 4) then Read(None, s)
    else
      var topic := TakeString(s);
      if topic.Fail? || CString(topic.value) == [] || !NoWildBytes(CString(topic.value)) then Fail
      else
        var payload := TakeString(topic.rest);
        if payload.Fail? then Fail
        else Read(Some(Will(CString(topic.value), payload.value, WillQos(flags), BitSet(flags, 32))), payload.rest)
  }

  /** A missing user name or password is overlooked in version 3.1 only. */
  function TakeLogin(v311: bool, flags: Byte, s: seq<Byte>): Read<(Option<seq<Byte>>, Option<seq<Byte>>)> {
    var userFlag, passFlag := BitSet(flags, 128), BitSet(flags, 64);
    if !userFlag then (if v311 && passFlag then Fail else Read((None, None), s))
    else
      var user := TakeString(s);
      if user.Fail? then (if v311 then Fail else Read((None, None), s))
      else if !passFlag then Read((Some(CString(user.value)), None), user.rest)
      else
        var pass := TakeString(user.rest);
        if pass.Fail? then (if v311 then Fail else Read((Some(CString(user.value)), None), user.rest))
        else Read((Some(CString(user.value)), Some(CString(pass.value))), pass.rest)
  }

  /** The broker as reader of a first packet. An empty id is left to the broker
      to fill in, if it does that. */
  function DecodeConnect(command: Byte, body: seq<Byte>, zeroIds: bool): Option<Connect> {
    var name := TakeString(body);
    if name.Fail? then None
    else
      var version := TakeByte(name.rest);
      if version.Fail? then None
      else
        var v311 := CString(name.value) == ProtocolName(true);
        if !v311 && CString(name.value) != ProtocolName(false) then None
        else if version.value % 128 != (if v311 then 4 else 3) || (v311 && command % 16 != 0) then None
        else DecodeRest(v311, version.rest, zeroIds)
  }

  function DecodeRest(v311: bool, s: seq<Byte>, zeroIds: bool): Option<Connect> {
    var flags := TakeByte(s);
    if flags.Fail? || WillQos(flags.value) == 3 then None
    else
      var keepalive := TakeU16(flags.rest);
      if keepalive.Fail? then None
      else
        var id, clean := TakeString(keepalive.rest), BitSet(flags.value, 2);
        if id.Fail? || (CString(id.value) == [] && (!v311 || !clean || !zeroIds)) then None
        else if !BitSet(flags.value, 4) && v311 && (WillQos(flags.value) != 0 || BitSet(flags.value, 32)) then None
        else
          var will := TakeWill(flags.value, id.rest);
          if will.Fail? then None
          else
            var login := TakeLogin(v311, flags.value, will.rest);
            if login.Fail? then None
            else Some(Connect(v311, clean, keepalive.value, CString(id.value), will.value, login.value.0,
                              login.value.1))
  }

  /** What a connecting client may ask for. */
  predicate Connectable(c: Connect, zeroIds: bool) {
    Word(c.keepalive) && Word(|c.id|) && 0 !in c.id && (c.id == [] ==> c.v311 && c.clean && zeroIds) &&
    (c.will.Some? ==> WillFine(c.will.value)) &&
    (c.username.Some? ==> Word(|c.username.value|) && 0 !in c.username.value) &&
    (c.password.Some? ==> Word(|c.password.value|) && 0 !in c.password.value)
  }

  predicate WillFine(w: Will) {
    w.qos <= 2 && 0 < |w.topic| && Word(|w.topic|) && 0 !in w.topic && NoWildBytes(w.topic) && Word(|w.payload|)
  }

  lemma FlagBits(c: Connect)
    requires c.will.Some? ==> c.will.value.qos <= 2
    ensures var f := ConnectFlags(c);
            (BitSet(f, 2) <==> c.clean) && (BitSet(f, 4) <==> c.will.Some?) &&
            (if c.will.Some? then WillQos(f) == c.will.value.qos && (BitSet(f, 32) <==> c.will.value.retain)
             else WillQos(f) == 0 && !BitSet(f, 32)) &&
            (BitSet(f, 128) <==> c.username.Some?) && (BitSet(f, 64) <==> c.username.Some? && c.password.Some?)
  {
    var will := c.will.Some?;
    Bits(Bit(c.username.Some?), Bit(c.username.Some? && c.password.Some?), Bit(will && c.will.value.retain),
         if will then c.will.value.qos else 0, Bit(will), Bit(c.clean), ConnectFlags(c));
  }

  lemma Bits(user: nat, pass: nat, retain: nat, qos: nat, will: nat, clean: nat, f: nat)
    requires user <= 1 && pass <= 1 && retain <= 1 && qos <= 2 && will <= 1 && clean <= 1
    requires f == 128 * user + 64 * pass + 32 * retain + 8 * qos + 4 * will + 2 * clean
    ensures f / 2 % 2 == clean && f / 4 % 2 == will && f / 8 % 4 == qos && f / 32 % 2 == retain && f / 64 % 2 == pass
    ensures f / 128 % 2 == user
  {
    assert f / 2 == 64 * user + 32 * pass + 16 * retain + 4 * qos + 2 * will + clean;
    assert f / 4 == 32 * user + 16 * pass + 8 * retain + 2 * qos + will;
    assert f / 8 == 16 * user + 8 * pass + 4 * retain + qos;
    assert f / 32 == 4 * user + 2 * pass + retain;
    assert f / 64 == 2 * user + pass;
    assert f / 128 == user;
  }

  lemma WillBack(c: Connect, more: seq<Byte>)
    requires c.will.Some? ==> WillFine(c.will.value)
    ensures TakeWill(ConnectFlags(c), WillBytes(c.will) + more) == Read(c.will, more)
  {
    FlagBits(c);
    hide ConnectFlags, TakeString, StringBytes, NoWildBytes, BitSet, WillQos;
    if c.will.Some? {
      var w := c.will.value;
      assert WillBytes(c.will) + more == StringBytes(w.topic) + (StringBytes(w.payload) + more);
      StringBack(w.topic, StringBytes(w.payload) + more);
      StringBack(w.payload, more);
    } else {
      assert WillBytes(c.will) + more == more;
    }
  }

  lemma LoginBack(c: Connect)
    requires c.will.Some? ==> c.will.value.qos <= 2
    requires c.username.Some? ==> Word(|c.username.value|) && 0 !in c.username.value
    requires c.password.Some? ==> Word(|c.password.value|) && 0 !in c.password.value
    ensures TakeLogin(c.v311, ConnectFlags(c), LoginBytes(c.username, c.password)) ==
            Read((c.username, if c.username.Some? then c.password else None), [])
  {
    FlagBits(c);
    hide ConnectFlags, TakeString, StringBytes, BitSet, WillQos;
    if c.username.Some? {
      var user := StringBytes(c.username.value);
      if c.password.Some? {
        StringBack(c.username.value, StringBytes(c.password.value));
        StringBack(c.password.value, []);
        assert StringBytes(c.password.value) + [] == StringBytes(c.password.value);
      } else {
        StringBack(c.username.value, []);
      }
    }
  }

  /** Behind the version byte. */
  function ConnectRest(c: Connect): seq<Byte>
    requires c.will.Some? ==> c.will.value.qos <= 2
  {
    [ConnectFlags(c)] + U16(c.keepalive) + StringBytes(c.id) + WillBytes(c.will) + LoginBytes(c.username, c.password)
  }

  lemma RestShape(c: Connect)
    requires c.will.Some? ==> c.will.value.qos <= 2
    ensures ConnectRest(c) == [ConnectFlags(c)] + (U16(c.keepalive) + (StringBytes(c.id)
                                + (WillBytes(c.will) + LoginBytes(c.username, c.password))))
  {
    hide ConnectFlags, StringBytes, WillBytes, LoginBytes, U16;
  }

  lemma RestBack(c: Connect, zeroIds: bool)
    requires Connectable(c, zeroIds)
    ensures DecodeRest(c.v311, ConnectRest(c), zeroIds) ==
            Some(c.(password := if c.username.Some? then c.password else None))
  {
    FlagBits(c);
    var login := LoginBytes(c.username, c.password);
    var will := WillBytes(c.will) + login;
    var id := StringBytes(c.id) + will;
    var flags := ConnectFlags(c);
    RestShape(c);
    U16Back(c.keepalive, id);
    StringBack(c.id, will);
    WillBack(c, login);
    LoginBack(c);
    FlagOff(flags, U16(c.keepalive) + id);
    assert CString(c.id) == c.id;
    hide ConnectFlags, StringBytes, WillBytes, LoginBytes, TakeString, TakeU16, TakeWill, TakeLogin, U16, WillFine,
         BitSet, WillQos,
         CString, ConnectRest;
  }

  lemma FlagOff(flags: Byte, more: seq<Byte>)
    ensures TakeByte([flags] + more) == Read(flags, more)
  {
    assert ([flags] + more)[1..] == more;
  }

  lemma NameBack(c: Connect, more: seq<Byte>, zeroIds: bool)
    ensures var version := if c.v311 then 4 else 3;
            DecodeConnect(CONNECT, StringBytes(ProtocolName(c.v311)) + ([version] + more), zeroIds) ==
            DecodeRest(c.v311, more, zeroIds)
  {
    var version := if c.v311 then 4 else 3;
    StringBack(ProtocolName(c.v311), [version] + more);
    assert ([version] + more)[1..] == more;
    assert ProtocolName(true) != ProtocolName(false);
    hide StringBytes, TakeString, DecodeRest, ProtocolName;
  }

  /** CONNECT goes round: every field comes back, but for a password without a
      user name, which is not sent. */
  lemma ConnectRoundTrip(c: Connect, zeroIds: bool, more: seq<Byte>)
    requires Connectable(c, zeroIds)
    ensures |ConnectBody(c)| == ConnectLength(c) <= LARGEST
    ensures var parsed := OneShot(true, Framed(CONNECT, ConnectLength(c), ConnectBody(c)) + more);
            |parsed.packets| > 0 && parsed.packets[0].command == CONNECT &&
            parsed.packets[1..] == OneShot(false, more).packets &&
            DecodeConnect(parsed.packets[0].command, parsed.packets[0].body, zeroIds) ==
            Some(c.(password := if c.username.Some? then c.password else None))
  {
    ConnectSize(c, zeroIds);
    RestBack(c, zeroIds);
    NameBack(c, ConnectRest(c), zeroIds);
    ConnectSplit(c);
    hide DecodeConnect, DecodeRest, ConnectBody, ConnectRest, ConnectLength, Connectable, Framed;
    FramedBack(CONNECT, ConnectBody(c), more);
    FirstIsConnect(Framed(CONNECT, ConnectLength(c), ConnectBody(c)) + more, ConnectLength(c), ConnectBody(c), more);
  }

  lemma FirstIsConnect(s: seq<Byte>, length: nat, body: seq<Byte>, more: seq<Byte>)
    requires s == Framed(CONNECT, length, body) + more
    ensures OneShot(true, s) == OneShot(false, s)
  {
    assert s[0] == CONNECT;
  }

  lemma ConnectSplit(c: Connect)
    requires c.will.Some? ==> c.will.value.qos <= 2
    ensures ConnectBody(c) == StringBytes(ProtocolName(c.v311)) + ([if c.v311 then 4 else 3] + ConnectRest(c))
  {
    hide StringBytes, ProtocolName, ConnectFlags, U16, WillBytes, LoginBytes;
  }

  lemma ConnectSize(c: Connect, zeroIds: bool)
    requires Connectable(c, zeroIds)
    ensures |ConnectBody(c)| == ConnectLength(c) <= LARGEST
  {
    HeaderSize(c);
    LoginSize(c);
    hide StringBytes, ConnectHeader, LoginBytes, NoWildBytes;
  }

  lemma LoginSize(c: Connect)
    requires c.username.Some? ==> Word(|c.username.value|)
    requires c.password.Some? ==> Word(|c.password.value|)
    ensures |LoginBytes(c.username, c.password)| ==
            if c.username == None then 0
            else 2 + |c.username.value| + if c.password.Some? then 2 + |c.password.value| else 0
  {
    hide StringBytes;
  }

  lemma HeaderSize(c: Connect)
    requires Word(|c.id|) && (c.will.Some? ==> c.will.value.qos <= 2)
    ensures |ConnectHeader(c)| == (if c.v311 then 10 else 12) + 2 + |c.id|
  {
    hide StringBytes, ProtocolName, ConnectFlags, U16;
  }
}
