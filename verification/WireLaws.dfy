/** Which first packets the broker accepts as CONNECT, byte by byte. */
module WireLaws {
  import opened Common
  import opened Framing
  import opened Wire

  /** The parts of a CONNECT in the order they are read; `rest` is not read. */
  datatype Request = Request(name: seq<Byte>, version: Byte, flags: Byte, keepalive: nat, id: seq<Byte>,
                             will: Option<(seq<Byte>, seq<Byte>)>, user: Option<seq<Byte>>, pass: Option<seq<Byte>>,
                             rest: seq<Byte>)

  predicate Short(s: seq<Byte>) {
    |s| < 65536
  }

  predicate Sized(r: Request) {
    Short(r.name) && r.keepalive < 65536 && Short(r.id) &&
    (r.will.Some? ==> Short(r.will.value.0) && Short(r.will.value.1)) &&
    (r.user.Some? ==> Short(r.user.value)) && (r.pass.Some? ==> Short(r.pass.value))
  }

  /** Two bytes of length, high one first, and the bytes of the string. */
  function Str(s: seq<Byte>): seq<Byte>
    requires Short(s)
  {
    [|s| / 256, |s| % 256] + s
  }

  function StrIf(s: Option<seq<Byte>>): seq<Byte>
    requires s.Some? ==> Short(s.value)
  {
    if s.Some? then Str(s.value) else []
  }

  function Login(r: Request): seq<Byte>
    requires Sized(r)
  {
    StrIf(r.user) + (StrIf(r.pass) + r.rest)
  }

  function FromWill(r: Request): seq<Byte>
    requires Sized(r)
  {
    (if r.will.Some? then Str(r.will.value.0) + Str(r.will.value.1) else []) + Login(r)
  }

  function FromFlags(r: Request): seq<Byte>
    requires Sized(r)
  {
    [r.flags, r.keepalive / 256, r.keepalive % 256] + (Str(r.id) + FromWill(r))
  }

  function Bytes(r: Request): seq<Byte>
    requires Sized(r)
  {
    Str(r.name) + ([r.version] + FromFlags(r))
  }

  /** No whole string stands here. */
  predicate NoStr(s: seq<Byte>) {
    |s| < 2 || |s| < 2 + (s[0] as int) * 256 + s[1]
  }

  predicate Is311(r: Request) {
    CString(r.name) == [0x4D, 0x51, 0x54, 0x54]
  }

  /** One of the two protocol names with its version, the top bit of which does not
      count; the flags of the command are zero in 3.1.1. */
  predicate NameFine(r: Request, command: Byte) {
    if Is311(r) then r.version % 128 == 4 && command % 16 == 0
    else CString(r.name) == [0x4D, 0x51, 0x49, 0x73, 0x64, 0x70] && r.version % 128 == 3
  }

  /** Only a clean session of version 3.1.1 may leave its id to the broker, and only
      if the broker gives ids. */
  predicate IdFine(r: Request, zeroIds: bool) {
    CString(r.id) != [] || (Is311(r) && r.flags / 2 % 2 == 1 && zeroIds)
  }

  /** The topic of a will is a topic; without a will its flags are zero in 3.1.1. */
  predicate WillAllowed(r: Request) {
    r.flags / 8 % 4 != 3 && (r.will.Some? <==> r.flags / 4 % 2 == 1) &&
    if r.will.Some? then
      CString(r.will.value.0) != [] && 0x2B !in CString(r.will.value.0) && 0x23 !in CString(r.will.value.0)
    else Is311(r) ==> r.flags / 8 % 4 == 0 && r.flags / 32 % 2 == 0
  }

  /** User name and password are there if their flags are set; in version 3.1 they
      may be missing at the end. There is no password without a user name. */
  predicate LoginFine(r: Request) {
    (r.user.Some? ==> r.flags / 128 % 2 == 1) && (r.pass.Some? ==> r.user.Some? && r.flags / 64 % 2 == 1) &&
    (r.flags / 128 % 2 == 0 ==> !(Is311(r) && r.flags / 64 % 2 == 1)) &&
    (r.flags / 128 % 2 == 1 && r.user == None ==> !Is311(r) && NoStr(r.rest)) &&
    (r.flags / 64 % 2 == 1 && r.user.Some? && r.pass == None ==> !Is311(r) && NoStr(r.rest))
  }

  predicate Accepted(r: Request, command: Byte, zeroIds: bool) {
    NameFine(r, command) && IdFine(r, zeroIds) && WillAllowed(r) && LoginFine(r)
  }

  function Meaning(r: Request): Connect {
    Connect(Is311(r), r.flags / 2 % 2 == 1, r.keepalive, CString(r.id),
            if r.will.Some? then Some(Will(CString(r.will.value.0), r.will.value.1, r.flags / 8 % 4,
                                           r.flags / 32 % 2 == 1))
            else None,
            if r.user.Some? then Some(CString(r.user.value)) else None,
            if r.pass.Some? then Some(CString(r.pass.value)) else None)
  }

  // ------------------------------------------------------------------- strings

  lemma StrTaken(s: seq<Byte>, more: seq<Byte>)
    requires Short(s)
    ensures TakeString(Str(s) + more) == Read(s, more)
  {
    assert |s| / 256 * 256 + |s| % 256 == |s|;
    var all := Str(s) + more;
    assert all[2..] == s + more && (s + more)[..|s|] == s && (s + more)[|s|..] == more;
  }

  lemma StrWas(s: seq<Byte>)
    ensures TakeString(s).Fail? <==> NoStr(s)
    ensures TakeString(s).Read? ==> Short(TakeString(s).value) && s == Str(TakeString(s).value) + TakeString(s).rest
  {
    if TakeString(s).Read? {
      var v := TakeString(s).value;
      assert |v| == (s[0] as int) * 256 + s[1];
      assert |v| / 256 == s[0] && |v| % 256 == s[1];
      assert s == s[..2] + s[2..] && s[2..] == s[2..][..|v|] + s[2..][|v|..];
    }
  }

  // --------------------------------------------------------------- both ways

  lemma LoginTaken(r: Request)
    requires Sized(r) && LoginFine(r)
    ensures TakeLogin(Is311(r), r.flags, Login(r)) ==
            Read((Meaning(r).username, Meaning(r).password), r.rest)
  {
    hide Is311, TakeString, Str, CString;
    assert [] + r.rest == r.rest && [] + (StrIf(r.pass) + r.rest) == StrIf(r.pass) + r.rest;
    StrWas(r.rest);
    if r.user.Some? { StrTaken(r.user.value, StrIf(r.pass) + r.rest); }
    if r.pass.Some? { StrTaken(r.pass.value, r.rest); }
  }

  lemma WillTaken(r: Request)
    requires Sized(r) && WillAllowed(r)
    ensures TakeWill(r.flags, FromWill(r)) == Read(Meaning(r).will, Login(r))
  {
    hide Is311, TakeString, Str, CString, Login;
    if r.will.Some? {
      var tail := Str(r.will.value.1) + Login(r);
      assert FromWill(r) == Str(r.will.value.0) + tail;
      StrTaken(r.will.value.0, tail);
      StrTaken(r.will.value.1, Login(r));
    } else {
      assert FromWill(r) == Login(r);
    }
  }

  lemma HeadTaken(r: Request)
    requires Sized(r)
    ensures var flags := TakeByte(FromFlags(r));
            flags.Read? && flags.value == r.flags &&
            TakeU16(flags.rest) == Read(r.keepalive, Str(r.id) + FromWill(r)) &&
            TakeString(Str(r.id) + FromWill(r)) == Read(r.id, FromWill(r))
  {
    StrTaken(r.id, FromWill(r));
    var s, tail := FromFlags(r), Str(r.id) + FromWill(r);
    hide TakeString, Str, FromWill;
    assert s[1..] == [r.keepalive / 256, r.keepalive % 256] + tail && s[1..][2..] == tail;
    assert r.keepalive / 256 * 256 + r.keepalive % 256 == r.keepalive;
  }

  lemma FlagsTaken(r: Request, zeroIds: bool)
    requires Sized(r) && IdFine(r, zeroIds) && WillAllowed(r) && LoginFine(r)
    ensures DecodeRest(Is311(r), FromFlags(r), zeroIds) == Some(Meaning(r))
  {
    WillTaken(r);
    LoginTaken(r);
    HeadTaken(r);
    FlagsAre(r, zeroIds);
    hide TakeString, TakeU16, TakeByte, Str, CString, FromWill, FromFlags, Login, TakeWill, TakeLogin, LoginFine, Is311,
         IdFine, WillAllowed, BitSet, WillQos, Sized;
  }

  lemma FlagsAre(r: Request, zeroIds: bool)
    requires IdFine(r, zeroIds) && WillAllowed(r)
    ensures WillQos(r.flags) != 3 && !(CString(r.id) == [] && (!Is311(r) || !BitSet(r.flags, 2) || !zeroIds))
    ensures !(!BitSet(r.flags, 4) && Is311(r) && (WillQos(r.flags) != 0 || BitSet(r.flags, 32)))
    ensures Meaning(r).clean == BitSet(r.flags, 2) && Meaning(r).id == CString(r.id) && Meaning(r).v311 == Is311(r) &&
            Meaning(r).keepalive == r.keepalive
  {
    hide CString, Is311;
  }

  lemma NameTaken(r: Request, command: Byte, zeroIds: bool)
    requires Sized(r) && NameFine(r, command)
    ensures DecodeConnect(command, Bytes(r), zeroIds) == DecodeRest(Is311(r), FromFlags(r), zeroIds)
  {
    StrTaken(r.name, [r.version] + FromFlags(r));
    assert ([r.version] + FromFlags(r))[1..] == FromFlags(r);
    NamesAre();
    hide TakeString, Str, CString, FromFlags, DecodeRest, ProtocolName;
  }

  /** What has the form of an accepted request is accepted, and means what its parts
      say. */
  lemma AcceptedDecodes(r: Request, command: Byte, zeroIds: bool)
    requires Sized(r) && Accepted(r, command, zeroIds)
    ensures DecodeConnect(command, Bytes(r), zeroIds) == Some(Meaning(r))
  {
    FlagsTaken(r, zeroIds);
    NameTaken(r, command, zeroIds);
  }

  lemma LoginWas(v311: bool, flags: Byte, s: seq<Byte>) returns (user: Option<seq<Byte>>, pass: Option<seq<Byte>>,
                                                                 rest: seq<Byte>)
    requires TakeLogin(v311, flags, s).Read?
    ensures (user.Some? ==> Short(user.value)) && (pass.Some? ==> Short(pass.value))
    ensures s == StrIf(user) + (StrIf(pass) + rest)
    ensures (user.Some? ==> flags / 128 % 2 == 1) && (pass.Some? ==> user.Some? && flags / 64 % 2 == 1)
    ensures flags / 128 % 2 == 0 ==> !(v311 && flags / 64 % 2 == 1)
    ensures flags / 128 % 2 == 1 && user == None ==> !v311 && NoStr(rest)
    ensures flags / 64 % 2 == 1 && user.Some? && pass == None ==> !v311 && NoStr(rest)
  {
    user, pass, rest := None, None, s;
    hide TakeString, Str, CString;
    StrWas(s);
    if flags / 128 % 2 == 1 && TakeString(s).Read? {
      user, rest := Some(TakeString(s).value), TakeString(s).rest;
      StrWas(rest);
      if flags / 64 % 2 == 1 && TakeString(rest).Read? {
        pass, rest := Some(TakeString(rest).value), TakeString(rest).rest;
      } else {
        assert [] + rest == rest;
      }
    } else {
      assert [] + ([] + s) == s;
    }
  }

  lemma WillWas(flags: Byte, s: seq<Byte>) returns (will: Option<(seq<Byte>, seq<Byte>)>, rest: seq<Byte>)
    requires TakeWill(flags, s).Read?
    ensures rest == TakeWill(flags, s).rest && (will.Some? <==> flags / 4 % 2 == 1)
    ensures will.Some? ==> Short(will.value.0) && Short(will.value.1) &&
                           s == Str(will.value.0) + Str(will.value.1) + rest &&
                           CString(will.value.0) != [] && 0x2B !in CString(will.value.0) &&
                           0x23 !in CString(will.value.0)
    ensures will == None ==> rest == s
  {
    will, rest := None, TakeWill(flags, s).rest;
    hide TakeString, Str, CString;
    if flags / 4 % 2 == 1 {
      StrWas(s);
      StrWas(TakeString(s).rest);
      will := Some((TakeString(s).value, TakeString(TakeString(s).rest).value));
      assert Str(will.value.0) + Str(will.value.1) + rest == Str(will.value.0) + (Str(will.value.1) + rest);
    }
  }

  /** Whatever is accepted has that form, so that everything else is refused. */
  lemma DecodedIs(command: Byte, body: seq<Byte>, zeroIds: bool) returns (r: Request)
    requires DecodeConnect(command, body, zeroIds).Some?
    ensures Sized(r) && Bytes(r) == body && Accepted(r, command, zeroIds)
    ensures DecodeConnect(command, body, zeroIds) == Some(Meaning(r))
  {
    var name, version, s := NameWas(command, body, zeroIds);
    r := RestWas(name, version, s, zeroIds);
    assert NameFine(r, command);
    AcceptedDecodes(r, command, zeroIds);
  }

  lemma NameWas(command: Byte, body: seq<Byte>, zeroIds: bool) returns (name: seq<Byte>, version: Byte, s: seq<Byte>)
    requires DecodeConnect(command, body, zeroIds).Some?
    ensures Short(name) && body == Str(name) + ([version] + s)
    ensures var v311 := CString(name) == [0x4D, 0x51, 0x54, 0x54];
            (if v311 then version % 128 == 4 && command % 16 == 0
             else CString(name) == [0x4D, 0x51, 0x49, 0x73, 0x64, 0x70] && version % 128 == 3) &&
            DecodeRest(v311, s, zeroIds).Some?
  {
    hide TakeString, Str, CString, DecodeRest, ProtocolName, Short;
    StrWas(body);
    NamesAre();
    name := TakeString(body).value;
    var more := TakeString(body).rest;
    version, s := more[0], more[1..];
    assert more == [version] + s;
  }

  lemma NamesAre()
    ensures ProtocolName(true) == [0x4D, 0x51, 0x54, 0x54]
    ensures ProtocolName(false) == [0x4D, 0x51, 0x49, 0x73, 0x64, 0x70]
  {
  }

  lemma RestWas(name: seq<Byte>, version: Byte, s: seq<Byte>, zeroIds: bool) returns (r: Request)
    requires Short(name) && DecodeRest(CString(name) == [0x4D, 0x51, 0x54, 0x54], s, zeroIds).Some?
    ensures Sized(r) && r.name == name && r.version == version && FromFlags(r) == s
    ensures IdFine(r, zeroIds) && WillAllowed(r) && LoginFine(r)
  {
    hide *;
    var v311 := CString(name) == [0x4D, 0x51, 0x54, 0x54];
    var flags, keepalive, id, tail := HeadWas(v311, s, zeroIds);
    var will, rest := WillWas(flags, tail);
    var user, pass, left := LoginWas(v311, flags, rest);
    r := Request(name, version, flags, keepalive, id, will, user, pass, left);
    PartsFit(r, v311, rest, tail, s, zeroIds);
  }

  lemma PartsFit(r: Request, v311: bool, rest: seq<Byte>, tail: seq<Byte>, s: seq<Byte>, zeroIds: bool)
    requires v311 == (CString(r.name) == [0x4D, 0x51, 0x54, 0x54]) && Short(r.name) && r.keepalive < 65536 &&
             Short(r.id)
    requires s == [r.flags, r.keepalive / 256, r.keepalive % 256] + (Str(r.id) + tail)
    requires CString(r.id) != [] || (v311 && r.flags / 2 % 2 == 1 && zeroIds)
    requires r.flags / 8 % 4 != 3
    requires r.flags / 4 % 2 == 1 || !v311 || (r.flags / 8 % 4 == 0 && r.flags / 32 % 2 == 0)
    requires r.will.Some? <==> r.flags / 4 % 2 == 1
    requires r.will.Some? ==> Short(r.will.value.0) && Short(r.will.value.1) &&
                              CString(r.will.value.0) != [] && 0x2B !in CString(r.will.value.0) &&
                              0x23 !in CString(r.will.value.0)
    requires if r.will.Some? then tail == Str(r.will.value.0) + Str(r.will.value.1) + rest else tail == rest
    requires (r.user.Some? ==> Short(r.user.value)) && (r.pass.Some? ==> Short(r.pass.value))
    requires rest == StrIf(r.user) + (StrIf(r.pass) + r.rest)
    requires (r.user.Some? ==> r.flags / 128 % 2 == 1) && (r.pass.Some? ==> r.user.Some? && r.flags / 64 % 2 == 1)
    requires r.flags / 128 % 2 == 0 ==> !(v311 && r.flags / 64 % 2 == 1)
    requires r.flags / 128 % 2 == 1 && r.user == None ==> !v311 && NoStr(r.rest)
    requires r.flags / 64 % 2 == 1 && r.user.Some? && r.pass == None ==> !v311 && NoStr(r.rest)
    ensures Sized(r) && FromFlags(r) == s && IdFine(r, zeroIds) && WillAllowed(r) && LoginFine(r)
  {
    assert Is311(r) == v311;
    hide Is311, CString, Str, StrIf, Short, NoStr;
    WillFits(r, rest, tail);
  }

  lemma WillFits(r: Request, rest: seq<Byte>, tail: seq<Byte>)
    requires Sized(r) && rest == Login(r)
    requires if r.will.Some? then tail == Str(r.will.value.0) + Str(r.will.value.1) + rest else tail == rest
    ensures FromWill(r) == tail
  {
    hide Str, Login;
    if r.will == None { assert [] + rest == rest; }
  }

  lemma HeadWas(v311: bool, s: seq<Byte>, zeroIds: bool)
    returns (flags: Byte, keepalive: nat, id: seq<Byte>, tail: seq<Byte>)
    requires DecodeRest(v311, s, zeroIds).Some?
    ensures keepalive < 65536 && Short(id) && s == [flags, keepalive / 256, keepalive % 256] + (Str(id) + tail)
    ensures CString(id) != [] || (v311 && flags / 2 % 2 == 1 && zeroIds)
    ensures flags / 8 % 4 != 3 && (flags / 4 % 2 == 1 || !v311 || (flags / 8 % 4 == 0 && flags / 32 % 2 == 0))
    ensures TakeWill(flags, tail).Read? && TakeLogin(v311, flags, TakeWill(flags, tail).rest).Read?
  {
    hide TakeString, CString, TakeWill, TakeLogin;
    flags := s[0];
    var more := s[1..][2..];
    keepalive := (s[1] as int) * 256 + s[2];
    KeepaliveIs(s[1], s[2]);
    assert s[3..] == more && s == [s[0], s[1], s[2]] + more;
    StrWas(more);
    id, tail := TakeString(more).value, TakeString(more).rest;
    hide Str;
  }

  lemma KeepaliveIs(high: Byte, low: Byte)
    ensures var k := (high as int) * 256 + low; 0 <= k < 65536 && k / 256 == high && k % 256 == low
  {
  }

  // ------------------------------------------------------------------- PUBLISH

  function MidBytes(qos: nat, mid: nat): seq<Byte>
    requires mid < 65536
  {
    if qos > 0 then [mid / 256, mid % 256] else []
  }

  /** A body with a topic, an id for QoS 1 and 2, and the rest as payload is read so. */
  lemma PublishRead(command: Byte, topic: seq<Byte>, mid: nat, payload: seq<Byte>)
    requires Short(topic) && CString(topic) != [] && mid < 65536 && command / 2 % 4 <= 2
    ensures var qos := command / 2 % 4;
            DecodePublish(command, Str(topic) + (MidBytes(qos, mid) + payload)) ==
            Some(Publish(command / 8 % 2 == 1, qos, command % 2 == 1, CString(topic), if qos > 0 then mid
                         else 0, payload))
  {
    hide TakeString, TakeU16, Str, CString, MidBytes;
    StrTaken(topic, MidBytes(command / 2 % 4, mid) + payload);
    MidTaken(command / 2 % 4, mid, payload);
  }

  lemma MidTaken(qos: nat, mid: nat, payload: seq<Byte>)
    requires mid < 65536
    ensures if qos > 0 then TakeU16(MidBytes(qos, mid) + payload) == Read(mid, payload)
            else MidBytes(qos, mid) + payload == payload
  {
    assert mid / 256 * 256 + mid % 256 == mid;
    if qos > 0 { assert (MidBytes(qos, mid) + payload)[2..] == payload; }
  }

  /** Nothing else is. */
  lemma PublishWas(command: Byte, body: seq<Byte>) returns (topic: seq<Byte>, mid: nat, payload: seq<Byte>)
    requires DecodePublish(command, body).Some?
    ensures Short(topic) && CString(topic) != [] && mid < 65536 && command / 2 % 4 <= 2
    ensures body == Str(topic) + (MidBytes(command / 2 % 4, mid) + payload)
  {
    StrWas(body);
    hide TakeString, Str, CString;
    topic := TakeString(body).value;
    var more := TakeString(body).rest;
    mid, payload := 0, more;
    if command / 2 % 4 > 0 {
      mid, payload := (more[0] as int) * 256 + more[1], more[2..];
      KeepaliveIs(more[0], more[1]);
      assert more == [more[0], more[1]] + payload;
    } else {
      assert [] + more == more;
    }
  }

  /** The number with these digits of seven bits, the lowest first. */
  function Digits(s: seq<Byte>): nat {
    if s == [] then 0 else (s[0] as nat) % 128 + 128 * Digits(s[1..])
  }

  /** A remaining length is the number its bytes spell, at most four of them; all
      but the last have their top bit set. */
  lemma {:induction false} LengthMeans(s: seq<Byte>, seen: nat)
    requires seen <= 4 && DecodeLength(s, seen).Length?
    ensures var l := DecodeLength(s, seen);
            1 <= l.used <= 4 - seen && l.used <= |s| && l.value == Digits(s[..l.used]) && s[l.used - 1] < 128 &&
            forall i :: 0 <= i < l.used - 1 ==> s[i] >= 128
    decreases |s|
  {
    var l := DecodeLength(s, seen);
    assert s[..l.used][0] == s[0];
    if s[0] >= 128 {
      LengthMeans(s[1..], seen + 1);
      assert s[..l.used][1..] == s[1..][..l.used - 1];
    } else {
      assert s[..1][1..] == [];
    }
  }
}
