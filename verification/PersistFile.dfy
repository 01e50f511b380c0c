/** The bytes of the database file: a header, then chunks of a known length, which
    read back as they were written. */
module PersistFile {
  import opened Common
  import opened Framing
  import opened Wire
  import opened Persist
  import opened PersistLaws
  import opened SubTree

  const VERSION := 3
  const MAGIC: seq<Byte> := [0x00, 0xB5, 0x00, 0x6D, 0x6F, 0x73, 0x71, 0x75, 0x69, 0x74, 0x74, 0x6F, 0x20, 0x64, 0x62]

  // ---------------------------------------------------------------- numbers

  function LowFirst(n: nat, k: nat): (r: seq<Byte>)
    ensures |r| == k
  {
    if k == 0 then [] else [n % 256] + LowFirst(n / 256, k - 1)
  }

  function FromLowFirst(s: seq<Byte>): nat {
    if s == [] then 0 else s[0] + 256 * FromLowFirst(s[1..])
  }

  function Pow256(k: nat): (r: nat)
    ensures r > 0
  {
    if k == 0 then 1 else 256 * Pow256(k - 1)
  }

  lemma {:induction false} LowFirstBack(n: nat, k: nat)
    requires n < Pow256(k)
    ensures FromLowFirst(LowFirst(n, k)) == n
    decreases k
  {
    if k > 0 {
      assert n / 256 < Pow256(k - 1);
      LowFirstBack(n / 256, k - 1);
      assert LowFirst(n, k)[1..] == LowFirst(n / 256, k - 1);
      assert n == n % 256 + 256 * (n / 256);
    }
  }

  function U64(n: nat): (r: seq<Byte>)
    ensures |r| == 8
  {
    LowFirst(n, 8)
  }

  function TakeU64(s: seq<Byte>): Read<nat> {
    if |s| < 8 then Fail else Read(FromLowFirst(s[..8]), s[8..])
  }

  predicate Long(n: nat) {
    n < Pow256(8)
  }

  lemma U64Back(n: nat, more: seq<Byte>)
    requires Long(n)
    ensures TakeU64(U64(n) + more) == Read(n, more)
  {
    LowFirstBack(n, 8);
    assert (U64(n) + more)[..8] == U64(n) && (U64(n) + more)[8..] == more;
  }

  predicate Double(n: nat) {
    n < 0x1_0000_0000
  }

  function U32(n: nat): (r: seq<Byte>)
    ensures |r| == 4
  {
    U16(n / 0x10000 % 0x10000) + U16(n % 0x10000)
  }

  function TakeU32(s: seq<Byte>): Read<nat> {
    var hi := TakeU16(s);
    if hi.Fail? then Fail
    else
      var lo := TakeU16(hi.rest);
      if lo.Fail? then Fail else Read(hi.value * 0x10000 + lo.value, lo.rest)
  }

  lemma U32Back(n: nat, more: seq<Byte>)
    requires Double(n)
    ensures TakeU32(U32(n) + more) == Read(n, more)
  {
    assert U32(n) + more == U16(n / 0x10000 % 0x10000) + (U16(n % 0x10000) + more);
    U16Back(n / 0x10000 % 0x10000, U16(n % 0x10000) + more);
    U16Back(n % 0x10000, more);
  }

  // ----------------------------------------------------------------- strings

  /** Characters of C are bytes. */
  predicate Narrow(s: string) {
    forall i :: 0 <= i < |s| ==> s[i] as int < 256
  }

  function Bytes(s: string): (r: seq<Byte>)
    ensures |r| == |s| && forall i :: 0 <= i < |r| ==> r[i] == (s[i] as int) % 256
  {
    seq(|s|, i requires 0 <= i < |s| => (s[i] as int) % 256)
  }

  function Text(b: seq<Byte>): (r: string)
    ensures |r| == |b| && forall i :: 0 <= i < |r| ==> r[i] as int == b[i]
  {
    seq(|b|, i requires 0 <= i < |b| => b[i] as char)
  }

  lemma TextBack(s: string)
    requires Narrow(s)
    ensures Text(Bytes(s)) == s
  {
    assert forall i :: 0 <= i < |s| ==> Text(Bytes(s))[i] as int == s[i] as int;
  }

  function TakeText(s: seq<Byte>): Read<string> {
    var t := TakeString(s);
    if t.Fail? then Fail else Read(Text(t.value), t.rest)
  }

  predicate Storable(s: string) {
    Narrow(s) && Word(|s|)
  }

  lemma TextTaken(s: string, more: seq<Byte>)
    requires Storable(s)
    ensures TakeText(StringBytes(Bytes(s)) + more) == Read(s, more)
  {
    StringBack(Bytes(s), more);
    TextBack(s);
  }

  // ------------------------------------------------------------------ chunks

  function TypeOf(c: Chunk): nat {
    match c
    case Cfg(_, _) => 1
    case MsgStore(_) => 2
    case ClientMsg(_, _) => 3
    case Retain(_) => 4
    case Sub(_, _, _) => 5
    case Client(_, _, _) => 6
  }

  function BodyOf(c: Chunk): seq<Byte> {
    match c
    case Cfg(shutdown, lastDbId) => [Bit(shutdown), 8] + U64(lastDbId)
    case MsgStore(s) =>
      U64(s.id) + StringBytes(Bytes(s.source)) + U16(s.sourceMid) + U16(s.mid) + StringBytes(Bytes(s.topic))
      + [s.qos % 256, Bit(s.retain)] + U32(|s.payload|) + Bytes(s.payload)
    case ClientMsg(client, q) =>
      StringBytes(Bytes(client)) + U64(q.store) + U16(q.mid)
      + [q.qos % 256, Bit(q.retain), q.direction % 256, q.state % 256, Bit(q.dup)]
    case Retain(id) => U64(id)
    case Sub(client, filter, qos) => StringBytes(Bytes(client)) + StringBytes(Bytes(filter)) + [qos % 256]
    case Client(client, lastMid, disconnected) => StringBytes(Bytes(client)) + U16(lastMid) + U64(disconnected)
  }

  /** The length as the writers work it out before they write the body. */
  function DeclaredLength(c: Chunk): nat {
    match c
    case Cfg(_, _) => 8 + 1 + 1
    case MsgStore(s) => 8 + 2 + |s.source| + 2 + 2 + 2 + |s.topic| + 4 + |s.payload| + 1 + 1
    case ClientMsg(client, _) => 8 + 2 + 1 + 1 + 1 + 1 + 1 + 2 + |client|
    case Retain(_) => 8
    case Sub(client, filter, _) => 2 + |client| + 2 + |filter| + 1
    case Client(client, _, _) => 2 + |client| + 2 + 8
  }

  /** Chunks whose numbers and strings fit their fields. */
  predicate ChunkFits(c: Chunk) {
    match c
    case Cfg(_, lastDbId) => Long(lastDbId)
    case MsgStore(s) =>
      Long(s.id) && Storable(s.source) && Word(s.sourceMid) && Word(s.mid) && Storable(s.topic) && s.qos < 256 &&
      Narrow(s.payload) && Double(|s.payload|)
    case ClientMsg(client, q) =>
      Storable(client) && Long(q.store) && Word(q.mid) && q.qos < 256 && q.direction < 256 && q.state < 256
    case Retain(id) => Long(id)
    case Sub(client, filter, qos) => Storable(client) && Storable(filter) && qos < 256
    case Client(client, lastMid, disconnected) => Storable(client) && Word(lastMid) && Long(disconnected)
  }

  /** The length says where the next chunk begins, so that a reader can skip
      what it does not know. */
  lemma LengthIsDeclared(c: Chunk)
    requires ChunkFits(c)
    ensures |BodyOf(c)| == DeclaredLength(c)
  {
    hide U64, U16, U32;
  }

  function ChunkBytes(c: Chunk): seq<Byte> {
    U16(TypeOf(c)) + U32(DeclaredLength(c) % 0x1_0000_0000) + BodyOf(c)
  }

  function FileBytes(chunks: seq<Chunk>): seq<Byte> {
    if chunks == [] then [] else ChunkBytes(chunks[0]) + FileBytes(chunks[1..])
  }

  function Header(): seq<Byte> {
    MAGIC + U32(0) + U32(VERSION)
  }

  // ----------------------------------------------------------------- reading

  function TakeBit(s: seq<Byte>): Read<bool> {
    if s == [] then Fail else Read(s[0] != 0, s[1..])
  }

  function TakeCfg(s: seq<Byte>): Read<Chunk> {
    var shutdown := TakeBit(s);
    if shutdown.Fail? then Fail
    else
      var size := TakeByte(shutdown.rest);
      if size.Fail? || size.value != 8 then Fail
      else
        var id := TakeU64(size.rest);
        if id.Fail? then Fail else Read(Cfg(shutdown.value, id.value), id.rest)
  }

  function TakeStore(s: seq<Byte>): Read<Chunk> {
    var id := TakeU64(s);
    if id.Fail? then Fail
    else
      var source := TakeText(id.rest);
      if source.Fail? then Fail
      else
        var sourceMid := TakeU16(source.rest);
        if sourceMid.Fail? then Fail
        else
          var mid := TakeU16(sourceMid.rest);
          if mid.Fail? then Fail
          else TakeStoreRest(id.value, source.value, sourceMid.value, mid.value, mid.rest)
  }

  function TakeStoreRest(id: nat, source: string, sourceMid: nat, mid: nat, s: seq<Byte>): Read<Chunk> {
    var topic := TakeText(s);
    if topic.Fail? then Fail
    else
      var qos := TakeByte(topic.rest);
      if qos.Fail? then Fail
      else
        var retain := TakeBit(qos.rest);
        if retain.Fail? then Fail
        else
          var length := TakeU32(retain.rest);
          if length.Fail? then Fail
          else
            var payload := TakeBytes(length.rest, length.value);
            if payload.Fail? then Fail
            else Read(MsgStore(Store(id, source, sourceMid, mid, topic.value, qos.value, retain.value,
                                     Text(payload.value))),
                      payload.rest)
  }

  function TakeClientMsg(s: seq<Byte>): Read<Chunk> {
    var client := TakeText(s);
    if client.Fail? then Fail
    else
      var store := TakeU64(client.rest);
      if store.Fail? then Fail
      else
        var mid := TakeU16(store.rest);
        if mid.Fail? then Fail else TakeFlags(client.value, store.value, mid.value, mid.rest)
  }

  function TakeFlags(client: string, store: nat, mid: nat, b: seq<Byte>): Read<Chunk> {
    if |b| < 5 then Fail
    else Read(ClientMsg(client, Queued(store, mid, b[0], b[1] != 0, b[2], b[3], b[4] != 0)), b[5..])
  }

  function TakeRetain(s: seq<Byte>): Read<Chunk> {
    var id := TakeU64(s);
    if id.Fail? then Fail else Read(Retain(id.value), id.rest)
  }

  function TakeSub(s: seq<Byte>): Read<Chunk> {
    var client := TakeText(s);
    if client.Fail? then Fail
    else
      var filter := TakeText(client.rest);
      if filter.Fail? then Fail
      else
        var qos := TakeByte(filter.rest);
        if qos.Fail? then Fail else Read(Sub(client.value, filter.value, qos.value), qos.rest)
  }

  /** Version 2 did not write the time. */
  function TakeClient(version: nat, now: nat, s: seq<Byte>): Read<Chunk> {
    var client := TakeText(s);
    if client.Fail? then Fail
    else
      var lastMid := TakeU16(client.rest);
      if lastMid.Fail? then Fail
      else
        var time := if version == 2 then Read(now, lastMid.rest) else TakeU64(lastMid.rest);
        if time.Fail? then Fail else Read(Client(client.value, lastMid.value, time.value), time.rest)
  }

  /** A chunk, or nothing for one of an unknown type, which is skipped by its
      length. */
  function TakeChunk(version: nat, now: nat, s: seq<Byte>): Read<Option<Chunk>> {
    var kind := TakeU16(s);
    if kind.Fail? then Fail
    else
      var length := TakeU32(kind.rest);
      if length.Fail? then Fail
      else if kind.value < 1 || kind.value > 6 then
        Read(None, if length.value <= |length.rest| then length.rest[length.value..] else [])
      else
        var c := TakeBody(version, now, kind.value, length.rest);
        if c.Fail? then Fail else Read(Some(c.value), c.rest)
  }

  function TakeBody(version: nat, now: nat, kind: nat, s: seq<Byte>): Read<Chunk>
    requires 1 <= kind <= 6
  {
    if kind == 1 then TakeCfg(s)
    else if kind == 2 then TakeStore(s)
    else if kind == 3 then TakeClientMsg(s)
    else if kind == 4 then TakeRetain(s)
    else if kind == 5 then TakeSub(s)
    else TakeClient(version, now, s)
  }

  // -------------------------------------------------------------- round trip

  /** The second half of a stored message. */
  function StoreTail(s: Store): seq<Byte> {
    StringBytes(Bytes(s.topic)) + ([s.qos % 256, Bit(s.retain)] + (U32(|s.payload|) + Bytes(s.payload)))
  }

  lemma StoreTailBack(s: Store, more: seq<Byte>)
    requires ChunkFits(MsgStore(s))
    ensures TakeStoreRest(s.id, s.source, s.sourceMid, s.mid, StoreTail(s) + more) == Read(MsgStore(s), more)
  {
    var p := Bytes(s.payload);
    var r6 := p + more;
    var r5 := U32(|s.payload|) + r6;
    var r3 := [Bit(s.retain)] + r5;
    var r4 := [s.qos] + r3;
    StoreTailShape(s, more);
    TextTaken(s.topic, r4);
    U32Back(|s.payload|, r6);
    TextBack(s.payload);
    HeadOff(s.qos, r3);
    HeadOff(Bit(s.retain), r5);
    PartOff(p, more);
    hide TakeText, TakeU32, U32, StringBytes, Bytes, Text, Storable, Long, Word, Double, Narrow, StoreTail, ChunkFits;
  }

  lemma HeadOff(b: Byte, more: seq<Byte>)
    ensures TakeByte([b] + more) == Read(b, more) && TakeBit([b] + more) == Read(b != 0, more)
  {
    assert ([b] + more)[1..] == more;
  }

  lemma PartOff(p: seq<Byte>, more: seq<Byte>)
    ensures TakeBytes(p + more, |p|) == Read(p, more)
  {
    assert (p + more)[..|p|] == p && (p + more)[|p|..] == more;
  }

  lemma StoreTailShape(s: Store, more: seq<Byte>)
    requires s.qos < 256
    ensures StoreTail(s) + more ==
            StringBytes(Bytes(s.topic)) + ([s.qos] + ([Bit(s.retain)] + (U32(|s.payload|) + (Bytes(s.payload) + more))))
  {
    hide U32, StringBytes, Bytes;
  }

  lemma StoreBack(s: Store, more: seq<Byte>)
    requires ChunkFits(MsgStore(s))
    ensures TakeStore(BodyOf(MsgStore(s)) + more) == Read(MsgStore(s), more)
  {
    var r3 := StoreTail(s) + more;
    var r2 := U16(s.mid) + r3;
    var r1 := U16(s.sourceMid) + r2;
    var r0 := StringBytes(Bytes(s.source)) + r1;
    StoreShape(s, more);
    U64Back(s.id, r0);
    TextTaken(s.source, r1);
    U16Back(s.sourceMid, r2);
    U16Back(s.mid, r3);
    StoreTailBack(s, more);
    hide TakeU64, TakeText, TakeU16, U64, U16, StringBytes, Bytes, Storable, Long, Word, ChunkFits, BodyOf, StoreTail,
         TakeStoreRest;
  }

  lemma StoreShape(s: Store, more: seq<Byte>)
    ensures BodyOf(MsgStore(s)) + more ==
            U64(s.id) + (StringBytes(Bytes(s.source)) + (U16(s.sourceMid) + (U16(s.mid) + (StoreTail(s) + more))))
  {
    hide U64, U16, U32, StringBytes, Bytes;
  }

  lemma CfgBack(shutdown: bool, lastDbId: nat, more: seq<Byte>)
    requires Long(lastDbId)
    ensures TakeCfg(BodyOf(Cfg(shutdown, lastDbId)) + more) == Read(Cfg(shutdown, lastDbId), more)
  {
    U64Back(lastDbId, more);
    hide TakeU64, U64, Long;
    var s := BodyOf(Cfg(shutdown, lastDbId)) + more;
    assert s[1..][1..] == U64(lastDbId) + more;
  }

  function FlagBytes(q: Queued): seq<Byte> {
    [q.qos % 256, Bit(q.retain), q.direction % 256, q.state % 256, Bit(q.dup)]
  }

  lemma ClientMsgShape(client: ClientId, q: Queued, more: seq<Byte>)
    ensures BodyOf(ClientMsg(client, q)) + more ==
            StringBytes(Bytes(client)) + (U64(q.store) + (U16(q.mid) + (FlagBytes(q) + more)))
  {
    hide U64, U16, StringBytes, Bytes;
  }

  lemma ClientMsgBack(client: ClientId, q: Queued, more: seq<Byte>)
    requires ChunkFits(ClientMsg(client, q))
    ensures TakeClientMsg(BodyOf(ClientMsg(client, q)) + more) == Read(ClientMsg(client, q), more)
  {
    var r2 := FlagBytes(q) + more;
    var r1 := U16(q.mid) + r2;
    ClientMsgShape(client, q, more);
    TextTaken(client, U64(q.store) + r1);
    U64Back(q.store, r1);
    U16Back(q.mid, r2);
    FlagsBack(client, q, more);
    hide TakeU64, TakeText, TakeU16, U64, U16, StringBytes, Bytes, Storable, Long, Word, BodyOf, FlagBytes, ChunkFits,
         TakeFlags;
  }

  lemma FlagsBack(client: ClientId, q: Queued, more: seq<Byte>)
    requires q.qos < 256 && q.direction < 256 && q.state < 256
    ensures TakeFlags(client, q.store, q.mid, FlagBytes(q) + more) == Read(ClientMsg(client, q), more)
  {
    var b := FlagBytes(q) + more;
    assert b[5..] == more && b[0] == q.qos && b[1] == Bit(q.retain) && b[2] == q.direction && b[3] == q.state &&
           b[4] == Bit(q.dup);
  }

  lemma SubShape(client: ClientId, filter: string, qos: nat, more: seq<Byte>)
    requires qos < 256
    ensures BodyOf(Sub(client, filter, qos)) + more ==
            StringBytes(Bytes(client)) + (StringBytes(Bytes(filter)) + ([qos] + more))
  {
    hide StringBytes, Bytes;
  }

  lemma SubBack(client: ClientId, filter: string, qos: nat, more: seq<Byte>)
    requires Storable(client) && Storable(filter) && qos < 256
    ensures TakeSub(BodyOf(Sub(client, filter, qos)) + more) == Read(Sub(client, filter, qos), more)
  {
    SubShape(client, filter, qos, more);
    TextTaken(client, StringBytes(Bytes(filter)) + ([qos] + more));
    TextTaken(filter, [qos] + more);
    HeadOff(qos, more);
    hide TakeText, StringBytes, Bytes, Storable, BodyOf;
  }

  lemma ClientShape(client: ClientId, lastMid: nat, disconnected: nat, more: seq<Byte>)
    ensures BodyOf(Client(client, lastMid, disconnected)) + more ==
            StringBytes(Bytes(client)) + (U16(lastMid) + (U64(disconnected) + more))
  {
    hide U64, U16, StringBytes, Bytes;
  }

  lemma ClientBack(version: nat, now: nat, client: ClientId, lastMid: nat, disconnected: nat, more: seq<Byte>)
    requires Storable(client) && Word(lastMid) && Long(disconnected) && version != 2
    ensures TakeClient(version, now, BodyOf(Client(client, lastMid, disconnected)) + more) ==
            Read(Client(client, lastMid, disconnected), more)
  {
    ClientShape(client, lastMid, disconnected, more);
    TextTaken(client, U16(lastMid) + (U64(disconnected) + more));
    U16Back(lastMid, U64(disconnected) + more);
    U64Back(disconnected, more);
    hide TakeU64, TakeText, TakeU16, U64, U16, StringBytes, Bytes, Storable, Long, Word, BodyOf;
  }

  lemma BodyBack(version: nat, now: nat, c: Chunk, more: seq<Byte>)
    requires ChunkFits(c) && version != 2
    ensures TakeBody(version, now, TypeOf(c), BodyOf(c) + more) == Read(c, more)
  {
    hide TakeCfg, TakeStore, TakeClientMsg, TakeRetain, TakeSub, TakeClient, BodyOf, Storable, Long, Word, Double,
         Narrow;
    match c
    case Cfg(shutdown, lastDbId) => CfgBack(shutdown, lastDbId, more);
    case MsgStore(s) => StoreBack(s, more);
    case ClientMsg(client, q) => ClientMsgBack(client, q, more);
    case Retain(id) => RetainBack(id, more);
    case Sub(client, filter, qos) => SubBack(client, filter, qos, more);
    case Client(client, lastMid, disconnected) => ClientBack(version, now, client, lastMid, disconnected, more);
  }

  lemma RetainBack(id: nat, more: seq<Byte>)
    requires Long(id)
    ensures TakeRetain(BodyOf(Retain(id)) + more) == Read(Retain(id), more)
  {
    U64Back(id, more);
  }

  lemma ChunkShape(c: Chunk, more: seq<Byte>)
    requires ChunkFits(c)
    ensures ChunkBytes(c) + more == U16(TypeOf(c)) + (U32(DeclaredLength(c) % 0x1_0000_0000) + (BodyOf(c) + more))
  {
    hide BodyOf, DeclaredLength, U16, U32, ChunkFits;
  }

  lemma ChunkBack(version: nat, now: nat, c: Chunk, more: seq<Byte>)
    requires ChunkFits(c) && version != 2
    ensures TakeChunk(version, now, ChunkBytes(c) + more) == Read(Some(c), more)
  {
    var length := DeclaredLength(c) % 0x1_0000_0000;
    var body := BodyOf(c) + more;
    ChunkShape(c, more);
    hide BodyOf, TakeBody, DeclaredLength, U16, U32, TakeU16, TakeU32, ChunkFits, ChunkBytes;
    U16Back(TypeOf(c), U32(length) + body);
    U32Back(length, body);
    BodyBack(version, now, c, more);
  }

  // ------------------------------------------------------------ whole files

  /** All the chunks up to the end of the file; unknown ones are left out. */
  function TakeAll(version: nat, now: nat, s: seq<Byte>): Option<seq<Chunk>>
    decreases |s|
  {
    if |s| < 2 then Some([])
    else
      var c := TakeChunk(version, now, s);
      if c.Fail? then None
      else
        ChunkShrinks(version, now, s);
        var more := TakeAll(version, now, c.rest);
        if more == None then None else Some((if c.value.Some? then [c.value.value] else []) + more.value)
  }

  lemma ChunkShrinks(version: nat, now: nat, s: seq<Byte>)
    requires TakeChunk(version, now, s).Read?
    ensures |TakeChunk(version, now, s).rest| < |s|
  {
    var kind := TakeU16(s);
    var length := TakeU32(kind.rest);
    if 1 <= kind.value <= 6 {
      BodyShrinks(version, now, kind.value, length.rest);
    }
    hide TakeBody;
  }

  lemma BodyShrinks(version: nat, now: nat, kind: nat, s: seq<Byte>)
    requires 1 <= kind <= 6 && TakeBody(version, now, kind, s).Read?
    ensures |TakeBody(version, now, kind, s).rest| <= |s|
  {
    StoreShrinks(s);
    ClientMsgShrinks(s);
    hide TakeStore, TakeClientMsg;
  }

  lemma StoreShrinks(s: seq<Byte>)
    ensures TakeStore(s).Read? ==> |TakeStore(s).rest| <= |s|
  {
  }

  lemma ClientMsgShrinks(s: seq<Byte>)
    ensures TakeClientMsg(s).Read? ==> |TakeClientMsg(s).rest| <= |s|
  {
  }

  /** A file with another beginning, or of a later version, is refused. */
  function TakeFile(now: nat, s: seq<Byte>): Option<seq<Chunk>> {
    if |s| < 15 || s[..15] != MAGIC then None
    else
      var crc := TakeU32(s[15..]);
      if crc.Fail? then None
      else
        var version := TakeU32(crc.rest);
        if version.Fail? || version.value > VERSION then None else TakeAll(version.value, now, version.rest)
  }

  predicate AllFit(chunks: seq<Chunk>) {
    forall c :: c in chunks ==> ChunkFits(c)
  }

  lemma {:induction false} AllBack(version: nat, now: nat, chunks: seq<Chunk>)
    requires AllFit(chunks) && version != 2
    ensures TakeAll(version, now, FileBytes(chunks)) == Some(chunks)
    decreases |chunks|
  {
    hide ChunkBytes, TakeChunk, ChunkFits;
    if chunks != [] {
      var c, rest := chunks[0], chunks[1..];
      assert c in chunks && forall d :: d in rest ==> d in chunks;
      ChunkBack(version, now, c, FileBytes(rest));
      ChunkSize(c);
      AllBack(version, now, rest);
      assert [c] + rest == chunks;
    }
  }

  lemma ChunkSize(c: Chunk)
    ensures |ChunkBytes(c)| >= 6
  {
  }

  /** A database file gives its chunks back. */
  lemma FileRoundTrip(now: nat, chunks: seq<Chunk>)
    requires AllFit(chunks)
    ensures TakeFile(now, Header() + FileBytes(chunks)) == Some(chunks)
  {
    var body := FileBytes(chunks);
    var s := Header() + body;
    U32Back(VERSION, body);
    U32Back(0, U32(VERSION) + body);
    AllBack(VERSION, now, chunks);
    hide TakeAll, FileBytes, U32, TakeU32;
    assert s[..15] == MAGIC && s[15..] == U32(0) + (U32(VERSION) + body);
  }

  /** Saved to a file and restored from it, the state comes back as `Restored`
      says, and fails to exactly then. */
  lemma DatabaseRoundTrip(db: Db, shutdown: bool, now: nat)
    requires Consistent(db) && AllFit(Backup(db, shutdown))
    ensures var chunks := TakeFile(now, Header() + FileBytes(Backup(db, shutdown)));
            chunks.Some? && (Restore(BLANK, chunks.value).Some? <==> Loadable(db)) &&
            (Loadable(db) ==> GivesBack(db, Restore(BLANK, chunks.value).value))
  {
    FileRoundTrip(now, Backup(db, shutdown));
    Restored(db, shutdown);
    hide *;
  }
}
