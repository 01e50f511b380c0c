/** Writing the database file piece by piece, and reading it back chunk by
    chunk into the broker's state. */
module Database {
  import opened Common
  import opened Framing
  import opened Wire
  import opened Packets
  import opened Persist
  import opened PersistFile
  import opened SubTree

  // ----------------------------------------------------------------- writing

  class DbFile {
    var bytes: seq<Byte>

    constructor ()
      ensures bytes == []
    {
      bytes := [];
    }

    method Write(s: seq<Byte>)
      modifies this
      ensures bytes == old(bytes) + s
    {
      bytes := bytes + s;
    }

    /** A string behind its length. */
    method WriteText(s: string)
      modifies this
      ensures bytes == old(bytes) + StringBytes(Bytes(s))
    {
      Write(U16(|s| % 0x10000));
      Write(Bytes(s)[..|s| % 0x10000]);
    }

    method WriteHead(kind: nat, length: nat)
      modifies this
      ensures bytes == old(bytes) + (U16(kind) + U32(length % 0x1_0000_0000))
    {
      Write(U16(kind));
      Write(U32(length % 0x1_0000_0000));
    }

    method WriteCfg(shutdown: bool, lastDbId: nat)
      modifies this
      ensures bytes == old(bytes) + ChunkBytes(Cfg(shutdown, lastDbId))
    {
      WriteHead(1, 8 + 1 + 1);
      Write([Bit(shutdown)]);
      Write([8]);
      Write(U64(lastDbId));
      Chained(old(bytes), Cfg(shutdown, lastDbId), bytes);
    }

    lemma Chained(was: seq<Byte>, c: Chunk, now: seq<Byte>)
      requires now == was + (U16(TypeOf(c)) + U32(DeclaredLength(c) % 0x1_0000_0000)) + BodyOf(c)
      ensures now == was + ChunkBytes(c)
    {
      hide BodyOf, DeclaredLength, U16, U32, TypeOf;
    }

    method WriteFlags(q: Queued)
      modifies this
      ensures bytes == old(bytes) + FlagBytes(q)
    {
      Write([q.qos % 256]);
      Write([Bit(q.retain)]);
      Write([q.direction % 256]);
      Write([q.state % 256]);
      Write([Bit(q.dup)]);
    }

    method WriteClientMsg(client: ClientId, q: Queued)
      modifies this
      ensures bytes == old(bytes) + ChunkBytes(ClientMsg(client, q))
    {
      hide StringBytes, Bytes, U64, U16, U32, ChunkBytes, BodyOf, FlagBytes;
      WriteHead(3, 8 + 2 + 1 + 1 + 1 + 1 + 1 + 2 + |client|);
      ghost var head := bytes;
      WriteText(client);
      Write(U64(q.store));
      Write(U16(q.mid));
      WriteFlags(q);
      ClientMsgShape(client, q, []);
      assert BodyOf(ClientMsg(client, q)) + [] == BodyOf(ClientMsg(client, q)) && FlagBytes(q) + [] == FlagBytes(q);
      assert bytes == head + (StringBytes(Bytes(client)) + (U64(q.store) + (U16(q.mid) + FlagBytes(q))));
      Chained(old(bytes), ClientMsg(client, q), bytes);
    }

    method WriteStoreTail(s: Store)
      modifies this
      ensures bytes == old(bytes) + StoreTail(s)
    {
      hide StringBytes, Bytes, U32;
      WriteText(s.topic);
      Write([s.qos % 256]);
      Write([Bit(s.retain)]);
      Write(U32(|s.payload|));
      Write(Bytes(s.payload));
    }

    method WriteStore(s: Store)
      modifies this
      ensures bytes == old(bytes) + ChunkBytes(MsgStore(s))
    {
      hide StringBytes, Bytes, U64, U16, U32, ChunkBytes, BodyOf, StoreTail;
      WriteHead(2, 8 + 2 + |s.source| + 2 + 2 + 2 + |s.topic| + 4 + |s.payload| + 1 + 1);
      ghost var head := bytes;
      Write(U64(s.id));
      WriteText(s.source);
      Write(U16(s.sourceMid));
      Write(U16(s.mid));
      WriteStoreTail(s);
      StoreShape(s, []);
      assert BodyOf(MsgStore(s)) + [] == BodyOf(MsgStore(s)) && StoreTail(s) + [] == StoreTail(s);
      assert bytes == head +
             (U64(s.id) + (StringBytes(Bytes(s.source)) + (U16(s.sourceMid) + (U16(s.mid) + StoreTail(s)))));
      Chained(old(bytes), MsgStore(s), bytes);
    }

    method WriteClient(c: Session)
      modifies this
      ensures bytes == old(bytes) + ChunkBytes(Client(c.id, c.lastMid, c.disconnected))
    {
      hide StringBytes, Bytes, U64, U16, U32, ChunkBytes;
      WriteHead(6, 2 + |c.id| + 2 + 8);
      ghost var head := bytes;
      WriteText(c.id);
      Write(U16(c.lastMid));
      Write(U64(c.disconnected));
      assert bytes == head + BodyOf(Client(c.id, c.lastMid, c.disconnected));
      Chained(old(bytes), Client(c.id, c.lastMid, c.disconnected), bytes);
    }

    method WriteSub(client: ClientId, filter: string, qos: nat)
      modifies this
      ensures bytes == old(bytes) + ChunkBytes(Sub(client, filter, qos))
    {
      hide StringBytes, Bytes, U64, U16, U32, ChunkBytes;
      WriteHead(5, 2 + |client| + 2 + |filter| + 1);
      ghost var head := bytes;
      WriteText(client);
      WriteText(filter);
      Write([qos % 256]);
      assert bytes == head + BodyOf(Sub(client, filter, qos));
      Chained(old(bytes), Sub(client, filter, qos), bytes);
    }

    method WriteRetain(id: StoreId)
      modifies this
      ensures bytes == old(bytes) + ChunkBytes(Retain(id))
    {
      WriteHead(4, 8);
      Write(U64(id));
      Chained(old(bytes), Retain(id), bytes);
    }

    // --------------------------------------------------------- the lists

    method WriteStores(stores: seq<Store>)
      modifies this
      ensures bytes == old(bytes) + FileBytes(StoreChunks(stores))
    {
      hide ChunkBytes, FileBytes;
      var i := 0;
      Begun(old(bytes));
      while i < |stores|
        invariant i <= |stores| && bytes == old(bytes) + FileBytes(StoreChunks(stores[..i]))
      {
        var forceNoRetain := Sys(stores[i].topic);
        WriteStore(if forceNoRetain then stores[i].(retain := false) else stores[i]);
        assert Saved(stores[i]) == if forceNoRetain then stores[i].(retain := false) else stores[i];
        StoreChunksNext(stores, i);
        One(old(bytes), StoreChunks(stores[..i]), MsgStore(Saved(stores[i])));
        i := i + 1;
      }
      assert stores[..i] == stores;
    }

    method WriteMessages(c: Session)
      modifies this
      ensures bytes == old(bytes) + FileBytes(MsgChunks(c.id, c.msgs))
    {
      hide ChunkBytes, FileBytes;
      var i := 0;
      Begun(old(bytes));
      while i < |c.msgs|
        invariant i <= |c.msgs| && bytes == old(bytes) + FileBytes(MsgChunks(c.id, c.msgs[..i]))
      {
        WriteClientMsg(c.id, c.msgs[i]);
        MsgChunksNext(c.id, c.msgs, i);
        One(old(bytes), MsgChunks(c.id, c.msgs[..i]), ClientMsg(c.id, c.msgs[i]));
        i := i + 1;
      }
      assert c.msgs[..i] == c.msgs;
    }

    method WriteClients(clients: seq<Session>)
      modifies this
      ensures bytes == old(bytes) + FileBytes(ClientChunks(clients))
    {
      hide ChunkBytes, FileBytes, MsgChunks;
      var i := 0;
      Begun(old(bytes));
      while i < |clients|
        invariant i <= |clients| && bytes == old(bytes) + FileBytes(ClientChunks(clients[..i]))
      {
        var c := clients[i];
        ghost var before := ClientChunks(clients[..i]);
        ClientChunksNext(clients, i);
        if !c.clean {
          WriteClient(c);
          One(old(bytes), before, Client(c.id, c.lastMid, c.disconnected));
          ghost var mid := before + [Client(c.id, c.lastMid, c.disconnected)];
          WriteMessages(c);
          Many(old(bytes), mid, MsgChunks(c.id, c.msgs));
          assert mid + MsgChunks(c.id, c.msgs) ==
                 before + ([Client(c.id, c.lastMid, c.disconnected)] + MsgChunks(c.id, c.msgs));
        } else {
          assert before + [] == before;
        }
        i := i + 1;
      }
      assert clients[..i] == clients;
    }

    // ---------------------------------------------------------- the tree

    method WriteLeaves(db: Db, name: string, subs: seq<Leaf>)
      modifies this
      ensures bytes == old(bytes) + FileBytes(LeafChunks(db, name, subs))
    {
      hide ChunkBytes, FileBytes, Lasting;
      var i := 0;
      Begun(old(bytes));
      while i < |subs|
        invariant i <= |subs| && bytes == old(bytes) + FileBytes(LeafChunks(db, name, subs[..i]))
      {
        LeafChunksNext(db, name, subs, i);
        if Lasting(db.clients, subs[i].client) {
          WriteSub(subs[i].client, name, subs[i].qos);
          One(old(bytes), LeafChunks(db, name, subs[..i]), Sub(subs[i].client, name, subs[i].qos));
        } else {
          assert LeafChunks(db, name, subs[..i]) + [] == LeafChunks(db, name, subs[..i]);
        }
        i := i + 1;
      }
      assert subs[..i] == subs;
    }

    /** A node's leaves, its retained message, and the nodes below it. */
    method WriteNode(db: Db, name: string, h: Hier)
      modifies this
      ensures bytes == old(bytes) + FileBytes(NodeChunks(db, name, h))
      decreases h, 1
    {
      hide ChunkBytes, FileBytes, LeafChunks, StoreOf, Named;
      var here := Named(name, h.topic);
      WriteLeaves(db, here, h.subs);
      ghost var leaves := LeafChunks(db, here, h.subs);
      if h.retained.Some? && StoreOf(db.stores, h.retained.value).Some? &&
      !Sys(StoreOf(db.stores, h.retained.value).value.topic) {
        WriteRetain(h.retained.value);
        One(old(bytes), leaves, Retain(h.retained.value));
      } else {
        assert leaves + [] == leaves;
      }
      WriteForest(db, here, h.children);
      Many(old(bytes), leaves + RetainChunks(db, h.retained), ForestChunks(db, here, h.children));
    }

    method WriteForest(db: Db, name: string, cs: seq<Hier>)
      modifies this
      ensures bytes == old(bytes) + FileBytes(ForestChunks(db, name, cs))
      decreases cs, 0
    {
      hide ChunkBytes, FileBytes, NodeChunks;
      var i := 0;
      Begun(old(bytes));
      while i < |cs|
        invariant i <= |cs| && bytes == old(bytes) + FileBytes(ForestChunks(db, name, cs[..i]))
      {
        WriteNode(db, name, cs[i]);
        ForestChunksNext(db, name, cs, i);
        Many(old(bytes), ForestChunks(db, name, cs[..i]), NodeChunks(db, name, cs[i]));
        i := i + 1;
      }
      assert cs[..i] == cs;
    }

    method WriteAll(db: Db, shutdown: bool)
      modifies this
      ensures bytes == old(bytes) + (Header() + FileBytes(Backup(db, shutdown)))
    {
      hide ChunkBytes, FileBytes, StoreChunks, ClientChunks, ForestChunks, U32;
      Write(MAGIC);
      Write(U32(0));
      Write(U32(VERSION));
      ghost var start := bytes;
      Begun(start);
      WriteCfg(shutdown, db.lastDbId);
      ghost var first := [Cfg(shutdown, db.lastDbId)];
      One(start, [], Cfg(shutdown, db.lastDbId));
      assert [] + first == first;
      WriteStores(db.stores);
      Many(start, first, StoreChunks(db.stores));
      WriteClients(db.clients);
      Many(start, first + StoreChunks(db.stores), ClientChunks(db.clients));
      WriteForest(db, "", db.root.children);
      Many(start, first + StoreChunks(db.stores) + ClientChunks(db.clients), ForestChunks(db, "", db.root.children));
      assert start == old(bytes) + Header();
      assert old(bytes) + Header() + FileBytes(Backup(db, shutdown)) == old(bytes) +
             (Header() + FileBytes(Backup(db, shutdown)));
    }
  }

  // ------------------------------------------------- what the loops add up to

  lemma Begun(was: seq<Byte>)
    ensures was + FileBytes([]) == was
  {
  }

  lemma {:induction false} FileConcat(a: seq<Chunk>, b: seq<Chunk>)
    ensures FileBytes(a + b) == FileBytes(a) + FileBytes(b)
  {
    hide ChunkBytes;
    if a == [] {
      assert a + b == b;
    } else {
      assert (a + b)[1..] == a[1..] + b && (a + b)[0] == a[0];
      FileConcat(a[1..], b);
    }
  }

  lemma Many(was: seq<Byte>, a: seq<Chunk>, b: seq<Chunk>)
    ensures was + FileBytes(a) + FileBytes(b) == was + FileBytes(a + b)
  {
    FileConcat(a, b);
    hide FileBytes;
  }

  lemma One(was: seq<Byte>, a: seq<Chunk>, c: Chunk)
    ensures was + FileBytes(a) + ChunkBytes(c) == was + FileBytes(a + [c])
  {
    Many(was, a, [c]);
    hide ChunkBytes;
    assert [c][1..] == [];
    assert FileBytes([c]) == ChunkBytes(c);
  }

  lemma {:induction false} StoreChunksNext(stores: seq<Store>, i: nat)
    requires i < |stores|
    ensures StoreChunks(stores[..i + 1]) == StoreChunks(stores[..i]) + [MsgStore(Saved(stores[i]))]
  {
    if i > 0 {
      assert stores[..i + 1][1..] == stores[1..][..i] && stores[..i][1..] == stores[1..][..i - 1];
      StoreChunksNext(stores[1..], i - 1);
    } else {
      assert stores[..1][1..] == [];
    }
  }

  lemma {:induction false} MsgChunksNext(client: ClientId, msgs: seq<Queued>, i: nat)
    requires i < |msgs|
    ensures MsgChunks(client, msgs[..i + 1]) == MsgChunks(client, msgs[..i]) + [ClientMsg(client, msgs[i])]
  {
    if i > 0 {
      assert msgs[..i + 1][1..] == msgs[1..][..i] && msgs[..i][1..] == msgs[1..][..i - 1];
      MsgChunksNext(client, msgs[1..], i - 1);
    } else {
      assert msgs[..1][1..] == [];
    }
  }

  lemma {:induction false} ClientChunksNext(clients: seq<Session>, i: nat)
    requires i < |clients|
    ensures var c := clients[i];
            ClientChunks(clients[..i + 1]) ==
            ClientChunks(clients[..i]) +
            if c.clean then [] else [Client(c.id, c.lastMid, c.disconnected)] + MsgChunks(c.id, c.msgs)
  {
    hide MsgChunks;
    if i > 0 {
      assert clients[..i + 1][1..] == clients[1..][..i] && clients[..i][1..] == clients[1..][..i - 1];
      ClientChunksNext(clients[1..], i - 1);
    } else {
      assert clients[..1][1..] == [];
    }
  }

  lemma {:induction false} LeafChunksNext(db: Db, name: string, subs: seq<Leaf>, i: nat)
    requires i < |subs|
    ensures LeafChunks(db, name, subs[..i + 1]) ==
            LeafChunks(db, name, subs[..i]) +
            if Lasting(db.clients, subs[i].client) then [Sub(subs[i].client, name, subs[i].qos)] else []
  {
    hide Lasting;
    if i > 0 {
      assert subs[..i + 1][1..] == subs[1..][..i] && subs[..i][1..] == subs[1..][..i - 1];
      LeafChunksNext(db, name, subs[1..], i - 1);
    } else {
      assert subs[..1][1..] == [];
    }
  }

  lemma {:induction false} ForestChunksNext(db: Db, name: string, cs: seq<Hier>, i: nat)
    requires i < |cs|
    ensures ForestChunks(db, name, cs[..i + 1]) == ForestChunks(db, name, cs[..i]) + NodeChunks(db, name, cs[i])
  {
    hide NodeChunks;
    if i > 0 {
      assert cs[..i + 1][1..] == cs[1..][..i] && cs[..i][1..] == cs[1..][..i - 1];
      ForestChunksNext(db, name, cs[1..], i - 1);
    } else {
      assert cs[..1][1..] == [];
    }
  }

  // ----------------------------------------------------------------- reading

  method ReadU32(f: Cursor) returns (ok: bool, n: nat)
    requires f.Valid()
    modifies f
    ensures f.Valid() && if ok then TakeU32(old(f.Rest())) == Read(n, f.Rest()) else TakeU32(old(f.Rest())) == Fail
  {
    hide TakeU16;
    var hi, lo;
    n := 0;
    ok, hi := f.ReadU16();
    if ok {
      ok, lo := f.ReadU16();
      n := hi * 0x10000 + lo;
    }
  }

  method ReadU64(f: Cursor) returns (ok: bool, n: nat)
    requires f.Valid()
    modifies f
    ensures f.Valid() && if ok then TakeU64(old(f.Rest())) == Read(n, f.Rest()) else TakeU64(old(f.Rest())) == Fail
  {
    var bytes;
    ok, bytes := f.ReadBytes(8);
    n := FromLowFirst(bytes);
  }

  method ReadText(f: Cursor) returns (ok: bool, s: string)
    requires f.Valid()
    modifies f
    ensures f.Valid() && if ok then TakeText(old(f.Rest())) == Read(s, f.Rest()) else TakeText(old(f.Rest())) == Fail
  {
    hide TakeString;
    var bytes;
    ok, bytes := f.ReadString();
    s := Text(bytes);
  }

  /** What one reader makes of its chunk. */
  ghost predicate Reads(ok: bool, c: Chunk, was: Read<Chunk>, rest: seq<Byte>) {
    if ok then was == Read(c, rest) else was == Fail
  }

  method ReadCfg(f: Cursor) returns (ok: bool, c: Chunk)
    requires f.Valid()
    modifies f
    ensures f.Valid() && Reads(ok, c, TakeCfg(old(f.Rest())), f.Rest())
  {
    hide TakeU64;
    c := Retain(0);
    var shutdown, size, id;
    ok, shutdown := f.ReadByte();
    if !ok { return; }
    ok, size := f.ReadByte();
    if !ok || size != 8 { return false, c; }
    ok, id := ReadU64(f);
    c := Cfg(shutdown != 0, id);
  }

  method ReadStore(f: Cursor) returns (ok: bool, c: Chunk)
    requires f.Valid()
    modifies f
    ensures f.Valid() && Reads(ok, c, TakeStore(old(f.Rest())), f.Rest())
  {
    hide TakeU64, TakeText, TakeU16, TakeStoreRest;
    c := Retain(0);
    var id, source, sourceMid, mid;
    ok, id := ReadU64(f);
    if !ok { return; }
    ok, source := ReadText(f);
    if !ok { return; }
    ok, sourceMid := f.ReadU16();
    if !ok { return; }
    ok, mid := f.ReadU16();
    if !ok { return; }
    ok, c := ReadStoreRest(f, id, source, sourceMid, mid);
  }

  method ReadStoreRest(f: Cursor, id: nat, source: string, sourceMid: nat, mid: nat) returns (ok: bool, c: Chunk)
    requires f.Valid()
    modifies f
    ensures f.Valid() && Reads(ok, c, TakeStoreRest(id, source, sourceMid, mid, old(f.Rest())), f.Rest())
  {
    hide TakeText, TakeU32, Text;
    c := Retain(0);
    var topic, qos, retain, length, payload;
    ok, topic := ReadText(f);
    if !ok { return; }
    ok, qos := f.ReadByte();
    if !ok { return; }
    ok, retain := f.ReadByte();
    if !ok { return; }
    ok, length := ReadU32(f);
    if !ok { return; }
    ok, payload := f.ReadBytes(length);
    if !ok { return; }
    c := MsgStore(Store(id, source, sourceMid, mid, topic, qos, retain != 0, Text(payload)));
  }

  method ReadClientMsg(f: Cursor) returns (ok: bool, c: Chunk)
    requires f.Valid()
    modifies f
    ensures f.Valid() && Reads(ok, c, TakeClientMsg(old(f.Rest())), f.Rest())
  {
    hide TakeU64, TakeText, TakeU16;
    c := Retain(0);
    var client, store, mid, b;
    ok, client := ReadText(f);
    if !ok { return; }
    ok, store := ReadU64(f);
    if !ok { return; }
    ok, mid := f.ReadU16();
    if !ok { return; }
    ok, b := f.ReadBytes(5);
    if !ok { return; }
    c := ClientMsg(client, Queued(store, mid, b[0], b[1] != 0, b[2], b[3], b[4] != 0));
  }

  method ReadSub(f: Cursor) returns (ok: bool, c: Chunk)
    requires f.Valid()
    modifies f
    ensures f.Valid() && Reads(ok, c, TakeSub(old(f.Rest())), f.Rest())
  {
    hide TakeText;
    c := Retain(0);
    var client, filter, qos;
    ok, client := ReadText(f);
    if !ok { return; }
    ok, filter := ReadText(f);
    if !ok { return; }
    ok, qos := f.ReadByte();
    if !ok { return; }
    c := Sub(client, filter, qos);
  }

  method ReadClient(f: Cursor, version: nat, now: nat) returns (ok: bool, c: Chunk)
    requires f.Valid()
    modifies f
    ensures f.Valid() && Reads(ok, c, TakeClient(version, now, old(f.Rest())), f.Rest())
  {
    hide TakeText, TakeU16, TakeU64;
    c := Retain(0);
    var client, lastMid;
    ok, client := ReadText(f);
    if !ok { return; }
    ok, lastMid := f.ReadU16();
    if !ok { return; }
    var time := now;
    if version != 2 {
      ok, time := ReadU64(f);
      if !ok { return; }
    }
    c := Client(client, lastMid, time);
  }

  method ReadRetain(f: Cursor) returns (ok: bool, c: Chunk)
    requires f.Valid()
    modifies f
    ensures f.Valid() && Reads(ok, c, TakeRetain(old(f.Rest())), f.Rest())
  {
    hide TakeU64;
    var id;
    ok, id := ReadU64(f);
    c := Retain(id);
  }

  method ReadBody(f: Cursor, version: nat, now: nat, kind: nat) returns (ok: bool, c: Chunk)
    requires f.Valid() && 1 <= kind <= 6
    modifies f
    ensures f.Valid() && Reads(ok, c, TakeBody(version, now, kind, old(f.Rest())), f.Rest())
  {
    hide Reads, TakeCfg, TakeStore, TakeClientMsg, TakeRetain, TakeSub, TakeClient;
    if kind == 1 {
      ok, c := ReadCfg(f);
    } else if kind == 2 {
      ok, c := ReadStore(f);
    } else if kind == 3 {
      ok, c := ReadClientMsg(f);
    } else if kind == 4 {
      ok, c := ReadRetain(f);
    } else if kind == 5 {
      ok, c := ReadSub(f);
    } else {
      ok, c := ReadClient(f, version, now);
    }
  }

  /** The chunk with its head; an unknown one is passed over. */
  method ReadChunk(f: Cursor, version: nat, now: nat) returns (ok: bool, c: Option<Chunk>)
    requires f.Valid()
    modifies f
    ensures f.Valid()
    ensures var was := TakeChunk(version, now, old(f.Rest())); if ok then was == Read(c, f.Rest()) else was == Fail
  {
    hide TakeU16, TakeU32, TakeBody;
    c := None;
    var kind, length, chunk;
    ok, kind := f.ReadU16();
    if !ok { return; }
    ok, length := ReadU32(f);
    if !ok { return; }
    if kind < 1 || kind > 6 {
      f.pos := if length <= |f.payload| - f.pos then f.pos + length else |f.payload|;
    } else {
      ok, chunk := ReadBody(f, version, now, kind);
      if ok { c := Some(chunk); }
    }
  }

  /** What reading and restoring the rest of a file comes to. */
  ghost function Outcome(version: nat, now: nat, l: Loading, s: seq<Byte>): Option<Loading> {
    var chunks := TakeAll(version, now, s);
    if chunks == None then None else Restore(l, chunks.value)
  }

  lemma OutcomeNext(version: nat, now: nat, l: Loading, s: seq<Byte>)
    requires |s| >= 2
    ensures var c := TakeChunk(version, now, s);
            if c.Fail? then Outcome(version, now, l, s) == None
            else if c.value == None then Outcome(version, now, l, s) == Outcome(version, now, l, c.rest)
            else var l' := RestoreChunk(l, c.value.value);
                 Outcome(version, now, l, s) == if l' == None then None else Outcome(version, now, l'.value, c.rest)
  {
    var c := TakeChunk(version, now, s);
    hide TakeChunk, RestoreChunk;
    if c.Read? {
      var more := TakeAll(version, now, c.rest);
      if more.Some? {
        assert [] + more.value == more.value;
        if c.value.Some? { assert ([c.value.value] + more.value)[1..] == more.value; }
      }
    }
  }

  /** Each chunk is restored as it is read. */
  method RestoreAll(f: Cursor, version: nat, now: nat, l0: Loading) returns (result: Option<Loading>)
    requires f.Valid()
    modifies f
    ensures result == Outcome(version, now, l0, old(f.Rest()))
  {
    hide TakeChunk, RestoreChunk, Outcome;
    var l := l0;
    while f.pos + 2 <= |f.payload|
      invariant f.Valid() && Outcome(version, now, l, f.Rest()) == Outcome(version, now, l0, old(f.Rest()))
      decreases |f.payload| - f.pos
    {
      OutcomeNext(version, now, l, f.Rest());
      ghost var was := f.Rest();
      var ok, c := ReadChunk(f, version, now);
      if !ok {
        return None;
      }
      ChunkShrinks(version, now, was);
      if c.Some? {
        var next := RestoreChunk(l, c.value);
        if next == None {
          return None;
        }
        l := next.value;
      }
    }
    OutcomeEnd(version, now, l, f.Rest());
    return Some(l);
  }

  lemma OutcomeEnd(version: nat, now: nat, l: Loading, s: seq<Byte>)
    requires |s| < 2
    ensures Outcome(version, now, l, s) == Some(l)
  {
  }

  /** Restoring a file: what its chunks restore, if all of it can be read. */
  method RestoreFile(f: Cursor, now: nat) returns (result: Option<Loading>)
    requires f.Valid()
    modifies f
    ensures var chunks := TakeFile(now, old(f.Rest())); result == if chunks == None then None
            else Restore(BLANK, chunks.value)
  {
    hide TakeU32, TakeAll, Restore;
    var ok, header, crc, version;
    ok, header := f.ReadBytes(15);
    if !ok || header != MAGIC {
      return None;
    }
    ok, crc := ReadU32(f);
    if !ok {
      return None;
    }
    ok, version := ReadU32(f);
    if !ok || version > VERSION {
      return None;
    }
    result := RestoreAll(f, version, now, BLANK);
  }
}
