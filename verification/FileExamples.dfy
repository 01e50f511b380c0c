/** The chunks of a small database file, one of each kind, as they are written,
    byte by byte. */
module FileExamples {
  import opened Framing
  import opened Wire
  import opened Persist
  import opened PersistFile

  /** 258 is two and one times 256. */
  lemma Low258()
    ensures U64(258) == [2, 1, 0, 0, 0, 0, 0, 0]
  {
    assert LowFirst(0, 3) == [0, 0, 0];
    assert LowFirst(0, 6) == [0, 0, 0] + LowFirst(0, 3);
    assert LowFirst(258, 8) == [2] + ([1] + LowFirst(0, 6));
  }

  lemma TextIs(a: char)
    requires a as int < 256
    ensures StringBytes(Bytes([a])) == [0, 1, a as int]
  {
    assert Bytes([a]) == [a as int];
    assert Bytes([a])[..1] == Bytes([a]);
  }

  lemma HeaderIs()
    ensures Header() == [0, 0xB5, 0, 'm' as int, 'o' as int, 's' as int, 'q' as int, 'u' as int, 'i' as int, 't' as int,
                         't' as int, 'o' as int, ' ' as int, 'd' as int, 'b' as int, 0, 0, 0, 0, 0, 0, 0, 3]
  {
  }

  lemma Small(n: nat)
    requires n < 256
    ensures U16(n) == [0, n] && U32(n) == [0, 0, 0, n]
  {
  }

  /** Type and length of a chunk, and its body. */
  lemma ChunkIs(c: Chunk, body: seq<Byte>)
    requires BodyOf(c) == body && TypeOf(c) < 256 && DeclaredLength(c) == |body| < 256
    ensures ChunkBytes(c) == [0, TypeOf(c), 0, 0, 0, |body|] + body
  {
    Small(TypeOf(c));
    Small(|body|);
    hide U16, U32, BodyOf;
  }

  lemma StoreIs()
    ensures ChunkBytes(MsgStore(Store(258, "c", 3, 4, "t", 2, true, "x"))) ==
            [0, 2, 0, 0, 0, 25, 2, 1, 0, 0, 0, 0, 0, 0, 0, 1, 'c' as int, 0, 3, 0, 4, 0, 1, 't' as int, 2, 1, 0, 0, 0,
             1,
             'x' as int]
  {
    Low258();
    TextIs('c');
    TextIs('t');
    Small(1);
    Small(3);
    Small(4);
    assert Bytes("x") == ['x' as int];
    hide U64, U16, U32, StringBytes, Bytes, ChunkBytes;
    var front: seq<Byte> := [2, 1, 0, 0, 0, 0, 0, 0] + [0, 1, 'c' as int] + [0, 3] + [0, 4];
    ChunkIs(MsgStore(Store(258, "c", 3, 4, "t", 2, true, "x")),
            front + [0, 1, 't' as int] + [2, 1] + [0, 0, 0, 1] + ['x' as int]);
  }

  lemma SettingsAre()
    ensures ChunkBytes(Cfg(true, 258)) == [0, 1, 0, 0, 0, 10, 1, 8, 2, 1, 0, 0, 0, 0, 0, 0]
    ensures ChunkBytes(Retain(258)) == [0, 4, 0, 0, 0, 8, 2, 1, 0, 0, 0, 0, 0, 0]
  {
    Low258();
    hide U64, ChunkBytes;
    ChunkIs(Cfg(true, 258), [1, 8, 2, 1, 0, 0, 0, 0, 0, 0]);
    ChunkIs(Retain(258), [2, 1, 0, 0, 0, 0, 0, 0]);
  }

  lemma SubIs()
    ensures ChunkBytes(Sub("c", "t", 2)) == [0, 5, 0, 0, 0, 7, 0, 1, 'c' as int, 0, 1, 't' as int, 2]
  {
    TextIs('c');
    TextIs('t');
    hide StringBytes, Bytes, ChunkBytes;
    ChunkIs(Sub("c", "t", 2), [0, 1, 'c' as int, 0, 1, 't' as int, 2]);
  }

  lemma ClientIs()
    ensures ChunkBytes(Client("c", 6, 258)) ==
            [0, 6, 0, 0, 0, 13, 0, 1, 'c' as int, 0, 6, 2, 1, 0, 0, 0, 0, 0, 0]
  {
    Low258();
    TextIs('c');
    Small(6);
    hide U64, U16, StringBytes, Bytes, ChunkBytes;
    ChunkIs(Client("c", 6, 258), [0, 1, 'c' as int, 0, 6, 2, 1, 0, 0, 0, 0, 0, 0]);
  }

  lemma QueuedIs()
    ensures ChunkBytes(ClientMsg("c", Queued(258, 5, 2, true, 1, 9, false))) ==
            [0, 3, 0, 0, 0, 18, 0, 1, 'c' as int, 2, 1, 0, 0, 0, 0, 0, 0, 0, 5, 2, 1, 1, 9, 0]
  {
    Low258();
    TextIs('c');
    Small(5);
    hide U64, U16, StringBytes, Bytes, ChunkBytes;
    ChunkIs(ClientMsg("c", Queued(258, 5, 2, true, 1, 9, false)),
            [0, 1, 'c' as int, 2, 1, 0, 0, 0, 0, 0, 0, 0, 5, 2, 1, 1, 9, 0]);
  }

  /** A file of one of each: the settings, a stored message, a lasting session with a
      message in its queue, a subscription and a retained message. */
  lemma BytesOfFile()
    ensures var file := Header() + FileBytes([Cfg(true, 258), MsgStore(Store(258, "c", 3, 4, "t", 2, true, "x")),
                                              Client("c", 6, 258), ClientMsg("c", Queued(258, 5, 2, true, 1, 9, false)),
                                              Sub("c", "t", 2), Retain(258)]);
            file ==
            [0, 0xB5, 0, 'm' as int, 'o' as int, 's' as int, 'q' as int, 'u' as int, 'i' as int, 't' as int, 't' as int,
             'o' as int, ' ' as int, 'd' as int, 'b' as int, 0, 0, 0, 0, 0, 0, 0, 3] +
            [0, 1, 0, 0, 0, 10, 1, 8, 2, 1, 0, 0, 0, 0, 0, 0] +
            [0, 2, 0, 0, 0, 25, 2, 1, 0, 0, 0, 0, 0, 0, 0, 1, 'c' as int, 0, 3, 0, 4, 0, 1, 't' as int, 2, 1, 0, 0, 0,
             1,
             'x' as int] +
            [0, 6, 0, 0, 0, 13, 0, 1, 'c' as int, 0, 6, 2, 1, 0, 0, 0, 0, 0, 0] +
            [0, 3, 0, 0, 0, 18, 0, 1, 'c' as int, 2, 1, 0, 0, 0, 0, 0, 0, 0, 5, 2, 1, 1, 9, 0] +
            [0, 5, 0, 0, 0, 7, 0, 1, 'c' as int, 0, 1, 't' as int, 2] +
            [0, 4, 0, 0, 0, 8, 2, 1, 0, 0, 0, 0, 0, 0]
  {
    hide Header, ChunkBytes;
    HeaderIs();
    StoreIs();
    SettingsAre();
    SubIs();
    ClientIs();
    QueuedIs();
    Chain(Cfg(true, 258), MsgStore(Store(258, "c", 3, 4, "t", 2, true, "x")), Client("c", 6, 258),
          ClientMsg("c", Queued(258, 5, 2, true, 1, 9, false)), Sub("c", "t", 2), Retain(258));
  }

  lemma Chain(a: Chunk, b: Chunk, c: Chunk, d: Chunk, e: Chunk, f: Chunk)
    ensures Header() + FileBytes([a, b, c, d, e, f]) ==
            Header() + ChunkBytes(a) + ChunkBytes(b) + ChunkBytes(c) + ChunkBytes(d) + ChunkBytes(e) + ChunkBytes(f)
  {
    hide Header, ChunkBytes;
    assert FileBytes([f]) == ChunkBytes(f) + FileBytes([]) by { assert [f][1..] == []; }
    assert FileBytes([e, f]) == ChunkBytes(e) + FileBytes([f]) by { assert [e, f][1..] == [f]; }
    assert FileBytes([d, e, f]) == ChunkBytes(d) + FileBytes([e, f]) by { assert [d, e, f][1..] == [e, f]; }
    assert FileBytes([c, d, e, f]) == ChunkBytes(c) + FileBytes([d, e, f]) by {
      assert [c, d, e, f][1..] == [d, e, f];
    }
    assert FileBytes([b, c, d, e, f]) == ChunkBytes(b) + FileBytes([c, d, e, f]) by {
      assert [b, c, d, e, f][1..] == [c, d, e, f];
    }
    assert FileBytes([a, b, c, d, e, f]) == ChunkBytes(a) + FileBytes([b, c, d, e, f]) by {
      assert [a, b, c, d, e, f][1..] == [b, c, d, e, f];
    }
  }
}
