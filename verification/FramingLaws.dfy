/** However a stream is cut into reads, the same packets come out. */
module FramingLaws {
  import opened Framing
  import opened FramingSteps

  /** The same packets, and the same verdict at the same byte: the first of a
      connection that does not begin with CONNECT, or the fifth of a remaining
      length. `n` bytes were there. */
  ghost predicate SameAs(o: Outcome, p: Parse, first: bool, n: nat) {
    o.packets == p.packets && o.bad == p.bad &&
    (p.bad ==>
       p.rest != [] && o.used == n - |p.rest| + if first && p.packets == [] && p.rest[0] / 16 != 1 then 1 else 6)
  }

  /** How the reference parser goes on. */
  lemma OneShotHead(first: bool, s: seq<Byte>)
    requires s != [] && !(first && s[0] / 16 != 1)
    ensures var l := DecodeLength(s[1..], 0);
            OneShot(first, s) ==
            if l.TooLong? then Parse([], s, true)
            else if l.Short? || |s| < 1 + l.used + l.value then Parse([], s, false)
            else
              var p, head := OneShot(false, s[1 + l.used + l.value..]), 1 + l.used;
              p.(packets := [Packet(s[0], s[head..head + l.value])] + p.packets)
  {
  }

  /** The parser that takes one byte at a time finds what the reference parser
      finds, and rejects at its byte. */
  lemma {:induction false} OneShotIs(first: bool, s: seq<Byte>)
    ensures SameAs(FeedAll(Start(first), s), OneShot(first, s), first, |s|)
    decreases |s|
  {
    if s != [] && !(first && s[0] / 16 != 1) {
      HeadIs(first, s);
      OneShotHead(first, s);
      var l := DecodeLength(s[1..], 0);
      hide Feed, FeedAll, DecodeLength, OneShot;
      if l.Length? && |s| >= 1 + l.used + l.value {
        OneShotIs(false, s[1 + l.used + l.value..]);
      }
    }
  }

  lemma {:induction false} SteadyIsPlain(first: bool, s: seq<Byte>)
    ensures Steady(Start(first), s) <==> Plain(first, s)
    decreases |s|
  {
    if s != [] && !(first && s[0] / 16 != 1) {
      HeadSteady(first, s);
      var l := DecodeLength(s[1..], 0);
      hide Feed, Steady, DecodeLength;
      if l.Length? && |s| >= 1 + l.used + l.value {
        SteadyIsPlain(false, s[1 + l.used + l.value..]);
      }
    }
  }

  /** Fragmentation independence: however a stream of packets with non-zero
      command bytes is cut into reads, the same packets come out as from one
      look at the whole, and a bad one is rejected at the same byte. */
  lemma FragmentationIndependence(first: bool, chunks: seq<seq<Byte>>)
    requires Plain(first, Flatten(chunks))
    ensures SameAs(RunCuts(Start(first), chunks), OneShot(first, Flatten(chunks)), first, |Flatten(chunks)|)
  {
    OneShotIs(first, Flatten(chunks));
    SteadyIsPlain(first, Flatten(chunks));
    hide Feed, FeedAll, Steady, OneShot, Plain;
    CutsAgree(Start(first), chunks);
  }

  /** ... and this is exactly when: any other stream has a beginning that
      leaves another state behind when it is cut in two, and one that delivers
      other packets when it goes on with a zero byte in a read of its own. */
  lemma FragmentationMatters(first: bool, s: seq<Byte>) returns (a: seq<Byte>, b: seq<Byte>, c: seq<Byte>)
    requires !Plain(first, s)
    ensures a + b <= s && RunCuts(Start(first), [a, b]) != RunCuts(Start(first), [a + b])
    ensures c < s && RunCuts(Start(first), [c, [0]]).packets != RunCuts(Start(first), [c + [0]]).packets
  {
    SteadyIsPlain(first, s);
    a, b := CutBreaks(Start(first), s);
    c := ZeroCommand(Start(first), s);
    ZeroDiffers(Start(first), c);
    hide Feed, FeedAll, Steady, OneShot, Plain;
    assert [a + b][1..] == [];
    WholeCut(Start(first), a + b);
  }

  /** The first byte in an unsteady stream that something goes wrong behind is
      the zero command byte of a packet. */
  lemma {:induction false} ZeroCommand(f: Frame, s: seq<Byte>) returns (c: seq<Byte>)
    requires Sane(f) && !Steady(f, s) && Resume(f) == f
    ensures c < s && !FeedAll(f, c).bad
    ensures FeedAll(f, c).frame == Start(false).(phase := AtLength)
    decreases |s|
  {
    hide Wrap32;
    FeedSane(f, s[0]);
    match Feed(f, s[0])
    case More(g) =>
      if |s| > 1 && Resume(g) != g {
        c := s[..1];
        assert c[1..] == [] && c[0] == s[0];
        EmptyFeed(g);
      } else {
        var d := ZeroCommand(g, s[1..]);
        c := [s[0]] + d;
        assert c[1..] == d && s == [s[0]] + s[1..];
      }
    case Done(p, g) =>
      DoneStarts(f, s[0]);
      var d := ZeroCommand(g, s[1..]);
      c := [s[0]] + d;
      assert c[1..] == d && s == [s[0]] + s[1..];
  }

  /** Behind a zero command byte a zero byte ends an empty packet, but begins a
      new one in a read of its own. */
  lemma ZeroDiffers(f: Frame, c: seq<Byte>)
    requires !FeedAll(f, c).bad && FeedAll(f, c).frame == Start(false).(phase := AtLength)
    ensures RunCuts(f, [c, [0]]).packets != RunCuts(f, [c + [0]]).packets
  {
    var o, g := FeedAll(f, c), Start(false).(phase := AtLength);
    FeedConcat(f, c, [0]);
    WholeCut(f, c + [0]);
    assert [c, [0]][1..] == [[0]] && [[0]][1..] == [] && [0][1..] == [];
    EmptyFeed(Start(false));
    assert FeedAll(g, [0]).packets == [Packet(0, [])];
    assert FeedAll(Resume(g), [0]).packets == [];
  }

  lemma WholeCut(f: Frame, s: seq<Byte>)
    ensures RunCuts(f, [s]) == Stored(FeedAll(f, s))
  {
    var o := FeedAll(f, s);
    assert [s][1..] == [];
    assert RunCuts(Resume(o.frame), []) == Outcome([], Resume(o.frame), false, 0);
    assert o.packets + [] == o.packets;
  }

  // --------------------------------------------- what the parser takes apart

  /** A packet in the stream: its command, the bytes of its length, its body. */
  predicate Piece(p: Packet, piece: seq<Byte>) {
    exists k :: 1 <= k <= 4 && piece == [p.command] + LengthPart(piece, k) + p.body &&
                DecodeLength(LengthPart(piece, k), 0) == Length(|p.body|, k)
  }

  function LengthPart(piece: seq<Byte>, k: nat): seq<Byte> {
    if |piece| <= k then [] else piece[1..k + 1]
  }

  lemma {:induction false} LengthPrefix(s: seq<Byte>, n: nat)
    requires DecodeLength(s, n).Length?
    ensures var l := DecodeLength(s, n); DecodeLength(s[..l.used], n) == l
    decreases |s|
  {
    var l := DecodeLength(s, n);
    assert s[..l.used][0] == s[0];
    if s[0] >= 128 {
      LengthPrefix(s[1..], n + 1);
      assert s[..l.used][1..] == s[1..][..l.used - 1];
    }
  }

  /** The packets are consecutive pieces of the stream, the first one a CONNECT if
      it has to be. */
  ghost predicate Consecutive(first: bool, s: seq<Byte>, p: Parse, pieces: seq<seq<Byte>>) {
    |pieces| == |p.packets| && s == Flatten(pieces) + p.rest &&
    (forall i :: 0 <= i < |pieces| ==> Piece(p.packets[i], pieces[i])) &&
    (first && p.packets != [] ==> p.packets[0].command / 16 == 1)
  }

  /** What is left over is not a whole packet, and the stream is bad only if a length
      field is too long or the first packet is not the CONNECT it has to be. */
  predicate LeftOver(first: bool, p: Parse) {
    if p.rest == [] then !p.bad
    else
      var l, other := DecodeLength(p.rest[1..], 0), first && p.packets == [] && p.rest[0] / 16 != 1;
      if p.bad then other || l.TooLong?
      else !other && (l.Short? || (l.Length? && |p.rest| < 1 + l.used + l.value))
  }

  /** Every stream is taken apart so. */
  lemma {:induction false} TakenApart(first: bool, s: seq<Byte>) returns (pieces: seq<seq<Byte>>)
    ensures Consecutive(first, s, OneShot(first, s), pieces) && LeftOver(first, OneShot(first, s))
    decreases |s|
  {
    hide Consecutive, LeftOver, Piece, Flatten, DecodeLength;
    if Whole(first, s) {
      var l := DecodeLength(s[1..], 0);
      var end := 1 + l.used + l.value;
      var more := TakenApart(false, s[end..]);
      pieces := [s[..end]] + more;
      WholePiece(s, l.used, l.value);
      ApartNext(first, s, end, Packet(s[0], s[1 + l.used..end]), OneShot(false, s[end..]), more);
    } else {
      pieces := [];
      ApartEnd(first, s);
    }
  }

  predicate Whole(first: bool, s: seq<Byte>) {
    s != [] && (first ==> s[0] / 16 == 1) && DecodeLength(s[1..], 0).Length? &&
    |s| >= 1 + DecodeLength(s[1..], 0).used + DecodeLength(s[1..], 0).value
  }

  lemma ApartEnd(first: bool, s: seq<Byte>)
    requires !Whole(first, s)
    ensures Consecutive(first, s, OneShot(first, s), []) && LeftOver(first, OneShot(first, s))
  {
    hide DecodeLength;
    assert [] + s == s;
  }

  lemma ApartNext(first: bool, s: seq<Byte>, end: nat, packet: Packet, p: Parse, more: seq<seq<Byte>>)
    requires 0 < end <= |s| && (first ==> packet.command / 16 == 1)
    requires Consecutive(false, s[end..], p, more) && LeftOver(false, p) && Piece(packet, s[..end])
    ensures var all := p.(packets := [packet] + p.packets);
            Consecutive(first, s, all, [s[..end]] + more) && LeftOver(first, all)
  {
    hide Piece, DecodeLength;
    var pieces := [s[..end]] + more;
    assert pieces[1..] == more && s == s[..end] + s[end..];
    assert s[..end] + Flatten(more) + p.rest == s[..end] + (Flatten(more) + p.rest);
  }

  lemma WholePiece(s: seq<Byte>, used: nat, value: nat)
    requires s != [] && DecodeLength(s[1..], 0) == Length(value, used) && |s| >= 1 + used + value
    ensures Piece(Packet(s[0], s[1 + used..1 + used + value]), s[..1 + used + value])
  {
    LengthPrefix(s[1..], 0);
    var piece := s[..1 + used + value];
    assert LengthPart(piece, used) == s[1..][..used];
    assert piece == [s[0]] + LengthPart(piece, used) + s[1 + used..1 + used + value];
  }
}
