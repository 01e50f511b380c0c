/** Cutting a stream into packets: a parser that can stop anywhere, and a reference. */
module Framing {
  type Byte = b: nat | b < 256

  datatype Packet = Packet(command: Byte, body: seq<Byte>)

  /** 32-bit unsigned arithmetic. */
  function Wrap32(n: nat): nat {
    n % 0x1_0000_0000
  }

  // --------------------------------------------------- the resumable parser

  datatype Phase = AtCommand | AtLength | AtBody

  /** A packet under way. `count` is negative while length bytes are read and
      positive afterwards; `first` says that the packet must be a CONNECT. */
  datatype Frame = Frame(first: bool, phase: Phase, command: Byte, count: int, length: nat, mult: nat, body: seq<Byte>)

  function Start(first: bool): Frame {
    Frame(first, AtCommand, 0, 0, 0, 1, [])
  }

  datatype Fed = More(frame: Frame) | Done(packet: Packet, next: Frame) | Bad

  function Feed(f: Frame, b: Byte): Fed {
    match f.phase
    case AtCommand =>
      if f.first && b / 16 != 1 then Bad
      else More(f.(command := b, phase := if f.count <= 0 then AtLength else AtBody))
    case AtLength =>
      if f.count - 1 < -4 then Bad
      else
        var g := f.(count := f.count - 1, length := Wrap32(f.length + (b % 128) * f.mult),
                    mult := Wrap32(f.mult * 128));
        if b >= 128 then More(g)
        else if g.length == 0 then Done(Packet(f.command, []), Start(false))
        else More(g.(count := -g.count, phase := AtBody))
    case AtBody =>
      if |f.body| + 1 >= f.length then Done(Packet(f.command, f.body + [b]), Start(false))
      else More(f.(body := f.body + [b]))
  }

  /** The packets delivered, the packet under way, whether the stream was
      rejected, and how many bytes were looked at. */
  datatype Outcome = Outcome(packets: seq<Packet>, frame: Frame, bad: bool, used: nat)

  function FeedAll(f: Frame, s: seq<Byte>): (o: Outcome)
    ensures !o.bad ==> o.used == |s|
    ensures o.used <= |s|
    decreases |s|
  {
    if s == [] then Outcome([], f, false, 0)
    else
      match Feed(f, s[0])
      case Bad => Outcome([], f, true, 1)
      case More(g) => Later([], FeedAll(g, s[1..]), 1)
      case Done(p, g) => Later([p], FeedAll(g, s[1..]), 1)
  }

  function Later(packets: seq<Packet>, o: Outcome, used: nat): Outcome {
    o.(packets := packets + o.packets, used := used + o.used)
  }

  /** A call that starts again knows only the stored fields: a zero command
      byte looks like none, and a non-positive count like an unread length. */
  function Resume(f: Frame): Frame {
    f.(phase := if f.command == 0 then AtCommand else if f.count <= 0 then AtLength else AtBody)
  }

  function Stored(o: Outcome): Outcome {
    o.(frame := Resume(o.frame))
  }

  /** The stream as it comes in, one call for each piece. */
  function RunCuts(f: Frame, chunks: seq<seq<Byte>>): Outcome
    decreases |chunks|
  {
    if chunks == [] then Outcome([], f, false, 0)
    else
      var o := FeedAll(f, chunks[0]);
      if o.bad then Stored(o) else Later(o.packets, RunCuts(Resume(o.frame), chunks[1..]), o.used)
  }

  function Flatten(chunks: seq<seq<Byte>>): seq<Byte> {
    if chunks == [] then [] else chunks[0] + Flatten(chunks[1..])
  }

  // --------------------------------------------------- the reference parser

  datatype Length = Short | TooLong | Length(value: nat, used: nat)

  /** The remaining length, `n` bytes of it already seen: seven bits a byte,
      lowest first, at most four bytes. */
  function DecodeLength(s: seq<Byte>, n: nat): (l: Length)
    ensures l.Length? ==> 0 < l.used <= |s| && n + l.used <= 4
    ensures l.TooLong? && n <= 4 ==> |s| >= 5 - n
    decreases |s|
  {
    if s == [] then Short
    else if n >= 4 then TooLong
    else if s[0] < 128 then Length(s[0], 1)
    else
      match DecodeLength(s[1..], n + 1)
      case Length(value, used) => Length(s[0] - 128 + 128 * value, used + 1)
      case other => other
  }

  datatype Parse = Parse(packets: seq<Packet>, rest: seq<Byte>, bad: bool)

  function OneShot(first: bool, s: seq<Byte>): (p: Parse)
    ensures |p.rest| <= |s|
    decreases |s|
  {
    if s == [] then Parse([], [], false)
    else if first && s[0] / 16 != 1 then Parse([], s, true)
    else
      match DecodeLength(s[1..], 0)
      case TooLong => Parse([], s, true)
      case Short => Parse([], s, false)
      case Length(value, used) =>
        var head := 1 + used;
        if |s| < head + value then Parse([], s, false)
        else
          var p := OneShot(false, s[head + value..]);
          p.(packets := [Packet(s[0], s[head..head + value])] + p.packets)
  }

  // ----------------------------------------------------- 32 bits are enough

  function Pow128(n: nat): (r: nat)
    ensures r >= 1
  {
    if n == 0 then 1 else 128 * Pow128(n - 1)
  }

  lemma Pow128Values()
    ensures Pow128(0) == 1 && Pow128(1) == 0x80 && Pow128(2) == 0x4000 && Pow128(3) == 0x20_0000 &&
            Pow128(4) == 0x1000_0000
  {
    assert Pow128(1) == 128 * Pow128(0);
    assert Pow128(2) == 128 * Pow128(1);
    assert Pow128(3) == 128 * Pow128(2);
    assert Pow128(4) == 128 * Pow128(3);
  }

  /** What holds of a packet under way in a stream of ordinary packets. */
  predicate Sane(f: Frame) {
    (f.first && f.phase != AtCommand ==> f.command / 16 == 1) &&
    match f.phase
    case AtCommand => f == Start(f.first)
    case AtLength => -4 <= f.count <= 0 && f.mult == Pow128(-f.count) && f.length < f.mult && f.body == []
    case AtBody => 1 <= f.count <= 4 && |f.body| < f.length < 0x1000_0000
  }

  lemma MultBound(f: Frame)
    requires Sane(f) && f.phase == AtLength
    ensures f.mult <= 0x1000_0000
    ensures f.count > -4 ==> f.mult <= 0x20_0000
  {
    Pow128Values();
    assert -f.count == 0 || -f.count == 1 || -f.count == 2 || -f.count == 3 || -f.count == 4;
  }

  /** On any input the accumulator and the multiplier stay within 32 bits: the
      wrap-around never happens. */
  lemma FeedSane(f: Frame, b: Byte)
    requires Sane(f)
    ensures Feed(f, b).More? ==> Sane(Feed(f, b).frame)
    ensures Feed(f, b).Done? ==> Sane(Feed(f, b).next)
    ensures f.phase == AtLength && !Feed(f, b).Bad? ==>
              f.length + (b % 128) * f.mult < 0x1000_0000 && f.mult * 128 <= 0x1000_0000
  {
    if f.phase == AtLength && f.count > -4 {
      MultBound(f);
      LengthGrows(f.length, f.mult, b % 128);
      assert Pow128(1 - f.count) == 128 * Pow128(-f.count);
      hide Pow128;
      var length, mult := f.length + (b % 128) * f.mult, f.mult * 128;
      assert length < mult <= 0x1000_0000;
      assert Wrap32(length) == length && Wrap32(mult) == mult;
    }
  }

  lemma LengthGrows(length: nat, mult: nat, d: nat)
    requires length < mult && d < 128
    ensures length + d * mult < mult * 128
  {
    assert d * mult <= 127 * mult;
  }

  lemma {:induction false} NeverWraps(first: bool, s: seq<Byte>)
    ensures Sane(FeedAll(Start(first), s).frame)
  {
    AllSane(Start(first), s);
  }

  lemma {:induction false} AllSane(f: Frame, s: seq<Byte>)
    requires Sane(f)
    ensures Sane(FeedAll(f, s).frame)
    decreases |s|
  {
    hide Feed, Sane;
    if s != [] {
      FeedSane(f, s[0]);
      match Feed(f, s[0])
      case Bad =>
      case More(g) => AllSane(g, s[1..]);
      case Done(p, g) => AllSane(g, s[1..]);
    }
  }

  // --------------------------------------------------- joining and cutting

  lemma {:induction false} FeedConcat(f: Frame, a: seq<Byte>, b: seq<Byte>)
    ensures var o := FeedAll(f, a);
            FeedAll(f, a + b) == if o.bad then o else Later(o.packets, FeedAll(o.frame, b), |a|)
    decreases |a|
  {
    hide Feed;
    if a == [] {
      assert a + b == b;
      assert [] + FeedAll(f, b).packets == FeedAll(f, b).packets;
    } else {
      assert (a + b)[1..] == a[1..] + b && (a + b)[0] == a[0];
      match Feed(f, a[0])
      case Bad =>
      case More(g) =>
        FeedConcat(g, a[1..], b);
        LaterTwice([], FeedAll(g, a[1..]), b);
      case Done(p, g) =>
        FeedConcat(g, a[1..], b);
        LaterTwice([p], FeedAll(g, a[1..]), b);
    }
  }

  lemma LaterTwice(packets: seq<Packet>, o: Outcome, b: seq<Byte>)
    ensures Later(packets, Later(o.packets, FeedAll(o.frame, b), o.used), 1) ==
            Later(packets + o.packets, FeedAll(o.frame, b), 1 + o.used)
  {
    var more := FeedAll(o.frame, b).packets;
    assert packets + (o.packets + more) == packets + o.packets + more;
  }

  /** No zero command byte is under way when another byte comes. */
  predicate Steady(f: Frame, s: seq<Byte>)
    decreases |s|
  {
    s == [] ||
    match Feed(f, s[0])
    case Bad => true
    case More(g) => (|s| > 1 ==> Resume(g) == g) && Steady(g, s[1..])
    case Done(_, g) => Steady(g, s[1..])
  }

  lemma {:induction false} SteadyConcat(f: Frame, a: seq<Byte>, b: seq<Byte>)
    requires Steady(f, a + b) && Sane(f) && (b != [] ==> Resume(f) == f)
    ensures Steady(f, a)
    ensures var o := FeedAll(f, a);
            !o.bad && b != [] ==> Sane(o.frame) && Resume(o.frame) == o.frame && Steady(o.frame, b)
    decreases |a|
  {
    hide Feed, Sane;
    if a == [] {
      assert a + b == b;
    } else {
      assert (a + b)[1..] == a[1..] + b && (a + b)[0] == a[0];
      FeedSane(f, a[0]);
      match Feed(f, a[0])
      case Bad =>
      case More(g) => SteadyConcat(g, a[1..], b);
      case Done(p, g) =>
        DoneStarts(f, a[0]);
        SteadyConcat(g, a[1..], b);
    }
  }

  lemma DoneStarts(f: Frame, b: Byte)
    requires Feed(f, b).Done?
    ensures Feed(f, b).next == Start(false) && Resume(Start(false)) == Start(false)
  {
  }

  /** Every way of cutting a steady stream gives the outcome of the whole. */
  lemma {:induction false} CutsAgree(f: Frame, chunks: seq<seq<Byte>>)
    requires Steady(f, Flatten(chunks)) && Sane(f) && Resume(f) == f
    ensures RunCuts(f, chunks) == Stored(FeedAll(f, Flatten(chunks)))
    decreases |chunks|
  {
    hide Feed, Sane, Steady, FeedAll;
    EmptyFeed(f);
    if chunks != [] {
      var head, tail := chunks[0], Flatten(chunks[1..]);
      var o := FeedAll(f, head);
      FeedConcat(f, head, tail);
      SteadyConcat(f, head, tail);
      if !o.bad {
        EmptyFeed(o.frame);
        if tail != [] {
          CutsAgree(o.frame, chunks[1..]);
        } else {
          EmptyCuts(Resume(o.frame), chunks[1..]);
        }
      }
    }
  }

  lemma EmptyFeed(f: Frame)
    ensures FeedAll(f, []) == Outcome([], f, false, 0)
  {
  }

  lemma {:induction false} EmptyCuts(f: Frame, chunks: seq<seq<Byte>>)
    requires Flatten(chunks) == [] && Resume(f) == f
    ensures RunCuts(f, chunks) == Outcome([], f, false, 0)
  {
    if chunks != [] {
      assert chunks[0] == [] && Flatten(chunks[1..]) == [];
      EmptyFeed(f);
      EmptyCuts(f, chunks[1..]);
    }
  }

  /** A stream that is not steady can be cut, some way into it, so that the
      outcome changes. */
  lemma {:induction false} CutBreaks(f: Frame, s: seq<Byte>) returns (a: seq<Byte>, b: seq<Byte>)
    requires !Steady(f, s) && Sane(f) && Resume(f) == f
    ensures a + b <= s && RunCuts(f, [a, b]) != Stored(FeedAll(f, a + b))
  {
    hide Sane;
    var k := Weak(f, s);
    a, b := s[..k], [s[k]];
    var g := FeedAll(f, a).frame;
    FeedConcat(f, a, b);
    assert [a, b][1..] == [b] && [b][1..] == [];
    assert a + b == s[..k + 1];
    var o, x, y := FeedAll(f, a), FeedAll(g, b), FeedAll(Resume(g), b);
    ByteDiffers(g, s[k]);
    EmptyRest(y);
    assert o.packets + x.packets == o.packets + y.packets ==> x.packets == y.packets by {
      assert (o.packets + x.packets)[|o.packets|..] == x.packets && (o.packets + y.packets)[|o.packets|..] == y.packets;
    }
  }

  lemma EmptyRest(y: Outcome)
    ensures RunCuts(Resume(y.frame), []) == Outcome([], Resume(y.frame), false, 0)
    ensures !y.bad ==> Later(y.packets, RunCuts(Resume(y.frame), []), y.used) == Stored(y)
  {
    assert y.packets + [] == y.packets;
  }

  /** Continuing a packet with a zero command byte, or taking the next byte for
      its command, shows at once. */
  lemma ByteDiffers(g: Frame, b: Byte)
    requires Sane(g) && Resume(g) != g
    ensures var x, y := FeedAll(g, [b]), FeedAll(Resume(g), [b]);
            !y.bad && (x.bad || x.packets != y.packets || Resume(x.frame) != Resume(y.frame))
  {
    assert g.command == 0 && !g.first;
    assert [b][1..] == [];
  }

  /** Where a packet with a zero command byte is cut. */
  lemma {:induction false} Weak(f: Frame, s: seq<Byte>) returns (k: nat)
    requires !Steady(f, s) && Sane(f)
    ensures k < |s|
    ensures var o := FeedAll(f, s[..k]); !o.bad && Sane(o.frame) && Resume(o.frame) != o.frame
    decreases |s|
  {
    hide Sane;
    FeedSane(f, s[0]);
    match Feed(f, s[0])
    case More(g) =>
      if |s| > 1 && Resume(g) != g {
        k := 1;
        assert s[..1][1..] == [];
      } else {
        k := Weak(g, s[1..]);
        assert s[..k + 1][1..] == s[1..][..k];
        k := k + 1;
      }
    case Done(p, g) =>
      k := Weak(g, s[1..]);
      assert s[..k + 1][1..] == s[1..][..k];
      k := k + 1;
  }
}
