/** The two parsers of a stream, side by side: what each makes of a command
    byte, of a remaining length, of a body, and of what comes behind them. The
    laws about whole streams and their cuttings rest on these steps. */
module FramingSteps {
  import opened Framing

  /** The body of a packet is taken whole. */
  lemma {:induction false} BodyFeeds(f: Frame, s: seq<Byte>)
    requires f.phase == AtBody && |f.body| < f.length
    ensures var r := f.length - |f.body|;
            if |s| < r then FeedAll(f, s) == Outcome([], f.(body := f.body + s), false, |s|)
            else FeedAll(f, s) == Later([Packet(f.command, f.body + s[..r])], FeedAll(Start(false), s[r..]), r)
    decreases |s|
  {
    EmptyFeed(f);
    if s != [] { BodyByte(f, s); }
    hide Feed, FeedAll, Later;
    var r := f.length - |f.body|;
    if s == [] {
      assert f.body + s == f.body;
    } else if r > 1 {
      BodyFeeds(f.(body := f.body + [s[0]]), s[1..]);
      Slices(f.body, s, r);
      if |s| >= r {
        LaterByte([Packet(f.command, f.body + s[..r])], FeedAll(Start(false), s[r..]), r - 1);
      }
      PendingByte(f.(body := f.body + s), |s| - 1);
    } else {
      assert s[..1] == [s[0]];
    }
  }

  lemma Slices(body: seq<Byte>, s: seq<Byte>, r: nat)
    requires s != [] && r > 1
    ensures |s| >= r ==> s[1..][r - 1..] == s[r..] && body + [s[0]] + s[1..][..r - 1] == body + s[..r]
    ensures body + [s[0]] + s[1..] == body + s
  {
  }

  lemma LaterByte(packets: seq<Packet>, o: Outcome, used: nat)
    ensures Later([], Later(packets, o, used), 1) == Later(packets, o, used + 1)
  {
    assert [] + (packets + o.packets) == packets + o.packets;
  }

  lemma PendingByte(f: Frame, used: nat)
    ensures Later([], Outcome([], f, false, used), 1) == Outcome([], f, false, used + 1)
  {
  }

  lemma BodyByte(f: Frame, s: seq<Byte>)
    requires f.phase == AtBody && |f.body| < f.length && s != []
    ensures FeedAll(f, s) ==
            if |f.body| + 1 >= f.length
            then Later([Packet(f.command, f.body + [s[0]])], FeedAll(Start(false), s[1..]), 1)
            else Later([], FeedAll(f.(body := f.body + [s[0]]), s[1..]), 1)
  {
  }

  lemma {:induction false} BodyKeepsSteady(f: Frame, s: seq<Byte>)
    requires f.phase == AtBody && |f.body| < f.length && f.command != 0 && f.count > 0
    ensures var r := f.length - |f.body|;
            Steady(f, s) <==> |s| < r || Steady(Start(false), s[r..])
    decreases |s|
  {
    if s != [] {
      var r := f.length - |f.body|;
      if r > 1 {
        BodyKeepsSteady(f.(body := f.body + [s[0]]), s[1..]);
        if |s| >= r { assert s[1..][r - 1..] == s[r..]; }
      }
    }
  }

  /** From inside the remaining length: what comes after it. */
  function AfterLength(f: Frame, l: Length): Frame
    requires l.Length?
  {
    f.(count := -f.count + l.used, length := f.length + l.value * f.mult, mult := f.mult * Pow128(l.used),
       phase := AtBody)
  }

  /** The parser right behind the remaining length, before `s`. */
  function Behind(g: Frame, s: seq<Byte>, used: nat): Outcome {
    if g.length == 0 then Later([Packet(g.command, [])], FeedAll(Start(false), s), used)
    else Later([], FeedAll(g, s), used)
  }

  predicate SteadyBehind(g: Frame, s: seq<Byte>) {
    Steady(if g.length == 0 then Start(false) else g, s)
  }

  lemma BehindLater(g: Frame, s: seq<Byte>, used: nat)
    ensures Later([], Behind(g, s, used), 1) == Behind(g, s, used + 1)
  {
    hide FeedAll;
    assert [] + ([] + FeedAll(g, s).packets) == [] + FeedAll(g, s).packets;
    var one := [Packet(g.command, [])];
    assert [] + (one + FeedAll(Start(false), s).packets) == one + FeedAll(Start(false), s).packets;
  }

  /** What the parser does with the rest of a remaining length. */
  ghost predicate LengthSays(o: Outcome, f: Frame, s: seq<Byte>, l: Length)
    requires l.Length? ==> l.used <= |s|
  {
    if l.Short? then o.packets == [] && !o.bad
    else if l.TooLong? then o.packets == [] && o.bad && o.used == 5 + f.count
    else o == Behind(AfterLength(f, l), s[l.used..], l.used)
  }

  lemma FeedMore(f: Frame, s: seq<Byte>)
    requires s != []
    ensures Feed(f, s[0]).More? ==> FeedAll(f, s) == Later([], FeedAll(Feed(f, s[0]).frame, s[1..]), 1)
    ensures Feed(f, s[0]).Bad? ==> FeedAll(f, s) == Outcome([], f, true, 1)
  {
  }

  function OneMoreByte(b: Byte, inner: Length): Length
    requires b >= 128
  {
    if inner.Length? then Length(b - 128 + 128 * inner.value, inner.used + 1) else inner
  }

  lemma DecodeMore(s: seq<Byte>, n: nat)
    requires s != [] && n <= 4
    ensures n == 4 ==> DecodeLength(s, n) == TooLong
    ensures n < 4 && s[0] >= 128 ==> DecodeLength(s, n) == OneMoreByte(s[0], DecodeLength(s[1..], n + 1))
    ensures n < 4 && s[0] < 128 ==> DecodeLength(s, n) == Length(s[0], 1)
  {
  }

  lemma SaysNext(o: Outcome, f: Frame, g: Frame, s: seq<Byte>, inner: Length)
    requires s != [] && s[0] >= 128 && (inner.Length? ==> inner.used < |s|) && LengthSays(o, g, s[1..], inner)
    requires g == f.(count := f.count - 1, length := f.length + (s[0] % 128) * f.mult, mult := f.mult * 128)
    ensures LengthSays(Later([], o, 1), f, s, OneMoreByte(s[0], inner))
  {
    if inner.Length? {
      LengthOn(f, s[0], g, inner);
      hide AfterLength, Behind;
      assert s[1..][inner.used..] == s[inner.used + 1..];
      BehindLater(AfterLength(g, inner), s[inner.used + 1..], inner.used);
    }
  }

  lemma {:induction false} LengthFeeds(f: Frame, s: seq<Byte>)
    requires Sane(f) && f.phase == AtLength
    ensures LengthSays(FeedAll(f, s), f, s, DecodeLength(s, -f.count))
    decreases |s|
  {
    if s != [] {
      LengthByte(f, s[0]);
      FeedMore(f, s);
      DecodeMore(s, -f.count);
      hide Sane, Feed, FeedAll, DecodeLength, AfterLength, Behind, Resume, OneMoreByte;
      if f.count > -4 {
        if s[0] >= 128 {
          var g := Feed(f, s[0]).frame;
          LengthFeeds(g, s[1..]);
          hide LengthSays;
          SaysNext(FeedAll(g, s[1..]), f, g, s, DecodeLength(s[1..], 1 - f.count));
        } else {
          LastByte(f, s);
        }
      }
    }
  }

  lemma LastByte(f: Frame, s: seq<Byte>)
    requires s != [] && Sane(f) && f.phase == AtLength && f.count > -4 && s[0] < 128
    ensures FeedAll(f, s) == Behind(AfterLength(f, Length(s[0], 1)), s[1..], 1)
    ensures f.command != 0 ==> (Steady(f, s) <==> SteadyBehind(AfterLength(f, Length(s[0], 1)), s[1..]))
  {
    LengthByte(f, s[0]);
    assert AfterLength(f, Length(s[0], 1)).command == f.command;
    hide Sane, Feed, AfterLength, Resume;
  }

  lemma {:induction false} LengthSteady(f: Frame, s: seq<Byte>)
    requires Sane(f) && f.phase == AtLength && f.command != 0
    ensures var l := DecodeLength(s, -f.count);
            Steady(f, s) <==> (l.Length? ==> SteadyBehind(AfterLength(f, l), s[l.used..]))
    decreases |s|
  {
    hide Sane, Feed, AfterLength, SteadyBehind, Resume, Steady, DecodeLength;
    LengthByte(f, 0);
    NoLength(f, -f.count);
    if s != [] {
      LengthByte(f, s[0]);
      SteadyByte(f, s);
      DecodeMore(s, -f.count);
      if f.count > -4 {
        if s[0] >= 128 {
          var g, inner := Feed(f, s[0]).frame, DecodeLength(s[1..], 1 - f.count);
          LengthSteady(g, s[1..]);
          if inner.Length? {
            LengthOn(f, s[0], g, inner);
            assert s[1..][inner.used..] == s[inner.used + 1..];
          }
        } else {
          LastByte(f, s);
        }
      }
    }
  }

  lemma NoLength(f: Frame, n: nat)
    ensures Steady(f, []) && DecodeLength([], n) == Short
  {
  }

  lemma SteadyByte(f: Frame, s: seq<Byte>)
    requires s != []
    ensures Feed(f, s[0]).Bad? ==> Steady(f, s)
    ensures var g := Feed(f, s[0]);
            g.More? ==> (Steady(f, s) <==> (|s| > 1 ==> Resume(g.frame) == g.frame) && Steady(g.frame, s[1..]))
  {
    hide Feed, Resume;
  }

  /** One byte of the remaining length, without wrap-around. */
  lemma LengthByte(f: Frame, b: Byte)
    requires Sane(f) && f.phase == AtLength
    ensures f.count == -4 ==> Feed(f, b).Bad?
    ensures -4 <= f.count <= 0
    ensures var g := f.(count := f.count - 1, length := f.length + (b % 128) * f.mult, mult := f.mult * 128);
            f.count > -4 && b >= 128 ==> Feed(f, b) == More(g) && Sane(g) && Resume(g).command == f.command &&
                                         (f.command != 0 ==> Resume(g) == g)
    ensures f.count > -4 && b < 128 ==>
              var g := AfterLength(f, Length(b, 1));
              Feed(f, b) == (if g.length == 0 then Done(Packet(f.command, []), Start(false)) else More(g)) &&
              (f.command != 0 ==> Resume(g) == g)
  {
    if f.count > -4 {
      FeedSane(f, b);
      Pow128Values();
      hide Pow128;
      assert f.mult * Pow128(1) == f.mult * 128;
      var length, mult := f.length + (b % 128) * f.mult, f.mult * 128;
      assert Wrap32(length) == length && Wrap32(mult) == mult;
    }
  }

  lemma LengthOn(f: Frame, b: Byte, g: Frame, inner: Length)
    requires inner.Length? && b >= 128
    requires g == f.(count := f.count - 1, length := f.length + (b % 128) * f.mult, mult := f.mult * 128)
    ensures AfterLength(f, Length(b - 128 + 128 * inner.value, inner.used + 1)) == AfterLength(g, inner)
  {
    var v, m := inner.value, f.mult;
    assert (b - 128 + 128 * v) * m == (b - 128) * m + v * (m * 128);
    assert Pow128(inner.used + 1) == 128 * Pow128(inner.used);
    assert m * (128 * Pow128(inner.used)) == (m * 128) * Pow128(inner.used);
  }

  /** No packet with a zero command byte is more than that byte. */
  predicate Plain(first: bool, s: seq<Byte>)
    decreases |s|
  {
    s == [] || (first && s[0] / 16 != 1) ||
    ((|s| > 1 ==> s[0] != 0) &&
     match DecodeLength(s[1..], 0)
     case Length(value, used) => |s| >= 1 + used + value ==> Plain(false, s[1 + used + value..])
     case _ => true)
  }

  lemma CommandByte(first: bool, s: seq<Byte>)
    requires s != [] && !(first && s[0] / 16 != 1)
    ensures var g := Start(first).(command := s[0], phase := AtLength);
            Sane(g) && FeedAll(Start(first), s) == Later([], FeedAll(g, s[1..]), 1) &&
            (Steady(Start(first), s) <==> (|s| > 1 ==> s[0] != 0) && Steady(g, s[1..]))
  {
    Pow128Values();
    hide Pow128;
  }

  /** The packet under way behind its remaining length. */
  function HeadFrame(first: bool, s: seq<Byte>): Frame
    requires s != [] && DecodeLength(s[1..], 0).Length?
  {
    AfterLength(Start(first).(command := s[0], phase := AtLength), DecodeLength(s[1..], 0))
  }

  lemma HeadFrameIs(first: bool, s: seq<Byte>)
    requires s != [] && DecodeLength(s[1..], 0).Length?
    ensures var f := HeadFrame(first, s);
            f.phase == AtBody && f.command == s[0] && f.body == [] && f.length == DecodeLength(s[1..], 0).value &&
            f.count > 0
  {
    AfterStart(Start(first).(command := s[0], phase := AtLength), DecodeLength(s[1..], 0));
  }

  lemma AfterStart(g: Frame, l: Length)
    requires l.Length? && g.count == 0 && g.mult == 1 && g.length == 0 && l.used > 0
    ensures var f := AfterLength(g, l);
            f.phase == AtBody && f.command == g.command && f.body == g.body && f.length == l.value && f.count > 0
  {
    assert l.value * 1 == l.value;
  }

  lemma BodyBehind(f: Frame, s: seq<Byte>, used: nat)
    requires f.phase == AtBody && f.body == [] && f.count > 0
    ensures var o := Behind(f, s, used);
            if |s| < f.length then o.packets == [] && !o.bad
            else o == Later([Packet(f.command, s[..f.length])], FeedAll(Start(false), s[f.length..]), used + f.length)
  {
    if f.length > 0 {
      BodyFeeds(f, s);
      hide FeedAll, Steady;
      if |s| >= f.length { assert [] + s[..f.length] == s[..f.length]; }
    } else {
      hide FeedAll, Steady;
      assert s[..0] == [] && s[0..] == s;
    }
  }

  lemma BodySteady(f: Frame, s: seq<Byte>)
    requires f.phase == AtBody && f.body == [] && f.count > 0 && f.command != 0
    ensures SteadyBehind(f, s) <==> |s| < f.length || Steady(Start(false), s[f.length..])
  {
    if f.length > 0 {
      BodyKeepsSteady(f, s);
    } else {
      assert s[0..] == s;
    }
    hide FeedAll, Steady;
  }

  /** A whole packet at the head of the stream, or the beginning of one. */
  ghost predicate HeadSays(o: Outcome, s: seq<Byte>, l: Length)
    requires s != [] && (l.Length? ==> l.used < |s|)
  {
    if l.Short? then o.packets == [] && !o.bad
    else if l.TooLong? then o.packets == [] && o.bad && o.used == 6
    else
      var head := 1 + l.used;
      if |s| < head + l.value then o.packets == [] && !o.bad
      else o == Later([Packet(s[0], s[head..head + l.value])], FeedAll(Start(false), s[head + l.value..]),
                      head + l.value)
  }

  lemma HeadOut(o: Outcome, g: Frame, s: seq<Byte>, l: Length)
    requires s != [] && (l.Length? ==> 0 < l.used < |s|) && LengthSays(o, g, s[1..], l)
    requires g.count == 0 && g.mult == 1 && g.length == 0 && g.body == [] && g.command == s[0]
    ensures HeadSays(Later([], o, 1), s, l)
  {
    if l.Length? {
      var f, head, value := AfterLength(g, l), 1 + l.used, l.value;
      AfterStart(g, l);
      assert s[1..][l.used..] == s[head..];
      BodyBehind(f, s[head..], l.used);
      if |s| >= head + value {
        CutTwice(s, head, value);
        hide AfterLength, FeedAll, Behind;
        var packet := [Packet(s[0], s[head..head + value])];
        assert [] + (packet + FeedAll(Start(false), s[head + value..]).packets) ==
               packet + FeedAll(Start(false), s[head + value..]).packets;
      }
    }
  }

  lemma HeadIs(first: bool, s: seq<Byte>)
    requires s != [] && !(first && s[0] / 16 != 1)
    ensures HeadSays(FeedAll(Start(first), s), s, DecodeLength(s[1..], 0))
  {
    var g := Start(first).(command := s[0], phase := AtLength);
    CommandByte(first, s);
    LengthFeeds(g, s[1..]);
    hide FeedAll, DecodeLength, LengthSays, HeadSays, Sane;
    HeadOut(FeedAll(g, s[1..]), g, s, DecodeLength(s[1..], 0));
  }

  lemma CutTwice(s: seq<Byte>, head: nat, value: nat)
    requires head + value <= |s|
    ensures s[head..][value..] == s[head + value..] && s[head..][..value] == s[head..head + value]
  {
  }

  lemma HeadSteady(first: bool, s: seq<Byte>)
    requires s != [] && !(first && s[0] / 16 != 1)
    ensures var l := DecodeLength(s[1..], 0);
            Steady(Start(first), s) <==>
            (|s| > 1 ==> s[0] != 0) &&
            (l.Length? && |s| >= 1 + l.used + l.value ==> Steady(Start(false), s[1 + l.used + l.value..]))
  {
    if s[0] == 0 {
      HeadZero(first, s);
    } else {
      LaterSteady(first, s);
    }
    hide *;
  }

  lemma LaterSteady(first: bool, s: seq<Byte>)
    requires s != [] && !(first && s[0] / 16 != 1) && s[0] != 0
    ensures var l := DecodeLength(s[1..], 0);
            Steady(Start(first), s) <==>
            (l.Length? && |s| >= 1 + l.used + l.value ==> Steady(Start(false), s[1 + l.used + l.value..]))
  {
    SteadyFromHead(first, s);
    if DecodeLength(s[1..], 0).Length? { HeadFrameSteady(first, s); }
    hide *;
  }

  lemma HeadFrameSteady(first: bool, s: seq<Byte>)
    requires s != [] && s[0] != 0 && DecodeLength(s[1..], 0).Length?
    ensures var l := DecodeLength(s[1..], 0);
            SteadyBehind(HeadFrame(first, s), s[1 + l.used..]) <==>
            (|s| >= 1 + l.used + l.value ==> Steady(Start(false), s[1 + l.used + l.value..]))
  {
    var f, l := HeadFrame(first, s), DecodeLength(s[1..], 0);
    var rest := s[1 + l.used..];
    HeadFrameIs(first, s);
    BodySteady(f, rest);
    hide *;
    if |s| >= 1 + l.used + l.value { CutTwice(s, 1 + l.used, l.value); }
  }

  lemma SteadyFromHead(first: bool, s: seq<Byte>)
    requires s != [] && !(first && s[0] / 16 != 1) && s[0] != 0
    ensures var l := DecodeLength(s[1..], 0);
            Steady(Start(first), s) <==> (l.Length? ==> SteadyBehind(HeadFrame(first, s), s[1 + l.used..]))
  {
    var g, l := Start(first).(command := s[0], phase := AtLength), DecodeLength(s[1..], 0);
    CommandByte(first, s);
    LengthSteady(g, s[1..]);
    hide Feed, Sane, DecodeLength, Pow128, FeedAll, AfterLength, Steady, SteadyBehind;
    if l.Length? { assert s[1..][l.used..] == s[1 + l.used..]; }
  }

  lemma HeadZero(first: bool, s: seq<Byte>)
    requires s != [] && !(first && s[0] / 16 != 1) && s[0] == 0
    ensures Steady(Start(first), s) <==> |s| == 1
    ensures |s| == 1 ==> DecodeLength(s[1..], 0) == Short
  {
    CommandByte(first, s);
    assert |s| == 1 ==> s[1..] == [];
  }
}
