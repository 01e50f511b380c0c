/** The two readers of incoming packets: from a socket, a packet a call, and
    from a websocket, a chunk a call. Both keep what they have of a packet in
    the same fields. */
module PacketReader {
  import opened Common
  import opened Framing
  import opened FramingSteps

  /** A read returns any part of what is there; nothing means "again". */
  class Socket {
    var input: seq<Byte>

    method Read(count: nat) returns (got: seq<Byte>)
      requires count > 0
      modifies this
      ensures |got| <= count && old(input) == got + input
    {
      var n: nat :| n <= count && n <= |input|;
      got := input[..n];
      input := input[n..];
    }
  }

  datatype Rc = Success | Protocol

  /** Bytes looked at so far lead from `start` to `f`, inside one packet. */
  ghost predicate Taken(start: Frame, bytes: seq<Byte>, f: Frame) {
    FeedAll(start, bytes) == Outcome([], f, false, |bytes|)
  }

  /** What a call made of the bytes it took: a packet at the end of them, or a
      part of one. */
  ghost predicate Took(start: Frame, bytes: seq<Byte>, packet: Option<Packet>, now: Frame) {
    var o := FeedAll(start, bytes);
    !o.bad && now == Resume(o.frame) &&
    if packet.Some? then o.packets == [packet.value] && o.frame == Start(false) else o.packets == []
  }

  /** The last of these bytes is the one to reject. */
  ghost predicate Rejected(start: Frame, bytes: seq<Byte>) {
    var o := FeedAll(start, bytes);
    o.bad && o.packets == [] && o.used == |bytes|
  }

  lemma TakeByte(start: Frame, bytes: seq<Byte>, f: Frame, b: Byte)
    requires Taken(start, bytes, f)
    ensures match Feed(f, b)
            case Bad => Rejected(start, bytes + [b])
            case More(g) => Taken(start, bytes + [b], g)
            case Done(p, g) => Took(start, bytes + [b], Some(p), Resume(g))
  {
    FeedConcat(start, bytes, [b]);
    if Feed(f, b).Done? { DoneStarts(f, b); }
    hide Feed;
    assert [b][1..] == [];
  }

  lemma TakeBody(start: Frame, bytes: seq<Byte>, f: Frame, s: seq<Byte>)
    requires Taken(start, bytes, f) && f.phase == AtBody && |f.body| + |s| <= f.length && |f.body| < f.length
    ensures if |f.body| + |s| < f.length then Taken(start, bytes + s, f.(body := f.body + s))
            else Took(start, bytes + s, Some(Packet(f.command, f.body + s)), Start(false))
  {
    FeedConcat(start, bytes, s);
    BodyFeeds(f, s);
    hide FeedAll;
    if |f.body| + |s| < f.length {
    } else {
      EmptyFeed(Start(false));
      assert s[..|s|] == s && s[|s|..] == [];
    }
  }

  lemma TakeStop(start: Frame, bytes: seq<Byte>, f: Frame, now: Frame)
    requires Taken(start, bytes, f) && now == Resume(f)
    ensures Took(start, bytes, None, now)
  {
  }

  class Reader {
    var first: bool
    var command: Byte
    var remainingCount: int
    var remainingLength: nat
    var remainingMult: nat
    var toProcess: nat
    var pos: nat
    var payload: array?<Byte>

    ghost predicate Valid()
      reads this, payload
    {
      if remainingCount > 0
      then payload != null && payload.Length == remainingLength && pos + toProcess == remainingLength && toProcess > 0
      else toProcess == 0 && pos == 0
    }

    ghost function InPhase(phase: Phase): Frame
      requires Valid()
      reads this, payload
    {
      Frame(first, phase, command, remainingCount, remainingLength, remainingMult,
            if remainingCount > 0 then payload[..pos] else [])
    }

    /** The packet under way, as the next call will see it. */
    ghost function Now(): Frame
      requires Valid()
      reads this, payload
    {
      Resume(InPhase(AtCommand))
    }

    constructor (mustConnect: bool)
      ensures Valid() && Now() == Start(mustConnect) && payload == null
    {
      first, command, remainingCount, remainingLength, remainingMult := mustConnect, 0, 0, 0, 1;
      toProcess, pos, payload := 0, 0, null;
    }

    /** The packet is handled and its fields are reset. */
    method Finish() returns (p: Packet)
      requires toProcess == 0 && (payload == null || payload.Length == remainingLength) &&
               (payload == null ==> remainingLength == 0)
      modifies this
      ensures Valid() && Now() == Start(false) && payload == null
      ensures p == old(Packet(command, if payload == null then [] else payload[..]))
    {
      p := Packet(command, if payload == null then [] else payload[..]);
      first, command, remainingCount, remainingLength, remainingMult := false, 0, 0, 0, 1;
      toProcess, pos, payload := 0, 0, null;
    }

    // ------------------------------------------------------------ one byte

    method TakeCommand(b: Byte) returns (rc: Rc)
      requires Valid() && command == 0
      modifies this`command
      ensures Valid()
      ensures rc == Protocol <==> Feed(old(Now()), b) == Bad
      ensures rc == Success ==> Feed(old(Now()), b) == More(InPhase(if remainingCount <= 0 then AtLength else AtBody))
    {
      command := b;
      rc := if first && b / 16 != 1 then Protocol else Success;
    }

    /** One byte of the remaining length. */
    method CountByte(b: Byte) returns (rc: Rc)
      requires Valid() && remainingCount <= 0
      modifies this`remainingCount, this`remainingLength, this`remainingMult
      ensures Valid() && remainingCount == old(remainingCount) - 1
      ensures rc == Protocol <==> Feed(old(InPhase(AtLength)), b) == Bad
      ensures rc == Success && b >= 128 ==> Feed(old(InPhase(AtLength)), b) == More(InPhase(AtLength))
      ensures rc == Success && b < 128 && remainingLength == 0 ==>
                Feed(old(InPhase(AtLength)), b) == Done(Packet(command, []), Start(false))
      ensures rc == Success && b < 128 && remainingLength > 0 ==>
                Feed(old(InPhase(AtLength)), b) == More(InPhase(AtLength).(count := -remainingCount, phase := AtBody))
    {
      remainingCount := remainingCount - 1;
      if remainingCount < -4 {
        return Protocol;
      }
      remainingLength := Wrap32(remainingLength + (b % 128) * remainingMult);
      remainingMult := Wrap32(remainingMult * 128);
      return Success;
    }

    /** The remaining length is known: make room for the body. */
    method StartBody()
      requires Valid() && remainingCount < 0
      modifies this`remainingCount, this`payload, this`toProcess
      ensures remainingCount == -old(remainingCount) && toProcess == remainingLength
      ensures payload != null ==> fresh(payload) && payload.Length == remainingLength
      ensures remainingLength > 0 ==>
                Valid() && InPhase(AtBody) == old(InPhase(AtLength)).(count := -old(remainingCount), phase := AtBody)
      ensures remainingLength == 0 ==> payload == null
    {
      remainingCount := -remainingCount;
      payload := null;
      if remainingLength > 0 {
        payload := new Byte[remainingLength];
        toProcess := remainingLength;
      }
    }

    /** Bytes of the body go behind those that are there. */
    method TakeBytes(got: seq<Byte>)
      requires Valid() && remainingCount > 0 && |got| <= toProcess
      modifies this`toProcess, this`pos, payload
      ensures payload == old(payload) && payload != null && payload.Length == remainingLength
      ensures pos == old(pos) + |got| && toProcess == old(toProcess) - |got| && pos + toProcess == remainingLength
      ensures payload[..pos] == old(payload[..pos]) + got
    {
      var at := pos;
      forall k | 0 <= k < |got| {
        payload[at + k] := got[k];
      }
      toProcess := toProcess - |got|;
      pos := pos + |got|;
      assert payload[..at] == old(payload[..pos]);
      assert payload[at..pos] == got;
      assert payload[..pos] == payload[..at] + payload[at..pos];
    }

    // ---------------------------------------------------------- the socket

    /** The loop over the bytes of the remaining length. `known` tells that it
        came to the last one. */
    method ReadLength(sock: Socket, ghost start: Frame, ghost all: seq<Byte>, ghost n0: nat)
      returns (rc: Rc, known: bool, ghost n: nat)
      requires Valid() && remainingCount <= 0
      requires n0 <= |all| && sock.input == all[n0..] && Taken(start, all[..n0], InPhase(AtLength))
      modifies this, sock
      ensures n0 <= n <= |all| && sock.input == all[n..] && command == old(command) && first == old(first)
      ensures payload == old(payload) || payload == null || fresh(payload)
      ensures rc == Protocol ==> Rejected(start, all[..n])
      ensures rc == Success && !(known && remainingLength == 0) ==> Valid()
      ensures rc == Success && !known ==> Taken(start, all[..n], InPhase(AtLength)) && payload == old(payload)
      ensures rc == Success && known && remainingLength > 0 ==>
                remainingCount > 0 && fresh(payload) && Taken(start, all[..n], InPhase(AtBody))
      ensures rc == Success && known && remainingLength == 0 ==>
                payload == null && toProcess == 0 && Took(start, all[..n], Some(Packet(command, [])), Start(false))
    {
      hide Feed, FeedAll, Took, Taken, Rejected;
      n := n0;
      var last := false;
      while !last
        invariant Valid() && remainingCount <= 0 && n0 <= n <= |all| && sock.input == all[n..]
        invariant command == old(command) && first == old(first) && payload == old(payload)
        invariant !last ==> Taken(start, all[..n], InPhase(AtLength))
        invariant last && remainingLength > 0 ==>
                    Taken(start, all[..n], InPhase(AtLength).(count := -remainingCount, phase := AtBody))
        invariant last && remainingLength == 0 ==>
                    Took(start, all[..n], Some(Packet(command, [])), Start(false))
        invariant last ==> remainingCount < 0
        decreases |sock.input|, !last
      {
        var got := sock.Read(1);
        if got == [] {
          return Success, false, n;
        }
        Next(all, n, got);
        assert got == [got[0]];
        TakeByte(start, all[..n], InPhase(AtLength), got[0]);
        n := n + 1;
        rc := CountByte(got[0]);
        if rc == Protocol {
          return Protocol, false, n;
        }
        last := got[0] < 128;
      }
      StartBody();
      return Success, true, n;
    }

    /** The loop over the body, any number of bytes at a time. */
    method ReadBody(sock: Socket, ghost start: Frame, ghost all: seq<Byte>, ghost n0: nat) returns (done: bool,
                                                                                                    ghost n: nat)
      requires Valid() && remainingCount > 0
      requires n0 <= |all| && sock.input == all[n0..] && Taken(start, all[..n0], InPhase(AtBody))
      modifies this`toProcess, this`pos, payload, sock
      ensures n0 <= n <= |all| && sock.input == all[n..]
      ensures !done ==> Valid() && Taken(start, all[..n], InPhase(AtBody))
      ensures done ==> toProcess == 0 && payload != null && payload.Length == remainingLength &&
                       Took(start, all[..n], Some(Packet(command, payload[..])), Start(false))
    {
      hide Feed, FeedAll, Took, Taken, Rejected;
      n := n0;
      while toProcess > 0
        invariant n0 <= n <= |all| && sock.input == all[n..]
        invariant payload != null && payload.Length == remainingLength && pos + toProcess == remainingLength
        invariant toProcess > 0 ==> Taken(start, all[..n], InPhase(AtBody))
        invariant toProcess == 0 ==> Took(start, all[..n], Some(Packet(command, payload[..])), Start(false))
        decreases toProcess
      {
        var got := sock.Read(toProcess);
        if got == [] {
          return false, n;
        }
        Next(all, n, got);
        TakeBody(start, all[..n], InPhase(AtBody), got);
        n := n + |got|;
        TakeBytes(got);
        assert toProcess == 0 ==> payload[..] == payload[..pos];
      }
      return true, n;
    }

    /** Read until a packet is complete or nothing more is there. */
    method PacketRead(sock: Socket) returns (rc: Rc, packet: Option<Packet>, ghost n: nat)
      requires Valid()
      modifies this, payload, sock
      ensures n <= |old(sock.input)| && sock.input == old(sock.input)[n..]
      ensures rc == Success ==> Valid() && Took(old(Now()), old(sock.input)[..n], packet, Now())
      ensures rc == Protocol ==> packet == None && Rejected(old(Now()), old(sock.input)[..n])
      ensures payload == old(payload) || payload == null || fresh(payload)
    {
      ghost var start, all := Now(), sock.input;
      NothingTaken(start, all);
      hide Feed, FeedAll, Took, Taken, Rejected;
      rc, packet, n := Success, None, 0;
      if command == 0 {
        var got := sock.Read(1);
        if got == [] {
          TakeStop(start, all[..0], start, Now());
          return;
        }
        Next(all, 0, got);
        assert got == [got[0]] && [] + got == got;
        TakeByte(start, all[..0], start, got[0]);
        n := 1;
        rc := TakeCommand(got[0]);
        if rc == Protocol {
          return;
        }
      }
      if remainingCount <= 0 {
        var known;
        rc, known, n := ReadLength(sock, start, all, n);
        if rc == Protocol {
          return;
        }
        if !known {
          TakeStop(start, all[..n], InPhase(AtLength), Now());
          return;
        }
      }
      if toProcess > 0 {
        var done;
        done, n := ReadBody(sock, start, all, n);
        if !done {
          TakeStop(start, all[..n], InPhase(AtBody), Now());
          return;
        }
      }
      var p := Finish();
      packet := Some(p);
    }

    // ------------------------------------------------------- the websocket

    /** One turn of the receive loop: up to one packet from `buf`, from `at`
        on. */
    method ReceiveOne(buf: seq<Byte>, at: nat) returns (rc: Rc, packet: Option<Packet>, next: nat)
      requires Valid() && at < |buf|
      modifies this, payload
      ensures at < next <= |buf| && (rc == Success && packet == None ==> next == |buf|)
      ensures rc == Success ==> Valid() && Took(old(Now()), buf[at..next], packet, Now())
      ensures rc == Protocol ==> packet == None && Rejected(old(Now()), buf[at..next])
      ensures payload == old(payload) || payload == null || fresh(payload)
      ensures packet.Some? ==> payload == null && Now() == Start(false)
    {
      ghost var start := Now();
      NothingTaken(start, buf[at..]);
      hide Feed, FeedAll, Took, Taken, Rejected;
      rc, packet, next := Success, None, at;
      if command == 0 {
        TakeNext(start, buf, at, next, start);
        next := next + 1;
        rc := TakeCommand(buf[at]);
        if rc == Protocol {
          return;
        }
      }
      if remainingCount <= 0 {
        var known;
        rc, known, next := CountBytes(start, buf, at, next);
        if rc == Protocol {
          return;
        }
        if !known {
          TakeStop(start, buf[at..next], InPhase(AtLength), Now());
          return;
        }
      }
      if toProcess > 0 {
        var done;
        done, next := CopyBody(start, buf, at, next);
        if !done {
          TakeStop(start, buf[at..next], InPhase(AtBody), Now());
          return;
        }
      }
      var p := Finish();
      packet := Some(p);
    }

    /** As much of the body as the chunk holds. */
    method CopyBody(ghost start: Frame, buf: seq<Byte>, ghost at: nat, from: nat) returns (done: bool, next: nat)
      requires Valid() && remainingCount > 0 && at <= from <= |buf| && Taken(start, buf[at..from], InPhase(AtBody))
      modifies this`toProcess, this`pos, payload
      ensures from <= next <= |buf|
      ensures !done ==> next == |buf| && Valid() && Taken(start, buf[at..next], InPhase(AtBody))
      ensures done ==> from < next && toProcess == 0 && payload != null && payload.Length == remainingLength &&
                       Took(start, buf[at..next], Some(Packet(command, payload[..])), Start(false))
    {
      hide Feed, FeedAll, Took, Taken;
      var take := if |buf| - from >= toProcess then toProcess else |buf| - from;
      next := from + take;
      assert buf[at..from] + buf[from..next] == buf[at..next];
      TakeBody(start, buf[at..from], InPhase(AtBody), buf[from..next]);
      TakeBytes(buf[from..next]);
      done := toProcess == 0;
      if done { assert payload[..] == payload[..pos]; }
    }

    /** The loop over the bytes of the remaining length, inside a chunk. */
    method CountBytes(ghost start: Frame, buf: seq<Byte>, ghost at: nat, from: nat) returns (rc: Rc, known: bool,
                                                                                             next: nat)
      requires Valid() && remainingCount <= 0 && at <= from <= |buf|
      requires Taken(start, buf[at..from], InPhase(AtLength))
      modifies this
      ensures from <= next <= |buf| && command == old(command) && first == old(first)
      ensures payload == old(payload) || payload == null || fresh(payload)
      ensures rc == Success && !known ==> next == |buf|
      ensures rc == Protocol ==> from < next && Rejected(start, buf[at..next])
      ensures rc == Success && !(known && remainingLength == 0) ==> Valid()
      ensures rc == Success && !known ==> Taken(start, buf[at..next], InPhase(AtLength)) && payload == old(payload)
      ensures rc == Success && known && remainingLength > 0 ==>
                from < next && remainingCount > 0 && fresh(payload) && Taken(start, buf[at..next], InPhase(AtBody))
      ensures rc == Success && known && remainingLength == 0 ==>
                from < next && payload == null && toProcess == 0 &&
                Took(start, buf[at..next], Some(Packet(command, [])), Start(false))
    {
      hide Feed, FeedAll, Took, Taken, Rejected;
      next := from;
      var last := false;
      while !last
        invariant Valid() && remainingCount <= 0 && from <= next <= |buf| && (last ==> from < next)
        invariant command == old(command) && first == old(first) && payload == old(payload)
        invariant !last ==> Taken(start, buf[at..next], InPhase(AtLength))
        invariant last && remainingLength > 0 ==>
                    Taken(start, buf[at..next], InPhase(AtLength).(count := -remainingCount, phase := AtBody))
        invariant last && remainingLength == 0 ==>
                    Took(start, buf[at..next], Some(Packet(command, [])), Start(false))
        invariant last ==> remainingCount < 0
        decreases |buf| - next, !last
      {
        if next == |buf| {
          return Success, false, next;
        }
        TakeNext(start, buf, at, next, InPhase(AtLength));
        next := next + 1;
        rc := CountByte(buf[next - 1]);
        if rc == Protocol {
          return Protocol, false, next;
        }
        last := buf[next - 1] < 128;
      }
      StartBody();
      return Success, true, next;
    }

    /** A chunk: all the packets it completes. */
    method Receive(buf: seq<Byte>) returns (packets: seq<Packet>, rc: Rc)
      requires Valid()
      modifies this, payload
      ensures var o := FeedAll(old(Now()), buf);
              packets == o.packets && (rc == Protocol <==> o.bad) &&
              (rc == Success ==> Valid() && Now() == Resume(o.frame))
    {
      ghost var start := Now();
      packets, rc := [], Success;
      var at := 0;
      EmptyFeed(start);
      hide Feed, FeedAll;
      while at < |buf|
        invariant Valid() && rc == Success && at <= |buf|
        invariant var o := FeedAll(start, buf[..at]); o.packets == packets && !o.bad && Now() == Resume(o.frame)
        invariant at < |buf| ==> FeedAll(start, buf[..at]).frame == Now()
        invariant payload == old(payload) || payload == null || fresh(payload)
        decreases |buf| - at
      {
        var packet, next;
        ghost var f := Now();
        rc, packet, next := ReceiveOne(buf, at);
        assert buf[..next] == buf[..at] + buf[at..next];
        FeedConcat(start, buf[..at], buf[at..next]);
        if packet.Some? {
          packets := packets + [packet.value];
        }
        at := next;
        if rc == Protocol {
          assert buf == buf[..next] + buf[next..];
          FeedConcat(start, buf[..next], buf[next..]);
          return;
        }
      }
      assert buf[..at] == buf;
    }
  }

  lemma NothingTaken(start: Frame, all: seq<Byte>)
    ensures Taken(start, [], start) && all[..0] == []
  {
  }

  lemma TakeNext(start: Frame, buf: seq<Byte>, at: nat, next: nat, f: Frame)
    requires at <= next < |buf| && Taken(start, buf[at..next], f)
    ensures match Feed(f, buf[next])
            case Bad => Rejected(start, buf[at..next + 1])
            case More(g) => Taken(start, buf[at..next + 1], g)
            case Done(p, g) => Took(start, buf[at..next + 1], Some(p), Resume(g))
  {
    hide Feed, Took, Taken, Rejected;
    assert buf[at..next] + [buf[next]] == buf[at..next + 1];
    TakeByte(start, buf[at..next], f, buf[next]);
  }

  lemma Next(all: seq<Byte>, n: nat, got: seq<Byte>)
    requires n <= |all| && got <= all[n..]
    ensures all[..n] + got == all[..n + |got|] && all[n..][|got|..] == all[n + |got|..]
  {
  }
}