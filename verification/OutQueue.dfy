/** The queue of outgoing packets: one partly written, a linked list behind it. */
module OutQueue {
  import opened Common
  import opened Framing
  import Wire

  const DISCONNECT := 0xE0

  // ------------------------------------------------------------ as a value

  datatype Part = Part(payload: seq<Byte>, pos: nat)

  /** `wire` is what the transport took. The client library closes the
      connection behind a DISCONNECT; the broker never sends one. */
  datatype Out = Out(open: bool, wire: seq<Byte>, current: Option<Part>, list: seq<seq<Byte>>)

  function Empty(): Out {
    Out(true, [], None, [])
  }

  /** The next packet of the list becomes the current one. */
  function Next(o: Out): Out {
    if o.list == [] then o.(current := None) else o.(current := Some(Part(o.list[0], 0)), list := o.list[1..])
  }

  function Closes(payload: seq<Byte>): bool {
    payload != [] && payload[0] / 16 == DISCONNECT / 16
  }

  /** The transport takes `n` more bytes of the current packet. */
  function Advance(o: Out, n: nat): Out
    requires o.current.Some? && o.current.value.pos + n <= |o.current.value.payload|
  {
    var c := o.current.value;
    o.(wire := o.wire + c.payload[c.pos..c.pos + n], current := Some(Part(c.payload, c.pos + n)))
  }

  /** The write loop; `takes` says how much the transport takes each time. It
      ends when the transport takes nothing. */
  function WriteLoop(o: Out, takes: seq<nat>): Out
    decreases |takes|, |o.list|, if o.current.Some? then 1 else 0
  {
    if o.current == None then o
    else
      var c := o.current.value;
      if c.pos < |c.payload| then
        if takes == [] || takes[0] == 0 then o
        else
          var n := if takes[0] < |c.payload| - c.pos then takes[0] else |c.payload| - c.pos;
          WriteLoop(Advance(o, n), takes[1..])
      else if Closes(c.payload) then Next(o).(open := false)
      else WriteLoop(Next(o), takes)
  }

  /** A write, whether it is due to a new packet or to a ready socket. Before
      the connection stands nothing is written. */
  function Write(o: Out, standing: bool, takes: seq<nat>): Out {
    if !o.open then o
    else
      var o' := if o.current == None then Next(o) else o;
      if standing then WriteLoop(o', takes) else o'
  }

  /** A new packet goes behind the list; only a library in a callback or with
      a thread of its own leaves the writing for later. */
  function Queue(o: Out, payload: seq<Byte>, later: bool, standing: bool, takes: seq<nat>): Out {
    var o' := o.(list := o.list + [payload]);
    if later then o' else Write(o', standing, takes)
  }

  function Concat(list: seq<seq<Byte>>): seq<Byte> {
    if list == [] then [] else list[0] + Concat(list[1..])
  }

  /** What is still to be written. */
  function Unsent(o: Out): seq<Byte> {
    (if o.current.Some? && o.current.value.pos <= |o.current.value.payload|
     then o.current.value.payload[o.current.value.pos..] else [])
    + Concat(o.list)
  }

  // ------------------------------------------------------------ conservation

  predicate Fine(o: Out) {
    o.current.Some? ==> o.current.value.pos <= |o.current.value.payload|
  }

  lemma NextKeeps(o: Out)
    requires o.current.Some? ==> o.current.value.pos == |o.current.value.payload|
    ensures Fine(Next(o)) && Next(o).wire == o.wire && Unsent(Next(o)) == Unsent(o)
  {
    if o.current.Some? { assert o.current.value.payload[o.current.value.pos..] == []; }
    if o.list != [] { assert o.list[0][0..] == o.list[0]; }
  }

  lemma AdvanceKeeps(o: Out, n: nat)
    requires o.current.Some? && o.current.value.pos + n <= |o.current.value.payload|
    ensures Fine(Advance(o, n)) && Advance(o, n).wire + Unsent(Advance(o, n)) == o.wire + Unsent(o)
    ensures Advance(o, n).list == o.list
  {
    var c, rest := o.current.value, Concat(o.list);
    var bytes, left := c.payload[c.pos..c.pos + n], c.payload[c.pos + n..];
    assert c.payload[c.pos..] == bytes + left;
    hide Concat;
    assert (o.wire + bytes) + (left + rest) == o.wire + ((bytes + left) + rest);
  }

  lemma NextShorter(o: Out)
    requires o.current.Some?
    ensures Next(o).current.Some? ==> |Next(o).list| < |o.list|
    ensures Next(o).current == None ==> Next(o).list == o.list
  {
  }

  lemma ClosedSame(o: Out)
    ensures Unsent(o.(open := false)) == Unsent(o)
  {
  }

  lemma {:induction false} WriteLoopKeeps(o: Out, takes: seq<nat>)
    requires Fine(o)
    ensures var o' := WriteLoop(o, takes); Fine(o') && o'.wire + Unsent(o') == o.wire + Unsent(o)
    decreases |takes|, |o.list|, if o.current.Some? then 1 else 0
  {
    hide Unsent, Advance, Next;
    if o.current.Some? {
      var c := o.current.value;
      if c.pos < |c.payload| {
        if takes != [] && takes[0] > 0 {
          var n := if takes[0] < |c.payload| - c.pos then takes[0] else |c.payload| - c.pos;
          AdvanceKeeps(o, n);
          WriteLoopKeeps(Advance(o, n), takes[1..]);
        }
      } else {
        NextKeeps(o);
        NextShorter(o);
        ClosedSame(Next(o));
        if !Closes(c.payload) { WriteLoopKeeps(Next(o), takes); }
      }
    }
  }

  lemma WriteKeeps(o: Out, standing: bool, takes: seq<nat>)
    requires Fine(o)
    ensures var o' := Write(o, standing, takes); Fine(o') && o'.wire + Unsent(o') == o.wire + Unsent(o)
  {
    if o.open {
      var o1 := if o.current == None then Next(o) else o;
      if o.current == None { NextKeeps(o); }
      WriteLoopKeeps(o1, takes);
    }
  }

  lemma {:induction false} ConcatAppend(list: seq<seq<Byte>>, payload: seq<Byte>)
    ensures Concat(list + [payload]) == Concat(list) + payload
  {
    if list == [] {
      assert list + [payload] == [payload] && [payload][1..] == [];
    } else {
      assert (list + [payload])[1..] == list[1..] + [payload];
      ConcatAppend(list[1..], payload);
    }
  }

  datatype Op = Send(payload: seq<Byte>, later: bool, standing: bool, takes: seq<nat>) | Ready(standing: bool,
                                                                                               takes: seq<nat>)

  function Step(o: Out, op: Op): Out {
    match op
    case Send(payload, later, standing, takes) => Queue(o, payload, later, standing, takes)
    case Ready(standing, takes) => Write(o, standing, takes)
  }

  function Run(ops: seq<Op>): Out {
    if ops == [] then Empty() else Step(Run(ops[..|ops| - 1]), ops[|ops| - 1])
  }

  /** Everything that was sent, in the order of sending. */
  function Sent(ops: seq<Op>): seq<seq<Byte>> {
    if ops == [] then []
    else
      var last := ops[|ops| - 1];
      Sent(ops[..|ops| - 1]) + if last.Send? then [last.payload] else []
  }

  /** Output conservation: for every pattern of short writes, the bytes written
      and those still waiting are the packets sent, in order. */
  lemma {:induction false} OutputConserved(ops: seq<Op>)
    ensures var o := Run(ops); Fine(o) && o.wire + Unsent(o) == Concat(Sent(ops))
  {
    if ops != [] {
      var before, last := ops[..|ops| - 1], ops[|ops| - 1];
      OutputConserved(before);
      var o := Run(before);
      match last
      case Send(payload, later, standing, takes) =>
        var o1 := o.(list := o.list + [payload]);
        ConcatAppend(o.list, payload);
        ConcatAppend(Sent(before), payload);
        assert Unsent(o1) == Unsent(o) + payload;
        WriteKeeps(o1, standing, takes);
        assert o1.wire + Unsent(o1) == (o.wire + Unsent(o)) + payload;
      case Ready(standing, takes) =>
        WriteKeeps(o, standing, takes);
        assert Sent(before) + [] == Sent(before);
    }
  }

  /** The write loop makes `k` writes of at least a byte each and ends with
      nothing left, with the connection closed, or refused by the transport. */
  lemma {:induction false} LoopEnds(o: Out, takes: seq<nat>) returns (k: nat)
    requires o.current == None ==> o.list == []
    ensures k <= |takes| && (forall i :: 0 <= i < k ==> takes[i] > 0) && WriteLoop(o, takes) == WriteLoop(o, takes[..k])
    ensures var o' := WriteLoop(o, takes);
            (o'.current == None ==> o'.list == []) &&
            (o'.current.Some? && o'.open && o.open ==>
               o'.current.value.pos < |o'.current.value.payload| && (k == |takes| || takes[k] == 0))
    decreases |takes|, |o.list|, if o.current.Some? then 1 else 0
  {
    k := 0;
    if o.current.Some? {
      var c := o.current.value;
      if c.pos < |c.payload| {
        if takes != [] && takes[0] > 0 {
          var n := if takes[0] < |c.payload| - c.pos then takes[0] else |c.payload| - c.pos;
          k := LoopEnds(Advance(o, n), takes[1..]);
          k := k + 1;
          assert takes[..k][1..] == takes[1..][..k - 1];
        }
      } else if !Closes(c.payload) {
        k := LoopEnds(Next(o), takes);
      }
    }
  }

  /** Over every run, a write on an open, standing connection leaves something
      unsent only if the transport refused to take any more, and no packet waits
      behind an empty current place. */
  lemma DrainedOrRefused(ops: seq<Op>, takes: seq<nat>) returns (k: nat)
    requires Run(ops).open
    ensures k <= |takes| && forall i :: 0 <= i < k ==> takes[i] > 0
    ensures var o := Run(ops + [Ready(true, takes)]);
            o == Run(ops + [Ready(true, takes[..k])]) &&
            (o.open ==> if o.current == None then o.list == [] && Unsent(o) == []
                        else Unsent(o) != [] && (k == |takes| || takes[k] == 0))
  {
    RunNext(ops, Ready(true, takes));
    var o := Run(ops);
    k := LoopEnds(if o.current == None then Next(o) else o, takes);
    RunNext(ops, Ready(true, takes[..k]));
    hide Run;
  }

  lemma RunNext(ops: seq<Op>, op: Op)
    ensures Run(ops + [op]) == Step(Run(ops), op)
  {
    assert (ops + [op])[..|ops|] == ops;
  }

  // -------------------------------------------- what the other side will see

  function FramedAll(packets: seq<Packet>): seq<seq<Byte>> {
    if packets == [] then []
    else [Wire.Framed(packets[0].command, |packets[0].body|, packets[0].body)] + FramedAll(packets[1..])
  }

  predicate Writable(packets: seq<Packet>) {
    forall p :: p in packets ==> |p.body| <= Wire.LARGEST
  }

  /** Any beginning of the stream of packets is framed as the first ones of
      them, with at most part of the next behind. */
  lemma {:induction false} PrefixFrames(packets: seq<Packet>, s: seq<Byte>)
    requires Writable(packets) && s <= Concat(FramedAll(packets))
    ensures OneShot(false, s).packets <= packets && !OneShot(false, s).bad
    decreases |packets|
  {
    hide OneShot, Concat, FramedAll, Wire.Framed;
    NothingFramed(packets);
    if packets != [] && s != [] {
      var p := packets[0];
      assert p in packets && forall q :: q in packets[1..] ==> q in packets;
      var f, rest := Wire.Framed(p.command, |p.body|, p.body), Concat(FramedAll(packets[1..]));
      if |s| < |f| {
        assert s == f[..|s|];
        ShortFrame(p, |s|);
      } else {
        var more := s[|f|..];
        assert s == f + more && more <= rest;
        Wire.FramedBack(p.command, p.body, more);
        PrefixFrames(packets[1..], more);
      }
    }
  }

  lemma NothingFramed(packets: seq<Packet>)
    ensures OneShot(false, []) == Parse([], [], false)
    ensures Concat(FramedAll(packets)) ==
            if packets == [] then []
            else Wire.Framed(packets[0].command, |packets[0].body|, packets[0].body) + Concat(FramedAll(packets[1..]))
  {
    hide Wire.Framed;
    if packets != [] {
      var f := Wire.Framed(packets[0].command, |packets[0].body|, packets[0].body);
      assert ([f] + FramedAll(packets[1..]))[1..] == FramedAll(packets[1..]);
    }
  }

  lemma ShortFrame(p: Packet, k: nat)
    requires |p.body| <= Wire.LARGEST && 0 < k < |Wire.Framed(p.command, |p.body|, p.body)|
    ensures var o := OneShot(false, Wire.Framed(p.command, |p.body|, p.body)[..k]); o.packets == [] && !o.bad
  {
    var len := Wire.EncodeLength(|p.body|);
    var s := Wire.Framed(p.command, |p.body|, p.body)[..k];
    Wire.LengthRoundTrip(|p.body|, []);
    if k <= |len| {
      assert s[1..] == len[..k - 1];
      ShortLength(|p.body|, k - 1, 0);
    } else {
      var more := p.body[..k - 1 - |len|];
      assert s[1..] == len + more;
      Wire.LengthRoundTrip(|p.body|, more);
    }
  }

  lemma {:induction false} ShortLength(n: nat, k: nat, seen: nat)
    requires k < |Wire.EncodeLength(n)| <= 4 - seen
    ensures DecodeLength(Wire.EncodeLength(n)[..k], seen) == Short
    decreases n
  {
    var s := Wire.EncodeLength(n)[..k];
    if k > 0 {
      assert s[1..] == Wire.EncodeLength(n / 128)[..k - 1];
      ShortLength(n / 128, k - 1, seen + 1);
    }
  }

  /** However the transport cuts the writes, the other side can only ever see
      the packets that were sent, in order, and never a broken one. */
  lemma WireFrames(ops: seq<Op>, packets: seq<Packet>)
    requires Writable(packets) && Sent(ops) == FramedAll(packets)
    ensures OneShot(false, Run(ops).wire).packets <= packets && !OneShot(false, Run(ops).wire).bad
  {
    OutputConserved(ops);
    hide Run, Unsent, OneShot;
    PrefixFrames(packets, Run(ops).wire);
  }

  // -------------------------------------------------------------- as a list

  class OutPacket {
    const payload: seq<Byte>
    var pos: nat
    var toProcess: nat
    var next: OutPacket?

    constructor (payload: seq<Byte>)
      ensures this.payload == payload && pos == 0 && toProcess == 0 && next == null
    {
      this.payload := payload;
      pos, toProcess, next := 0, 0, null;
    }
  }

  /** What a write call meets: each time it is offered bytes it takes as many
      as the script says, at most all; at the end it takes nothing more. */
  class Transport {
    var wire: seq<Byte>
    var takes: seq<nat>

    method Write(bytes: seq<Byte>) returns (n: nat)
      requires bytes != []
      modifies this
      ensures if old(takes) == [] || old(takes)[0] == 0 then n == 0 && wire == old(wire) && takes == old(takes)
              else n == (if old(takes)[0] < |bytes| then old(takes)[0] else |bytes|) &&
                   wire == old(wire) + bytes[..n] &&
                   takes == old(takes)[1..]
    {
      if takes == [] || takes[0] == 0 {
        return 0;
      }
      n := if takes[0] < |bytes| then takes[0] else |bytes|;
      wire := wire + bytes[..n];
      takes := takes[1..];
    }
  }

  class Connection {
    var open: bool
    var standing: bool
    var current: OutPacket?
    var outPacket: OutPacket?
    var outPacketLast: OutPacket?

    ghost var nodes: seq<OutPacket>

    ghost function NodeOr(i: nat): OutPacket?
      reads this`nodes
    {
      if i < |nodes| then nodes[i] else null
    }

    ghost predicate Chained()
      reads this`nodes, this`outPacket, this`outPacketLast, nodes`next
    {
      (forall i, j :: 0 <= i < j < |nodes| ==> nodes[i] != nodes[j]) &&
      outPacket == NodeOr(0) && (nodes != [] ==> outPacketLast == nodes[|nodes| - 1]) &&
      forall i {:trigger nodes[i].next} :: 0 <= i < |nodes| ==> nodes[i].next == NodeOr(i + 1)
    }

    ghost predicate Valid()
      reads this, nodes, current
    {
      Chained() && current !in nodes &&
      (current != null ==> current.pos + current.toProcess == |current.payload|) &&
      forall i {:trigger nodes[i].pos} {:trigger nodes[i].toProcess} :: 0 <= i < |nodes| ==>
        nodes[i].pos == 0 && nodes[i].toProcess == |nodes[i].payload|
    }

    ghost function Now(wire: seq<Byte>): Out
      reads this, nodes, current
    {
      Out(open, wire, if current == null then None else Some(Part(current.payload, current.pos)), Payloads(nodes))
    }

    constructor ()
      ensures Valid() && Now([]) == Empty() && standing
    {
      open, standing := true, true;
      current, outPacket, outPacketLast := null, null, null;
      nodes := [];
    }

    /** The head of the list, if any, becomes the current packet. */
    method TakeNext()
      requires Valid()
      modifies this`current, this`outPacket, this`outPacketLast, this`nodes
      ensures Valid() && forall wire :: Now(wire) == Next(old(Now(wire)))
      ensures open == old(open)
      ensures current == (if old(nodes) == [] then null else old(nodes)[0])
      ensures nodes == (if old(nodes) == [] then [] else old(nodes)[1..])
    {
      current := outPacket;
      if outPacket != null {
        outPacket := outPacket.next;
        if outPacket == null {
          outPacketLast := null;
        }
        nodes := nodes[1..];
      }
    }

    method Append(packet: OutPacket)
      requires Valid() && packet !in nodes && packet != current
      modifies this`outPacket, this`outPacketLast, this`nodes, nodes`next, packet
      ensures Valid() && nodes == old(nodes) + [packet]
      ensures current == old(current) && open == old(open)
      ensures forall wire :: Now(wire) == old(Now(wire)).(list := old(Now(wire)).list + [packet.payload])
    {
      hide Payloads;
      packet.pos := 0;
      packet.toProcess := |packet.payload|;
      packet.next := null;
      LinkTail(packet);
      PayloadsAppend(old(nodes), packet);
    }

    method LinkTail(packet: OutPacket)
      requires Chained() && packet !in nodes && packet.next == null
      modifies this`outPacket, this`outPacketLast, this`nodes, nodes`next
      ensures Chained() && nodes == old(nodes) + [packet]
    {
      if outPacket != null {
        outPacketLast.next := packet;
      } else {
        outPacket := packet;
      }
      outPacketLast := packet;
      nodes := nodes + [packet];
    }

    method PacketQueue(packet: OutPacket, later: bool, t: Transport)
      requires Valid() && packet !in nodes && packet != current
      modifies this, nodes, current, packet, t
      ensures Valid() && Now(t.wire) == Queue(old(Now(t.wire)), packet.payload, later, standing, old(t.takes))
      ensures standing == old(standing)
    {
      hide Write, Payloads;
      Append(packet);
      if !later {
        PacketWrite(t);
      }
    }

    /** Write as much as the transport takes. */
    method PacketWrite(t: Transport)
      requires Valid()
      modifies this, nodes, current, t
      ensures Valid() && Now(t.wire) == Write(old(Now(t.wire)), standing, old(t.takes))
      ensures standing == old(standing)
    {
      if !open {
        return;
      }
      if outPacket != null && current == null {
        TakeNext();
      }
      if !standing {
        return;
      }
      ghost var goal := WriteLoop(Now(t.wire), t.takes);
      ghost var done := false;
      while current != null
        invariant Valid() && WriteLoop(Now(t.wire), t.takes) == goal && standing
        invariant forall n :: n in nodes ==> n in old(nodes)
        invariant current == null || current == old(current) || current in old(nodes)
        decreases |t.takes|, |nodes|, current != null
      {
        var stop := WriteStep(t);
        if stop {
          return;
        }
      }
    }

    /** One turn of the loop: offer the rest of the current packet, or go on to
        the next. */
    method WriteStep(t: Transport) returns (stop: bool)
      requires Valid() && current != null
      modifies this, current, t
      ensures Valid() && standing == old(standing)
      ensures current == old(current) || current == null || current in old(nodes)
      ensures forall n :: n in nodes ==> n in old(nodes)
      ensures if stop then Now(t.wire) == WriteLoop(old(Now(t.wire)), old(t.takes))
              else WriteLoop(Now(t.wire), t.takes) == WriteLoop(old(Now(t.wire)), old(t.takes)) &&
                   (|t.takes| < |old(t.takes)| ||
                    (t.takes == old(t.takes) && (|nodes| < |old(nodes)| || (nodes == old(nodes) && current == null))))
    {
      hide Payloads;
      var packet := current;
      if packet.toProcess > 0 {
        var n := t.Write(packet.payload[packet.pos..]);
        if n == 0 {
          return true;
        }
        assert packet.payload[packet.pos..][..n] == packet.payload[packet.pos..packet.pos + n];
        packet.toProcess := packet.toProcess - n;
        packet.pos := packet.pos + n;
        stop := false;
      } else {
        stop := Closes(packet.payload);
        TakeNext();
        if stop {
          open := false;
        }
      }
    }
  }

  ghost function Payloads(nodes: seq<OutPacket>): (r: seq<seq<Byte>>)
    ensures |r| == |nodes| && forall i :: 0 <= i < |r| ==> r[i] == nodes[i].payload
  {
    if nodes == [] then [] else [nodes[0].payload] + Payloads(nodes[1..])
  }

  lemma PayloadsAppend(nodes: seq<OutPacket>, packet: OutPacket)
    ensures Payloads(nodes + [packet]) == Payloads(nodes) + [packet.payload]
  {
  }
}
