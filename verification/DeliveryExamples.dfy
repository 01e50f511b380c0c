/** Small runs of the broker, from its start, at which something unexpected happens
    to a message. */
module DeliveryExamples {
  import opened Common
  import opened ClientQueue
  import opened MsgStore
  import opened BrokerStore
  import QueueLaws

  /** The smallest leak: with one message in flight and one waiting, the third
      QoS 2 message stays in the store with nothing pointing at it. */
  lemma LeakedThird(cfg: Config)
    ensures var u := Setup(Limits(1, 1), cfg);
            var b := Run(u, [Join("c"), Arrival(1), Arrival(2), Arrival(3)]);
            b.leaked == {3} && 3 in b.stores && b.stores[3].refCount == 0 && |b.clients| == 1 &&
            |b.clients[0].msgs| == 2
  {
    hide *;
    var u, none := Setup(Limits(1, 1), cfg), [];
    var m1, m2 := ClientMsg(1, 1, 2, false, In, WaitForPubrel, false), ClientMsg(2, 2, 2, false, In, Queued, false);
    var ops0, ops1 := none + [Join("c")], none + [Join("c")] + [Arrival(1)];
    var ops2 := ops1 + [Arrival(2)];
    Joined(u);
    CountTwo(m1, m2);
    AdmitOne(u);
    RunNext(u, ops0, Arrival(1));
    ArrivalTaken(u, Run(u, ops0), [], 1, m1);
    RunNext(u, ops1, Arrival(2));
    assert [] + [m1] == [m1] && [m1] + [m2] == [m1, m2];
    ArrivalTaken(u, Run(u, ops1), [m1], 2, m2);
    RunNext(u, ops2, Arrival(3));
    ArrivalRefused(u, Run(u, ops2), [m1, m2], 3);
    HoldingList(Run(u, ops2), [m1, m2], 2);
    assert ops2 + [Arrival(3)] == [Join("c"), Arrival(1), Arrival(2), Arrival(3)];
  }

  lemma AdmitOne(u: Setup)
    requires u.lim == Limits(1, 1)
    ensures Admit(u.lim, u.cfg, true, 0, In, 2) == Accept(WaitForPubrel, 0)
    ensures Admit(u.lim, u.cfg, true, 1, In, 2) == Accept(Queued, 2)
    ensures Admit(u.lim, u.cfg, true, 2, In, 2) == Refuse(2)
  {
  }

  lemma HoldingList(b: Broker, msgs: seq<ClientMsg>, last: nat)
    requires Holding(b, msgs, last)
    ensures |b.clients| == 1 && b.clients[0].msgs == msgs
  {
  }

  lemma Joined(u: Setup)
    ensures Holding(Run(u, [] + [Join("c")]), [], 0)
  {
    RunNext(u, [], Join("c"));
  }

  /** One connected client with these entries, all of them arrivals. */
  predicate Holding(b: Broker, msgs: seq<ClientMsg>, last: nat) {
    b.clients == [Session("c", true, 0, msgs)] && b.lastDbId == last && b.leaked == {} &&
    forall m :: m in msgs ==> m.store in b.stores && m.store <= last && b.stores[m.store].sourceMid == m.mid
  }

  lemma CountTwo(m1: ClientMsg, m2: ClientMsg)
    requires m1.qos > 0 && m2.qos > 0
    ensures Count12([]) == 0 && Count12([m1]) == 1 && Count12([m1, m2]) == 2
  {
    assert [m1][1..] == [] && [m1, m2][1..] == [m2] && [m2][1..] == [];
  }

  lemma {:induction false} OthersArrived(msgs: seq<ClientMsg>, stores: Stores, mid: Mid)
    requires forall m :: m in msgs ==> m.store in stores && stores[m.store].sourceMid != mid
    ensures FindIncoming(msgs, stores, mid) == None
  {
    if msgs != [] { OthersArrived(msgs[1..], stores, mid); }
  }

  function Arrival(mid: Mid): Op {
    ArriveQos2(0, mid, Some("t"), false, true)
  }

  lemma ArrivalTaken(u: Setup, b: Broker, msgs: seq<ClientMsg>, mid: Mid, m: ClientMsg)
    requires mid > 0 && Holding(b, msgs, mid - 1) && forall n :: n in msgs ==> n.mid != mid
    requires var v := Admit(u.lim, u.cfg, true, Count12(msgs), In, 2);
             v.Accept? && m == ClientMsg(mid, mid, 2, false, In, v.state, false)
    ensures Holding(Step(u, b, Arrival(mid)), msgs + [m], mid)
  {
    OthersArrived(msgs, b.stores, mid);
    hide FindIncoming, Count12, Admit;
  }

  lemma ArrivalRefused(u: Setup, b: Broker, msgs: seq<ClientMsg>, mid: Mid)
    requires mid > 0 && Holding(b, msgs, mid - 1) && forall n :: n in msgs ==> n.mid != mid
    requires Admit(u.lim, u.cfg, true, Count12(msgs), In, 2).Refuse?
    ensures var b' := Step(u, b, Arrival(mid));
            b'.clients == b.clients && b'.leaked == {mid} && mid in b'.stores && b'.stores[mid].refCount == 0
  {
    OthersArrived(msgs, b.stores, mid);
    hide FindIncoming, Count12, Admit;
  }

  lemma RunNext(u: Setup, ops: seq<Op>, op: Op)
    ensures Run(u, ops + [op]) == Step(u, Run(u, ops), op)
  {
    assert (ops + [op])[..|ops|] == ops;
  }

  /** The id of a QoS 2 message that waits, used by a retained QoS 1 message on
      another topic: the slot takes the waiting message. */
  lemma ReusedId(cfg: Config, topic: string, other: string)
    ensures var u := Setup(Limits(0, 0), cfg);
            var b := Run(u, [Join("c"), NewSlot, ArriveQos2(0, 1, Some(topic), false, true),
                             Arrive(0, 1, 1, other, true, true, [Keep(0)])]);
            b.slots == [Some(1)] && 1 in b.stores && b.stores[1].topic == Some(topic)
  {
    var u, none := Setup(Limits(0, 0), cfg), [];
    var ops1 := none + [Join("c")] + [NewSlot];
    var ops2 := ops1 + [ArriveQos2(0, 1, Some(topic), false, true)];
    var last := Arrive(0, 1, 1, other, true, true, [Keep(0)]);
    assert ops2 + [last] == [Join("c"), NewSlot, ArriveQos2(0, 1, Some(topic), false, true), last];
    RunNext(u, none, Join("c"));
    RunNext(u, none + [Join("c")], NewSlot);
    RunNext(u, ops1, ArriveQos2(0, 1, Some(topic), false, true));
    RunNext(u, ops2, last);
    assert Run(u, none) == Broker(map[], 0, [], [], {}, []);
    hide Run;
    WaitsOne(u, Run(u, ops1), topic);
    KeepsOther(u, Run(u, ops2), other, topic, 1, 0);
  }

  lemma WaitsOne(u: Setup, b: Broker, topic: string)
    requires u.lim == Limits(0, 0) && b.stores == map[] && b.lastDbId == 0 && b.clients == [Session("c", true, 0, [])]
    ensures var b' := Step(u, b, ArriveQos2(0, 1, Some(topic), false, true));
            b'.clients == [Session("c", true, 0, [ClientMsg(1, 1, 2, false, In, WaitForPubrel, false)])] &&
            b'.slots == b.slots && b'.stores == map[1 := Store(1, "c", 1, Some(topic), 2, false, true, [])]
  {
    var m := ClientMsg(1, 1, 2, false, In, WaitForPubrel, false);
    assert [] + [m] == [m];
  }

  lemma KeepsOther(u: Setup, b: Broker, other: string, topic: string, n: nat, slot: nat)
    requires n > 0 && slot < |b.slots| && b.slots[slot] == None
    requires b.clients == [Session("c", true, 0, [ClientMsg(1, 1, 2, false, In, WaitForPubrel, false)])]
    requires b.stores == map[1 := Store(n, "c", 1, Some(topic), 2, false, true, [])]
    ensures var b' := Step(u, b, Arrive(0, 1, 1, other, true, true, [Keep(slot)]));
            b'.clients == b.clients && b'.slots == b.slots[slot := Some(1)] &&
            b'.stores == map[1 := Store(n + 1, "c", 1, Some(topic), 2, false, true, [])]
  {
    var s := Store(n, "c", 1, Some(topic), 2, false, true, []);
    var b1 := Protect(b, 1);
    assert b1.stores == map[1 := s.(refCount := n + 1)];
    var b2 := SetSlot(b1, slot, 1);
    assert b2.stores == map[1 := s.(refCount := n + 2)];
    assert [Keep(slot)][1..] == [];
    assert DoWorks(u, b1, 1, 1, [Keep(slot)]) == DoWorks(u, b2, 1, 1, []) == b2;
    assert Deref(b2.stores, 1) == map[1 := s.(refCount := n + 1)];
    assert FindIncoming(b.clients[0].msgs, b.stores, 1) == Some(1);
  }

  /** Two slots hold a message that waits in no queue any more: the id was used
      twice before the PUBREL that lets it go. */
  lemma ReusedTwice(cfg: Config, topic: string, one: string, two: string)
    ensures var u := Setup(Limits(0, 0), cfg);
            var b := Run(u, [Join("c"), NewSlot, NewSlot, ArriveQos2(0, 1, Some(topic), false, true),
                             Arrive(0, 1, 1, one, true, true, [Keep(0)]), Arrive(0, 1, 1, two, true, true, [Keep(1)]),
                             Release(0, 1, [[]])]);
            b.slots == [Some(1), Some(1)] && b.clients == [Session("c", true, 0, [])] && 1 in b.stores &&
            b.stores[1].topic == Some(topic) && b.stores[1].refCount == 2
  {
    hide *;
    var u, none := Setup(Limits(0, 0), cfg), [];
    var first, second := Arrive(0, 1, 1, one, true, true, [Keep(0)]), Arrive(0, 1, 1, two, true, true, [Keep(1)]);
    var ops1 := none + [Join("c")] + [NewSlot] + [NewSlot];
    var ops2 := ops1 + [ArriveQos2(0, 1, Some(topic), false, true)];
    var ops4 := ops2 + [first] + [second];
    assert ops4 + [Release(0, 1, [[]])] ==
           [Join("c"), NewSlot, NewSlot, ArriveQos2(0, 1, Some(topic), false, true), first, second,
            Release(0, 1, [[]])];
    RunNext(u, ops1, ArriveQos2(0, 1, Some(topic), false, true));
    RunNext(u, ops2, first);
    RunNext(u, ops2 + [first], second);
    RunNext(u, ops4, Release(0, 1, [[]]));
    TwoJoined(u);
    WaitsOne(u, Run(u, ops1), topic);
    KeepsOther(u, Run(u, ops2), one, topic, 1, 0);
    KeepsOther(u, Run(u, ops2 + [first]), two, topic, 2, 1);
    LetsGo(u, Run(u, ops4), topic, 3);
  }

  lemma TwoJoined(u: Setup)
    ensures var b := Run(u, [] + [Join("c")] + [NewSlot] + [NewSlot]);
            b == Broker(map[], 0, [Session("c", true, 0, [])], [None, None], {}, [])
  {
    var none: seq<Op> := [];
    RunNext(u, none, Join("c"));
    RunNext(u, none + [Join("c")], NewSlot);
    RunNext(u, none + [Join("c")] + [NewSlot], NewSlot);
  }

  lemma LetsGo(u: Setup, b: Broker, topic: string, n: nat)
    requires u.lim == Limits(0, 0) && n > 1
    requires b.clients == [Session("c", true, 0, [ClientMsg(1, 1, 2, false, In, WaitForPubrel, false)])]
    requires b.stores == map[1 := Store(n, "c", 1, Some(topic), 2, false, true, [])]
    ensures var b' := Step(u, b, Release(0, 1, [[]]));
            b'.clients == [Session("c", true, 0, [])] && b'.slots == b.slots && 1 in b'.stores &&
            b'.stores[1] == Store(n - 1, "c", 1, Some(topic), 2, false, true, [])
  {
    var m := ClientMsg(1, 1, 2, false, In, WaitForPubrel, false);
    assert b.clients[0].msgs[0 := m] == [m] && DropAt([m], 0) == [];
  }

  // ------------------------------------------------- one too many in flight

  function Copied(mid: Mid): Op {
    Arrive(0, mid, 1, "t", false, true, [Copy(0, 1)])
  }

  function Waits(mid: Mid, state: MsgState): ClientMsg {
    ClientMsg(mid, mid, 1, false, Out, state, false)
  }

  /** With one message in flight allowed, three for a client, and the first
      written and acknowledged, both of the others are started. */
  lemma StartsTwo(cfg: Config)
    ensures var u := Setup(Limits(1, 0), cfg);
            var b := Run(u, [Join("c"), Copied(1), Copied(2), Copied(3), Write(0, 1), Acknowledged(0, 1)]);
            |b.clients| == 1 && b.clients[0].msgs == [Waits(2, PublishQos1), Waits(3, PublishQos1)] &&
            QueueLaws.Active(b.clients[0].msgs) == 2 > u.lim.inflight
  {
    var u, none := Setup(Limits(1, 0), cfg), [];
    var m1, m2, m3 := Waits(1, PublishQos1), Waits(2, Queued), Waits(3, Queued);
    var ops1 := none + [Join("c")] + [Copied(1)];
    var ops3 := ops1 + [Copied(2)] + [Copied(3)];
    var ops4 := ops3 + [Write(0, 1)];
    assert ops4 + [Acknowledged(0, 1)] == [Join("c"), Copied(1), Copied(2), Copied(3), Write(0, 1), Acknowledged(0, 1)];
    assert [] + [m1] == [m1] && [m1] + [m2] == [m1, m2] && [m1, m2] + [m3] == [m1, m2, m3];
    RunNext(u, none, Join("c"));
    RunNext(u, none + [Join("c")], Copied(1));
    RunNext(u, ops1, Copied(2));
    RunNext(u, ops1 + [Copied(2)], Copied(3));
    RunNext(u, ops3, Write(0, 1));
    RunNext(u, ops4, Acknowledged(0, 1));
    assert Run(u, none) == Broker(map[], 0, [], [], {}, []);
    hide Run, Copied;
    CountSome(m1, m2);
    CopyTaken(u, Run(u, none + [Join("c")]), [], 1, PublishQos1);
    CopyTaken(u, Run(u, ops1), [m1], 2, Queued);
    CopyTaken(u, Run(u, ops1 + [Copied(2)]), [m1, m2], 3, Queued);
    WritesFirst(u, Run(u, ops3), m1, m2, m3);
    StartsRest(u, Run(u, ops4), m1.(state := WaitForPuback, dup := true), m2, m3);
  }

  lemma CountSome(m1: ClientMsg, m2: ClientMsg)
    requires m1.qos > 0 && m2.qos > 0
    ensures Count12([]) == 0 && Count12([m1]) == 1 && Count12([m1, m2]) == 2
  {
    CountTwo(m1, m2);
  }

  lemma {:induction false} NoneComesIn(msgs: seq<ClientMsg>, stores: Stores, mid: Mid)
    requires forall m :: m in msgs ==> m.direction == Out
    ensures FindIncoming(msgs, stores, mid) == None
  {
    if msgs != [] { NoneComesIn(msgs[1..], stores, mid); }
  }

  /** A copy of a new message, in the state in which there is room for it. */
  lemma CopyTaken(u: Setup, b: Broker, msgs: seq<ClientMsg>, mid: Mid, state: MsgState)
    requires u.lim == Limits(1, 0) && 0 < mid < 10 && b.lastDbId == mid - 1
    requires b.clients == [Session("c", true, mid - 1, msgs)] && forall m :: m in msgs ==> m.direction == Out
    requires state == if Count12(msgs) < 1 then PublishQos1 else Queued
    ensures var b' := Step(u, b, Copied(mid));
            b'.lastDbId == mid && b'.clients == [Session("c", true, mid, msgs + [Waits(mid, state)])]
  {
    NoneComesIn(msgs, b.stores, mid);
    hide FindIncoming, Count12;
    assert [Copy(0, 1)][1..] == [];
  }

  lemma WritesFirst(u: Setup, b: Broker, m1: ClientMsg, m2: ClientMsg, m3: ClientMsg)
    requires u.lim == Limits(1, 0) && b.clients == [Session("c", true, 3, [m1, m2, m3])]
    requires m1 == Waits(1, PublishQos1) && m2 == Waits(2, Queued) && m3 == Waits(3, Queued)
    ensures Step(u, b, Write(0, 1)).clients ==
            [Session("c", true, 3, [m1.(state := WaitForPuback, dup := true), m2, m3])]
  {
    FirstOnly(u.lim, m1, m2, m3);
    hide WriteFrom;
  }

  lemma FirstOnly(lim: Limits, m1: ClientMsg, m2: ClientMsg, m3: ClientMsg)
    requires lim == Limits(1, 0) && m1 == Waits(1, PublishQos1) && m2 == Waits(2, Queued) && m3 == Waits(3, Queued)
    ensures IncomingQos2([m1, m2, m3])
    ensures WriteFrom([], [m1, m2, m3], lim, 1, 0).msgs == [m1.(state := WaitForPuback, dup := true), m2, m3]
  {
    var n1 := m1.(state := WaitForPuback, dup := true);
    assert [m1, m2, m3][1..] == [m2, m3] && [m2, m3][1..] == [m3] && [m3][1..] == [];
    assert [] + [n1] == [n1] && [n1] + [m2] == [n1, m2] && [n1, m2] + [m3] == [n1, m2, m3];
    hide PromoteHead;
    assert WriteFrom([n1, m2, m3], [], lim, 0, 0).msgs == [n1, m2, m3];
    assert WriteFrom([n1, m2], [m3], lim, 0, 0).msgs == [n1, m2, m3];
    assert WriteFrom([n1], [m2, m3], lim, 0, 0).msgs == [n1, m2, m3];
  }

  lemma StartsRest(u: Setup, b: Broker, n1: ClientMsg, m2: ClientMsg, m3: ClientMsg)
    requires u.lim == Limits(1, 0) && b.clients == [Session("c", true, 3, [n1, m2, m3])]
    requires n1 == Waits(1, WaitForPuback).(dup := true) && m2 == Waits(2, Queued) && m3 == Waits(3, Queued)
    ensures var b' := Step(u, b, Acknowledged(0, 1));
            b'.clients == [Session("c", true, 3, [Waits(2, PublishQos1), Waits(3, PublishQos1)])]
    ensures QueueLaws.Active([Waits(2, PublishQos1), Waits(3, PublishQos1)]) == 2
  {
    var s2, s3 := Waits(2, PublishQos1), Waits(3, PublishQos1);
    assert [n1, m2, m3][1..] == [m2, m3] && [m2, m3][1..] == [m3] && [m3][1..] == [];
    assert [] + [m2, m3] + [] == [m2, m3];
    assert PromoteHead([m3], u.lim) == [s3];
    assert PromoteHead([m2, m3], u.lim) == [s2, s3];
    assert [s2, s3][..0] == [] && [s2, s3][0..] == [s2, s3] && [s2, s3][1..] == [s3] && [s3][1..] == [];
    assert Delete([n1, m2, m3], 1, Out, u.lim).msgs == [s2, s3] by { Deletes(u.lim, n1, m2, m3, s2, s3); }
  }

  lemma Deletes(lim: Limits, n1: ClientMsg, m2: ClientMsg, m3: ClientMsg, s2: ClientMsg, s3: ClientMsg)
    requires lim == Limits(1, 0) && n1 == Waits(1, WaitForPuback).(dup := true)
    requires m2 == Waits(2, Queued) && m3 == Waits(3, Queued) && s2 == Waits(2, PublishQos1) &&
             s3 == Waits(3, PublishQos1)
    ensures Delete([n1, m2, m3], 1, Out, lim).msgs == [s2, s3]
  {
    assert [n1, m2, m3][1..] == [m2, m3] && [m2, m3][1..] == [m3] && [m3][1..] == [];
    assert [] + [m2, m3] + [] == [m2, m3];
    assert PromoteHead([m3], lim) == [s3] && PromoteHead([m2, m3], lim) == [s2, s3];
    assert [s2, s3][..0] == [] && [s2, s3][0..] == [s2, s3] && [s2, s3][1..] == [s3] && [s3][1..] == [];
    assert [] + [s2] == [s2] && [s2] + [s3] == [s2, s3] && [s2] + [s3] + [] == [s2, s3];
    assert Touched(s2, 1, lim) == s2 && Touched(s3, 2, lim) == s3 && Touched(n1, 1, lim) == n1;
    assert Sweep([s2], [s3], 1, 1, Out, lim, false, true, []).msgs == [s2, s3];
    assert Sweep([], [s2, s3], 0, 1, Out, lim, false, true, []).msgs == [s2, s3];
    assert Sweep([], [n1, m2, m3], 0, 1, Out, lim, false, false, []).msgs == [s2, s3];
  }

  // --------------------------------------------- a PUBLISH after its PUBREC

  /** The one entry of the client, of QoS 2. */
  predicate Single(b: Broker, connected: bool, state: MsgState, dup: bool) {
    b.clients == [Session("c", connected, 1, [ClientMsg(1, 1, 2, false, Out, state, dup)])]
  }

  function Granting2(): Op {
    Arrive(0, 1, 1, "t", false, true, [Copy(0, 2)])
  }

  /** Its PUBREC came, but the connection breaks twice before its PUBREL is
      written: the message is published again. */
  lemma PublishedAgain(dups: bool, queueQos0: bool)
    ensures var u := Setup(Limits(0, 0), Config(dups, queueQos0, true));
            var ops := [Join("c"), Granting2(), Write(0, 1), Received(0, 1), Disconnect(0), Reconnect(0), Disconnect(0),
                        Reconnect(0)];
            var b := Run(u, ops);
            Single(b, true, PublishQos2, true) &&
            WriteFrom([], b.clients[0].msgs, u.lim, 1, 0).sent == [PUBLISH(1, 1, 2, false, true)]
  {
    var u, none := Setup(Limits(0, 0), Config(dups, queueQos0, true)), [];
    var ops1 := none + [Join("c")] + [Granting2()];
    var ops3 := ops1 + [Write(0, 1)] + [Received(0, 1)];
    var ops5 := ops3 + [Disconnect(0)] + [Reconnect(0)];
    assert ops5 + [Disconnect(0)] + [Reconnect(0)] ==
           [Join("c"), Granting2(), Write(0, 1), Received(0, 1), Disconnect(0), Reconnect(0), Disconnect(0),
            Reconnect(0)];
    RunNext(u, none, Join("c"));
    RunNext(u, none + [Join("c")], Granting2());
    RunNext(u, ops1, Write(0, 1));
    RunNext(u, ops1 + [Write(0, 1)], Received(0, 1));
    RunNext(u, ops3, Disconnect(0));
    RunNext(u, ops3 + [Disconnect(0)], Reconnect(0));
    RunNext(u, ops5, Disconnect(0));
    RunNext(u, ops5 + [Disconnect(0)], Reconnect(0));
    assert Run(u, none) == Broker(map[], 0, [], [], {}, []);
    hide Run, Granting2, Single;
    GrantedTwo(u, Run(u, none + [Join("c")]));
    WritesIt(u, Run(u, ops1));
    Confirms(u, Run(u, ops1 + [Write(0, 1)]));
    BreaksAndReturns(u, Run(u, ops3), WaitForPubcomp, true);
    BreaksAndReturns(u, Run(u, ops5), ResendPubrel, true);
    SendsIt(u.lim, Run(u, ops5 + [Disconnect(0)] + [Reconnect(0)]));
  }

  lemma GrantedTwo(u: Setup, b: Broker)
    requires u.lim == Limits(0, 0) && u.cfg.upgradeQos
    requires b == Broker(map[], 0, [Session("c", true, 0, [])], [], {}, [])
    ensures Single(Step(u, b, Granting2()), true, PublishQos2, false)
  {
    assert [] + [ClientMsg(1, 1, 2, false, Out, PublishQos2, false)] ==
           [ClientMsg(1, 1, 2, false, Out, PublishQos2, false)];
    assert [Copy(0, 2)][1..] == [];
  }

  lemma WritesIt(u: Setup, b: Broker)
    requires u.lim == Limits(0, 0) && Single(b, true, PublishQos2, false)
    ensures Single(Step(u, b, Write(0, 1)), true, WaitForPubrec, true)
  {
    var n := ClientMsg(1, 1, 2, false, Out, WaitForPubrec, true);
    assert [] + [n] == [n] && [n.(state := PublishQos2, dup := false)][1..] == [];
    assert WriteFrom([n], [], u.lim, 0, 0).msgs == [n];
  }

  lemma Confirms(u: Setup, b: Broker)
    requires Single(b, true, WaitForPubrec, true)
    ensures Single(Step(u, b, Received(0, 1)), true, WaitForPubcomp, true)
  {
    var m := ClientMsg(1, 1, 2, false, Out, WaitForPubrec, true);
    var n := m.(state := WaitForPubcomp);
    assert IndexOfEntry([m], 1, Out) == 0;
    assert Update(b.clients[0].msgs, 1, Out, WaitForPubcomp) == [n];
    assert Step(u, b, Received(0, 1)).clients == [b.clients[0].(msgs := [n])];
  }

  lemma BreaksAndReturns(u: Setup, b: Broker, state: MsgState, dup: bool)
    requires Single(b, true, state, dup) && state != Queued
    ensures Single(Step(u, Step(u, b, Disconnect(0)), Reconnect(0)), true,
                   if state == WaitForPubcomp then ResendPubrel else PublishQos2, dup)
  {
    var m := ClientMsg(1, 1, 2, false, Out, state, dup);
    var r := m.(state := if state == WaitForPubcomp then ResendPubrel else PublishQos2);
    assert Reset([m], u.lim) == [r];
  }

  lemma SendsIt(lim: Limits, b: Broker)
    requires Single(b, true, PublishQos2, true)
    ensures WriteFrom([], b.clients[0].msgs, lim, 1, 0).sent == [PUBLISH(1, 1, 2, false, true)]
  {
    var m := ClientMsg(1, 1, 2, false, Out, PublishQos2, true);
    assert [m][1..] == [] && [] + [AfterSend(m)] == [AfterSend(m)];
    assert WriteFrom([AfterSend(m)], [], lim, 0, 0).sent == [];
  }
}
