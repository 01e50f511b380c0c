/** References, copies and queues over every run. */
module BrokerStoreLaws {
  import opened Common
  import opened ClientQueue
  import opened MsgStore
  import opened BrokerStore
  import opened CopyLaws
  import opened QueueLaws
  import opened BrokerStoreSteps
  import opened BrokerEntries
  import opened WriteLaws
  import LeakLaws
  import SessionLaws
  import WaitingLaws
  import Qos2
  import Qos2Receiver

  /** Conservation: between operations every stored message counts exactly the
      queue entries and retained slots that point at it, none of which points
      at a freed message; and a message without any is still there only if it
      was stored for nothing. */
  lemma ReferencesConserved(u: Setup, ops: seq<Op>)
    ensures var b := Run(u, ops);
            (forall id :: id in b.stores ==> b.stores[id].refCount == Refs(b)[id]) &&
            forall id :: id in b.stores <==> id in Refs(b) || id in b.leaked
  {
    RunSound(u, ops);
    var b := Run(u, ops);
    assert Sound(u, b);
    hide Run, Refs;
    assert Refs(b) + multiset{} == Refs(b);
  }

  /** A message is stored for nothing exactly when a new QoS 2 message arrives
      while the queue of its sender is full: the queue turns it away; and no
      operation ever gives back what was stored for nothing. */
  lemma LeakedExactly(u: Setup, ops: seq<Op>, op: Op)
    ensures var b, b' := Run(u, ops), Step(u, Run(u, ops), op);
            (exists id :: id in b'.leaked && id !in b.leaked) <==>
            (Possible(b, op) && op.ArriveQos2? && u.lim.inflight > 0 && u.lim.queued > 0 &&
             !WaitingLaws.Waits(b.clients[op.c].msgs, op.mid) &&
             Held(b.clients[op.c].msgs) == u.lim.inflight + u.lim.queued)
    ensures Run(u, ops).leaked <= Step(u, Run(u, ops), op).leaked
  {
    LeakLaws.LeakedStays(u, ops, op);
    RunSound(u, ops);
    hide Run, ReleaseFrom, DoOffer, MessagesQueue, Delete, WriteFrom, DerefAll, StoresOf, Count12, FindIncoming, Held,
         WaitingLaws.Waits;
    var b, b' := Run(u, ops), Step(u, Run(u, ops), op);
    if Possible(b, op) && op.ArriveQos2? {
      WaitingLaws.FoundWaiting(u, ops, op.c, op.mid);
      HeldIs(b.clients[op.c].msgs);
      LeakedArrival(u, b, op.c, op.mid, op.access, op.retain, op.hasPayload);
    } else {
      assert b'.leaked <= b.leaked by { QuietStep(u, b, op); }
    }
  }

  lemma QuietStep(u: Setup, b: Broker, op: Op)
    requires !(Possible(b, op) && op.ArriveQos2?)
    ensures Step(u, b, op).leaked <= b.leaked
  {
    hide ReleaseFrom, DoOffer, MessagesQueue, Delete, WriteFrom, DerefAll, StoresOf, FindIncoming, IncomingQos2,
         Timeout,
         Update, Reset;
  }

  lemma LeakedArrival(u: Setup, b: Broker, c: nat, mid: Mid, topic: Option<string>, retain: bool, hasPayload: bool)
    requires Sound(u, b) && c < |b.clients| && b.clients[c].connected
    ensures var b' := DoArriveQos2(u, b, c, mid, topic, retain, hasPayload);
            (exists id :: id in b'.leaked && id !in b.leaked) <==>
            (u.lim.inflight > 0 && u.lim.queued > 0 && FindIncoming(b.clients[c].msgs, b.stores, mid) == None &&
             Count12(b.clients[c].msgs) == u.lim.inflight + u.lim.queued)
  {
    assert QueueFine(u.lim, b.clients[c].msgs);
    var id := b.lastDbId + 1;
    assert Counted(b.stores, Refs(b) + multiset{}, b.leaked);
    assert id !in b.stores && id !in b.leaked;
    hide Sound, Counted, Refs, FindIncoming, Count12, IncomingQos2, Taken;
    var b' := DoArriveQos2(u, b, c, mid, topic, retain, hasPayload);
    assert forall k :: k in b'.leaked && k !in b.leaked ==> k == id;
  }

  /** At most one copy: with duplicates forbidden, over the whole life of a
      message at most one outgoing entry is made of it for each client id,
      however many of its subscriptions match. */
  lemma OneCopy(u: Setup, ops: seq<Op>)
    requires !u.cfg.allowDuplicates
    ensures NoDup(Run(u, ops).created)
  {
    RunSound(u, ops);
  }

  /** Only QoS 2 messages wait on their way in, and with both limits set no
      queue holds more than their sum. */
  lemma QueueBounds(u: Setup, ops: seq<Op>, c: nat)
    requires c < |Run(u, ops).clients|
    ensures var msgs := Run(u, ops).clients[c].msgs;
            IncomingQos2(msgs) &&
            (u.lim.inflight > 0 && u.lim.queued > 0 ==> Held(msgs) <= u.lim.inflight + u.lim.queued)
  {
    RunSound(u, ops);
    assert QueueFine(u.lim, Run(u, ops).clients[c].msgs);
    HeldIs(Run(u, ops).clients[c].msgs);
  }

  // ------------------------------------------------- the entries of any queue

  /** An entry is always in a state that its QoS allows, an outgoing one never
      in a state of the receiving side, and with no limit an incoming one always
      in one of the two states of a receiver. */
  lemma StatesAllowed(u: Setup, ops: seq<Op>, c: nat)
    requires c < |Run(u, ops).clients|
    ensures var msgs := Run(u, ops).clients[c].msgs;
            (forall m :: m in msgs ==> Shaped(u.lim, m)) && Qos2.OutProper(msgs) &&
            (u.lim.inflight == 0 ==> Qos2Receiver.Proper(msgs))
  {
    RunNeat(u, ops);
    RunSound(u, ops);
    hide Run, Sweep;
    assert QueueFine(u.lim, Run(u, ops).clients[c].msgs);
    FormedAt(u, MarksOf(u, ops), Run(u, ops), c);
  }

  /** No client has two incoming entries of one id, so that releasing takes out
      exactly the one asked for. */
  lemma ReleaseTakesOne(u: Setup, ops: seq<Op>, c: nat, mid: Mid, own: seq<ClientMsg>)
    requires c < |Run(u, ops).clients| && forall m :: m in own ==> m.direction == Out
    ensures var msgs := Run(u, ops).clients[c].msgs;
            IncomingOnce(msgs) && OneOut([], msgs, mid, In, own, Sweep([], msgs, 0, mid, In, u.lim, true, false, [own]))
  {
    RunNeat(u, ops);
    hide Run, Sweep;
    var b := Run(u, ops);
    assert Neat(RulesOf(u, MarksOf(u, ops), c), b.stores, b.clients[c].msgs);
    SweepTakesOne([], b.clients[c].msgs, 0, mid, In, u.lim, true, false, own);
  }

  lemma WriteIs(u: Setup, b: Broker, c: nat, budget: nat)
    requires c < |b.clients| && IncomingQos2(b.clients[c].msgs) && b.clients[c].connected
    ensures var r := Step(u, b, Write(c, budget));
            SessionLaws.OnlyFor(b, r, c) &&
            r.clients[c].msgs == WriteFrom([], b.clients[c].msgs, u.lim, budget, 0).msgs[0..]
  {
    hide WriteFrom, DerefAll;
  }

  predicate SendsPublish(f: Fate) {
    match f
    case Left(p) => p.PUBLISH?
    case Stayed(_, p) => p.Some? && p.value.PUBLISH?
  }

  /** Writing a queue of any run: in order and as far as the transport goes, and
      what leaves are exactly the entries of QoS 0 whose PUBLISH was sent. */
  lemma WrittenInRun(u: Setup, ops: seq<Op>, c: nat, budget: nat) returns (fates: seq<Fate>)
    requires c < |Run(u, ops).clients|
    ensures var msgs := Run(u, ops).clients[c].msgs;
            IncomingQos2(msgs) && |fates| == |msgs| &&
            Ordered([], msgs, WriteFrom([], msgs, u.lim, budget, 0), fates) &&
            Thorough(msgs, WriteFrom([], msgs, u.lim, budget, 0), fates, budget) &&
            forall i :: 0 <= i < |msgs| ==> (fates[i].Left? <==> SendsPublish(fates[i]) && msgs[i].qos == 0)
    ensures var b, r := Run(u, ops), Step(u, Run(u, ops), Write(c, budget));
            b.clients[c].connected ==> SessionLaws.OnlyFor(b, r, c) && r.clients[c].msgs == Stayers(fates)
  {
    hide *;
    var msgs := Run(u, ops).clients[c].msgs;
    QueueBounds(u, ops, c);
    fates := WriteOrdered([], msgs, u.lim, budget, 0);
    LeaveWithPublish(u, ops, c, WriteFrom([], msgs, u.lim, budget, 0), fates);
    if Run(u, ops).clients[c].connected { WriteIs(u, Run(u, ops), c, budget); }
    OrderedStay(msgs, WriteFrom([], msgs, u.lim, budget, 0), fates);
  }

  lemma OrderedStay(msgs: seq<ClientMsg>, w: Written, fates: seq<Fate>)
    requires Ordered([], msgs, w, fates)
    ensures w.msgs[0..] == Stayers(fates)
  {
    hide Stayers;
  }

  lemma LeaveWithPublish(u: Setup, ops: seq<Op>, c: nat, w: Written, fates: seq<Fate>)
    requires c < |Run(u, ops).clients| && Ordered([], Run(u, ops).clients[c].msgs, w, fates)
    ensures var msgs := Run(u, ops).clients[c].msgs;
            |fates| == |msgs| &&
            forall i :: 0 <= i < |msgs| ==> (fates[i].Left? <==> SendsPublish(fates[i]) && msgs[i].qos == 0)
  {
    RunNeat(u, ops);
    RunSound(u, ops);
    hide Run;
    var msgs := Run(u, ops).clients[c].msgs;
    FormedAt(u, MarksOf(u, ops), Run(u, ops), c);
    forall i | 0 <= i < |msgs| ensures fates[i].Left? <==> SendsPublish(fates[i]) && msgs[i].qos == 0 {
      MoveFormed(RulesOf(u, MarksOf(u, ops), c), msgs[i], SendPubrec, false, 0);
      assert FateOf(msgs[i], fates[i]);
    }
  }
}
