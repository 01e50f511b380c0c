/** Tree and store together, over runs of what clients do. */
module WholeBroker {
  import opened Common
  import opened Topics
  import opened SubTree
  import opened SubSearch
  import opened Subscriptions
  import opened ClientQueue
  import opened MsgStore
  import opened BrokerStore
  import opened CopyLaws
  import opened PublishLaws
  import opened ReleaseLaws
  import ArrivalLaws
  import BrokerLaws
  import ContentLaws
  import OfferLaws
  import R = BrokerRuns
  import Retained
  import SessionLaws
  import WaitingLaws

  /** What clients do. `Other` is what does not meet the tree: acknowledgements,
      timers, writing, and connections that break and come back. */
  datatype Act =
    | Connect(id: ClientId)
    | Subscribe(c: nat, filter: string, qos: Qos)
    | Unsubscribe(c: nat, filter: string)
    | Publish(c: nat, mid: Mid, qos: Qos, topic: string, retain: bool, hasPayload: bool)
    | PublishQos2(c: nat, mid: Mid, topic: string, allowed: bool, retain: bool, hasPayload: bool)
    | Pubrel(c: nat, mid: Mid)
    | EndSession(c: nat)
    | Other(op: Op)

  /** The requests to the tree, the operations of the store, and which slot is that
      of which topic. */
  datatype World = World(requests: seq<R.Op>, ops: seq<Op>, at: map<string, nat>)

  function Tree(w: World): R.Broker {
    R.Run(w.requests)
  }

  function BrokerOf(u: Setup, w: World): Broker {
    Run(u, w.ops)
  }

  /** A node that is to hold a message has a slot for it. */
  function Slotted(u: Setup, w: World, topic: string, retain: bool): World {
    if retain && topic !in w.at then w.(ops := w.ops + [NewSlot], at := w.at[topic := |BrokerOf(u, w).slots|]) else w
  }

  function SlotFor(at: map<string, nat>, topic: string, retain: bool): Option<nat> {
    if retain && topic in at then Some(at[topic]) else None
  }

  function WorkFor(u: Setup, w: World, topic: string, retain: bool): seq<Work> {
    TreeWork(Ids(BrokerOf(u, w).clients), Tree(w), topic, SlotFor(w.at, topic, retain))
  }

  /** The slots of the topics whose nodes lie at these paths. */
  function SlotsOf(w: World, top: string, paths: seq<Path>): (r: seq<nat>)
    ensures |r| <= |paths|
  {
    if paths == [] then []
    else
      var p := [top] + paths[0];
      (if |p| >= 2 && IsFullPath(p) && Spelled(p) in w.at then [w.at[Spelled(p)]] else []) +
      SlotsOf(w, top, paths[1..])
  }

  function DoPublish(u: Setup, w: World, act: Act): World
    requires act.Publish?
  {
    var w1 := Slotted(u, w, act.topic, act.retain);
    var b := BrokerOf(u, w1);
    if act.c >= |b.clients| || !b.clients[act.c].connected || act.qos == 2 || !R.PubTopicOk(act.topic) then w
    else
      var id := ArrivalLaws.TakenFor(b, act.c, act.mid, act.qos);
      var full := if ArrivalLaws.Reuses(b, act.c, act.mid, act.qos) && id in b.stores then b.stores[id].hasPayload
                  else act.hasPayload;
      World(w1.requests + [R.Publish(act.topic, act.retain, id, full)],
            w1.ops + [Arrive(act.c, act.mid, act.qos, act.topic, act.retain, act.hasPayload,
                             WorkFor(u, w1, act.topic, act.retain))], w1.at)
  }

  /** The message that waits under the id is handed on, if it has a topic. */
  function DoPubrel(u: Setup, w: World, c: nat, mid: Mid): World {
    var b := BrokerOf(u, w);
    if c >= |b.clients| || !b.clients[c].connected then w
    else
      var found := FindIncoming(b.clients[c].msgs, b.stores, mid);
      if found == None || found.value !in b.stores || b.stores[found.value].topic == None then
        w.(ops := w.ops + [Release(c, mid, [])])
      else
        var s := b.stores[found.value];
        var w1 := Slotted(u, w, s.topic.value, s.retain);
        World(w1.requests + [R.Publish(s.topic.value, s.retain, found.value, s.hasPayload)],
              w1.ops + [Release(c, mid, [WorkFor(u, w1, s.topic.value, s.retain)])], w1.at)
  }

  /** The client joins the tree and is offered what its filter matches. */
  function DoSubscribe(u: Setup, w: World, c: nat, filter: string, qos: Qos): World {
    var b := BrokerOf(u, w);
    if c >= |b.clients| || !b.clients[c].connected || !SubTopicOk(filter) then w
    else
      var w1 := w.(requests := w.requests + [R.Subscribe(b.clients[c].id, filter, qos)]);
      w1.(ops := w.ops + [Offer(c, SlotsOf(w, Tokens(filter)[0], BrokerLaws.OfferedTo(Tree(w1), filter)), qos)])
  }

  predicate Quiet(op: Op) {
    op.Acknowledged? || op.Received? || op.Expire? || op.Write? || op.Disconnect? || op.Reconnect?
  }

  function Do(u: Setup, w: World, act: Act): World {
    var b := BrokerOf(u, w);
    match act
    case Connect(id) => if id in Ids(b.clients) then w else w.(ops := w.ops + [Join(id)])
    case Subscribe(c, filter, qos) => DoSubscribe(u, w, c, filter, qos)
    case Unsubscribe(c, filter) =>
      if c < |b.clients| then w.(requests := w.requests + [R.Unsubscribe(b.clients[c].id, filter)]) else w
    case Publish(_, _, _, _, _, _) => DoPublish(u, w, act)
    case PublishQos2(c, mid, topic, allowed, retain, hasPayload) =>
      if !R.PubTopicOk(topic) then w
      else w.(ops := w.ops + [ArriveQos2(c, mid, if allowed then Some(topic) else None, retain, hasPayload)])
    case Pubrel(c, mid) => DoPubrel(u, w, c, mid)
    case EndSession(c) =>
      if c < |b.clients|
      then World(w.requests + [R.EndSession(b.clients[c].id)], w.ops + [Clean(c)], w.at) else w
    case Other(op) => if Quiet(op) then w.(ops := w.ops + [op]) else w
  }

  function Life(u: Setup, acts: seq<Act>): World {
    if acts == [] then World([], [], map[]) else Do(u, Life(u, acts[..|acts| - 1]), acts[|acts| - 1])
  }

  // ------------------------------------------------------------ the invariant

  /** Each topic has its own slot. */
  predicate SlotsApart(at: map<string, nat>, b: Broker) {
    (forall t :: t in at ==> at[t] < |b.slots| && R.PubTopicOk(t)) &&
    forall t, t' :: t in at && t' in at && t != t' ==> at[t] != at[t']
  }

  function InSlotOf(at: map<string, nat>, b: Broker, topic: string): Option<StoreId>
    requires SlotsApart(at, b)
  {
    if topic in at then b.slots[at[topic]] else None
  }

  /** The tree holds in the node of a topic what the store holds in its slot. */
  ghost predicate SameSlots(at: map<string, nat>, tb: R.Broker, b: Broker) {
    SlotsApart(at, b) &&
    forall topic :: R.PubTopicOk(topic) ==> RetainedAt(tb.root, FullPath(topic)) == InSlotOf(at, b, topic)
  }

  ghost predicate GoodTopics(b: Broker) {
    forall id :: id in b.stores && b.stores[id].topic.Some? ==> R.PubTopicOk(b.stores[id].topic.value)
  }

  ghost predicate OneBroker(u: Setup, w: World) {
    Distinct(BrokerOf(u, w).clients) && SameSlots(w.at, Tree(w), BrokerOf(u, w)) && GoodTopics(BrokerOf(u, w))
  }

  // --------------------------------------------------------- it is inductive

  lemma NextRun(u: Setup, ops: seq<Op>, op: Op)
    ensures Run(u, ops + [op]) == Step(u, Run(u, ops), op)
  {
    assert (ops + [op])[..|ops|] == ops;
  }

  lemma NextTree(ops: seq<R.Op>, op: R.Op)
    ensures R.Run(ops + [op]) == R.Step(R.Run(ops), op)
  {
    assert (ops + [op])[..|ops|] == ops;
  }

  lemma OnePath(a: string, b: string)
    ensures FullPath(a) == FullPath(b) <==> a == b
  {
    SpelledFullPath(a);
    SpelledFullPath(b);
  }

  /** No slot and no node changed. */
  lemma SlotsStay(at: map<string, nat>, tb: R.Broker, b: Broker, tb': R.Broker, b': Broker)
    requires SameSlots(at, tb, b) && b'.slots == b.slots
    requires forall p :: RetainedAt(tb'.root, p) == RetainedAt(tb.root, p)
    ensures SameSlots(at, tb', b')
  {
    forall topic | R.PubTopicOk(topic) ensures RetainedAt(tb'.root, FullPath(topic)) == InSlotOf(at, b', topic) {
      assert RetainedAt(tb.root, FullPath(topic)) == InSlotOf(at, b, topic);
    }
  }

  /** The slot of a topic was set as the node of that topic was. */
  lemma SlotSet(u: Setup, w: World, b: Broker, b': Broker, topic: string, retain: bool, id: StoreId, full: bool)
    requires SameSlots(w.at, Tree(w), b) && R.PubTopicOk(topic) && (retain ==> topic in w.at)
    requires |b'.slots| == |b.slots|
    requires forall s :: 0 <= s < |b.slots| ==>
               b'.slots[s] ==
               if SlotFor(w.at, topic, retain) == Some(s) && Child(Tree(w).root.children, Tokens(topic)[0]).Some?
               then (if full then Some(id) else None) else b.slots[s]
    ensures SameSlots(w.at, R.Step(Tree(w), R.Publish(topic, retain, id, full)), b')
  {
    hide R.Run, R.Step, Child, Tokens, RetainedAt;
    var op := R.Publish(topic, retain, id, full);
    forall t | R.PubTopicOk(t)
      ensures RetainedAt(R.Step(Tree(w), op).root, FullPath(t)) == InSlotOf(w.at, b', t)
    {
      BrokerLaws.RetainedStep(w.requests, op, FullPath(t));
      OnePath(t, topic);
      assert RetainedAt(Tree(w).root, FullPath(t)) == InSlotOf(w.at, b, t);
      hide FullPath;
    }
  }

  lemma SlottedKeeps(u: Setup, w: World, topic: string, retain: bool)
    requires OneBroker(u, w) && R.PubTopicOk(topic)
    ensures var w1 := Slotted(u, w, topic, retain);
            OneBroker(u, w1) && w1.requests == w.requests && (retain ==> topic in w1.at) &&
            BrokerOf(u, w1).clients == BrokerOf(u, w).clients && BrokerOf(u, w1).stores == BrokerOf(u, w).stores &&
            BrokerOf(u, w1).lastDbId == BrokerOf(u, w).lastDbId
  {
    if retain && topic !in w.at {
      NextRun(u, w.ops, NewSlot);
      hide Run, R.Run, SameSlots, Distinct, R.PubTopicOk, GoodTopics;
      SlotAdded(w.at, Tree(w), BrokerOf(u, w), topic);
    }
  }

  lemma SlotAdded(at: map<string, nat>, tb: R.Broker, b: Broker, topic: string)
    requires SameSlots(at, tb, b) && topic !in at && R.PubTopicOk(topic)
    ensures SameSlots(at[topic := |b.slots|], tb, b.(slots := b.slots + [None]))
  {
    hide RetainedAt, FullPath, R.PubTopicOk;
    var at1, b1 := at[topic := |b.slots|], b.(slots := b.slots + [None]);
    forall t | R.PubTopicOk(t) ensures RetainedAt(tb.root, FullPath(t)) == InSlotOf(at1, b1, t) {
      assert RetainedAt(tb.root, FullPath(t)) == InSlotOf(at, b, t);
    }
  }

  lemma SameIds(b: Broker, b': Broker)
    requires Distinct(b.clients) && |b'.clients| == |b.clients|
    requires forall k :: 0 <= k < |b.clients| ==> b'.clients[k].id == b.clients[k].id
    ensures Distinct(b'.clients)
  {
  }

  lemma TopicsStay(u: Setup, b: Broker, op: Op)
    requires GoodTopics(b)
    requires op.Arrive? ==> R.PubTopicOk(op.topic)
    requires op.ArriveQos2? && op.access.Some? ==> R.PubTopicOk(op.access.value)
    ensures GoodTopics(Step(u, b, op))
  {
    ContentLaws.StepContent(u, b, op);
    hide Step, R.PubTopicOk;
  }

  // ------------------------------------------------------ what each act keeps

  lemma PublishKeeps(u: Setup, w: World, act: Act)
    requires OneBroker(u, w) && act.Publish?
    ensures OneBroker(u, DoPublish(u, w, act))
  {
    hide Run, R.Run, Step, SameSlots, GoodTopics, Distinct, TreeWork, R.PubTopicOk, ArrivalLaws.TakenFor,
         ArrivalLaws.Reuses, CopiesTo, OwnMatches, Flat, Slotted, SlotFor;
    var w' := DoPublish(u, w, act);
    if w' != w {
      var w1 := Slotted(u, w, act.topic, act.retain);
      SlottedKeeps(u, w, act.topic, act.retain);
      var b := BrokerOf(u, w1);
      var op := Arrive(act.c, act.mid, act.qos, act.topic, act.retain, act.hasPayload,
                       WorkFor(u, w1, act.topic, act.retain));
      NextRun(u, w1.ops, op);
      NextTree(w1.requests, w'.requests[|w1.requests|]);
      TopicsStay(u, b, op);
      PublishSlots(u, w1, op, act.topic, act.retain);
    }
  }

  lemma PublishSlots(u: Setup, w: World, op: Op, topic: string, retain: bool)
    requires OneBroker(u, w) && R.PubTopicOk(topic) && (retain ==> topic in w.at)
    requires FromTree(w.requests, BrokerOf(u, w), op, SlotFor(w.at, topic, retain)) && op.topic == topic
    ensures var b, id := BrokerOf(u, w), ArrivalLaws.TakenFor(BrokerOf(u, w), op.c, op.mid, op.qos);
            var full := if ArrivalLaws.Reuses(b, op.c, op.mid, op.qos) && id in b.stores then b.stores[id].hasPayload
                        else op.hasPayload;
            SameSlots(w.at, R.Step(Tree(w), R.Publish(topic, retain, id, full)), Step(u, b, op)) &&
            Distinct(Step(u, b, op).clients)
  {
    hide Run, R.Run, R.Step, Step, SameSlots, GoodTopics, Distinct, TreeWork, R.PubTopicOk, ArrivalLaws.TakenFor,
         ArrivalLaws.Reuses, CopiesTo, OwnMatches, Flat, SlotFor;
    var b, slot := BrokerOf(u, w), SlotFor(w.at, topic, retain);
    var id := ArrivalLaws.TakenFor(b, op.c, op.mid, op.qos);
    var ds, qs, pieces := PublishQueues(u, w.requests, w.ops, op, slot, op.c);
    forall c | 0 <= c < |b.clients| ensures Step(u, b, op).clients[c].id == b.clients[c].id {
      var ds', qs', pieces' := PublishQueues(u, w.requests, w.ops, op, slot, c);
    }
    SameIds(b, Step(u, b, op));
    var full := if ArrivalLaws.Reuses(b, op.c, op.mid, op.qos) && id in b.stores then b.stores[id].hasPayload
                else op.hasPayload;
    SlotSet(u, w, b, Step(u, b, op), topic, retain, id, full);
  }

  /** Nothing is handed on. */
  lemma NoRelease(u: Setup, w: World, c: nat, mid: Mid)
    requires OneBroker(u, w) && c < |BrokerOf(u, w).clients| && BrokerOf(u, w).clients[c].connected
    ensures OneBroker(u, w.(ops := w.ops + [Release(c, mid, [])]))
  {
    hide Run, R.Run, Step, SameSlots, GoodTopics, Distinct, Progressed;
    var b, op := BrokerOf(u, w), Release(c, mid, []);
    NextRun(u, w.ops, op);
    TopicsStay(u, b, op);
    if j :| 0 <= j < |b.clients[c].msgs| && b.clients[c].msgs[j].direction == In && b.clients[c].msgs[j].mid == mid {
      ReleaseDenied(u, w.ops, c, j, []);
    } else {
      ReleaseNothing(u, w.ops, c, mid, []);
    }
    SameIds(b, Step(u, b, op));
    SlotsStay(w.at, Tree(w), b, Tree(w), Step(u, b, op));
  }

  lemma PubrelKeeps(u: Setup, w: World, c: nat, mid: Mid)
    requires OneBroker(u, w)
    ensures OneBroker(u, DoPubrel(u, w, c, mid))
  {
    hide Run, R.Run, Step, SameSlots, GoodTopics, Distinct, TreeWork, R.PubTopicOk, Slotted, SlotFor, FindIncoming;
    var b := BrokerOf(u, w);
    if c < |b.clients| && b.clients[c].connected {
      var found := FindIncoming(b.clients[c].msgs, b.stores, mid);
      if found == None || found.value !in b.stores || b.stores[found.value].topic == None {
        NoRelease(u, w, c, mid);
      } else {
        PubrelHands(u, w, c, mid, found.value);
      }
    }
  }

  lemma PubrelHands(u: Setup, w: World, c: nat, mid: Mid, id: StoreId)
    requires OneBroker(u, w) && c < |BrokerOf(u, w).clients| && BrokerOf(u, w).clients[c].connected
    requires FindIncoming(BrokerOf(u, w).clients[c].msgs, BrokerOf(u, w).stores, mid) == Some(id)
    requires id in BrokerOf(u, w).stores && BrokerOf(u, w).stores[id].topic.Some?
    ensures OneBroker(u, DoPubrel(u, w, c, mid))
  {
    hide Run, R.Run, R.Step, Step, SameSlots, Distinct, TreeWork, R.PubTopicOk, Slotted, SlotFor, FindIncoming;
    var s, w' := BrokerOf(u, w).stores[id], DoPubrel(u, w, c, mid);
    var topic := s.topic.value;
    assert R.PubTopicOk(topic);
    hide GoodTopics;
    var w1 := Slotted(u, w, topic, s.retain);
    SlottedKeeps(u, w, topic, s.retain);
    WaitingLaws.FoundWaiting(u, w.ops, c, mid);
    var b := BrokerOf(u, w1);
    var msgs := b.clients[c].msgs;
    var m :| m in msgs && m.direction == In && m.mid == mid;
    var j :| 0 <= j < |msgs| && msgs[j] == m;
    var works := [WorkFor(u, w1, topic, s.retain)];
    NextRun(u, w1.ops, Release(c, mid, works));
    NextTree(w1.requests, R.Publish(topic, s.retain, id, s.hasPayload));
    TopicsStay(u, b, Release(c, mid, works));
    PubrelSlots(u, w1, c, j, topic, works);
  }

  lemma PubrelSlots(u: Setup, w: World, c: nat, j: nat, topic: string, works: seq<seq<Work>>)
    requires OneBroker(u, w) && c < |BrokerOf(u, w).clients| && BrokerOf(u, w).clients[c].connected
    requires j < |BrokerOf(u, w).clients[c].msgs| && BrokerOf(u, w).clients[c].msgs[j].direction == In
    requires var b := BrokerOf(u, w);
             var id := b.clients[c].msgs[j].store;
             id in b.stores && b.stores[id].topic == Some(topic) && R.PubTopicOk(topic) &&
             (b.stores[id].retain ==> topic in w.at) && works == [WorkFor(u, w, topic, b.stores[id].retain)]
    ensures var b := BrokerOf(u, w);
            var m := b.clients[c].msgs[j];
            var s, op := b.stores[m.store], Release(c, m.mid, works);
            SameSlots(w.at, R.Step(Tree(w), R.Publish(topic, s.retain, m.store, s.hasPayload)), Step(u, b, op)) &&
            Distinct(Step(u, b, op).clients)
  {
    hide Run, R.Run, R.Step, Step, SameSlots, GoodTopics, Distinct, TreeWork, R.PubTopicOk, CopiesTo, OwnMatches, Flat,
         SlotFor, Progressed, DropAt;
    var b := BrokerOf(u, w);
    var m := b.clients[c].msgs[j];
    var s, op := b.stores[m.store], Release(c, m.mid, works);
    var slot := SlotFor(w.at, topic, s.retain);
    var ds, qs, pieces := ReleaseQueues(u, w.requests, w.ops, c, j, topic, slot, works, c);
    forall k | 0 <= k < |b.clients| ensures Step(u, b, op).clients[k].id == b.clients[k].id {
      var ds', qs', pieces' := ReleaseQueues(u, w.requests, w.ops, c, j, topic, slot, works, k);
    }
    SameIds(b, Step(u, b, op));
    SlotSet(u, w, b, Step(u, b, op), topic, s.retain, m.store, s.hasPayload);
  }

  /** A request that is no publish leaves what the nodes hold. */
  lemma RequestKeeps(w: World, op: R.Op, b: Broker)
    requires SameSlots(w.at, Tree(w), b) && !op.Publish?
    ensures SameSlots(w.at, R.Run(w.requests + [op]), b)
  {
    NextTree(w.requests, op);
    forall p ensures RetainedAt(R.Step(Tree(w), op).root, p) == RetainedAt(Tree(w).root, p) {
      BrokerLaws.RetainedStep(w.requests, op, p);
    }
    hide R.Run, R.Step, RetainedAt, R.PubTopicOk;
    SlotsStay(w.at, Tree(w), b, R.Step(Tree(w), op), b);
  }

  /** An operation that changes no slot and no id. */
  lemma StepKeeps(u: Setup, w: World, op: Op)
    requires OneBroker(u, w)
    requires var b, r := BrokerOf(u, w), Step(u, BrokerOf(u, w), op);
             r.slots == b.slots && |r.clients| == |b.clients| &&
             (forall k :: 0 <= k < |b.clients| ==> r.clients[k].id == b.clients[k].id) && GoodTopics(r)
    ensures OneBroker(u, w.(ops := w.ops + [op]))
  {
    NextRun(u, w.ops, op);
    hide Run, R.Run, Step, SameSlots, GoodTopics, Distinct;
    SameIds(BrokerOf(u, w), Step(u, BrokerOf(u, w), op));
    SlotsStay(w.at, Tree(w), BrokerOf(u, w), Tree(w), Step(u, BrokerOf(u, w), op));
  }

  lemma SubscribeKeeps(u: Setup, w: World, c: nat, filter: string, qos: Qos)
    requires OneBroker(u, w)
    ensures OneBroker(u, DoSubscribe(u, w, c, filter, qos))
  {
    hide Run, R.Run, Step, SameSlots, GoodTopics, Distinct, SlotsOf, BrokerLaws.OfferedTo, OfferLaws.OffersTo, Flat;
    var b, w' := BrokerOf(u, w), DoSubscribe(u, w, c, filter, qos);
    if w' != w {
      var request, from := R.Subscribe(b.clients[c].id, filter, qos), w'.ops[|w.ops|].from;
      var w1 := w.(requests := w.requests + [request]);
      RequestKeeps(w, request, b);
      var qs, pieces := OfferLaws.OfferReaches(u, w.ops, c, from, qos);
      TopicsStay(u, b, Offer(c, from, qos));
      StepKeeps(u, w1, Offer(c, from, qos));
    }
  }

  lemma QuietKeeps(u: Setup, w: World, op: Op)
    requires OneBroker(u, w) && (Quiet(op) || op.Clean?)
    ensures OneBroker(u, w.(ops := w.ops + [op]))
  {
    hide Run, R.Run, SameSlots, GoodTopics, Distinct;
    TopicsStay(u, BrokerOf(u, w), op);
    QuietIs(u, BrokerOf(u, w), op);
    hide Step;
    StepKeeps(u, w, op);
  }

  lemma QuietIs(u: Setup, b: Broker, op: Op)
    requires Quiet(op) || op.Clean?
    ensures var r := Step(u, b, op);
            r.slots == b.slots && |r.clients| == |b.clients| &&
            forall k :: 0 <= k < |b.clients| ==> r.clients[k].id == b.clients[k].id
  {
    hide Delete, WriteFrom, Timeout, Update, Reset, DerefAll, StoresOf, IncomingQos2;
  }

  lemma Qos2Keeps(u: Setup, w: World, op: Op)
    requires OneBroker(u, w) && op.ArriveQos2? && (op.access.Some? ==> R.PubTopicOk(op.access.value))
    ensures OneBroker(u, w.(ops := w.ops + [op]))
  {
    hide Run, R.Run, SameSlots, GoodTopics, Distinct, R.PubTopicOk;
    var b := BrokerOf(u, w);
    TopicsStay(u, b, op);
    if Possible(b, op) {
      hide Step, WaitingLaws.Waits;
      var piece := WaitingLaws.ArriveWaits(u, w.ops, op);
      StepKeeps(u, w, op);
    } else {
      StepKeeps(u, w, op);
    }
  }

  lemma ConnectKeeps(u: Setup, w: World, id: ClientId)
    requires OneBroker(u, w) && id !in Ids(BrokerOf(u, w).clients)
    ensures OneBroker(u, w.(ops := w.ops + [Join(id)]))
  {
    var b := BrokerOf(u, w);
    NextRun(u, w.ops, Join(id));
    TopicsStay(u, b, Join(id));
    assert forall k :: 0 <= k < |b.clients| ==> Ids(b.clients)[k] == b.clients[k].id;
    hide Run, R.Run, GoodTopics, RetainedAt, R.PubTopicOk;
    var b' := Step(u, b, Join(id));
    assert Distinct(b'.clients);
    hide Distinct, SameSlots;
    SlotsStay(w.at, Tree(w), b, Tree(w), b');
  }

  /** After any run of what clients do, client ids are distinct, every topic has its
      own slot, and the tree holds in the node of each topic what the store holds in
      its slot. */
  lemma {:induction false} LifeHolds(u: Setup, acts: seq<Act>)
    ensures OneBroker(u, Life(u, acts))
  {
    if acts == [] {
      StartHolds(u);
    } else {
      var w, act := Life(u, acts[..|acts| - 1]), acts[|acts| - 1];
      LifeHolds(u, acts[..|acts| - 1]);
      hide OneBroker, Life, DoPublish, DoPubrel, DoSubscribe, Run;
      DoKeeps(u, w, act);
    }
  }

  lemma DoKeeps(u: Setup, w: World, act: Act)
    requires OneBroker(u, w)
    ensures OneBroker(u, Do(u, w, act))
  {
    hide DoPublish, DoPubrel, DoSubscribe, Run, R.Run, SameSlots, GoodTopics, Distinct, R.PubTopicOk;
    var b := BrokerOf(u, w);
    match act
    case Connect(id) => if id !in Ids(b.clients) { ConnectKeeps(u, w, id); }
    case Subscribe(c, filter, qos) => SubscribeKeeps(u, w, c, filter, qos);
    case Unsubscribe(c, filter) =>
      if c < |b.clients| { RequestKeeps(w, R.Unsubscribe(b.clients[c].id, filter), b); }
    case Publish(_, _, _, _, _, _) => PublishKeeps(u, w, act);
    case PublishQos2(c, mid, topic, allowed, retain, hasPayload) =>
      if R.PubTopicOk(topic) {
        Qos2Keeps(u, w, ArriveQos2(c, mid, if allowed then Some(topic) else None, retain, hasPayload));
      }
    case Pubrel(c, mid) => PubrelKeeps(u, w, c, mid);
    case EndSession(c) =>
      if c < |b.clients| {
        var request := R.EndSession(b.clients[c].id);
        RequestKeeps(w, request, b);
        QuietKeeps(u, w.(requests := w.requests + [request]), Clean(c));
      }
    case Other(op) => if Quiet(op) { QuietKeeps(u, w, op); }
  }

  lemma StartHolds(u: Setup)
    ensures OneBroker(u, World([], [], map[]))
  {
    forall topic | R.PubTopicOk(topic) ensures RetainedAt(R.OPENED.root, FullPath(topic)) == None {
      R.OpenedEmpty(FullPath(topic), "");
    }
  }

  // ---------------------------------------------------------------- a publish

  /** A PUBLISH of QoS 0 or 1, after any run of what clients do, puts behind the
      queue of every client copies for its own matching filters; if it is retained,
      and the top-level node of its topic stands, the node of the topic holds the
      message that was handed on, or nothing if that is empty. */
  lemma PublishReaches(u: Setup, acts: seq<Act>, act: Act, c: nat)
    returns (ds: seq<Delivery>, qs: seq<Qos>, pieces: seq<seq<ClientMsg>>)
    requires act.Publish? && act.qos != 2 && R.PubTopicOk(act.topic)
    requires var b := BrokerOf(u, Life(u, acts)); act.c < |b.clients| && b.clients[act.c].connected && c < |b.clients|
    ensures var w, w' := Life(u, acts), Life(u, acts + [act]);
            var b, b' := BrokerOf(u, w), BrokerOf(u, w');
            var id := ArrivalLaws.TakenFor(b, act.c, act.mid, act.qos);
            var again := ArrivalLaws.Reuses(b, act.c, act.mid, act.qos);
            (again ==> id in b.stores) &&
            var given := again && !u.cfg.allowDuplicates && b.clients[c].id in b.stores[id].destIds;
            |b'.clients| == |b.clients| && b'.clients[c].msgs == b.clients[c].msgs + Flat(pieces) &&
            CopiesTo(u, b.clients[c], given, id, act.qos, ds, qs, pieces) &&
            OwnMatches(R.FlatRun(w.requests), b.clients[c].id, act.topic, ds) &&
            (act.retain && Child(Tree(w).root.children, Tokens(act.topic)[0]).Some? ==>
               RetainedAt(Tree(w').root, FullPath(act.topic)) ==
               if (if again then b.stores[id].hasPayload else act.hasPayload) then Some(id) else None)
  {
    LifeHolds(u, acts);
    var w := Life(u, acts);
    assert (acts + [act])[..|acts|] == acts;
    assert Life(u, acts + [act]) == DoPublish(u, w, act);
    hide Life;
    ds, qs, pieces := PublishActs(u, w, act, c);
  }

  lemma PublishActs(u: Setup, w: World, act: Act, c: nat)
    returns (ds: seq<Delivery>, qs: seq<Qos>, pieces: seq<seq<ClientMsg>>)
    requires OneBroker(u, w) && act.Publish? && act.qos != 2 && R.PubTopicOk(act.topic)
    requires var b := BrokerOf(u, w); act.c < |b.clients| && b.clients[act.c].connected && c < |b.clients|
    ensures var w' := DoPublish(u, w, act);
            var b, b' := BrokerOf(u, w), BrokerOf(u, w');
            var id := ArrivalLaws.TakenFor(b, act.c, act.mid, act.qos);
            var again := ArrivalLaws.Reuses(b, act.c, act.mid, act.qos);
            (again ==> id in b.stores) &&
            var given := again && !u.cfg.allowDuplicates && b.clients[c].id in b.stores[id].destIds;
            |b'.clients| == |b.clients| && b'.clients[c].msgs == b.clients[c].msgs + Flat(pieces) &&
            CopiesTo(u, b.clients[c], given, id, act.qos, ds, qs, pieces) &&
            OwnMatches(R.FlatRun(w.requests), b.clients[c].id, act.topic, ds) &&
            (act.retain && Child(Tree(w).root.children, Tokens(act.topic)[0]).Some? ==>
               RetainedAt(Tree(w').root, FullPath(act.topic)) ==
               if (if again then b.stores[id].hasPayload else act.hasPayload) then Some(id) else None)
  {
    hide Run, R.Run, R.FlatRun, R.Step, Step, SameSlots, GoodTopics, Distinct, TreeWork, R.PubTopicOk, CopiesTo,
         OwnMatches,
         Flat, Slotted, SlotFor, RetainedAt, FullPath, Child, Tokens;
    var w1, w' := Slotted(u, w, act.topic, act.retain), DoPublish(u, w, act);
    SlottedKeeps(u, w, act.topic, act.retain);
    SameTaken(BrokerOf(u, w), BrokerOf(u, w1), act.c, act.mid, act.qos);
    hide ArrivalLaws.TakenFor, ArrivalLaws.Reuses;
    var op := Arrive(act.c, act.mid, act.qos, act.topic, act.retain, act.hasPayload,
                     WorkFor(u, w1, act.topic, act.retain));
    ds, qs, pieces := PublishQueues(u, w1.requests, w1.ops, op, SlotFor(w1.at, act.topic, act.retain), c);
    NextRun(u, w1.ops, op);
    NextTree(w1.requests, w'.requests[|w1.requests|]);
    BrokerLaws.RetainedStep(w1.requests, w'.requests[|w1.requests|], FullPath(act.topic));
  }

  lemma SameTaken(b: Broker, b1: Broker, c: nat, mid: Mid, qos: Qos)
    requires c < |b.clients| && b1.clients == b.clients && b1.stores == b.stores && b1.lastDbId == b.lastDbId
    ensures ArrivalLaws.TakenFor(b1, c, mid, qos) == ArrivalLaws.TakenFor(b, c, mid, qos)
    ensures ArrivalLaws.Reuses(b1, c, mid, qos) == ArrivalLaws.Reuses(b, c, mid, qos)
  {
  }

  // ------------------------------------------------- a release, a session's end

  /** A PUBREL, after any run of what clients do, hands on the message that waits
      under its id, unless access control denied it: every client gets copies for its
      own matching filters, and the entry is gone from the queue of the sender. */
  lemma PubrelReaches(u: Setup, acts: seq<Act>, from: nat, j: nat, c: nat)
    returns (ds: seq<Delivery>, qs: seq<Qos>, pieces: seq<seq<ClientMsg>>)
    requires var b := BrokerOf(u, Life(u, acts));
             from < |b.clients| && b.clients[from].connected && c < |b.clients| && j < |b.clients[from].msgs| &&
             b.clients[from].msgs[j].direction == In && b.clients[from].msgs[j].store in b.stores &&
             b.stores[b.clients[from].msgs[j].store].topic.Some?
    ensures var w := Life(u, acts);
            var b := BrokerOf(u, w);
            var m := b.clients[from].msgs[j];
            var b' := BrokerOf(u, Life(u, acts + [Pubrel(from, m.mid)]));
            |b'.clients| == |b.clients| &&
            Handed(u, w, b, b', from, j, c, ds, qs, pieces)
  {
    LifeHolds(u, acts);
    var w := Life(u, acts);
    var act := Pubrel(from, BrokerOf(u, w).clients[from].msgs[j].mid);
    assert (acts + [act])[..|acts|] == acts;
    assert Life(u, acts + [act]) == DoPubrel(u, w, from, act.mid);
    hide Life;
    ds, qs, pieces := PubrelActs(u, w, from, j, c);
  }

  /** Client `c` was handed copies of the message that waited at `j`, which is gone. */
  ghost predicate Handed(u: Setup, w: World, b: Broker, b': Broker, from: nat, j: nat, c: nat, ds: seq<Delivery>,
                         qs: seq<Qos>, pieces: seq<seq<ClientMsg>>) {
    from < |b.clients| && c < |b.clients| && |b'.clients| == |b.clients| && j < |b.clients[from].msgs| &&
    var id := b.clients[from].msgs[j].store;
    id in b.stores && b.stores[id].topic.Some? &&
    var s, msgs := b.clients[c], b'.clients[c].msgs;
    (if c == from then Progressed(DropAt(s.msgs, j) + Flat(pieces), msgs) else msgs == s.msgs + Flat(pieces)) &&
    CopiesTo(u, s, !u.cfg.allowDuplicates && s.id in b.stores[id].destIds, id, b.stores[id].qos, ds, qs, pieces) &&
    OwnMatches(R.FlatRun(w.requests), s.id, b.stores[id].topic.value, ds)
  }

  lemma PubrelActs(u: Setup, w: World, from: nat, j: nat, c: nat)
    returns (ds: seq<Delivery>, qs: seq<Qos>, pieces: seq<seq<ClientMsg>>)
    requires OneBroker(u, w)
    requires var b := BrokerOf(u, w);
             from < |b.clients| && b.clients[from].connected && c < |b.clients| && j < |b.clients[from].msgs| &&
             b.clients[from].msgs[j].direction == In && b.clients[from].msgs[j].store in b.stores &&
             b.stores[b.clients[from].msgs[j].store].topic.Some?
    ensures var b := BrokerOf(u, w);
            var b' := BrokerOf(u, DoPubrel(u, w, from, b.clients[from].msgs[j].mid));
            Handed(u, w, b, b', from, j, c, ds, qs, pieces)
  {
    hide Run, R.Run, R.FlatRun, Step, SameSlots, Distinct, TreeWork, R.PubTopicOk, CopiesTo, OwnMatches, Flat, Slotted,
         SlotFor, FindIncoming, Progressed, DropAt, WaitingLaws.Waits;
    var b := BrokerOf(u, w);
    var m := b.clients[from].msgs[j];
    var s := b.stores[m.store];
    var topic := s.topic.value;
    assert R.PubTopicOk(topic);
    hide GoodTopics;
    var w1 := Slotted(u, w, topic, s.retain);
    SlottedKeeps(u, w, topic, s.retain);
    WaitingLaws.FoundWaiting(u, w.ops, from, m.mid);
    assert m in b.clients[from].msgs;
    var works := [WorkFor(u, w1, topic, s.retain)];
    NextRun(u, w1.ops, Release(from, m.mid, works));
    ds, qs, pieces := ReleaseQueues(u, w1.requests, w1.ops, from, j, topic, SlotFor(w1.at, topic, s.retain), works, c);
  }

  /** When a session ends, after any run of what clients do, its queue is empty and
      none of its filters is left; those of all others stay. */
  lemma SessionEnds(u: Setup, acts: seq<Act>, c: nat)
    requires c < |BrokerOf(u, Life(u, acts)).clients|
    ensures var w, w' := Life(u, acts), Life(u, acts + [EndSession(c)]);
            var id, b' := BrokerOf(u, w).clients[c].id, BrokerOf(u, w');
            c < |b'.clients| && b'.clients[c].msgs == [] &&
            forall k :: k in R.FlatRun(w'.requests).subs <==> k in R.FlatRun(w.requests).subs && k.0 != id
  {
    var w, act := Life(u, acts), EndSession(c);
    assert (acts + [act])[..|acts|] == acts;
    var request := R.EndSession(BrokerOf(u, w).clients[c].id);
    NextRun(u, w.ops, Clean(c));
    assert (w.requests + [request])[..|w.requests|] == w.requests;
    SessionLaws.CleanIs(u, BrokerOf(u, w), c);
    hide Run, Step;
  }

  // ------------------------------------------------------- a new subscriber

  /** The topics of the nodes at these paths, as far as they ever held a message. */
  function TopicsOf(w: World, top: string, paths: seq<Path>): (r: seq<string>)
    ensures |r| == |SlotsOf(w, top, paths)|
    ensures forall i :: 0 <= i < |r| ==> r[i] in w.at && SlotsOf(w, top, paths)[i] == w.at[r[i]]
  {
    if paths == [] then []
    else
      var p := [top] + paths[0];
      (if |p| >= 2 && IsFullPath(p) && Spelled(p) in w.at then [Spelled(p)] else []) + TopicsOf(w, top, paths[1..])
  }

  lemma {:induction false} TopicsIff(w: World, top: string, paths: seq<Path>, topic: string)
    ensures topic in TopicsOf(w, top, paths) <==>
            topic in w.at && top == Tokens(topic)[0] && Tokens(topic) in paths
  {
    if paths != [] {
      TopicsIff(w, top, paths[1..], topic);
      PathOf(top, paths[0], topic);
      hide IsFullPath, Spelled, Tokens;
      assert forall p :: p in paths <==> p == paths[0] || p in paths[1..];
    }
  }

  lemma PathOf(top: string, p: Path, topic: string)
    ensures |[top] + p| >= 2 && IsFullPath([top] + p) && Spelled([top] + p) == topic <==>
            top == Tokens(topic)[0] && p == Tokens(topic)
  {
    SpelledFullPath(topic);
    assert ([top] + p)[1..] == p && FullPath(topic)[1..] == Tokens(topic);
    hide Spelled, Tokens;
    assert FullPath(topic)[0] == Tokens(topic)[0] && ([top] + p)[0] == top;
  }

  lemma {:induction false} TopicsNoDup(w: World, top: string, paths: seq<Path>)
    requires NoDup(paths)
    ensures NoDup(TopicsOf(w, top, paths))
  {
    if paths != [] {
      var rest := paths[1..];
      assert NoDup(rest) by {
        forall i,
            j | 0 <= i < j < |rest| ensures rest[i] != rest[j] { assert rest[i] == paths[i + 1] &&
                                                                rest[j] == paths[j + 1]; }
      }
      TopicsNoDup(w, top, rest);
      var p := [top] + paths[0];
      if |p| >= 2 && IsFullPath(p) && Spelled(p) in w.at {
        PathOf(top, paths[0], Spelled(p));
        TopicsIff(w, top, rest, Spelled(p));
        hide IsFullPath, Spelled, Tokens;
        assert paths[0] !in rest;
        NoDupConcat([Spelled(p)], TopicsOf(w, top, rest));
      } else {
        assert [] + TopicsOf(w, top, rest) == TopicsOf(w, top, rest);
      }
    }
  }

  /** Of the topics that ever held a message, those the filter is offered. */
  function OfferedTopics(w: World, filter: string): seq<string> {
    TopicsOf(w, Tokens(filter)[0], BrokerLaws.OfferedTo(Tree(w), filter))
  }

  lemma OfferedTopicsIff(w: World, b: Broker, filter: string)
    requires SameSlots(w.at, Tree(w), b) && SubTopicOk(filter)
    ensures forall topic :: R.PubTopicOk(topic) && RetainedAt(Tree(w).root, FullPath(topic)).Some? ==>
              (topic in OfferedTopics(w, filter) <==>
               Matches(filter, topic) && !BrokerLaws.Skipped(Tree(w), filter, topic))
    ensures NoDup(OfferedTopics(w, filter))
  {
    hide R.Run, RetainedAt, FullPath, Matches, BrokerLaws.Skipped, BrokerLaws.OfferedTo, R.PubTopicOk, TopicsOf, Tokens;
    var top, paths := Tokens(filter)[0], BrokerLaws.OfferedTo(Tree(w), filter);
    forall topic | R.PubTopicOk(topic) && RetainedAt(Tree(w).root, FullPath(topic)).Some?
      ensures topic in OfferedTopics(w, filter) <==>
              Matches(filter, topic) && !BrokerLaws.Skipped(Tree(w), filter, topic)
    {
      assert RetainedAt(Tree(w).root, FullPath(topic)) == InSlotOf(w.at, b, topic);
      BrokerLaws.OfferedExactly(w.requests, filter, topic);
      TopicsIff(w, top, paths, topic);
    }
    OfferedOnce(w, filter);
    TopicsNoDup(w, top, paths);
  }

  lemma OfferedOnce(w: World, filter: string)
    requires SubTopicOk(filter)
    ensures NoDup(BrokerLaws.OfferedTo(Tree(w), filter))
  {
    R.RunAgrees(w.requests);
    var top := Child(Tree(w).root.children, Tokens(filter)[0]);
    hide R.Run, R.FlatRun;
    if top.Some? {
      ChildWellFormed(Tree(w).root, Tokens(filter)[0]);
      FullPathValid(filter);
      Retained.OfferedNoDup(top.value.children, Tokens(filter), 0);
    }
  }

  /** What one topic gives: a retained copy of the message its node holds, of the
      lower QoS, if there is room. */
  predicate Offered(u: Setup, b: Broker, held: Option<StoreId>, s: Session, before: seq<ClientMsg>, granted: Qos,
                    q: Qos,
                    piece: seq<ClientMsg>) {
    match held
    case None => piece == []
    case Some(id) =>
      id in b.stores && RightQos(false, q, b.stores[id].qos, granted) &&
      CopyLaws.Queues(u, s.connected, false, Held(s.msgs + before), id, q, true, piece)
  }

  lemma SubscribeOffers(u: Setup, w: World, c: nat, filter: string, qos: Qos)
    returns (topics: seq<string>, qs: seq<Qos>, pieces: seq<seq<ClientMsg>>)
    requires OneBroker(u, w) && c < |BrokerOf(u, w).clients| && BrokerOf(u, w).clients[c].connected &&
             SubTopicOk(filter)
    ensures var w' := DoSubscribe(u, w, c, filter, qos);
            var b, b', tree := BrokerOf(u, w), BrokerOf(u, w'), Tree(w');
            b'.slots == b.slots && |b'.clients| == |b.clients| && b'.clients == b.clients[c := b'.clients[c]] &&
            b'.clients[c].msgs == b.clients[c].msgs + Flat(pieces) && |topics| == |qs| == |pieces| && NoDup(topics) &&
            (forall topic :: R.PubTopicOk(topic) && RetainedAt(tree.root, FullPath(topic)).Some? ==>
               (topic in topics <==> Matches(filter, topic) && !BrokerLaws.Skipped(tree, filter, topic))) &&
            forall i :: 0 <= i < |topics| ==>
              R.PubTopicOk(topics[i]) &&
              Offered(u, b, RetainedAt(tree.root, FullPath(topics[i])), b.clients[c], Flat(pieces[..i]), qos, qs[i],
                      pieces[i])
  {
    hide Run, R.Run, R.Step, Step, GoodTopics, Distinct, BrokerLaws.OfferedTo, BrokerLaws.Skipped, OfferLaws.OffersTo,
         Flat, Matches, RetainedAt, FullPath, SlotsOf, TopicsOf, Offered, Tokens, SameSlots, R.PubTopicOk;
    var b, request := BrokerOf(u, w), R.Subscribe(BrokerOf(u, w).clients[c].id, filter, qos);
    var w1 := w.(requests := w.requests + [request]);
    RequestKeeps(w, request, b);
    var top, paths := Tokens(filter)[0], BrokerLaws.OfferedTo(Tree(w1), filter);
    var from := SlotsOf(w, top, paths);
    topics := OfferedTopics(w1, filter);
    SameWhere(w, w1, top, paths);
    OfferedTopicsIff(w1, b, filter);
    NextRun(u, w.ops, Offer(c, from, qos));
    qs, pieces := OfferLaws.OfferReaches(u, w.ops, c, from, qos);
    EachOffered(u, w1, b, b.clients[c], top, paths, qos, qs, pieces);
  }

  lemma {:induction false} SameWhere(w: World, w1: World, top: string, paths: seq<Path>)
    requires w1.at == w.at
    ensures SlotsOf(w1, top, paths) == SlotsOf(w, top, paths)
  {
    if paths != [] {
      SameWhere(w, w1, top, paths[1..]);
      hide IsFullPath, Spelled;
    }
  }

  lemma EachOffered(u: Setup, w: World, b: Broker, s: Session, top: string, paths: seq<Path>, granted: Qos,
                    qs: seq<Qos>,
                    pieces: seq<seq<ClientMsg>>)
    requires SameSlots(w.at, Tree(w), b) && OfferLaws.SlotsStored(b)
    requires OfferLaws.OffersTo(u, b, s, SlotsOf(w, top, paths), granted, qs, pieces)
    ensures var topics := TopicsOf(w, top, paths);
            |topics| == |qs| == |pieces| &&
            forall i :: 0 <= i < |topics| ==>
              R.PubTopicOk(topics[i]) &&
              Offered(u, b, RetainedAt(Tree(w).root, FullPath(topics[i])), s, Flat(pieces[..i]), granted, qs[i],
                      pieces[i])
  {
    hide R.Run, RetainedAt, FullPath, R.PubTopicOk, Held, Flat, RightQos, CopyLaws.Queues, SlotsOf, TopicsOf;
    var topics, from := TopicsOf(w, top, paths), SlotsOf(w, top, paths);
    forall i | 0 <= i < |topics|
      ensures R.PubTopicOk(topics[i])
      ensures Offered(u, b, RetainedAt(Tree(w).root, FullPath(topics[i])), s, Flat(pieces[..i]), granted, qs[i],
                      pieces[i])
    {
      assert from[i] == w.at[topics[i]];
      assert RetainedAt(Tree(w).root, FullPath(topics[i])) == InSlotOf(w.at, b, topics[i]);
    }
  }

  /** A client that subscribes, after any run of what clients do, gets a retained
      copy of the message of every topic that holds one and that its filter matches,
      but for the one gap of the search, each of the lower QoS, as far as there is
      room: without an in-flight limit all of them. No other queue and no slot
      changes. */
  lemma NewSubscriber(u: Setup, acts: seq<Act>, c: nat, filter: string, qos: Qos)
    returns (topics: seq<string>, qs: seq<Qos>, pieces: seq<seq<ClientMsg>>)
    requires var b := BrokerOf(u, Life(u, acts)); c < |b.clients| && b.clients[c].connected && SubTopicOk(filter)
    ensures var w' := Life(u, acts + [Subscribe(c, filter, qos)]);
            var b, b', tree := BrokerOf(u, Life(u, acts)), BrokerOf(u, w'), Tree(w');
            b'.slots == b.slots && |b'.clients| == |b.clients| && b'.clients == b.clients[c := b'.clients[c]] &&
            b'.clients[c].msgs == b.clients[c].msgs + Flat(pieces) && |topics| == |qs| == |pieces| && NoDup(topics) &&
            (forall topic :: R.PubTopicOk(topic) && RetainedAt(tree.root, FullPath(topic)).Some? ==>
               (topic in topics <==> Matches(filter, topic) && !BrokerLaws.Skipped(tree, filter, topic))) &&
            (forall i :: 0 <= i < |topics| ==>
               R.PubTopicOk(topics[i]) &&
               Offered(u, b, RetainedAt(tree.root, FullPath(topics[i])), b.clients[c], Flat(pieces[..i]), qos, qs[i],
                       pieces[i])) &&
            (u.lim.inflight == 0 ==>
               forall i :: 0 <= i < |topics| && RetainedAt(tree.root, FullPath(topics[i])).Some? ==>
                 |pieces[i]| == 1 && pieces[i][0].state != Queued &&
                 Some(pieces[i][0].store) == RetainedAt(tree.root, FullPath(topics[i])))
  {
    LifeHolds(u, acts);
    var w, act := Life(u, acts), Subscribe(c, filter, qos);
    assert (acts + [act])[..|acts|] == acts;
    assert Life(u, acts + [act]) == DoSubscribe(u, w, c, filter, qos);
    hide Life, OneBroker, Run, R.Run, DoSubscribe, BrokerLaws.Skipped, Matches, RetainedAt, FullPath, R.PubTopicOk,
         Flat,
         Held;
    topics, qs, pieces := SubscribeOffers(u, w, c, filter, qos);
  }
}
