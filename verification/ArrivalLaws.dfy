/** What an arriving message puts into queues and slots. */
module ArrivalLaws {
  import opened Common
  import opened SubTree
  import opened ClientQueue
  import opened MsgStore
  import opened BrokerStore
  import opened BrokerStoreSteps
  import WaitingLaws

  // -------------------------------------------------------- one piece of work

  /** Only outgoing copies of the message are added. */
  predicate Adds(a: seq<ClientMsg>, b: seq<ClientMsg>, id: StoreId) {
    |a| <= |b| && b[..|a|] == a &&
    forall i :: |a| <= i < |b| ==> b[i].store == id && b[i].direction == Out && !b[i].retain
  }

  /** What is handed on is this message, and it stays as it is. */
  ghost predicate HandsOn(b: Broker, r: Broker, id: StoreId) {
    id in b.stores && id in r.stores && Content(r.stores[id]) == Content(b.stores[id]) &&
    |r.clients| == |b.clients| && |r.slots| == |b.slots| &&
    forall k :: 0 <= k < |b.clients| ==> Adds(b.clients[k].msgs, r.clients[k].msgs, id)
  }

  /** A message without the record of where it went. */
  function Content(s: Store): Store {
    s.(refCount := 0, destIds := [])
  }

  function InSlot(b: Broker, id: StoreId): Option<StoreId>
    requires id in b.stores
  {
    if b.stores[id].hasPayload then Some(id) else None
  }

  lemma WorkHands(u: Setup, b: Broker, id: StoreId, qos: Qos, w: Work)
    requires Balanced(b, multiset{id})
    ensures var r := DoWork(u, b, id, qos, w);
            HandsOn(b, r, id) &&
            forall s :: 0 <= s < |b.slots| ==> r.slots[s] == if w == Keep(s) then InSlot(b, id) else b.slots[s]
  {
    hide Balanced, SetSlot, InsertOut, GrantedQos;
    StillThere(b, multiset{id}, id);
    Nothing(b, id);
    match w
    case Keep(slot) => if slot < |b.slots| { SlotHands(b, id, slot); }
    case Copy(c, granted) => if c < |b.clients| { CopyHands(u, b, id, GrantedQos(u.cfg, qos, granted), c); }
  }

  lemma Nothing(b: Broker, id: StoreId)
    requires id in b.stores
    ensures HandsOn(b, b, id)
  {
  }

  lemma CopyHands(u: Setup, b: Broker, id: StoreId, qos: Qos, c: nat)
    requires id in b.stores && c < |b.clients|
    ensures var r := InsertOut(u, b, c, qos, false, id); HandsOn(b, r, id) && r.slots == b.slots
  {
    hide Admit, AlreadySent, NextMid, Count12;
  }

  lemma SlotHands(b: Broker, id: StoreId, slot: nat)
    requires Balanced(b, multiset{id}) && id in b.stores && slot < |b.slots|
    ensures var r := SetSlot(b, slot, id); HandsOn(b, r, id) && r.slots == b.slots[slot := InSlot(b, id)]
    ensures SetSlot(b, slot, id).clients == b.clients &&
            SetSlot(b, slot, id).stores[id].destIds == b.stores[id].destIds
  {
    SlotSpare(b, id, slot);
    hide Balanced, Deref;
    if b.slots[slot].Some? { DerefStays(b.stores, b.slots[slot].value, id); }
  }

  /** The slot's reference is not the last one of a protected message. */
  lemma SlotSpare(b: Broker, id: StoreId, slot: nat)
    requires Balanced(b, multiset{id}) && id in b.stores && slot < |b.slots|
    ensures b.slots[slot] == Some(id) ==> b.stores[id].refCount > 1
  {
    if b.slots[slot].Some? { SlotCounts(b, slot); }
    hide Refs;
    assert b.stores[id].refCount == (Refs(b) + multiset{id})[id];
  }

  lemma DerefStays(stores: Stores, k: StoreId, id: StoreId)
    requires id in stores && (k == id ==> stores[id].refCount > 1)
    ensures id in Deref(stores, k) && Content(Deref(stores, k)[id]) == Content(stores[id])
    ensures Deref(stores, k)[id].destIds == stores[id].destIds
  {
  }

  lemma SlotCounts(b: Broker, slot: nat)
    requires slot < |b.slots| && b.slots[slot].Some?
    ensures b.slots[slot].value in Refs(b)
  {
    SlotRefsUpdate(b.slots, slot, None);
    var v, rest := b.slots[slot].value, SlotRefs(b.slots[slot := None]);
    assert (rest + SlotRef(b.slots[slot]))[v] == rest[v] + 1;
    assert SlotRefs(b.slots) + SlotRef(None) == SlotRefs(b.slots);
  }

  // ------------------------------------------------------------ all the work

  lemma HandsJoin(a: Broker, b: Broker, c: Broker, id: StoreId)
    requires HandsOn(a, b, id) && HandsOn(b, c, id)
    ensures HandsOn(a, c, id)
  {
    forall k | 0 <= k < |a.clients| ensures Adds(a.clients[k].msgs, c.clients[k].msgs, id) {
      AddsJoin(a.clients[k].msgs, b.clients[k].msgs, c.clients[k].msgs, id);
    }
  }

  lemma AddsJoin(a: seq<ClientMsg>, b: seq<ClientMsg>, c: seq<ClientMsg>, id: StoreId)
    requires Adds(a, b, id) && Adds(b, c, id)
    ensures Adds(a, c, id)
  {
    assert c[..|a|] == c[..|b|][..|a|] == a;
    assert forall i :: 0 <= i < |b| ==> c[..|b|][i] == c[i];
  }

  lemma {:induction false} WorksHand(u: Setup, b: Broker, id: StoreId, qos: Qos, work: seq<Work>)
    requires Balanced(b, multiset{id})
    ensures id in b.stores && HandsOn(b, DoWorks(u, b, id, qos, work), id)
    ensures var r := DoWorks(u, b, id, qos, work);
            forall s :: 0 <= s < |b.slots| ==> r.slots[s] == if Keep(s) in work then InSlot(b, id) else b.slots[s]
    decreases |work|
  {
    StillThere(b, multiset{id}, id);
    hide Balanced, DoWork, HandsOn;
    if work == [] {
      Nothing(b, id);
    } else {
      var b' := DoWork(u, b, id, qos, work[0]);
      WorkHands(u, b, id, qos, work[0]);
      WorkBalanced(u, b, multiset{id}, id, qos, work[0]);
      WorksHand(u, b', id, qos, work[1..]);
      HandsJoin(b, b', DoWorks(u, b, id, qos, work), id);
      assert InSlot(b', id) == InSlot(b, id) by { SamePayload(b, b', id); }
      assert forall w :: w in work <==> w == work[0] || w in work[1..];
    }
  }

  lemma SamePayload(b: Broker, r: Broker, id: StoreId)
    requires HandsOn(b, r, id)
    ensures r.stores[id].hasPayload == b.stores[id].hasPayload
  {
    assert Content(r.stores[id]).hasPayload == Content(b.stores[id]).hasPayload;
  }

  lemma QueueHands(u: Setup, b: Broker, id: StoreId, qos: Qos, work: seq<Work>)
    requires Balanced(b, multiset{}) && id in b.stores
    ensures var r := MessagesQueue(u, b, id, qos, work);
            |r.clients| == |b.clients| && |r.slots| == |b.slots| &&
            (forall k :: 0 <= k < |b.clients| ==> Adds(b.clients[k].msgs, r.clients[k].msgs, id)) &&
            (forall s :: 0 <= s < |b.slots| ==> r.slots[s] == if Keep(s) in work then InSlot(b, id) else b.slots[s]) &&
            (id in r.stores ==> Content(r.stores[id]) == Content(b.stores[id]))
  {
    ProtectBalanced(b, id);
    hide Balanced, DoWorks;
    WorksHand(u, Protect(b, id), id, qos, work);
  }

  // ---------------------------------------------------------- over every run

  /** A PUBLISH under the id of a message that still waits is taken for it. */
  predicate Reuses(b: Broker, c: nat, mid: Mid, qos: Qos)
    requires c < |b.clients|
  {
    qos > 0 && FindIncoming(b.clients[c].msgs, b.stores, mid).Some?
  }

  /** The message that a PUBLISH of QoS 0 or 1 is handed on as. */
  function TakenFor(b: Broker, c: nat, mid: Mid, qos: Qos): (id: StoreId)
    requires c < |b.clients|
  {
    if Reuses(b, c, mid, qos) then FindIncoming(b.clients[c].msgs, b.stores, mid).value else b.lastDbId + 1
  }

  lemma {:induction false} FoundStored(msgs: seq<ClientMsg>, stores: Stores, mid: Mid)
    requires FindIncoming(msgs, stores, mid).Some?
    ensures FindIncoming(msgs, stores, mid).value in stores
  {
    if !(msgs[0].direction == In && msgs[0].store in stores && stores[msgs[0].store].sourceMid == mid) {
      FoundStored(msgs[1..], stores, mid);
    }
  }

  /** What the message that is handed on is: the one published, or the one that
      waits under the id. */
  function Published(b: Broker, c: nat, op: Op): Store
    requires c < |b.clients| && op.Arrive?
    requires Reuses(b, c, op.mid, op.qos) ==> TakenFor(b, c, op.mid, op.qos) in b.stores
  {
    if Reuses(b, c, op.mid, op.qos) then Content(b.stores[TakenFor(b, c, op.mid, op.qos)])
    else Store(0, b.clients[c].id, op.mid, Some(op.topic), op.qos, op.retain, op.hasPayload, [])
  }

  /** After any run: a PUBLISH of QoS 0 or 1 hands on one message, which is its
      own unless its id is that of a message that waits; copies of it alone join
      the queues, and it takes the slots the tree names. */
  lemma ArriveHands(u: Setup, ops: seq<Op>, op: Op)
    requires op.Arrive? && op.qos != 2 && Possible(Run(u, ops), op)
    ensures var b, id := Run(u, ops), TakenFor(Run(u, ops), op.c, op.mid, op.qos);
            (Reuses(b, op.c, op.mid, op.qos) <==> op.qos > 0 && WaitingLaws.Waits(b.clients[op.c].msgs, op.mid)) &&
            (Reuses(b, op.c, op.mid, op.qos) ==> id in b.stores) &&
            (op.qos > 0 ==>
               forall m :: m in b.clients[op.c].msgs && m.direction == In && m.mid == op.mid ==> id == m.store)
    ensures var b, b' := Run(u, ops), Step(u, Run(u, ops), op);
            var id := TakenFor(b, op.c, op.mid, op.qos);
            var s := Published(b, op.c, op);
            |b'.clients| == |b.clients| && |b'.slots| == |b.slots| &&
            (forall k :: 0 <= k < |b.clients| ==> Adds(b.clients[k].msgs, b'.clients[k].msgs, id)) &&
            (forall k :: 0 <= k < |b.slots| ==>
               b'.slots[k] == if Keep(k) in op.work then (if s.hasPayload then Some(id) else None) else b.slots[k]) &&
            (id in b'.stores ==> Content(b'.stores[id]) == s)
  {
    RunSound(u, ops);
    var b, id := Run(u, ops), TakenFor(Run(u, ops), op.c, op.mid, op.qos);
    WaitingLaws.FoundWaiting(u, ops, op.c, op.mid);
    WaitingOne(b.clients[op.c].msgs, op.mid);
    hide Run, MessagesQueue, FindIncoming, Orderly, Balanced, WaitingLaws.Waits;
    if Reuses(b, op.c, op.mid, op.qos) {
      FoundStored(b.clients[op.c].msgs, b.stores, op.mid);
      QueueHands(u, b, id, op.qos, op.work);
    } else {
      NewIsFresh(u, b);
      NewStoreBalanced(b, multiset{}, b.clients[op.c].id, op.mid, Some(op.topic), op.qos, op.retain, op.hasPayload);
      QueueHands(u, NewStore(b, b.clients[op.c].id, op.mid, Some(op.topic), op.qos, op.retain, op.hasPayload), id,
                 op.qos, op.work);
    }
  }

  lemma WaitingOne(msgs: seq<ClientMsg>, mid: Mid)
    ensures forall m :: m in msgs && m.direction == In && m.mid == mid ==> WaitingLaws.Waits(msgs, mid)
  {
  }

  lemma NewIsFresh(u: Setup, b: Broker)
    requires Sound(u, b)
    ensures b.lastDbId + 1 !in b.stores
  {
    hide Balanced;
  }

  /** The retained map holds the message published if and only if the PUBLISH
      has QoS 0 or an id under which nothing waits. */
  lemma KeptIsPublished(u: Setup, ops: seq<Op>, op: Op, slot: nat)
    requires op.Arrive? && op.qos != 2 && Possible(Run(u, ops), op) && op.hasPayload
    requires slot < |Run(u, ops).slots| && Keep(slot) in op.work
    ensures var b, b' := Run(u, ops), Step(u, Run(u, ops), op);
            b'.slots[slot] == Some(b.lastDbId + 1) <==>
            op.qos == 0 || !WaitingLaws.Waits(b.clients[op.c].msgs, op.mid)
    ensures var b, b' := Run(u, ops), Step(u, Run(u, ops), op);
            b'.slots[slot] == Some(b.lastDbId + 1) ==>
              b.lastDbId + 1 in b'.stores && b'.stores[b.lastDbId + 1].topic == Some(op.topic)
  {
    hide *;
    var b, b' := Run(u, ops), Step(u, Run(u, ops), op);
    ArriveHands(u, ops, op);
    FreshOr(u, ops, op);
    WaitingLaws.FoundWaiting(u, ops, op.c, op.mid);
    NextRun(u, ops, op);
    if b'.slots[slot] == Some(b.lastDbId + 1) { SlotsThere(u, ops + [op], slot); }
    PublishedIs(b, op);
  }

  lemma PublishedIs(b: Broker, op: Op)
    requires op.Arrive? && op.c < |b.clients|
    requires Reuses(b, op.c, op.mid, op.qos) ==> TakenFor(b, op.c, op.mid, op.qos) in b.stores
    ensures !Reuses(b, op.c, op.mid, op.qos) ==>
              Published(b, op.c, op).hasPayload == op.hasPayload && Published(b, op.c, op).topic == Some(op.topic)
    ensures forall s: Store, t :: Content(s) == t ==> s.topic == t.topic
  {
  }

  lemma FreshOr(u: Setup, ops: seq<Op>, op: Op)
    requires op.Arrive? && Possible(Run(u, ops), op)
    ensures var b := Run(u, ops);
            op.c < |b.clients| &&
            (Reuses(b, op.c, op.mid, op.qos) <==>
             !(op.qos == 0 || FindIncoming(b.clients[op.c].msgs, b.stores, op.mid) == None)) &&
            (TakenFor(b, op.c, op.mid, op.qos) == b.lastDbId + 1 <==> !Reuses(b, op.c, op.mid, op.qos))
  {
    RunSound(u, ops);
    var b := Run(u, ops);
    NewIsFresh(u, b);
    hide Run, Balanced, Orderly, FindIncoming;
    if Reuses(b, op.c, op.mid, op.qos) { FoundStored(b.clients[op.c].msgs, b.stores, op.mid); }
  }

  lemma SlotsThere(u: Setup, ops: seq<Op>, slot: nat)
    requires slot < |Run(u, ops).slots| && Run(u, ops).slots[slot].Some?
    ensures Run(u, ops).slots[slot].value in Run(u, ops).stores
  {
    RunSound(u, ops);
    SlotCounts(Run(u, ops), slot);
    hide Run, Refs;
    assert Run(u, ops).slots[slot].value in Refs(Run(u, ops)) + multiset{};
  }

  lemma NextRun(u: Setup, ops: seq<Op>, op: Op)
    ensures Run(u, ops + [op]) == Step(u, Run(u, ops), op)
  {
    assert (ops + [op])[..|ops|] == ops;
  }
}
