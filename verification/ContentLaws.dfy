/** What a stored message is: what was published, as long as it is stored. */
module ContentLaws {
  import opened Common
  import opened SubTree
  import opened ClientQueue
  import opened MsgStore
  import opened BrokerStore
  import opened ArrivalLaws
  import BrokerStoreSteps

  /** Messages may have gone; those still there are the same. */
  ghost predicate Same(a: Stores, b: Stores) {
    forall id :: id in b ==> id in a && Content(b[id]) == Content(a[id])
  }

  lemma SameTwice(a: Stores, b: Stores, c: Stores)
    requires Same(a, b) && Same(b, c)
    ensures Same(a, c)
  {
  }

  lemma SameItself(a: Stores)
    ensures Same(a, a)
  {
  }

  lemma DerefSame(stores: Stores, id: StoreId)
    ensures Same(stores, Deref(stores, id)) && (id in stores ==> Same(stores, Ref(stores, id)))
  {
  }

  lemma {:induction false} DerefAllSame(stores: Stores, ids: seq<StoreId>)
    ensures Same(stores, DerefAll(stores, ids))
    decreases |ids|
  {
    hide Deref, Same;
    SameItself(stores);
    if ids != [] {
      DerefSame(stores, ids[0]);
      DerefAllSame(Deref(stores, ids[0]), ids[1..]);
      SameTwice(stores, Deref(stores, ids[0]), DerefAll(stores, ids));
    }
  }

  lemma InsertSame(u: Setup, b: Broker, c: nat, mid: Mid, dir: Direction, qos: Qos, retain: bool, id: StoreId)
    requires c < |b.clients| && id in b.stores
    ensures Same(b.stores, Insert(u, b, c, mid, dir, qos, retain, id).stores)
  {
    hide Admit, AlreadySent, Count12;
  }

  lemma InsertOutSame(u: Setup, b: Broker, c: nat, qos: Qos, retain: bool, id: StoreId)
    requires c < |b.clients| && id in b.stores
    ensures Same(b.stores, InsertOut(u, b, c, qos, retain, id).stores)
  {
    hide Insert, NextMid, Same;
    var mid := NextMid(b.clients[c].lastMid);
    if qos == 0 {
      InsertSame(u, b, c, 0, Out, 0, retain, id);
    } else {
      InsertSame(u, b.(clients := b.clients[c := b.clients[c].(lastMid := mid)]), c, mid, Out, qos, retain, id);
    }
  }

  lemma SetSlotSame(b: Broker, slot: nat, id: StoreId)
    requires slot < |b.slots|
    ensures Same(b.stores, SetSlot(b, slot, id).stores)
  {
  }

  lemma {:induction false} WorksSame(u: Setup, b: Broker, id: StoreId, qos: Qos, work: seq<Work>)
    ensures Same(b.stores, DoWorks(u, b, id, qos, work).stores)
    decreases |work|
  {
    hide Same, SetSlot, InsertOut, GrantedQos;
    SameItself(b.stores);
    if work != [] {
      match work[0] {
        case Keep(slot) => if slot < |b.slots| { SetSlotSame(b, slot, id); }
        case Copy(c, granted) =>
          if c < |b.clients| && id in b.stores { InsertOutSame(u, b, c, GrantedQos(u.cfg, qos, granted), false, id); }
      }
      var b' := DoWork(u, b, id, qos, work[0]);
      WorksSame(u, b', id, qos, work[1..]);
      SameTwice(b.stores, b'.stores, DoWorks(u, b, id, qos, work).stores);
    }
  }

  lemma QueueSame(u: Setup, b: Broker, id: StoreId, qos: Qos, work: seq<Work>)
    requires id in b.stores
    ensures Same(b.stores, MessagesQueue(u, b, id, qos, work).stores)
  {
    hide Same, DoWorks, Deref;
    var p := Protect(b, id);
    var b' := DoWorks(u, p, id, qos, work);
    DerefSame(b.stores, id);
    WorksSame(u, p, id, qos, work);
    DerefSame(b'.stores, id);
    SameTwice(b.stores, p.stores, b'.stores);
    SameTwice(b.stores, b'.stores, Deref(b'.stores, id));
  }

  lemma {:induction false} OfferSame(u: Setup, b: Broker, c: nat, from: seq<nat>, granted: Qos)
    requires c < |b.clients|
    ensures Same(b.stores, DoOffer(u, b, c, from, granted).stores)
    decreases |from|
  {
    hide Same, InsertOut;
    SameItself(b.stores);
    if from != [] {
      if from[0] < |b.slots| && b.slots[from[0]].Some? && b.slots[from[0]].value in b.stores {
        var id := b.slots[from[0]].value;
        var qos := if b.stores[id].qos > granted then granted else b.stores[id].qos;
        InsertOutSame(u, b, c, qos, true, id);
        OfferSame(u, InsertOut(u, b, c, qos, true, id), c, from[1..], granted);
        SameTwice(b.stores, InsertOut(u, b, c, qos, true, id).stores, DoOffer(u, b, c, from, granted).stores);
      } else {
        OfferSame(u, b, c, from[1..], granted);
      }
    }
  }

  lemma RemoveSame(u: Setup, b: Broker, c: nat, i: nat)
    requires c < |b.clients| && i < |b.clients[c].msgs|
    ensures Same(b.stores, RemoveAt(u, b, c, i).stores)
  {
    hide Same, Deref, PromoteHead;
    DerefSame(b.stores, b.clients[c].msgs[i].store);
  }

  lemma {:induction false} ReleaseSame(u: Setup, b: Broker, c: nat, i: nat, index: nat, mid: Mid, deleted: bool,
                                       works: seq<seq<Work>>)
    requires c < |b.clients|
    ensures Same(b.stores, ReleaseFrom(u, b, c, i, index, mid, deleted, works).stores)
    decreases |works|, |b.clients[c].msgs| - i
  {
    hide Same, MessagesQueue, RemoveAt, Touched;
    SameItself(b.stores);
    if i < |b.clients[c].msgs| {
      var b1 := TouchAt(u, b, c, i, index + 1);
      var m := b1.clients[c].msgs[i];
      if IsEntry(m, mid, In) {
        var quiet := works == [] || m.store !in b1.stores || b1.stores[m.store].topic == None;
        if !quiet { QueueSame(u, b1, m.store, b1.stores[m.store].qos, works[0]); }
        var b2 := if quiet then b1 else MessagesQueue(u, b1, m.store, b1.stores[m.store].qos, works[0]);
        if i < |b2.clients[c].msgs| {
          RemoveSame(u, b2, c, i);
          var b3 := RemoveAt(u, b2, c, i);
          SameTwice(b.stores, b2.stores, b3.stores);
          if index + 1 <= u.lim.inflight {
            BrokerStoreSteps.RemoveShorter(u, b2, c, i);
            var rest := if works == [] then [] else works[1..];
            ReleaseSame(u, b3, c, i, index + 1, mid, true, rest);
            SameTwice(b.stores, b3.stores, ReleaseFrom(u, b3, c, i, index + 1, mid, true, rest).stores);
          }
        }
      } else if !(index + 1 > u.lim.inflight && deleted) {
        ReleaseSame(u, b1, c, i + 1, index + 1, mid, deleted, works);
      }
    }
  }

  // ------------------------------------------------------------ over every run

  /** What an operation that stores a message stores. */
  predicate Stored(b: Broker, op: Op, s: Store) {
    match op
    case Arrive(c, mid, qos, topic, retain, hasPayload, _) =>
      c < |b.clients| && s == Store(0, b.clients[c].id, mid, Some(topic), qos, retain, hasPayload, [])
    case ArriveQos2(c, mid, access, retain, hasPayload) =>
      c < |b.clients| && s == Store(0, b.clients[c].id, mid, access, 2, retain, hasPayload, [])
    case _ => false
  }

  /** Messages are stored by PUBLISH only, with the sender, id, topic, QoS, retain
      flag and payload it came with, and stay as they are; a message that access
      control denied has no topic. */
  lemma StepContent(u: Setup, b: Broker, op: Op)
    ensures forall id :: id in Step(u, b, op).stores ==>
              var s := Content(Step(u, b, op).stores[id]);
              (id in b.stores && s == Content(b.stores[id])) || (id == b.lastDbId + 1 && Stored(b, op, s))
  {
    hide DoArrive, DoArriveQos2, ReleaseFrom, Delete, WriteFrom, Timeout, Update, Reset, DoOffer, DerefAll, StoresOf;
    SameItself(b.stores);
    if Possible(b, op) {
      match op
      case Arrive(c, mid, qos, topic, retain, hasPayload, work) => if qos != 2 { ArriveContent(u, b, op); }
      case ArriveQos2(c, mid, topic, retain, hasPayload) => ArriveQos2Content(u, b, op);
      case Release(c, mid, works) => ReleaseSame(u, b, c, 0, 0, mid, false, works);
      case Acknowledged(c, mid) =>
        DerefAllSame(b.stores, StoresOf(Delete(b.clients[c].msgs, mid, Out, u.lim).removed));
      case Write(c, budget) =>
        if IncomingQos2(b.clients[c].msgs) {
          DerefAllSame(b.stores, StoresOf(WriteFrom([], b.clients[c].msgs, u.lim, budget, 0).gone));
        }
      case Clean(c) => DerefAllSame(b.stores, StoresOf(b.clients[c].msgs));
      case Offer(c, from, granted) => OfferSame(u, b, c, from, granted);
      case _ =>
    }
  }

  lemma ArriveContent(u: Setup, b: Broker, op: Op)
    requires op.Arrive? && op.c < |b.clients| && op.qos != 2
    ensures var r := DoArrive(u, b, op.c, op.mid, op.qos, op.topic, op.retain, op.hasPayload, op.work);
            forall id :: id in r.stores ==>
              var s := Content(r.stores[id]);
              (id in b.stores && s == Content(b.stores[id])) || (id == b.lastDbId + 1 && Stored(b, op, s))
  {
    hide MessagesQueue, FindIncoming;
    var found := if op.qos > 0 then FindIncoming(b.clients[op.c].msgs, b.stores, op.mid) else None;
    if found.Some? && found.value in b.stores {
      QueueSame(u, b, found.value, op.qos, op.work);
    } else {
      var b' := NewStore(b, b.clients[op.c].id, op.mid, Some(op.topic), op.qos, op.retain, op.hasPayload);
      QueueSame(u, b', b'.lastDbId, op.qos, op.work);
    }
  }

  lemma ArriveQos2Content(u: Setup, b: Broker, op: Op)
    requires op.ArriveQos2? && op.c < |b.clients|
    ensures var r := DoArriveQos2(u, b, op.c, op.mid, op.access, op.retain, op.hasPayload);
            forall id :: id in r.stores ==>
              var s := Content(r.stores[id]);
              (id in b.stores && s == Content(b.stores[id])) || (id == b.lastDbId + 1 && Stored(b, op, s))
  {
    hide Insert, FindIncoming;
    if FindIncoming(b.clients[op.c].msgs, b.stores, op.mid) == None {
      var b' := NewStore(b, b.clients[op.c].id, op.mid, op.access, 2, op.retain, op.hasPayload);
      InsertSame(u, b', op.c, op.mid, In, 2, op.retain, b'.lastDbId);
    }
  }

  /** Over every run: each stored message is what some PUBLISH brought. */
  lemma {:induction false} Origin(u: Setup, ops: seq<Op>, id: StoreId) returns (j: nat)
    requires id in Run(u, ops).stores
    ensures j < |ops| && id == Run(u, ops[..j]).lastDbId + 1
    ensures Stored(Run(u, ops[..j]), ops[j], Content(Run(u, ops).stores[id]))
  {
    hide Step;
    var before, op := ops[..|ops| - 1], ops[|ops| - 1];
    var b := Run(u, before);
    StepContent(u, b, op);
    if id in b.stores && Content(Run(u, ops).stores[id]) == Content(b.stores[id]) {
      j := Origin(u, before, id);
      assert ops[..j] == before[..j];
    } else {
      j := |before|;
    }
  }
}
