/** What was stored for nothing stays in the store, whatever the broker does next,
    over every operation. */
module LeakLaws {
  import opened Common
  import opened SubTree
  import opened ClientQueue
  import opened MsgStore
  import opened BrokerStore
  import opened BrokerStoreSteps
  import ArrivalLaws
  import BrokerEntries

  // ---------------------------------- only the message handed on is taken back

  lemma WorkLeaks(u: Setup, b: Broker, id: StoreId, qos: Qos, w: Work)
    ensures b.leaked - {id} <= DoWork(u, b, id, qos, w).leaked
  {
    hide Admit, AlreadySent, GrantedQos, NextMid, Deref, Taken;
  }

  lemma {:induction false} WorksLeak(u: Setup, b: Broker, id: StoreId, qos: Qos, work: seq<Work>)
    ensures b.leaked - {id} <= DoWorks(u, b, id, qos, work).leaked
    decreases |work|
  {
    hide DoWork;
    if work != [] {
      WorkLeaks(u, b, id, qos, work[0]);
      WorksLeak(u, DoWork(u, b, id, qos, work[0]), id, qos, work[1..]);
    }
  }

  lemma QueueLeaks(u: Setup, b: Broker, id: StoreId, qos: Qos, work: seq<Work>)
    requires id in b.stores
    ensures b.leaked - {id} <= MessagesQueue(u, b, id, qos, work).leaked
  {
    hide DoWorks;
    WorksLeak(u, Protect(b, id), id, qos, work);
  }

  // --------------------------------------- what is pointed at is not of these

  lemma EntryKept(b: Broker, c: nat, i: nat)
    requires Balanced(b, multiset{}) && c < |b.clients| && i < |b.clients[c].msgs|
    ensures b.clients[c].msgs[i].store !in b.leaked
  {
    var msgs := b.clients[c].msgs;
    assert StoresOf(msgs)[i] == msgs[i].store;
    assert msgs[i].store in RefsIn(msgs);
    BrokerEntries.QueueRefsHas(b.clients, c, msgs[i].store);
    assert msgs[i].store in Refs(b) + multiset{};
  }

  lemma SlotKept(b: Broker, slot: nat)
    requires Balanced(b, multiset{}) && slot < |b.slots| && b.slots[slot].Some?
    ensures b.slots[slot].value !in b.leaked
  {
    ArrivalLaws.SlotCounts(b, slot);
    hide Refs;
    assert b.slots[slot].value in Refs(b) + multiset{};
  }

  lemma {:induction false} FoundAt(msgs: seq<ClientMsg>, stores: Stores, mid: Mid) returns (i: nat)
    requires FindIncoming(msgs, stores, mid).Some?
    ensures i < |msgs| && msgs[i].store == FindIncoming(msgs, stores, mid).value && msgs[i].store in stores
  {
    i := 0;
    if !(msgs[0].direction == In && msgs[0].store in stores && stores[msgs[0].store].sourceMid == mid) {
      i := FoundAt(msgs[1..], stores, mid);
      i := i + 1;
    }
  }

  // ----------------------------------------------------------- every operation

  lemma ArriveLeaks(u: Setup, b: Broker, c: nat, mid: Mid, qos: Qos, topic: string, retain: bool, hasPayload: bool,
                    work: seq<Work>)
    requires Balanced(b, multiset{}) && c < |b.clients| && b.lastDbId + 1 !in b.stores
    ensures b.leaked <= DoArrive(u, b, c, mid, qos, topic, retain, hasPayload, work).leaked
  {
    hide MessagesQueue, FindIncoming, Refs;
    var found := if qos > 0 then FindIncoming(b.clients[c].msgs, b.stores, mid) else None;
    if found.Some? {
      var i := FoundAt(b.clients[c].msgs, b.stores, mid);
      EntryKept(b, c, i);
      QueueLeaks(u, b, found.value, qos, work);
    } else {
      var b' := NewStore(b, b.clients[c].id, mid, Some(topic), qos, retain, hasPayload);
      QueueLeaks(u, b', b'.lastDbId, qos, work);
    }
  }

  lemma ArriveQos2Leaks(u: Setup, b: Broker, c: nat, mid: Mid, topic: Option<string>, retain: bool, hasPayload: bool)
    requires Balanced(b, multiset{}) && c < |b.clients| && b.lastDbId + 1 !in b.stores
    ensures b.leaked <= DoArriveQos2(u, b, c, mid, topic, retain, hasPayload).leaked
  {
    hide FindIncoming, Refs, Admit, AlreadySent, Taken;
  }

  lemma {:induction false} OfferLeaks(u: Setup, b: Broker, c: nat, from: seq<nat>, granted: Qos)
    requires Balanced(b, multiset{}) && c < |b.clients|
    ensures b.leaked <= DoOffer(u, b, c, from, granted).leaked
    decreases |from|
  {
    hide Balanced, InsertOut;
    if from != [] {
      if from[0] < |b.slots| && b.slots[from[0]].Some? && b.slots[from[0]].value in b.stores {
        var id := b.slots[from[0]].value;
        var qos := if b.stores[id].qos > granted then granted else b.stores[id].qos;
        SlotKept(b, from[0]);
        InsertOutBalanced(u, b, multiset{}, c, qos, true, id);
        InsertOutLeaks(u, b, c, qos, true, id);
        OfferLeaks(u, InsertOut(u, b, c, qos, true, id), c, from[1..], granted);
      } else {
        OfferLeaks(u, b, c, from[1..], granted);
      }
    }
  }

  lemma InsertOutLeaks(u: Setup, b: Broker, c: nat, qos: Qos, retain: bool, id: StoreId)
    requires c < |b.clients| && id in b.stores
    ensures b.leaked - {id} <= InsertOut(u, b, c, qos, retain, id).leaked
  {
    hide Admit, AlreadySent, Taken, NextMid;
  }

  lemma {:induction false} ReleaseLeaks(u: Setup, b: Broker, c: nat, i: nat, index: nat, mid: Mid, deleted: bool,
                                        works: seq<seq<Work>>)
    requires Balanced(b, multiset{}) && c < |b.clients|
    ensures b.leaked <= ReleaseFrom(u, b, c, i, index, mid, deleted, works).leaked
    decreases |works|, |b.clients[c].msgs| - i
  {
    hide Balanced, MessagesQueue, RemoveAt, TouchAt;
    if i < |b.clients[c].msgs| {
      TouchBalanced(u, b, c, i, index + 1);
      TouchLeaks(u, b, c, i, index + 1);
      var b1 := TouchAt(u, b, c, i, index + 1);
      var m := b1.clients[c].msgs[i];
      if IsEntry(m, mid, In) {
        EntryKept(b1, c, i);
        var quiet := works == [] || m.store !in b1.stores || b1.stores[m.store].topic == None;
        var b2 := if quiet then b1 else MessagesQueue(u, b1, m.store, b1.stores[m.store].qos, works[0]);
        if !quiet {
          QueueBalanced(u, b1, m.store, b1.stores[m.store].qos, works[0]);
          QueueLeaks(u, b1, m.store, b1.stores[m.store].qos, works[0]);
        }
        if i < |b2.clients[c].msgs| {
          RemoveBalanced(u, b2, c, i);
          RemoveLeaks(u, b2, c, i);
          var b3 := RemoveAt(u, b2, c, i);
          if index + 1 <= u.lim.inflight {
            if works == [] {
              RemoveShorter(u, b2, c, i);
              ReleaseLeaks(u, b3, c, i, index + 1, mid, true, []);
            } else {
              ReleaseLeaks(u, b3, c, i, index + 1, mid, true, works[1..]);
            }
          }
        }
      } else if !(index + 1 > u.lim.inflight && deleted) {
        ReleaseLeaks(u, b1, c, i + 1, index + 1, mid, deleted, works);
      }
    }
  }

  lemma TouchLeaks(u: Setup, b: Broker, c: nat, i: nat, index: nat)
    requires c < |b.clients| && i < |b.clients[c].msgs|
    ensures TouchAt(u, b, c, i, index).leaked == b.leaked
  {
  }

  lemma RemoveLeaks(u: Setup, b: Broker, c: nat, i: nat)
    requires c < |b.clients| && i < |b.clients[c].msgs|
    ensures RemoveAt(u, b, c, i).leaked == b.leaked
  {
  }

  /** A message that was stored for nothing is never given back. */
  lemma LeakedStays(u: Setup, ops: seq<Op>, op: Op)
    ensures Run(u, ops).leaked <= Step(u, Run(u, ops), op).leaked
  {
    RunSound(u, ops);
    hide Run, DoArrive, DoArriveQos2, ReleaseFrom, DoOffer, Delete, WriteFrom, Timeout, Update, Reset, DerefAll,
         StoresOf,
         IncomingQos2, Balanced, Refs;
    var b := Run(u, ops);
    ArrivalLaws.NewIsFresh(u, b);
    if Possible(b, op) {
      match op
      case Arrive(c, mid, qos, topic, retain, hasPayload, work) =>
        ArriveLeaks(u, b, c, mid, qos, topic, retain, hasPayload, work);
      case ArriveQos2(c, mid, topic, retain, hasPayload) => ArriveQos2Leaks(u, b, c, mid, topic, retain, hasPayload);
      case Release(c, mid, works) => ReleaseLeaks(u, b, c, 0, 0, mid, false, works);
      case Offer(c, from, granted) => OfferLeaks(u, b, c, from, granted);
      case _ =>
    }
  }
}
