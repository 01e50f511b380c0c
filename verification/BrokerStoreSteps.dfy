/** The steps of the broker one by one: each keeps reference counts exact, ids
    fresh, copies unique and queues within their bounds, whichever client it is
    about. The laws about whole runs put these steps together; nothing here is
    about more than one step. */
module BrokerStoreSteps {
  import opened Common
  import opened SubTree
  import opened ClientQueue
  import opened MsgStore
  import opened BrokerStore
  import opened QueueLaws
  import CopyLaws

  // ------------------------------------------------------------ references

  function SlotRef(slot: Option<StoreId>): multiset<StoreId> {
    if slot.Some? then multiset{slot.value} else multiset{}
  }

  function SlotRefs(slots: seq<Option<StoreId>>): multiset<StoreId> {
    if slots == [] then multiset{} else SlotRef(slots[0]) + SlotRefs(slots[1..])
  }

  function QueueRefs(clients: seq<Session>): multiset<StoreId> {
    if clients == [] then multiset{} else RefsIn(clients[0].msgs) + QueueRefs(clients[1..])
  }

  /** Everything that points at a stored message. */
  function Refs(b: Broker): multiset<StoreId> {
    QueueRefs(b.clients) + SlotRefs(b.slots)
  }

  /** The stored messages are exactly those pointed at and those stored for
      nothing, and each counts its references. */
  ghost predicate Counted(stores: Stores, refs: multiset<StoreId>, leaked: set<StoreId>) {
    (forall id :: id in stores <==> id in refs || id in leaked) &&
    (forall id :: id in stores ==> stores[id].refCount == refs[id]) &&
    forall id :: id in leaked ==> id !in refs
  }

  ghost predicate Balanced(b: Broker, extra: multiset<StoreId>) {
    Counted(b.stores, Refs(b) + extra, b.leaked)
  }

  // ------------------------------------------------- the store by itself

  lemma RefCounts(stores: Stores, refs: multiset<StoreId>, leaked: set<StoreId>, id: StoreId)
    requires Counted(stores, refs, leaked) && id in stores
    ensures Counted(Ref(stores, id), refs + multiset{id}, leaked - {id})
  {
  }

  lemma TakenCounts(stores: Stores, refs: multiset<StoreId>, leaked: set<StoreId>, id: StoreId, cfg: Config,
                    client: ClientId, dir: Direction, retain: bool)
    requires Counted(stores, refs, leaked) && id in stores
    ensures Counted(Taken(cfg, stores, id, client, dir, retain), refs + multiset{id}, leaked - {id})
  {
  }

  /** Giving a reference back frees the message exactly when it was the last. */
  lemma DerefFrees(stores: Stores, refs: multiset<StoreId>, leaked: set<StoreId>, id: StoreId)
    requires Counted(stores, refs + multiset{id}, leaked)
    ensures Counted(Deref(stores, id), refs, leaked)
    ensures id in Deref(stores, id) <==> refs[id] > 0
  {
    assert id in refs + multiset{id};
  }

  lemma {:induction false} DerefAllCounts(stores: Stores, refs: multiset<StoreId>, leaked: set<StoreId>,
                                          ids: seq<StoreId>)
    requires Counted(stores, refs + multiset(ids), leaked)
    ensures Counted(DerefAll(stores, ids), refs, leaked)
    decreases |ids|
  {
    if ids == [] {
      assert refs + multiset(ids) == refs;
    } else {
      assert ids == [ids[0]] + ids[1..];
      assert refs + multiset(ids) == (refs + multiset(ids[1..])) + multiset{ids[0]};
      DerefFrees(stores, refs + multiset(ids[1..]), leaked, ids[0]);
      DerefAllCounts(Deref(stores, ids[0]), refs, leaked, ids[1..]);
    }
  }

  lemma NewStoreBalanced(b: Broker, extra: multiset<StoreId>, source: ClientId, mid: Mid, topic: Option<string>,
                         qos: Qos, retain: bool, hasPayload: bool)
    requires Balanced(b, extra) && b.lastDbId + 1 !in b.stores
    ensures Balanced(NewStore(b, source, mid, topic, qos, retain, hasPayload), extra)
  {
    assert Refs(NewStore(b, source, mid, topic, qos, retain, hasPayload)) == Refs(b);
  }

  // -------------------------------------------------- one queue, one slot

  lemma AddBoth(h: multiset<StoreId>, x: multiset<StoreId>, y: multiset<StoreId>, z: multiset<StoreId>,
                w: multiset<StoreId>)
    requires x + y == z + w
    ensures (h + x) + y == (h + z) + w
  {
    assert (h + x) + y == h + (x + y);
    assert (h + z) + w == h + (z + w);
  }

  lemma {:induction false} QueueRefsUpdate(clients: seq<Session>, c: nat, s: Session)
    requires c < |clients|
    ensures QueueRefs(clients[c := s]) + RefsIn(clients[c].msgs) == QueueRefs(clients) + RefsIn(s.msgs)
  {
    hide RefsIn;
    var now := clients[c := s];
    if c == 0 {
      assert now[1..] == clients[1..];
    } else {
      assert now[1..] == clients[1..][c - 1 := s];
      QueueRefsUpdate(clients[1..], c - 1, s);
      AddBoth(RefsIn(clients[0].msgs), QueueRefs(now[1..]), RefsIn(clients[c].msgs), QueueRefs(clients[1..]),
              RefsIn(s.msgs));
    }
  }

  lemma {:induction false} SlotRefsUpdate(slots: seq<Option<StoreId>>, i: nat, slot: Option<StoreId>)
    requires i < |slots|
    ensures SlotRefs(slots[i := slot]) + SlotRef(slots[i]) == SlotRefs(slots) + SlotRef(slot)
  {
    var now := slots[i := slot];
    if i == 0 {
      assert now[1..] == slots[1..];
    } else {
      assert now[1..] == slots[1..][i - 1 := slot];
      SlotRefsUpdate(slots[1..], i - 1, slot);
      AddBoth(SlotRef(slots[0]), SlotRefs(now[1..]), SlotRef(slots[i]), SlotRefs(slots[1..]), SlotRef(slot));
    }
  }

  lemma {:induction false} QueueRefsAppend(clients: seq<Session>, s: Session)
    ensures QueueRefs(clients + [s]) == QueueRefs(clients) + RefsIn(s.msgs)
  {
    if clients == [] {
      assert clients + [s] == [s] && [s][1..] == [];
    } else {
      assert (clients + [s])[1..] == clients[1..] + [s];
      QueueRefsAppend(clients[1..], s);
    }
  }

  lemma {:induction false} SlotRefsAppend(slots: seq<Option<StoreId>>)
    ensures SlotRefs(slots + [None]) == SlotRefs(slots)
  {
    if slots == [] {
      var one: seq<Option<StoreId>> := [None];
      assert slots + [None] == one && one[1..] == [];
    } else {
      assert (slots + [None])[1..] == slots[1..] + [None];
      SlotRefsAppend(slots[1..]);
    }
  }

  /** A queue exchanged for another: what it lost must be given back, what it
      gained must have been taken. */
  lemma Exchange(b: Broker, b': Broker, c: nat, s: Session, lost: multiset<StoreId>,
                 gained: multiset<StoreId>)
    requires c < |b.clients| && b'.clients == b.clients[c := s] && b'.slots == b.slots
    requires RefsIn(s.msgs) + lost == RefsIn(b.clients[c].msgs) + gained
    ensures Refs(b') + lost == Refs(b) + gained
  {
    QueueRefsUpdate(b.clients, c, s);
    var q, q', r, r', sl := QueueRefs(b.clients), QueueRefs(b'.clients), RefsIn(b.clients[c].msgs), RefsIn(s.msgs),
                            SlotRefs(b.slots);
    assert q' + r == q + r' && r' + lost == r + gained;
    hide QueueRefs, RefsIn, SlotRefs;
    forall id ensures (q' + sl + lost)[id] == (q + sl + gained)[id] {
      assert (q' + r)[id] == (q + r')[id] && (r' + lost)[id] == (r + gained)[id];
    }
  }

  lemma InsertRefs(b: Broker, b': Broker, c: nat, m: ClientMsg)
    requires c < |b.clients| && b'.slots == b.slots
    requires b'.clients == b.clients[c := b.clients[c].(msgs := b.clients[c].msgs + [m])]
    ensures Refs(b') == Refs(b) + multiset{m.store}
  {
    var msgs := b.clients[c].msgs;
    StoresOfConcat(msgs, [m]);
    assert StoresOf([m]) == [m.store];
    hide RefsIn;
    assert RefsIn(msgs + [m]) + multiset{} == RefsIn(msgs) + multiset{m.store};
    Exchange(b, b', c, b'.clients[c], multiset{}, multiset{m.store});
    hide Refs;
    assert Refs(b') + multiset{} == Refs(b');
  }

  lemma InsertBalanced(u: Setup, b: Broker, extra: multiset<StoreId>, c: nat, mid: Mid, dir: Direction, qos: Qos,
                       retain: bool, id: StoreId)
    requires Balanced(b, extra) && c < |b.clients| && id in b.stores
    ensures Balanced(Insert(u, b, c, mid, dir, qos, retain, id), extra)
  {
    var s, b' := b.clients[c], Insert(u, b, c, mid, dir, qos, retain, id);
    if b' != b {
      var v := Admit(u.lim, u.cfg, s.connected, Count12(s.msgs), dir, qos);
      var m := ClientMsg(id, mid, qos, retain, dir, v.state, false);
      hide Taken, Admit, AlreadySent;
      InsertRefs(b, b', c, m);
      TakenCounts(b.stores, Refs(b) + extra, b.leaked, id, u.cfg, s.id, dir, retain);
      hide Refs;
      assert Refs(b') + extra == (Refs(b) + extra) + multiset{id};
    }
  }

  lemma MidBalanced(b: Broker, extra: multiset<StoreId>, c: nat, mid: Mid)
    requires Balanced(b, extra) && c < |b.clients|
    ensures Balanced(b.(clients := b.clients[c := b.clients[c].(lastMid := mid)]), extra)
  {
    var b' := b.(clients := b.clients[c := b.clients[c].(lastMid := mid)]);
    Exchange(b, b', c, b'.clients[c], multiset{}, multiset{});
    assert Refs(b') + multiset{} == Refs(b') && Refs(b) + multiset{} == Refs(b);
  }

  lemma InsertOutBalanced(u: Setup, b: Broker, extra: multiset<StoreId>, c: nat, qos: Qos, retain: bool, id: StoreId)
    requires Balanced(b, extra) && c < |b.clients| && id in b.stores
    ensures Balanced(InsertOut(u, b, c, qos, retain, id), extra)
  {
    var mid := NextMid(b.clients[c].lastMid);
    hide Balanced, Insert, NextMid;
    if qos == 0 {
      InsertBalanced(u, b, extra, c, 0, Out, 0, retain, id);
    } else {
      MidBalanced(b, extra, c, mid);
      InsertBalanced(u, b.(clients := b.clients[c := b.clients[c].(lastMid := mid)]), extra, c, mid, Out, qos, retain,
                     id);
    }
  }

  lemma SlotChange(b: Broker, slot: nat, id: StoreId)
    requires slot < |b.slots|
    ensures var none, some := b.(slots := b.slots[slot := None]), b.(slots := b.slots[slot := Some(id)]);
            Refs(b) == Refs(none) + SlotRef(b.slots[slot]) && Refs(some) == Refs(none) + multiset{id}
  {
    SlotRefsUpdate(b.slots, slot, None);
    SlotRefsTwice(b.slots, slot, id);
    hide QueueRefs, SlotRefs;
    var none := SlotRefs(b.slots[slot := None]);
    assert none + SlotRef(b.slots[slot]) == SlotRefs(b.slots) by {
      assert SlotRefs(b.slots) + multiset{} == SlotRefs(b.slots);
    }
  }

  function Emptied(stores: Stores, slot: Option<StoreId>): Stores {
    if slot.Some? then Deref(stores, slot.value) else stores
  }

  lemma EmptiedCounts(stores: Stores, refs: multiset<StoreId>, leaked: set<StoreId>, slot: Option<StoreId>)
    requires Counted(stores, refs + SlotRef(slot), leaked)
    ensures Counted(Emptied(stores, slot), refs, leaked)
  {
    if slot.Some? {
      DerefFrees(stores, refs, leaked, slot.value);
    } else {
      assert refs + SlotRef(slot) == refs;
    }
  }

  /** Setting a slot gives the old message back before taking the new one,
      which may be the same; its protection keeps it alive. */
  lemma SlotBalanced(b: Broker, extra: multiset<StoreId>, slot: nat, id: StoreId)
    requires Balanced(b, extra) && slot < |b.slots| && id in extra
    ensures Balanced(SetSlot(b, slot, id), extra)
  {
    SlotChange(b, slot, id);
    var none, some := b.(slots := b.slots[slot := None]), b.(slots := b.slots[slot := Some(id)]);
    var refs, b' := Refs(none) + extra, SetSlot(b, slot, id);
    SameRefs(if b'.slots == some.slots then some else none, b');
    hide Refs, Counted;
    assert Refs(b) + extra == refs + SlotRef(b.slots[slot]);
    EmptiedCounts(b.stores, refs, b.leaked, b.slots[slot]);
    var stores := Emptied(b.stores, b.slots[slot]);
    SlotKept(stores, refs, b.leaked, id);
    hide Deref;
    if stores[id].hasPayload {
      assert Refs(some) + extra == refs + multiset{id};
    }
  }

  lemma SlotKept(stores: Stores, refs: multiset<StoreId>, leaked: set<StoreId>, id: StoreId)
    requires Counted(stores, refs, leaked) && id in refs
    ensures id in stores && Counted(Ref(stores, id), refs + multiset{id}, leaked - {id})
  {
    RefCounts(stores, refs, leaked, id);
  }

  lemma SlotRefsTwice(slots: seq<Option<StoreId>>, i: nat, id: StoreId)
    requires i < |slots|
    ensures SlotRefs(slots[i := Some(id)]) == SlotRefs(slots[i := None]) + multiset{id}
  {
    SlotRefsUpdate(slots[i := None], i, Some(id));
    assert slots[i := None][i := Some(id)] == slots[i := Some(id)];
  }

  // --------------------------------------------------- handing a message on

  lemma StillThere(b: Broker, extra: multiset<StoreId>, id: StoreId)
    requires Balanced(b, extra) && id in extra
    ensures id in b.stores
  {
    hide Refs;
    assert id in Refs(b) + extra;
  }

  lemma WorkBalanced(u: Setup, b: Broker, extra: multiset<StoreId>, id: StoreId, qos: Qos, w: Work)
    requires Balanced(b, extra) && id in extra
    ensures Balanced(DoWork(u, b, id, qos, w), extra)
  {
    WorkIs(u, b, id, qos, w);
    StillThere(b, extra, id);
    hide *;
    if w.Keep? {
      if w.slot < |b.slots| { SlotBalanced(b, extra, w.slot, id); }
    } else if w.client < |b.clients| {
      InsertOutBalanced(u, b, extra, w.client, GrantedQos(u.cfg, qos, w.granted), false, id);
    }
  }

  lemma WorkIs(u: Setup, b: Broker, id: StoreId, qos: Qos, w: Work)
    ensures w.Keep? ==> DoWork(u, b, id, qos, w) == (if w.slot < |b.slots| then SetSlot(b, w.slot, id) else b)
    ensures w.Copy? && w.client < |b.clients| && id in b.stores ==>
              DoWork(u, b, id, qos, w) == InsertOut(u, b, w.client, GrantedQos(u.cfg, qos, w.granted), false, id)
    ensures w.Copy? && w.client >= |b.clients| ==> DoWork(u, b, id, qos, w) == b
  {
  }

  lemma {:induction false} WorksBalanced(u: Setup, b: Broker, extra: multiset<StoreId>, id: StoreId, qos: Qos,
                                         work: seq<Work>)
    requires Balanced(b, extra) && id in extra
    ensures Balanced(DoWorks(u, b, id, qos, work), extra)
    decreases |work|
  {
    hide Balanced, DoWork;
    if work != [] {
      WorkBalanced(u, b, extra, id, qos, work[0]);
      WorksBalanced(u, DoWork(u, b, id, qos, work[0]), extra, id, qos, work[1..]);
    }
  }

  lemma ProtectBalanced(b: Broker, id: StoreId)
    requires Balanced(b, multiset{}) && id in b.stores
    ensures Balanced(Protect(b, id), multiset{id})
  {
    RefCounts(b.stores, Refs(b), b.leaked, id);
    assert Refs(b) + multiset{} == Refs(b) && Refs(Protect(b, id)) == Refs(b);
  }

  lemma QueueBalanced(u: Setup, b: Broker, id: StoreId, qos: Qos, work: seq<Work>)
    requires Balanced(b, multiset{}) && id in b.stores
    ensures Balanced(MessagesQueue(u, b, id, qos, work), multiset{})
  {
    var b1 := Protect(b, id);
    ProtectBalanced(b, id);
    hide Refs, DoWorks;
    WorksBalanced(u, b1, multiset{id}, id, qos, work);
    var b2 := DoWorks(u, b1, id, qos, work);
    DerefFrees(b2.stores, Refs(b2), b2.leaked, id);
    var b3 := MessagesQueue(u, b, id, qos, work);
    assert Refs(b3) == Refs(b2) by { SameRefs(b2, b3); }
    assert Refs(b3) + multiset{} == Refs(b3);
  }

  lemma SameRefs(b: Broker, b': Broker)
    requires b'.clients == b.clients && b'.slots == b.slots
    ensures Refs(b') == Refs(b)
  {
  }

  // ------------------------------------------------- taking entries out

  lemma FreeingBalanced(b: Broker, c: nat, msgs: seq<ClientMsg>, gone: seq<ClientMsg>)
    requires Balanced(b, multiset{}) && c < |b.clients|
    requires RefsIn(b.clients[c].msgs) == RefsIn(msgs) + RefsIn(gone)
    ensures Balanced(Freeing(b, c, msgs, gone), multiset{})
  {
    var b' := Freeing(b, c, msgs, gone);
    Exchange(b, b', c, b'.clients[c], RefsIn(gone), multiset{});
    assert Refs(b) + multiset{} == Refs(b') + multiset(StoresOf(gone));
    hide Refs;
    DerefAllCounts(b.stores, Refs(b'), b.leaked, StoresOf(gone));
    assert Refs(b') + multiset{} == Refs(b');
  }

  /** Entries rewritten in place point at the same messages. */
  lemma RewriteBalanced(b: Broker, c: nat, s: Session)
    requires Balanced(b, multiset{}) && c < |b.clients| && |s.msgs| == |b.clients[c].msgs|
    requires forall i :: 0 <= i < |s.msgs| ==> s.msgs[i].store == b.clients[c].msgs[i].store
    ensures Balanced(b.(clients := b.clients[c := s]), multiset{})
  {
    var b' := b.(clients := b.clients[c := s]);
    SameStoresBacked(b.clients[c].msgs, s.msgs, b.stores);
    Exchange(b, b', c, s, multiset{}, multiset{});
    hide Refs;
    assert Refs(b') + multiset{} == Refs(b') && Refs(b) + multiset{} == Refs(b);
  }

  lemma RemoveBalanced(u: Setup, b: Broker, c: nat, i: nat)
    requires Balanced(b, multiset{}) && c < |b.clients| && i < |b.clients[c].msgs|
    ensures Balanced(RemoveAt(u, b, c, i), multiset{})
  {
    var msgs, lim := b.clients[c].msgs, u.lim;
    var rest := PromoteHead(DropAt(msgs, i), lim);
    PromoteRefs(DropAt(msgs, i), lim);
    StoresOfAt(msgs, i);
    assert [msgs[i].store][1..] == [];
    assert StoresOf([msgs[i]]) == [msgs[i].store];
    FreeingBalanced(b, c, rest, [msgs[i]]);
    assert DerefAll(b.stores, [msgs[i].store]) == DerefAll(Deref(b.stores, msgs[i].store), []);
  }

  lemma PromoteRefs(msgs: seq<ClientMsg>, lim: Limits)
    ensures RefsIn(PromoteHead(msgs, lim)) == RefsIn(msgs)
  {
    PromoteKeeps(msgs, lim);
    var r := PromoteHead(msgs, lim);
    forall k | 0 <= k < |r| ensures r[k].store == msgs[k].store { assert Core(r[k]) == Core(msgs[k]); }
    SameStoresBacked(msgs, r, map[]);
  }

  lemma TouchBalanced(u: Setup, b: Broker, c: nat, i: nat, index: nat)
    requires Balanced(b, multiset{}) && c < |b.clients| && i < |b.clients[c].msgs|
    ensures Balanced(TouchAt(u, b, c, i, index), multiset{})
  {
    RewriteBalanced(b, c, TouchAt(u, b, c, i, index).clients[c]);
  }

  /** Releasing, with whatever the tree does for each entry, a publisher that
      subscribes to its own messages included. */
  lemma {:induction false} ReleaseBalanced(u: Setup, b: Broker, c: nat, i: nat, index: nat, mid: Mid, deleted: bool,
                                           works: seq<seq<Work>>)
    requires Balanced(b, multiset{}) && c < |b.clients|
    ensures Balanced(ReleaseFrom(u, b, c, i, index, mid, deleted, works), multiset{})
    decreases |works|, |b.clients[c].msgs| - i
  {
    hide Balanced, MessagesQueue, RemoveAt, TouchAt;
    if i < |b.clients[c].msgs| {
      TouchBalanced(u, b, c, i, index + 1);
      var b1 := TouchAt(u, b, c, i, index + 1);
      var m := b1.clients[c].msgs[i];
      if IsEntry(m, mid, In) {
        var quiet := works == [] || m.store !in b1.stores || b1.stores[m.store].topic == None;
        if !quiet { QueueBalanced(u, b1, m.store, b1.stores[m.store].qos, works[0]); }
        var b2 := if quiet then b1 else MessagesQueue(u, b1, m.store, b1.stores[m.store].qos, works[0]);
        if i < |b2.clients[c].msgs| {
          RemoveBalanced(u, b2, c, i);
          var b3 := RemoveAt(u, b2, c, i);
          if index + 1 <= u.lim.inflight {
            if works == [] {
              RemoveShorter(u, b2, c, i);
              ReleaseBalanced(u, b3, c, i, index + 1, mid, true, []);
            } else {
              ReleaseBalanced(u, b3, c, i, index + 1, mid, true, works[1..]);
            }
          }
        }
      } else if !(index + 1 > u.lim.inflight && deleted) {
        ReleaseBalanced(u, b1, c, i + 1, index + 1, mid, deleted, works);
      }
    }
  }

  lemma RemoveShorter(u: Setup, b: Broker, c: nat, i: nat)
    requires c < |b.clients| && i < |b.clients[c].msgs|
    ensures |RemoveAt(u, b, c, i).clients[c].msgs| == |b.clients[c].msgs| - 1
  {
  }

  // ------------------------------------------- ids, copies, and queue bounds

  /** Ids are never used again; with duplicates forbidden no client was given a
      message twice, and each message knows whom it was given to. */
  ghost predicate Tracked(cfg: Config, b: Broker) {
    (forall id :: id in b.stores ==> id <= b.lastDbId) &&
    (forall p :: p in b.created ==> p.0 <= b.lastDbId) &&
    (!cfg.allowDuplicates ==>
       NoDup(b.created) && (forall p :: p in b.created && p.0 in b.stores ==> p.1 in b.stores[p.0].destIds))
  }

  predicate QueueFine(lim: Limits, msgs: seq<ClientMsg>) {
    IncomingQos2(msgs) && (lim.inflight > 0 && lim.queued > 0 ==> Count12(msgs) <= lim.inflight + lim.queued)
  }

  ghost predicate Orderly(u: Setup, b: Broker) {
    Tracked(u.cfg, b) && forall c :: 0 <= c < |b.clients| ==> QueueFine(u.lim, b.clients[c].msgs)
  }

  /** Messages may have gone, and counts may have changed. */
  ghost predicate Shrunk(a: Stores, b: Stores) {
    forall id :: id in b ==> id in a && b[id].destIds == a[id].destIds
  }

  lemma DerefShrunk(stores: Stores, id: StoreId)
    ensures Shrunk(stores, Deref(stores, id))
    ensures id in stores ==> Shrunk(stores, Ref(stores, id))
  {
  }

  lemma {:induction false} DerefAllShrunk(stores: Stores, ids: seq<StoreId>)
    ensures Shrunk(stores, DerefAll(stores, ids))
    decreases |ids|
  {
    if ids != [] {
      DerefShrunk(stores, ids[0]);
      DerefAllShrunk(Deref(stores, ids[0]), ids[1..]);
    }
  }

  lemma OrderlyStores(u: Setup, b: Broker, b': Broker)
    requires Orderly(u, b) && Shrunk(b.stores, b'.stores)
    requires b'.clients == b.clients && b'.created == b.created && b'.lastDbId == b.lastDbId
    ensures Orderly(u, b')
  {
  }

  lemma OrderlyQueue(u: Setup, b: Broker, c: nat, s: Session)
    requires Orderly(u, b) && c < |b.clients| && QueueFine(u.lim, s.msgs)
    ensures Orderly(u, b.(clients := b.clients[c := s]))
  {
  }

  lemma OrderlyNew(u: Setup, b: Broker, source: ClientId, mid: Mid, topic: Option<string>, qos: Qos, retain: bool,
                   hasPayload: bool)
    requires Orderly(u, b)
    ensures b.lastDbId + 1 !in b.stores
    ensures Orderly(u, NewStore(b, source, mid, topic, qos, retain, hasPayload))
  {
    hide QueueFine;
  }

  lemma Fuller(u: Setup, s: Session, m: ClientMsg)
    requires QueueFine(u.lim, s.msgs) && (m.direction == In ==> m.qos == 2)
    requires Admit(u.lim, u.cfg, s.connected, Count12(s.msgs), m.direction, m.qos).Accept?
    ensures QueueFine(u.lim, s.msgs + [m])
  {
    Count12Append(s.msgs, m);
  }

  lemma InsertOrderly(u: Setup, b: Broker, c: nat, mid: Mid, dir: Direction, qos: Qos, retain: bool, id: StoreId)
    requires Orderly(u, b) && c < |b.clients| && id in b.stores && (dir == In ==> qos == 2)
    ensures Orderly(u, Insert(u, b, c, mid, dir, qos, retain, id))
  {
    var s, b' := b.clients[c], Insert(u, b, c, mid, dir, qos, retain, id);
    var v := Admit(u.lim, u.cfg, s.connected, Count12(s.msgs), dir, qos);
    if !AlreadySent(u.cfg, b.stores[id], s.id, dir, retain) && v.Accept? {
      Fuller(u, s, ClientMsg(id, mid, qos, retain, dir, v.state, false));
      hide QueueFine, Admit, Count12;
      CreatedOnce(u.cfg, b, b', s.id, dir, retain, id);
      assert forall k :: 0 <= k < |b.clients| && k != c ==> b'.clients[k] == b.clients[k];
    }
  }

  lemma CreatedOnce(cfg: Config, b: Broker, b': Broker, client: ClientId, dir: Direction, retain: bool, id: StoreId)
    requires Tracked(cfg, b) && id in b.stores && !AlreadySent(cfg, b.stores[id], client, dir, retain)
    requires b'.stores == Taken(cfg, b.stores, id, client, dir, retain) && b'.lastDbId == b.lastDbId
    requires b'.created == if dir == Out && !retain then b.created + [(id, client)] else b.created
    ensures Tracked(cfg, b')
  {
    if !cfg.allowDuplicates && dir == Out && !retain {
      assert (id, client) !in b.created;
    }
  }

  lemma InsertOutOrderly(u: Setup, b: Broker, c: nat, qos: Qos, retain: bool, id: StoreId)
    requires Orderly(u, b) && c < |b.clients| && id in b.stores
    ensures Orderly(u, InsertOut(u, b, c, qos, retain, id))
  {
    var mid := NextMid(b.clients[c].lastMid);
    assert QueueFine(u.lim, b.clients[c].msgs);
    hide Orderly, Insert, NextMid, QueueFine;
    if qos == 0 {
      InsertOrderly(u, b, c, 0, Out, 0, retain, id);
    } else {
      OrderlyQueue(u, b, c, b.clients[c].(lastMid := mid));
      InsertOrderly(u, b.(clients := b.clients[c := b.clients[c].(lastMid := mid)]), c, mid, Out, qos, retain, id);
    }
  }

  lemma SlotOrderly(u: Setup, b: Broker, slot: nat, id: StoreId)
    requires Orderly(u, b) && slot < |b.slots|
    ensures Orderly(u, SetSlot(b, slot, id))
  {
    hide Orderly;
    if b.slots[slot].Some? { DerefShrunk(b.stores, b.slots[slot].value); }
    DerefShrunk(Emptied(b.stores, b.slots[slot]), id);
    OrderlyStores(u, b, SetSlot(b, slot, id));
  }

  lemma {:induction false} WorksOrderly(u: Setup, b: Broker, id: StoreId, qos: Qos, work: seq<Work>)
    requires Orderly(u, b)
    ensures Orderly(u, DoWorks(u, b, id, qos, work))
    decreases |work|
  {
    hide Orderly, SetSlot, InsertOut;
    if work != [] {
      match work[0] {
        case Keep(slot) => if slot < |b.slots| { SlotOrderly(u, b, slot, id); }
        case Copy(c, granted) =>
          if c < |b.clients| && id in b.stores {
            InsertOutOrderly(u, b, c, GrantedQos(u.cfg, qos, granted), false, id);
          }
      }
      WorksOrderly(u, DoWork(u, b, id, qos, work[0]), id, qos, work[1..]);
    }
  }

  lemma QueueOrderly(u: Setup, b: Broker, id: StoreId, qos: Qos, work: seq<Work>)
    requires Orderly(u, b) && id in b.stores
    ensures Orderly(u, MessagesQueue(u, b, id, qos, work))
  {
    hide Orderly, DoWorks;
    DerefShrunk(b.stores, id);
    OrderlyStores(u, b, Protect(b, id));
    WorksOrderly(u, Protect(b, id), id, qos, work);
    var b' := DoWorks(u, Protect(b, id), id, qos, work);
    DerefShrunk(b'.stores, id);
    OrderlyStores(u, b', MessagesQueue(u, b, id, qos, work));
  }

  lemma SplitFine(lim: Limits, a: seq<ClientMsg>, b: seq<ClientMsg>, gone: seq<ClientMsg>)
    requires QueueFine(lim, a) && Splits(a, b, gone)
    ensures QueueFine(lim, b)
  {
  }

  lemma FreeingOrderly(u: Setup, b: Broker, c: nat, msgs: seq<ClientMsg>, gone: seq<ClientMsg>)
    requires Orderly(u, b) && c < |b.clients| && Splits(b.clients[c].msgs, msgs, gone)
    ensures Orderly(u, Freeing(b, c, msgs, gone))
  {
    SplitFine(u.lim, b.clients[c].msgs, msgs, gone);
    hide QueueFine, Orderly;
    DerefAllShrunk(b.stores, StoresOf(gone));
    OrderlyQueue(u, b, c, b.clients[c].(msgs := msgs));
    OrderlyStores(u, WithMsgs(b, c, msgs), Freeing(b, c, msgs, gone));
  }

  lemma SameCoresFine(lim: Limits, a: seq<ClientMsg>, b: seq<ClientMsg>)
    requires QueueFine(lim, a) && Cores(a) == Cores(b)
    ensures QueueFine(lim, b)
  {
    SplitsNone(b);
    SplitsSame(a, b, b, []);
  }

  lemma RewriteOrderly(u: Setup, b: Broker, c: nat, s: Session)
    requires Orderly(u, b) && c < |b.clients| && Cores(s.msgs) == Cores(b.clients[c].msgs)
    ensures Orderly(u, b.(clients := b.clients[c := s]))
  {
    hide QueueFine;
    SameCoresFine(u.lim, b.clients[c].msgs, s.msgs);
    OrderlyQueue(u, b, c, s);
  }

  lemma RemoveOrderly(u: Setup, b: Broker, c: nat, i: nat)
    requires Orderly(u, b) && c < |b.clients| && i < |b.clients[c].msgs|
    ensures Orderly(u, RemoveAt(u, b, c, i))
  {
    hide Orderly, Splits;
    var msgs := b.clients[c].msgs;
    var rest := PromoteHead(DropAt(msgs, i), u.lim);
    PromoteCores(DropAt(msgs, i), u.lim);
    SplitsNone(rest);
    SplitsSame(DropAt(msgs, i), rest, rest, []);
    SplitsDrop(msgs, i, rest, []);
    assert [msgs[i]] + [] == [msgs[i]];
    FreeingOrderly(u, b, c, rest, [msgs[i]]);
    assert [msgs[i].store][1..] == [];
    assert StoresOf([msgs[i]]) == [msgs[i].store];
    assert DerefAll(b.stores, [msgs[i].store]) == DerefAll(Deref(b.stores, msgs[i].store), []);
  }

  lemma TouchOrderly(u: Setup, b: Broker, c: nat, i: nat, index: nat)
    requires Orderly(u, b) && c < |b.clients| && i < |b.clients[c].msgs|
    ensures Orderly(u, TouchAt(u, b, c, i, index))
  {
    hide Orderly;
    var msgs := b.clients[c].msgs;
    var now := TouchAt(u, b, c, i, index).clients[c].msgs;
    TouchedCore(msgs[i], index, u.lim);
    assert forall k :: 0 <= k < |msgs| ==> Core(now[k]) == Core(msgs[k]);
    RewriteOrderly(u, b, c, b.clients[c].(msgs := now));
  }

  lemma {:induction false} ReleaseOrderly(u: Setup, b: Broker, c: nat, i: nat, index: nat, mid: Mid, deleted: bool,
                                          works: seq<seq<Work>>)
    requires Orderly(u, b) && c < |b.clients|
    ensures Orderly(u, ReleaseFrom(u, b, c, i, index, mid, deleted, works))
    decreases |works|, |b.clients[c].msgs| - i
  {
    hide Orderly, MessagesQueue, RemoveAt, TouchAt;
    if i < |b.clients[c].msgs| {
      TouchOrderly(u, b, c, i, index + 1);
      var b1 := TouchAt(u, b, c, i, index + 1);
      var m := b1.clients[c].msgs[i];
      if IsEntry(m, mid, In) {
        var quiet := works == [] || m.store !in b1.stores || b1.stores[m.store].topic == None;
        if !quiet { QueueOrderly(u, b1, m.store, b1.stores[m.store].qos, works[0]); }
        var b2 := if quiet then b1 else MessagesQueue(u, b1, m.store, b1.stores[m.store].qos, works[0]);
        if i < |b2.clients[c].msgs| {
          RemoveOrderly(u, b2, c, i);
          var b3 := RemoveAt(u, b2, c, i);
          if index + 1 <= u.lim.inflight {
            if works == [] {
              RemoveShorter(u, b2, c, i);
              ReleaseOrderly(u, b3, c, i, index + 1, mid, true, []);
            } else {
              ReleaseOrderly(u, b3, c, i, index + 1, mid, true, works[1..]);
            }
          }
        }
      } else if !(index + 1 > u.lim.inflight && deleted) {
        ReleaseOrderly(u, b1, c, i + 1, index + 1, mid, deleted, works);
      }
    }
  }

  // --------------------------------------------------------------- every step

  ghost predicate Sound(u: Setup, b: Broker) {
    Balanced(b, multiset{}) && Orderly(u, b)
  }

  lemma FreeingSound(u: Setup, b: Broker, c: nat, msgs: seq<ClientMsg>, gone: seq<ClientMsg>)
    requires Sound(u, b) && c < |b.clients| && Splits(b.clients[c].msgs, msgs, gone)
    ensures Sound(u, Freeing(b, c, msgs, gone))
  {
    assert RefsIn(b.clients[c].msgs) == RefsIn(msgs) + RefsIn(gone);
    hide Balanced, Orderly, Splits, Freeing;
    FreeingBalanced(b, c, msgs, gone);
    FreeingOrderly(u, b, c, msgs, gone);
  }

  lemma RewriteSound(u: Setup, b: Broker, c: nat, s: Session)
    requires Sound(u, b) && c < |b.clients| && Cores(s.msgs) == Cores(b.clients[c].msgs)
    ensures Sound(u, b.(clients := b.clients[c := s]))
  {
    var was := b.clients[c].msgs;
    assert |s.msgs| == |Cores(s.msgs)| == |was|;
    assert forall i :: 0 <= i < |was| ==> Core(s.msgs[i]) == Cores(was)[i] == Core(was[i]);
    hide Balanced, Orderly;
    RewriteBalanced(b, c, s);
    RewriteOrderly(u, b, c, s);
  }

  lemma QueueSound(u: Setup, b: Broker, id: StoreId, qos: Qos, work: seq<Work>)
    requires Sound(u, b) && id in b.stores
    ensures Sound(u, MessagesQueue(u, b, id, qos, work))
  {
    hide Balanced, Orderly, MessagesQueue;
    QueueBalanced(u, b, id, qos, work);
    QueueOrderly(u, b, id, qos, work);
  }

  lemma NewSound(u: Setup, b: Broker, source: ClientId, mid: Mid, topic: Option<string>, qos: Qos, retain: bool,
                 hasPayload: bool)
    requires Sound(u, b)
    ensures Sound(u, NewStore(b, source, mid, topic, qos, retain, hasPayload))
  {
    hide Balanced, Orderly, NewStore;
    OrderlyNew(u, b, source, mid, topic, qos, retain, hasPayload);
    NewStoreBalanced(b, multiset{}, source, mid, topic, qos, retain, hasPayload);
  }

  lemma ArriveSound(u: Setup, b: Broker, c: nat, mid: Mid, qos: Qos, topic: string, retain: bool, hasPayload: bool,
                    work: seq<Work>)
    requires Sound(u, b) && c < |b.clients|
    ensures Sound(u, DoArrive(u, b, c, mid, qos, topic, retain, hasPayload, work))
  {
    hide Sound, MessagesQueue, NewStore, FindIncoming;
    var found := if qos > 0 then FindIncoming(b.clients[c].msgs, b.stores, mid) else None;
    if found.Some? && found.value in b.stores {
      QueueSound(u, b, found.value, qos, work);
    } else {
      NewSound(u, b, b.clients[c].id, mid, Some(topic), qos, retain, hasPayload);
      var b' := NewStore(b, b.clients[c].id, mid, Some(topic), qos, retain, hasPayload);
      QueueSound(u, b', b'.lastDbId, qos, work);
    }
  }

  lemma ArriveQos2Sound(u: Setup, b: Broker, c: nat, mid: Mid, topic: Option<string>, retain: bool, hasPayload: bool)
    requires Sound(u, b) && c < |b.clients|
    ensures Sound(u, DoArriveQos2(u, b, c, mid, topic, retain, hasPayload))
  {
    if FindIncoming(b.clients[c].msgs, b.stores, mid) == None {
      NewSound(u, b, b.clients[c].id, mid, topic, 2, retain, hasPayload);
      var b' := NewStore(b, b.clients[c].id, mid, topic, 2, retain, hasPayload);
      hide Balanced, Orderly, Insert, FindIncoming;
      InsertBalanced(u, b', multiset{}, c, mid, In, 2, retain, b'.lastDbId);
      InsertOrderly(u, b', c, mid, In, 2, retain, b'.lastDbId);
    }
  }

  lemma {:induction false} OfferSound(u: Setup, b: Broker, c: nat, from: seq<nat>, granted: Qos)
    requires Sound(u, b) && c < |b.clients|
    ensures Sound(u, DoOffer(u, b, c, from, granted))
    decreases |from|
  {
    hide Balanced, Orderly, InsertOut;
    if from != [] {
      if from[0] < |b.slots| && b.slots[from[0]].Some? && b.slots[from[0]].value in b.stores {
        var id := b.slots[from[0]].value;
        var qos := if b.stores[id].qos > granted then granted else b.stores[id].qos;
        InsertOutBalanced(u, b, multiset{}, c, qos, true, id);
        InsertOutOrderly(u, b, c, qos, true, id);
        OfferSound(u, InsertOut(u, b, c, qos, true, id), c, from[1..], granted);
      } else {
        OfferSound(u, b, c, from[1..], granted);
      }
    }
  }

  lemma SameRefsSound(u: Setup, b: Broker, b': Broker)
    requires Sound(u, b) && b' == b.(clients := b'.clients, slots := b'.slots) && Refs(b') == Refs(b)
    requires forall c :: 0 <= c < |b'.clients| ==> QueueFine(u.lim, b'.clients[c].msgs)
    ensures Sound(u, b')
  {
    hide Refs, QueueFine, Counted;
  }

  lemma JoinSound(u: Setup, b: Broker, id: ClientId)
    requires Sound(u, b)
    ensures Sound(u, b.(clients := b.clients + [Session(id, true, 0, [])]))
    ensures Sound(u, b.(slots := b.slots + [None]))
  {
    var s := Session(id, true, 0, []);
    assert QueueFine(u.lim, s.msgs);
    assert forall c :: 0 <= c < |b.clients| ==> QueueFine(u.lim, b.clients[c].msgs);
    hide QueueFine, Sound;
    JoinRefs(b, s);
    SameRefsSound(u, b, b.(clients := b.clients + [s]));
    SameRefsSound(u, b, b.(slots := b.slots + [None]));
  }

  lemma JoinRefs(b: Broker, s: Session)
    requires s.msgs == []
    ensures Refs(b.(clients := b.clients + [s])) == Refs(b) && Refs(b.(slots := b.slots + [None])) == Refs(b)
  {
    QueueRefsAppend(b.clients, s);
    SlotRefsAppend(b.slots);
    assert QueueRefs(b.clients) + multiset{} == QueueRefs(b.clients);
  }

  lemma UpdateCores(msgs: seq<ClientMsg>, mid: Mid, dir: Direction, state: MsgState)
    ensures Cores(Update(msgs, mid, dir, state)) == Cores(msgs)
  {
  }

  lemma RetryCores(msgs: seq<ClientMsg>, expired: seq<bool>, lim: Limits)
    requires |expired| == |msgs|
    ensures Cores(Timeout(msgs, expired)) == Cores(msgs) && Cores(Reset(msgs, lim)) == Cores(msgs)
  {
  }

  lemma StepSound(u: Setup, b: Broker, op: Op)
    requires Sound(u, b)
    ensures Sound(u, Step(u, b, op))
  {
    hide Sound, Cores, Splits, DoArrive, DoArriveQos2, ReleaseFrom, Delete, WriteFrom, Timeout, Update, Reset, DoOffer,
         Freeing, IncomingQos2;
    if Possible(b, op) {
      match op
      case Arrive(c, mid, qos, topic, retain, hasPayload, work) =>
        ArriveSound(u, b, c, mid, qos, topic, retain, hasPayload, work);
      case ArriveQos2(c, mid, topic, retain, hasPayload) => ArriveQos2Sound(u, b, c, mid, topic, retain, hasPayload);
      case Release(c, mid, works) => ReleaseSound(u, b, c, mid, works);
      case Acknowledged(c, mid) =>
        DeleteSplits(b.clients[c].msgs, mid, Out, u.lim);
        FreeingSound(u, b, c, Delete(b.clients[c].msgs, mid, Out, u.lim).msgs,
                     Delete(b.clients[c].msgs, mid, Out, u.lim).removed);
      case Received(c, mid) =>
        UpdateCores(b.clients[c].msgs, mid, Out, WaitForPubcomp);
        RewriteSound(u, b, c, b.clients[c].(msgs := Update(b.clients[c].msgs, mid, Out, WaitForPubcomp)));
      case Expire(c, expired) =>
        if |expired| == |b.clients[c].msgs| {
          RetryCores(b.clients[c].msgs, expired, u.lim);
          RewriteSound(u, b, c, b.clients[c].(msgs := Timeout(b.clients[c].msgs, expired)));
        }
      case Write(c, budget) => if IncomingQos2(b.clients[c].msgs) { WriteSound(u, b, c, budget); }
      case Disconnect(c) => RewriteSound(u, b, c, b.clients[c].(connected := false));
      case Reconnect(c) =>
        var msgs := b.clients[c].msgs;
        RetryCores(msgs, seq(|msgs|, i => false), u.lim);
        RewriteSound(u, b, c, b.clients[c].(connected := true, msgs := Reset(msgs, u.lim)));
      case Clean(c) =>
        AllSplits(b.clients[c].msgs);
        FreeingSound(u, b, c, [], b.clients[c].msgs);
      case Offer(c, from, granted) => OfferSound(u, b, c, from, granted);
      case Join(id) => JoinSound(u, b, id);
      case NewSlot => JoinSound(u, b, "");
    }
  }

  lemma ReleaseSound(u: Setup, b: Broker, c: nat, mid: Mid, works: seq<seq<Work>>)
    requires Sound(u, b) && c < |b.clients|
    ensures Sound(u, ReleaseFrom(u, b, c, 0, 0, mid, false, works))
  {
    hide Balanced, Orderly, ReleaseFrom;
    ReleaseBalanced(u, b, c, 0, 0, mid, false, works);
    ReleaseOrderly(u, b, c, 0, 0, mid, false, works);
  }

  lemma DeleteSplits(msgs: seq<ClientMsg>, mid: Mid, dir: Direction, lim: Limits)
    ensures Splits(msgs, Delete(msgs, mid, dir, lim).msgs, Delete(msgs, mid, dir, lim).removed)
  {
    SweepSplits([], msgs, 0, mid, dir, lim, false, false);
    assert [] + msgs == msgs;
  }

  lemma WriteSound(u: Setup, b: Broker, c: nat, budget: nat)
    requires Sound(u, b) && c < |b.clients| && IncomingQos2(b.clients[c].msgs)
    ensures var w := WriteFrom([], b.clients[c].msgs, u.lim, budget, 0);
            Sound(u, Freeing(b, c, w.msgs, w.gone))
  {
    hide Sound, Splits, WriteFrom, Freeing, IncomingQos2;
    var msgs := b.clients[c].msgs;
    WriteSplits([], msgs, u.lim, budget, 0);
    assert [] + msgs == msgs;
    var w := WriteFrom([], msgs, u.lim, budget, 0);
    FreeingSound(u, b, c, w.msgs, w.gone);
  }

  lemma AllSplits(msgs: seq<ClientMsg>)
    ensures Splits(msgs, [], msgs)
  {
    assert multiset{} + RefsIn(msgs) == RefsIn(msgs);
  }

  lemma {:induction false} RunSound(u: Setup, ops: seq<Op>)
    ensures Sound(u, Run(u, ops))
  {
    hide Sound, Step;
    if ops == [] {
      StartSound(u);
    } else {
      RunSound(u, ops[..|ops| - 1]);
      StepSound(u, Run(u, ops[..|ops| - 1]), ops[|ops| - 1]);
    }
  }

  lemma StartSound(u: Setup)
    ensures Sound(u, Broker(map[], 0, [], [], {}, []))
  {
    var b := Broker(map[], 0, [], [], {}, []);
    assert Refs(b) + multiset{} == multiset{};
  }

  // ------------------------------------- the release loop of one queue

  /** Outgoing copies made for this client by the work of the tree, each of a
      QoS one of its subscriptions grants. */
  ghost predicate ForCopies(u: Setup, work: seq<Work>, d: nat, added: seq<ClientMsg>) {
    |added| <= |work| &&
    forall m :: m in added ==> m.direction == Out && !m.retain && Granted(u, work, d, m.qos)
  }

  ghost predicate Granted(u: Setup, work: seq<Work>, d: nat, qos: Qos) {
    exists w, of: Qos :: w in work && w.Copy? && w.client == d &&
                         CopyLaws.RightQos(u.cfg.upgradeQos, qos, of, w.granted)
  }

  lemma InsertAppends(u: Setup, b: Broker, c: nat, mid: Mid, qos: Qos, id: StoreId, d: nat)
    returns (added: seq<ClientMsg>)
    requires c < |b.clients| && id in b.stores && d < |b.clients|
    ensures Insert(u, b, c, mid, Out, qos, false, id).clients[d].msgs == b.clients[d].msgs + added
    ensures |added| <= if c == d then 1 else 0
    ensures forall m :: m in added ==> m.direction == Out && !m.retain && m.qos == qos
  {
    var b' := Insert(u, b, c, mid, Out, qos, false, id);
    hide Admit, AlreadySent, Taken;
    added := b'.clients[d].msgs[|b.clients[d].msgs|..];
  }

  lemma WorkAppends(u: Setup, b: Broker, id: StoreId, qos: Qos, w: Work, d: nat) returns (added: seq<ClientMsg>)
    requires d < |b.clients|
    ensures DoWork(u, b, id, qos, w).clients[d].msgs == b.clients[d].msgs + added && ForCopies(u, [w], d, added)
  {
    added := [];
    if w.Copy? && w.client < |b.clients| && id in b.stores {
      var q, c := GrantedQos(u.cfg, qos, w.granted), w.client;
      var mid := NextMid(b.clients[c].lastMid);
      if q == 0 {
        added := InsertAppends(u, b, c, 0, 0, id, d);
      } else {
        added := InsertAppends(u, b.(clients := b.clients[c := b.clients[c].(lastMid := mid)]), c, mid, q, id, d);
      }
      hide Insert, GrantedQos, NextMid;
      CopyLaws.GrantedIsRight(u.cfg, qos, w.granted);
      assert c == d ==> w in [w] && Granted(u, [w], d, q);
    } else {
      assert b.clients[d].msgs + [] == b.clients[d].msgs;
    }
  }

  lemma CopiesJoin(u: Setup, work: seq<Work>, d: nat, first: seq<ClientMsg>, more: seq<ClientMsg>)
    requires work != [] && ForCopies(u, [work[0]], d, first) && ForCopies(u, work[1..], d, more)
    ensures ForCopies(u, work, d, first + more)
  {
    forall m | m in first + more ensures Granted(u, work, d, m.qos) {
      if m in first {
        assert Granted(u, [work[0]], d, m.qos);
        var w, of: Qos :| w in [work[0]] && w.Copy? && w.client == d &&
                                 CopyLaws.RightQos(u.cfg.upgradeQos, m.qos, of, w.granted);
        assert w in work;
      } else {
        assert Granted(u, work[1..], d, m.qos);
        var w, of: Qos :| w in work[1..] && w.Copy? && w.client == d &&
                                 CopyLaws.RightQos(u.cfg.upgradeQos, m.qos, of, w.granted);
        assert w in work;
      }
    }
  }

  lemma {:induction false} WorksAppend(u: Setup, b: Broker, id: StoreId, qos: Qos, work: seq<Work>, d: nat)
    returns (added: seq<ClientMsg>)
    requires d < |b.clients|
    ensures DoWorks(u, b, id, qos, work).clients[d].msgs == b.clients[d].msgs + added && ForCopies(u, work, d, added)
    decreases |work|
  {
    hide DoWork, Granted;
    if work == [] {
      added := [];
      assert b.clients[d].msgs + [] == b.clients[d].msgs;
    } else {
      var first := WorkAppends(u, b, id, qos, work[0], d);
      var b' := DoWork(u, b, id, qos, work[0]);
      var more := WorksAppend(u, b', id, qos, work[1..], d);
      added := first + more;
      CopiesJoin(u, work, d, first, more);
      assert b.clients[d].msgs + first + more == b.clients[d].msgs + added;
    }
  }

  /** What the walk through the tree put into the releasing client's own queue,
      for each entry it released. */
  lemma {:induction false} ReleaseIsSweep(u: Setup, b: Broker, c: nat, i: nat, index: nat, mid: Mid, deleted: bool,
                                          works: seq<seq<Work>>) returns (later: seq<seq<ClientMsg>>)
    requires c < |b.clients| && i <= |b.clients[c].msgs|
    ensures var msgs := b.clients[c].msgs;
            |later| <= |works| && ReleaseFrom(u, b, c, i, index, mid, deleted, works).clients[c].msgs ==
            Sweep(msgs[..i], msgs[i..], index, mid, In, u.lim, true, deleted, later).msgs
    ensures forall k :: 0 <= k < |later| ==> ForCopies(u, works[k], c, later[k])
    decreases |works|, |b.clients[c].msgs| - i
  {
    hide Touched, TouchSends, IsEntry, TouchAt, RemoveAt, MessagesQueue, PromoteHead, ForCopies;
    var msgs := b.clients[c].msgs;
    later := [];
    if i == |msgs| {
      assert msgs[..i] == msgs;
    } else {
      var b1 := TouchAt(u, b, c, i, index + 1);
      var pre, t, rest := msgs[..i], Touched(msgs[i], index + 1, u.lim), msgs[i + 1..];
      TouchedList(u, b, c, i, index + 1);
      assert msgs[i..][1..] == rest && msgs[i..][0] == msgs[i];
      if IsEntry(t, mid, In) {
        var added, b2 := HandedOnTo(u, b1, c, t, works);
        TakeAt(u, b2, c, pre, t, rest, added);
        var b3 := RemoveAt(u, b2, c, i);
        if index + 1 <= u.lim.inflight {
          var more := ReleaseIsSweep(u, b3, c, i, index + 1, mid, true, if works == [] then [] else works[1..]);
          later := if works == [] then [] else [added] + more;
          assert works != [] ==> later[0] == added && later[1..] == more;
        } else {
          later := if works == [] then [] else [added];
        }
      } else if !(index + 1 > u.lim.inflight && deleted) {
        later := ReleaseIsSweep(u, b1, c, i + 1, index + 1, mid, deleted, works);
        assert b1.clients[c].msgs[..i + 1] == pre + [t] && b1.clients[c].msgs[i + 1..] == rest;
      }
    }
  }

  /** The step of handing one message on. */
  lemma HandedOnTo(u: Setup, b: Broker, c: nat, m: ClientMsg, works: seq<seq<Work>>)
    returns (added: seq<ClientMsg>, b2: Broker)
    requires c < |b.clients|
    ensures b2 == (if works == [] || m.store !in b.stores || b.stores[m.store].topic == None then b
                   else MessagesQueue(u, b, m.store, b.stores[m.store].qos, works[0]))
    ensures c < |b2.clients| && b2.clients[c].msgs == b.clients[c].msgs + added
    ensures if works == [] then added == [] else ForCopies(u, works[0], c, added)
  {
    if works == [] || m.store !in b.stores || b.stores[m.store].topic == None {
      added, b2 := [], b;
      assert b.clients[c].msgs + [] == b.clients[c].msgs;
    } else {
      b2 := MessagesQueue(u, b, m.store, b.stores[m.store].qos, works[0]);
      added := WorksAppend(u, Protect(b, m.store), m.store, b.stores[m.store].qos, works[0], c);
    }
  }

  lemma TouchedList(u: Setup, b: Broker, c: nat, i: nat, index: nat)
    requires c < |b.clients| && i < |b.clients[c].msgs|
    ensures var msgs := b.clients[c].msgs;
            TouchAt(u, b, c, i, index).clients[c].msgs == msgs[..i] + [Touched(msgs[i], index, u.lim)] + msgs[i + 1..]
  {
  }

  lemma TakeAt(u: Setup, b: Broker, c: nat, pre: seq<ClientMsg>, t: ClientMsg, rest: seq<ClientMsg>,
               added: seq<ClientMsg>)
    requires c < |b.clients| && b.clients[c].msgs == pre + [t] + rest + added
    ensures var now := RemoveAt(u, b, c, |pre|).clients[c].msgs;
            now == PromoteHead(pre + rest + added, u.lim) && |now| == |pre| + |rest| + |added|
    ensures b.clients[c].msgs[|pre|] == t
  {
    assert DropAt(pre + [t] + rest + added, |pre|) == pre + rest + added;
  }
}
