/** The release loop step by step: what it leaves, sends and hands on, for a
    client that is a subscriber of its own messages. The walk over the queue
    ends where the broker's release ends, entry by entry. */
module ReleaseWalk {
  import opened Common
  import opened SubTree
  import opened ClientQueue
  import opened MsgStore
  import opened BrokerStore

  /** The loop on its way: the broker as it is, the position, the entries
      counted, whether something was taken out, the work that is left for the
      tree, and what went out so far. */
  datatype Walk = Walk(b: Broker, i: nat, index: nat, deleted: bool, works: seq<seq<Work>>,
                       sent: seq<Packet>, handed: seq<StoreId>)

  /** The work of a tree in which the first client has these subscriptions. */
  function OwnWork(own: seq<Qos>): seq<Work> {
    if own == [] then [] else [Copy(0, own[0])] + OwnWork(own[1..])
  }

  function OwnWorks(own: seq<Qos>, n: nat): (works: seq<seq<Work>>)
    ensures |works| == n && forall k :: 0 <= k < n ==> works[k] == OwnWork(own)
  {
    seq(n, k => OwnWork(own))
  }

  function Begin(b: Broker, works: seq<seq<Work>>): Walk {
    Walk(b, 0, 0, false, works, [], [])
  }

  predicate InQueue(w: Walk) {
    |w.b.clients| == 1 && w.i < |w.b.clients[0].msgs|
  }

  /** The broker after the message of entry `m` has been handed on. */
  function Handing(u: Setup, b: Broker, m: ClientMsg, works: seq<seq<Work>>): (r: Broker)
    ensures |r.clients| == |b.clients|
  {
    if works == [] || m.store !in b.stores || b.stores[m.store].topic == None then b
    else MessagesQueue(u, b, m.store, b.stores[m.store].qos, works[0])
  }

  /** One turn of the loop. */
  function Turn(u: Setup, mid: Mid, w: Walk): (r: Walk)
    requires InQueue(w)
    ensures |r.b.clients| == 1
  {
    var b1 := TouchAt(u, w.b, 0, w.i, w.index + 1);
    var m := b1.clients[0].msgs[w.i];
    var sent := w.sent + TouchSends(w.b.clients[0].msgs[w.i], w.index + 1, u.lim, true);
    if IsEntry(m, mid, In) then
      var b2 := Handing(u, b1, m, w.works);
      var handed := w.handed + if m.store in b1.stores && b1.stores[m.store].topic.Some? then [m.store] else [];
      var b3 := if w.i < |b2.clients[0].msgs| then RemoveAt(u, b2, 0, w.i) else b2;
      Walk(b3, w.i, w.index + 1, true, if w.works == [] then [] else w.works[1..], sent, handed)
    else Walk(b1, w.i + 1, w.index + 1, w.deleted, w.works, sent, w.handed)
  }

  predicate Over(u: Setup, w: Walk) {
    !InQueue(w) || (w.index > u.lim.inflight && w.deleted)
  }

  /** The whole loop. Handing on only makes the queue longer. */
  function Finish(u: Setup, mid: Mid, w: Walk): (r: Walk)
    requires |w.b.clients| == 1
    ensures |r.b.clients| == 1
    decreases |w.works|, if InQueue(w) then |w.b.clients[0].msgs| - w.i else 0
  {
    if !InQueue(w) then w
    else
      TurnShrinks(u, mid, w);
      var next := Turn(u, mid, w);
      if Over(u, next) then next else Finish(u, mid, next)
  }

  lemma TurnShrinks(u: Setup, mid: Mid, w: Walk)
    requires InQueue(w)
    ensures var next := Turn(u, mid, w);
            |next.works| < |w.works| ||
            (|next.works| == |w.works| && |next.b.clients[0].msgs| - next.i < |w.b.clients[0].msgs| - w.i)
  {
    hide MessagesQueue, TouchSends, Touched;
  }

  /** The loop leaves the broker as releasing does. */
  lemma {:induction false} FinishIsRelease(u: Setup, mid: Mid, w: Walk)
    requires |w.b.clients| == 1 && (w.index > u.lim.inflight ==> !w.deleted)
    ensures Finish(u, mid, w).b == ReleaseFrom(u, w.b, 0, w.i, w.index, mid, w.deleted, w.works)
    decreases |w.works|, if InQueue(w) then |w.b.clients[0].msgs| - w.i else 0
  {
    hide MessagesQueue, TouchSends, Touched, TouchAt, RemoveAt;
    if InQueue(w) {
      TurnShrinks(u, mid, w);
      var next := Turn(u, mid, w);
      if !Over(u, next) {
        FinishIsRelease(u, mid, next);
      }
    }
  }

  // ---------------------------------------------- references stay good

  /** One reference more than the entries account for. */
  ghost predicate Protected(list: seq<ClientMsg>, stores: Stores, stored: StoreId) {
    stored in stores && stores[stored].refCount > RefsIn(list)[stored] &&
    forall id :: id in RefsIn(list) ==> id in stores && stores[id].refCount >= RefsIn(list)[id]
  }

  lemma ProtectedStarts(list: seq<ClientMsg>, stores: Stores, stored: StoreId)
    requires Backed(list, stores) && stored in RefsIn(list)
    ensures stored in stores && Protected(list, Ref(stores, stored), stored)
  {
  }

  lemma TakenProtected(list: seq<ClientMsg>, m: ClientMsg, stores: Stores, cfg: Config, client: ClientId)
    requires Protected(list, stores, m.store)
    ensures Protected(list + [m], Taken(cfg, stores, m.store, client, m.direction, m.retain), m.store)
  {
    hide Taken;
    StoresOfConcat(list, [m]);
    assert StoresOf([m]) == [m.store];
    var refs := RefsIn(list + [m]);
    assert refs == RefsIn(list) + multiset{m.store};
    var after := Taken(cfg, stores, m.store, client, m.direction, m.retain);
    TakenAt(cfg, stores, m.store, client, m.direction, m.retain, m.store);
    forall id | id in refs ensures id in after && after[id].refCount >= refs[id] {
      TakenAt(cfg, stores, m.store, client, m.direction, m.retain, id);
    }
  }

  lemma TakenAt(cfg: Config, stores: Stores, id: StoreId, client: ClientId, dir: Direction, retain: bool, k: StoreId)
    requires id in stores
    ensures var after := Taken(cfg, stores, id, client, dir, retain);
            after.Keys == stores.Keys &&
            (k in stores ==> after[k].refCount == stores[k].refCount + if k == id then 1 else 0) &&
            (k in stores ==> after[k].topic == stores[k].topic)
  {
  }

  lemma ProtectedEnds(list: seq<ClientMsg>, stores: Stores, stored: StoreId)
    requires Protected(list, stores, stored)
    ensures stored in stores && Backed(list, Deref(stores, stored))
  {
  }

  ghost predicate OnlyOut(added: seq<ClientMsg>, id: StoreId) {
    forall m :: m in added ==> m.direction == Out && m.store == id && !m.retain
  }

  /** A copy for the one client is turned away or becomes an entry. */
  lemma CopyIs(u: Setup, b: Broker, id: StoreId, qos: Qos, granted: Qos)
    requires |b.clients| == 1 && id in b.stores
    ensures var s, q := b.clients[0], GrantedQos(u.cfg, qos, granted);
            var mid := if q == 0 then s.lastMid else NextMid(s.lastMid);
            var v := VerdictFor(u, s, b.stores[id], q);
            var m := ClientMsg(id, if q == 0 then 0 else mid, q, false, Out, if v.Accept? then v.state
                               else Queued, false);
            var r := DoWork(u, b, id, qos, Copy(0, granted));
            if v.Refuse? then r.clients == [s.(lastMid := mid)] && r.stores == b.stores
            else r.clients == [s.(lastMid := mid, msgs := s.msgs + [m])] &&
                 r.stores == Taken(u.cfg, b.stores, id, s.id, Out, false)
  {
    hide Admit, AlreadySent, Taken, NextMid, GrantedQos, Count12;
  }

  function VerdictFor(u: Setup, s: Session, stored: Store, qos: Qos): Verdict {
    if AlreadySent(u.cfg, stored, s.id, Out, false) then Refuse(0)
    else Admit(u.lim, u.cfg, s.connected, Count12(s.msgs), Out, qos)
  }

  /** At most one outgoing entry of the granted QoS is added, for which the
      message gains a reference. */
  lemma CopyAdds(u: Setup, b: Broker, id: StoreId, qos: Qos, granted: Qos) returns (added: seq<ClientMsg>)
    requires |b.clients| == 1 && Protected(b.clients[0].msgs, b.stores, id)
    ensures var r := DoWork(u, b, id, qos, Copy(0, granted));
            |r.clients| == 1 && r.clients[0].msgs == b.clients[0].msgs + added && OnlyOut(added, id) && |added| <= 1 &&
            Protected(r.clients[0].msgs, r.stores, id) && r.stores.Keys == b.stores.Keys &&
            (forall m :: m in added ==> m.qos == GrantedQos(u.cfg, qos, granted)) &&
            forall k :: k in b.stores ==> r.stores[k].topic == b.stores[k].topic
  {
    hide Protected, VerdictFor, GrantedQos, NextMid, DoWork, Taken;
    var s, q := b.clients[0], GrantedQos(u.cfg, qos, granted);
    InStores(s.msgs, b.stores, id);
    CopyIs(u, b, id, qos, granted);
    forall k ensures Taken(u.cfg, b.stores, id, s.id, Out, false).Keys == b.stores.Keys
             ensures k in b.stores ==> Taken(u.cfg, b.stores, id, s.id, Out, false)[k].topic == b.stores[k].topic
    {
      TakenAt(u.cfg, b.stores, id, s.id, Out, false, k);
    }
    var v := VerdictFor(u, s, b.stores[id], q);
    added := [];
    assert s.msgs + [] == s.msgs;
    if v.Accept? {
      var m := ClientMsg(id, if q == 0 then 0 else NextMid(s.lastMid), q, false, Out, v.state, false);
      added := [m];
      TakenProtected(s.msgs, m, b.stores, u.cfg, s.id);
    }
  }

  lemma WorkNext(u: Setup, b: Broker, id: StoreId, qos: Qos, own: seq<Qos>)
    requires own != []
    ensures DoWorks(u, b, id, qos, OwnWork(own)) ==
            DoWorks(u, DoWork(u, b, id, qos, Copy(0, own[0])), id, qos, OwnWork(own[1..]))
  {
    assert OwnWork(own)[1..] == OwnWork(own[1..]);
  }

  lemma InStores(list: seq<ClientMsg>, stores: Stores, id: StoreId)
    requires Protected(list, stores, id)
    ensures id in stores
  {
  }

  lemma {:induction false} WorkAdds(u: Setup, b: Broker, id: StoreId, qos: Qos, own: seq<Qos>)
    returns (added: seq<ClientMsg>)
    requires |b.clients| == 1 && Protected(b.clients[0].msgs, b.stores, id)
    ensures var r := DoWorks(u, b, id, qos, OwnWork(own));
            |r.clients| == 1 && r.clients[0].msgs == b.clients[0].msgs + added && OnlyOut(added, id) &&
            |added| <= |own| && Protected(r.clients[0].msgs, r.stores, id) && r.stores.Keys == b.stores.Keys &&
            (forall m :: m in added ==> exists g :: g in own && m.qos == GrantedQos(u.cfg, qos, g)) &&
            forall k :: k in b.stores ==> r.stores[k].topic == b.stores[k].topic
    decreases |own|
  {
    hide *;
    if own == [] {
      NoWork(u, b, id, qos);
      added := [];
      assert b.clients[0].msgs + [] == b.clients[0].msgs;
    } else {
      WorkNext(u, b, id, qos, own);
      var first := CopyAdds(u, b, id, qos, own[0]);
      var more := WorkAdds(u, DoWork(u, b, id, qos, Copy(0, own[0])), id, qos, own[1..]);
      added := first + more;
      OutJoin(first, more, id);
      assert b.clients[0].msgs + first + more == b.clients[0].msgs + added;
    }
  }

  lemma NoWork(u: Setup, b: Broker, id: StoreId, qos: Qos)
    ensures DoWorks(u, b, id, qos, OwnWork([])) == b && OnlyOut([], id)
  {
  }

  lemma OutJoin(a: seq<ClientMsg>, b: seq<ClientMsg>, id: StoreId)
    requires OnlyOut(a, id) && OnlyOut(b, id)
    ensures OnlyOut(a + b, id)
  {
  }

  /** Handing an entry's message on to its own client. */
  lemma HandingAdds(u: Setup, b: Broker, id: StoreId, qos: Qos, own: seq<Qos>) returns (added: seq<ClientMsg>)
    requires |b.clients| == 1 && Backed(b.clients[0].msgs, b.stores) && id in RefsIn(b.clients[0].msgs) &&
             id in b.stores
    ensures var r := MessagesQueue(u, b, id, qos, OwnWork(own));
            |r.clients| == 1 && r.clients[0].msgs == b.clients[0].msgs + added && OnlyOut(added, id) &&
            |added| <= |own| && Backed(r.clients[0].msgs, r.stores) &&
            (forall m :: m in added ==> exists g :: g in own && m.qos == GrantedQos(u.cfg, qos, g)) &&
            r.stores.Keys <= b.stores.Keys &&
            forall k :: k in r.stores ==> r.stores[k].topic == b.stores[k].topic
  {
    hide DoWorks, Protected, Backed, GrantedQos;
    ProtectedStarts(b.clients[0].msgs, b.stores, id);
    added := WorkAdds(u, Protect(b, id), id, qos, own);
    var b' := DoWorks(u, Protect(b, id), id, qos, OwnWork(own));
    ProtectedEnds(b'.clients[0].msgs, b'.stores, id);
  }

  /** Taking an entry out gives its reference back. */
  lemma RemovedBacked(list: seq<ClientMsg>, i: nat, lim: Limits, stores: Stores)
    requires i < |list| && Backed(list, stores)
    ensures list[i].store in stores
    ensures Backed(PromoteHead(DropAt(list, i), lim), Deref(stores, list[i].store))
  {
    BackedDrop(list, i, stores);
    PromoteKeeps(DropAt(list, i), lim);
    var a, b := DropAt(list, i), PromoteHead(DropAt(list, i), lim);
    forall k | 0 <= k < |a| ensures a[k].store == b[k].store {
      assert Core(a[k]) == Core(b[k]);
    }
    SameStoresBacked(a, b, Deref(stores, list[i].store));
  }

  lemma RemovedIs(u: Setup, b: Broker, i: nat)
    requires |b.clients| == 1 && i < |b.clients[0].msgs|
    ensures var s, r := b.clients[0], RemoveAt(u, b, 0, i);
            r.clients == [s.(msgs := PromoteHead(DropAt(s.msgs, i), u.lim))] &&
            r.stores == Deref(b.stores, s.msgs[i].store)
  {
    hide PromoteHead, DropAt;
  }

  lemma EntryIn(list: seq<ClientMsg>, i: nat, stores: Stores)
    requires i < |list| && Backed(list, stores)
    ensures list[i].store in RefsIn(list) && list[i].store in stores
  {
    assert StoresOf(list)[i] in StoresOf(list);
  }

  // ---------------------------------------------------- one turn of the loop

  /** Behind the entries that are to come, and are as many as there is work
      left, there are outgoing ones only. */
  predicate Enough(w: Walk) {
    |w.b.clients| == 1 && w.i <= |w.b.clients[0].msgs| &&
    forall k :: w.i + |w.works| <= k < |w.b.clients[0].msgs| ==> w.b.clients[0].msgs[k].direction == Out
  }

  ghost predicate Good(own: seq<Qos>, w: Walk) {
    Enough(w) && Backed(w.b.clients[0].msgs, w.b.stores) &&
    forall k :: 0 <= k < |w.works| ==> w.works[k] == OwnWork(own)
  }

  lemma TouchedEntry(m: ClientMsg, index: nat, lim: Limits)
    ensures var t := Touched(m, index, lim);
            t.mid == m.mid && t.direction == m.direction && t.store == m.store
  {
  }

  lemma TouchShape(u: Setup, b: Broker, i: nat, index: nat)
    requires |b.clients| == 1 && i < |b.clients[0].msgs|
    ensures var msgs := b.clients[0].msgs;
            TouchAt(u, b, 0, i, index) ==
            b.(clients := [b.clients[0].(msgs := msgs[i := Touched(msgs[i], index, u.lim)])])
  {
    hide Touched;
  }

  lemma TurnShape(u: Setup, mid: Mid, w: Walk)
    requires InQueue(w)
    ensures var s := w.b.clients[0];
            var t := Touched(s.msgs[w.i], w.index + 1, u.lim);
            var b1 := w.b.(clients := [s.(msgs := s.msgs[w.i := t])]);
            var sent := w.sent + TouchSends(s.msgs[w.i], w.index + 1, u.lim, true);
            var next := Turn(u, mid, w);
            if !IsEntry(s.msgs[w.i], mid, In) then
              next == Walk(b1, w.i + 1, w.index + 1, w.deleted, w.works, sent, w.handed)
            else
              var b2 := Handing(u, b1, t, w.works);
              next.b == (if w.i < |b2.clients[0].msgs| then RemoveAt(u, b2, 0, w.i) else b2) &&
              next.i == w.i && next.index == w.index + 1 && next.deleted && next.sent == sent &&
              next.works == (if w.works == [] then [] else w.works[1..]) &&
              next.handed ==
              w.handed + if t.store in b1.stores && b1.stores[t.store].topic.Some? then [t.store] else []
  {
    TouchShape(u, w.b, w.i, w.index + 1);
    TouchedEntry(w.b.clients[0].msgs[w.i], w.index + 1, u.lim);
    hide Touched, TouchSends, TouchAt, Handing, RemoveAt;
  }

  /** An entry that is not released is passed, perhaps started. */
  lemma TurnPasses(u: Setup, own: seq<Qos>, mid: Mid, w: Walk)
    requires Good(own, w) && InQueue(w) && !IsEntry(w.b.clients[0].msgs[w.i], mid, In)
    ensures Good(own, Turn(u, mid, w))
  {
    hide Backed, TouchSends, Turn, Touched;
    var msgs := w.b.clients[0].msgs;
    var t := Touched(msgs[w.i], w.index + 1, u.lim);
    TurnShape(u, mid, w);
    TouchedEntry(msgs[w.i], w.index + 1, u.lim);
    SameStoresBacked(msgs, msgs[w.i := t], w.b.stores);
  }

  /** The message of an entry that is released is handed on first. */
  lemma TurnHands(u: Setup, own: seq<Qos>, mid: Mid, w: Walk) returns (b2: Broker, added: seq<ClientMsg>)
    requires Good(own, w) && InQueue(w) && IsEntry(w.b.clients[0].msgs[w.i], mid, In)
    ensures var next, msgs := Turn(u, mid, w), w.b.clients[0].msgs;
            var t := Touched(msgs[w.i], w.index + 1, u.lim);
            w.works != [] && t.store in w.b.stores && OnlyOut(added, t.store) && |b2.clients| == 1 &&
            b2.clients[0].msgs == msgs[w.i := t] + added && Backed(b2.clients[0].msgs, b2.stores) &&
            next.b == RemoveAt(u, b2, 0, w.i) && next.i == w.i && next.works == w.works[1..] &&
            b2.stores.Keys <= w.b.stores.Keys &&
            forall k :: k in b2.stores ==> b2.stores[k].topic == w.b.stores[k].topic
  {
    hide Turn, Touched, TouchSends, Backed, Handing, RemoveAt, OnlyOut;
    var s, msgs := w.b.clients[0], w.b.clients[0].msgs;
    var t := Touched(msgs[w.i], w.index + 1, u.lim);
    TurnShape(u, mid, w);
    TouchedEntry(msgs[w.i], w.index + 1, u.lim);
    var b1 := w.b.(clients := [s.(msgs := msgs[w.i := t])]);
    SameStoresBacked(msgs, msgs[w.i := t], w.b.stores);
    added := HandingGood(u, own, b1, w.i, w.works);
    b2 := Handing(u, b1, t, w.works);
  }

  /** ... and the entry is then taken out. */
  lemma TurnTakes(u: Setup, own: seq<Qos>, mid: Mid, w: Walk) returns (added: seq<ClientMsg>)
    requires Good(own, w) && InQueue(w) && IsEntry(w.b.clients[0].msgs[w.i], mid, In)
    ensures var next, msgs := Turn(u, mid, w), w.b.clients[0].msgs;
            Good(own, next) && w.works != [] && msgs[w.i].store in w.b.stores && OnlyOut(added, msgs[w.i].store) &&
            next.b.clients[0].msgs == PromoteHead(msgs[..w.i] + msgs[w.i + 1..] + added, u.lim) &&
            next.b.stores.Keys <= w.b.stores.Keys &&
            forall k :: k in next.b.stores ==> next.b.stores[k].topic == w.b.stores[k].topic
  {
    hide Turn, Touched, Backed, RemoveAt, PromoteHead, DropAt, OnlyOut;
    var msgs := w.b.clients[0].msgs;
    var t := Touched(msgs[w.i], w.index + 1, u.lim);
    TouchedEntry(msgs[w.i], w.index + 1, u.lim);
    var b2;
    b2, added := TurnHands(u, own, mid, w);
    RemovedGood(u, b2, w.i);
    DroppedList(msgs, w.i, t, added);
    TakenEnough(w, t, added, u.lim);
  }

  lemma DroppedList(msgs: seq<ClientMsg>, i: nat, t: ClientMsg, added: seq<ClientMsg>)
    requires i < |msgs|
    ensures DropAt(msgs[i := t] + added, i) == msgs[..i] + msgs[i + 1..] + added
  {
  }

  lemma HandingGood(u: Setup, own: seq<Qos>, b: Broker, i: nat, works: seq<seq<Work>>) returns (added: seq<ClientMsg>)
    requires |b.clients| == 1 && i < |b.clients[0].msgs| && Backed(b.clients[0].msgs, b.stores)
    requires works != [] && works[0] == OwnWork(own)
    ensures var m := b.clients[0].msgs[i];
            var r := Handing(u, b, m, works);
            m.store in b.stores && r.clients[0].msgs == b.clients[0].msgs + added && OnlyOut(added, m.store) &&
            Backed(r.clients[0].msgs, r.stores) && r.stores.Keys <= b.stores.Keys &&
            forall k :: k in r.stores ==> r.stores[k].topic == b.stores[k].topic
  {
    var m := b.clients[0].msgs[i];
    EntryIn(b.clients[0].msgs, i, b.stores);
    hide Backed, MessagesQueue;
    if b.stores[m.store].topic == None {
      added := [];
      assert b.clients[0].msgs + [] == b.clients[0].msgs;
    } else {
      added := HandingAdds(u, b, m.store, b.stores[m.store].qos, own);
    }
  }

  lemma RemovedGood(u: Setup, b: Broker, i: nat)
    requires |b.clients| == 1 && i < |b.clients[0].msgs| && Backed(b.clients[0].msgs, b.stores)
    ensures var r := RemoveAt(u, b, 0, i);
            |r.clients| == 1 && r.clients[0].msgs == PromoteHead(DropAt(b.clients[0].msgs, i), u.lim) &&
            Backed(r.clients[0].msgs, r.stores) && r.stores.Keys <= b.stores.Keys &&
            forall k :: k in r.stores ==> r.stores[k].topic == b.stores[k].topic
  {
    RemovedBacked(b.clients[0].msgs, i, u.lim, b.stores);
    hide Backed, PromoteHead, DropAt;
  }

  lemma TakenEnough(w: Walk, t: ClientMsg, added: seq<ClientMsg>, lim: Limits)
    requires Enough(w) && InQueue(w) && w.works != [] && OnlyOut(added, t.store)
    ensures var now := PromoteHead(w.b.clients[0].msgs[..w.i] + w.b.clients[0].msgs[w.i + 1..] + added, lim);
            w.i <= |now| && forall k :: w.i + |w.works| - 1 <= k < |now| ==> now[k].direction == Out
  {
    var msgs := w.b.clients[0].msgs;
    var rest := msgs[..w.i] + msgs[w.i + 1..] + added;
    PromoteKeeps(rest, lim);
    forall k | w.i + |w.works| - 1 <= k < |rest| ensures rest[k].direction == Out {
      if k < |msgs| - 1 { assert rest[k] == msgs[k + 1]; } else { assert rest[k] in added; }
    }
  }

  // -------------------------------------------------- the loop and the sweep

  lemma HandedOne(stores: Stores, t: ClientMsg)
    ensures HandedOn(stores, [t]) == if t.store in stores && stores[t.store].topic.Some? then [t.store] else []
  {
    assert [t][1..] == [];
  }

  lemma {:induction false} SameHanded(a: Stores, b: Stores, removed: seq<ClientMsg>)
    requires forall m :: m in removed ==> m.store in b
    requires b.Keys <= a.Keys && forall k :: k in b ==> b[k].topic == a[k].topic
    ensures HandedOn(a, removed) == HandedOn(b, removed)
  {
    if removed != [] { SameHanded(a, b, removed[1..]); }
  }

  /** The rest of the loop takes out and sends what a sweep does from here. */
  ghost predicate Sweeps(u: Setup, mid: Mid, w: Walk, later: seq<seq<ClientMsg>>, r: Swept)
    requires Enough(w)
  {
    var msgs, end := w.b.clients[0].msgs, Finish(u, mid, w);
    r == Sweep(msgs[..w.i], msgs[w.i..], w.index, mid, In, u.lim, true, w.deleted, later) &&
    (forall m :: m in r.removed ==> m.store in w.b.stores) && Backed(end.b.clients[0].msgs, end.b.stores) &&
    end.b.clients[0].msgs == r.msgs && end.sent == w.sent + r.sent &&
    end.deleted == (w.deleted || r.removed != []) && end.handed == w.handed + HandedOn(w.b.stores, r.removed)
  }

  /** The loop sweeps the queue, for what handing on puts behind it. */
  lemma {:induction false} FinishIsSweep(u: Setup, own: seq<Qos>, mid: Mid, w: Walk)
    returns (later: seq<seq<ClientMsg>>, r: Swept)
    requires Good(own, w) && !(w.index > u.lim.inflight && w.deleted)
    ensures Sweeps(u, mid, w, later, r)
    decreases |w.works|, if InQueue(w) then |w.b.clients[0].msgs| - w.i else 0
  {
    var msgs := w.b.clients[0].msgs;
    if !InQueue(w) {
      later, r := [], Swept(msgs, [], []);
      assert msgs[..w.i] == msgs && msgs[w.i..] == [];
      assert w.sent + [] == w.sent && w.handed + [] == w.handed;
    } else {
      var next := Turn(u, mid, w);
      TurnShrinks(u, mid, w);
      FinishStep(u, mid, w);
      var added := [];
      if IsEntry(msgs[w.i], mid, In) {
        added := TurnTakes(u, own, mid, w);
      } else {
        TurnPasses(u, own, mid, w);
      }
      hide Sweeps, Turn, Finish, Good;
      later, r := [], Swept([], [], []);
      if !(next.index > u.lim.inflight && next.deleted) { later, r := FinishIsSweep(u, own, mid, next); }
      if IsEntry(msgs[w.i], mid, In) {
        later, r := TakeSweeps(u, own, mid, w, added, later, r);
      } else {
        r := PassSweeps(u, own, mid, w, later, r);
        if next.index > u.lim.inflight && next.deleted { later := []; }
      }
    }
  }

  lemma FinishStep(u: Setup, mid: Mid, w: Walk)
    requires InQueue(w)
    ensures var next := Turn(u, mid, w);
            Finish(u, mid, w) ==
            if next.index > u.lim.inflight && next.deleted then next else Finish(u, mid, next)
  {
    hide Turn;
  }

  lemma PassedLists(msgs: seq<ClientMsg>, i: nat, t: ClientMsg)
    requires i < |msgs|
    ensures var now := msgs[i := t];
            now[..i + 1] == msgs[..i] + [t] && now[i + 1..] == msgs[i..][1..] == msgs[i + 1..] &&
            msgs[i..][0] == msgs[i] &&
            now == msgs[..i] + [t] + msgs[i + 1..]
  {
  }

  /** The walk at its beginning, at any turn, and at its end. */
  lemma BeginGood(own: seq<Qos>, w: Walk)
    requires |w.b.clients| == 1 && Backed(w.b.clients[0].msgs, w.b.stores)
    requires w == Begin(w.b, OwnWorks(own, |w.b.clients[0].msgs|))
    ensures Good(own, w)
  {
    hide Backed;
  }

  lemma TurnGood(u: Setup, own: seq<Qos>, mid: Mid, w: Walk)
    requires Good(own, w) && InQueue(w)
    ensures Good(own, Turn(u, mid, w))
  {
    hide Good, Turn;
    if IsEntry(w.b.clients[0].msgs[w.i], mid, In) {
      var added := TurnTakes(u, own, mid, w);
    } else {
      TurnPasses(u, own, mid, w);
    }
  }

  lemma TurnIndex(u: Setup, mid: Mid, w: Walk)
    requires InQueue(w)
    ensures Turn(u, mid, w).index == w.index + 1
  {
    TurnShape(u, mid, w);
  }

  /** Starting the entry in the walk's place leaves references as they are. */
  lemma TouchGood(own: seq<Qos>, w: Walk, t: ClientMsg)
    requires Good(own, w) && InQueue(w) && t.store == w.b.clients[0].msgs[w.i].store
    requires t.direction == w.b.clients[0].msgs[w.i].direction
    ensures Backed(w.b.clients[0].msgs[w.i := t], w.b.stores)
    ensures t.direction == In ==> w.works != [] && w.works[0] == OwnWork(own)
  {
    SameStoresBacked(w.b.clients[0].msgs, w.b.clients[0].msgs[w.i := t], w.b.stores);
    hide Backed;
  }

  lemma FinishEnds(u: Setup, mid: Mid, w: Walk)
    requires |w.b.clients| == 1 && !InQueue(w)
    ensures Finish(u, mid, w) == w
  {
  }

  lemma BeginSweeps(u: Setup, mid: Mid, w: Walk, later: seq<seq<ClientMsg>>, r: Swept)
    requires Enough(w) && w.i == 0 && w.index == 0 && !w.deleted && w.sent == [] && w.handed == []
    requires Sweeps(u, mid, w, later, r)
    ensures var end := Finish(u, mid, w);
            r == Sweep([], w.b.clients[0].msgs, 0, mid, In, u.lim, true, false, later) &&
            Backed(end.b.clients[0].msgs, end.b.stores) && end.b.clients[0].msgs == r.msgs && end.sent == r.sent &&
            end.deleted == (r.removed != []) && end.handed == HandedOn(w.b.stores, r.removed)
  {
    var msgs := w.b.clients[0].msgs;
    assert msgs[..0] == [] && msgs[0..] == msgs;
    hide Sweep, Finish, Backed;
  }

  lemma SweepPass(pre: seq<ClientMsg>, rest: seq<ClientMsg>, index: nat, mid: Mid, lim: Limits, deleted: bool,
                  later: seq<seq<ClientMsg>>)
    requires rest != [] && !IsEntry(rest[0], mid, In)
    ensures var t, sent := Touched(rest[0], index + 1, lim), TouchSends(rest[0], index + 1, lim, true);
            Sweep(pre, rest, index, mid, In, lim, true, deleted, later) ==
            if index + 1 > lim.inflight && deleted then Swept(pre + [t] + rest[1..], sent, [])
            else
              var r := Sweep(pre + [t], rest[1..], index + 1, mid, In, lim, true, deleted, later);
              r.(sent := sent + r.sent)
  {
    TouchedEntry(rest[0], index + 1, lim);
    hide Touched, TouchSends, PromoteHead;
  }

  lemma SweepTake(pre: seq<ClientMsg>, rest: seq<ClientMsg>, index: nat, mid: Mid, lim: Limits, deleted: bool,
                  added: seq<ClientMsg>, later: seq<seq<ClientMsg>>)
    requires rest != [] && IsEntry(rest[0], mid, In)
    ensures var t, sent := Touched(rest[0], index + 1, lim), TouchSends(rest[0], index + 1, lim, true);
            var all := PromoteHead(pre + rest[1..] + added, lim);
            |all| >= |pre| &&
            Sweep(pre, rest, index, mid, In, lim, true, deleted, [added] + later) ==
            if index + 1 > lim.inflight then Swept(all, sent, [t])
            else
              var r := Sweep(all[..|pre|], all[|pre|..], index + 1, mid, In, lim, true, true, later);
              Swept(r.msgs, sent + r.sent, [t] + r.removed)
  {
    TouchedEntry(rest[0], index + 1, lim);
    assert ([added] + later)[1..] == later;
    hide Touched, TouchSends, PromoteHead;
  }

  lemma PassSweeps(u: Setup, own: seq<Qos>, mid: Mid, w: Walk, later: seq<seq<ClientMsg>>,
                   rest: Swept) returns (r: Swept)
    requires Enough(w) && InQueue(w) && Enough(Turn(u, mid, w)) && !IsEntry(w.b.clients[0].msgs[w.i], mid, In)
    requires Backed(Turn(u, mid, w).b.clients[0].msgs, Turn(u, mid, w).b.stores)
    requires var next := Turn(u, mid, w);
             Finish(u, mid, w) == (if next.index > u.lim.inflight && next.deleted then next
                                   else Finish(u, mid, next)) &&
             (!(next.index > u.lim.inflight && next.deleted) ==> Sweeps(u, mid, next, later, rest))
    ensures Sweeps(u, mid, w, if w.index + 1 > u.lim.inflight && w.deleted then [] else later, r)
  {
    hide Turn, Touched, TouchSends, Backed, Sweep, Finish;
    var msgs, next := w.b.clients[0].msgs, Turn(u, mid, w);
    var t, sent := Touched(msgs[w.i], w.index + 1, u.lim), TouchSends(msgs[w.i], w.index + 1, u.lim, true);
    TurnShape(u, mid, w);
    PassedLists(msgs, w.i, t);
    SweepPass(msgs[..w.i], msgs[w.i..], w.index, mid, u.lim, w.deleted,
              if w.index + 1 > u.lim.inflight && w.deleted then [] else later);
    if w.index + 1 > u.lim.inflight && w.deleted {
      r := Swept(msgs[..w.i] + [t] + msgs[w.i + 1..], sent, []);
      assert w.handed + [] == w.handed;
    } else {
      r := rest.(sent := sent + rest.sent);
      assert w.sent + sent + rest.sent == w.sent + r.sent;
    }
  }

  lemma TakeSweeps(u: Setup, own: seq<Qos>, mid: Mid, w: Walk, added: seq<ClientMsg>, later: seq<seq<ClientMsg>>,
                   rest: Swept)
    returns (later': seq<seq<ClientMsg>>, r: Swept)
    requires Enough(w) && InQueue(w) && Enough(Turn(u, mid, w)) && IsEntry(w.b.clients[0].msgs[w.i], mid, In)
    requires Backed(Turn(u, mid, w).b.clients[0].msgs, Turn(u, mid, w).b.stores)
    requires var next, msgs := Turn(u, mid, w), w.b.clients[0].msgs;
             msgs[w.i].store in w.b.stores &&
             next.b.clients[0].msgs == PromoteHead(msgs[..w.i] + msgs[w.i + 1..] + added, u.lim) &&
             next.b.stores.Keys <= w.b.stores.Keys &&
             (forall k :: k in next.b.stores ==> next.b.stores[k].topic == w.b.stores[k].topic) &&
             Finish(u, mid, w) == (if next.index > u.lim.inflight && next.deleted then next
                                   else Finish(u, mid, next)) &&
             (!(next.index > u.lim.inflight && next.deleted) ==> Sweeps(u, mid, next, later, rest))
    ensures Sweeps(u, mid, w, later', r)
  {
    hide Turn, Touched, TouchSends, Backed, PromoteHead, Sweep, Finish, HandedOn, Enough, IsEntry;
    var msgs, next := w.b.clients[0].msgs, Turn(u, mid, w);
    var t, sent := Touched(msgs[w.i], w.index + 1, u.lim), TouchSends(msgs[w.i], w.index + 1, u.lim, true);
    TurnShape(u, mid, w);
    TouchedEntry(msgs[w.i], w.index + 1, u.lim);
    PassedLists(msgs, w.i, t);
    var over := w.index + 1 > u.lim.inflight;
    later' := [added] + if over then [] else later;
    SweepTake(msgs[..w.i], msgs[w.i..], w.index, mid, u.lim, w.deleted, added, if over then [] else later);
    var handed := HandedOn(w.b.stores, [t]);
    HandedOne(w.b.stores, t);
    if over {
      r := Swept(next.b.clients[0].msgs, sent, [t]);
    } else {
      r := Swept(rest.msgs, sent + rest.sent, [t] + rest.removed);
      SameHanded(w.b.stores, next.b.stores, rest.removed);
      HandedOnConcat(w.b.stores, [t], rest.removed);
      assert w.sent + sent + rest.sent == w.sent + r.sent;
      assert w.handed + handed + HandedOn(w.b.stores, rest.removed) == w.handed + HandedOn(w.b.stores, r.removed);
    }
  }
}
