/** Every entry of every queue is in a state that its QoS and its direction
    allow, and no client has two incoming entries of one id, over every run of
    the broker. */
module BrokerEntries {
  import opened Common
  import opened SubTree
  import opened ClientQueue
  import opened MsgStore
  import opened BrokerStore
  import opened QueueLaws
  import opened BrokerStoreSteps

  // ------------------------------------------------------------ the entries

  /** What an entry is known by while it is in a queue. */
  type Key = (Mid, StoreId)

  function KeyOf(m: ClientMsg): Key {
    (m.mid, m.store)
  }

  /** The outgoing entries whose PUBLISH was sent, and those whose PUBREC came. */
  datatype Marks = Marks(sent: set<Key>, received: set<Key>)

  datatype Rules = Rules(lim: Limits, marks: Marks)

  /** The states an entry of its QoS and direction can be in. */
  predicate Shaped(lim: Limits, m: ClientMsg) {
    (m.state == PublishQos0 ==> m.qos == 0) &&
    (m.state == PublishQos1 || m.state == WaitForPuback ==> m.qos == 1) &&
    (m.state == PublishQos2 || m.state == WaitForPubrec ==> m.qos == 2) &&
    (m.direction == Out ==> m.state != SendPubrec && m.state != ResendPubcomp && m.state != WaitForPubrel) &&
    (m.direction == In ==> m.state != ResendPubrel && m.state != WaitForPubcomp) &&
    (m.direction == In && lim.inflight == 0 ==> m.state == SendPubrec || m.state == WaitForPubrel)
  }

  /** An outgoing entry waits for an answer only if its PUBLISH was sent, and is
      about to repeat its PUBREL, or waits for PUBCOMP, only if its PUBREC came. */
  predicate Marked(k: Marks, m: ClientMsg) {
    m.direction == Out ==>
      (m.state == WaitForPuback || m.state == WaitForPubrec ==> KeyOf(m) in k.sent) &&
      (m.state == ResendPubrel || m.state == WaitForPubcomp ==> KeyOf(m) in k.received)
  }

  predicate Formed(r: Rules, m: ClientMsg) {
    Shaped(r.lim, m) && Marked(r.marks, m)
  }

  predicate AllFormed(r: Rules, msgs: seq<ClientMsg>) {
    forall m :: m in msgs ==> Formed(r, m)
  }

  /** No two incoming entries have the same id. */
  predicate IncomingOnce(msgs: seq<ClientMsg>) {
    forall i, j :: 0 <= i < j < |msgs| && msgs[i].direction == In && msgs[j].direction == In ==>
      msgs[i].mid != msgs[j].mid
  }

  /** An incoming entry has the id its message came with. */
  predicate Sourced(stores: Stores, msgs: seq<ClientMsg>) {
    forall m :: m in msgs && m.direction == In && m.store in stores ==> stores[m.store].sourceMid == m.mid
  }

  predicate Neat(r: Rules, stores: Stores, msgs: seq<ClientMsg>) {
    AllFormed(r, msgs) && IncomingOnce(msgs) && Sourced(stores, msgs)
  }

  function RulesOf(u: Setup, h: seq<Marks>, c: nat): Rules
    requires c < |h|
  {
    Rules(u.lim, h[c])
  }

  ghost predicate AllNeat(u: Setup, h: seq<Marks>, b: Broker) {
    |h| == |b.clients| && forall c :: 0 <= c < |b.clients| ==> Neat(RulesOf(u, h, c), b.stores, b.clients[c].msgs)
  }

  // ------------------------------------------------- states of one queue

  lemma MoveShaped(lim: Limits, m: ClientMsg, toIn: MsgState, expired: bool, index: nat)
    requires Shaped(lim, m) && (toIn == SendPubrec || toIn == WaitForPubrel)
    ensures Shaped(lim, Started(m, toIn)) && Shaped(lim, Retried(m, expired)) && Shaped(lim, ResetEntry(m, index, lim))
    ensures Shaped(lim, Touched(m, index, lim)) && Shaped(lim, AfterSend(m))
    ensures m.direction == In ==> Shaped(lim, m.(state := SendPubrec))
    ensures m.direction == Out ==> Shaped(lim, m.(state := WaitForPubcomp))
  {
    hide *;
    StartShaped(lim, m, toIn, index);
    ResetShaped(lim, m, index);
    SendShaped(lim, m, expired);
  }

  lemma StartShaped(lim: Limits, m: ClientMsg, toIn: MsgState, index: nat)
    requires Shaped(lim, m) && (toIn == SendPubrec || toIn == WaitForPubrel)
    ensures Shaped(lim, Started(m, toIn)) && Shaped(lim, Touched(m, index, lim))
  {
  }

  lemma ResetShaped(lim: Limits, m: ClientMsg, index: nat)
    requires Shaped(lim, m)
    ensures Shaped(lim, ResetEntry(m, index, lim))
  {
  }

  lemma SendShaped(lim: Limits, m: ClientMsg, expired: bool)
    requires Shaped(lim, m)
    ensures Shaped(lim, Retried(m, expired)) && Shaped(lim, AfterSend(m))
    ensures m.direction == In ==> Shaped(lim, m.(state := SendPubrec))
    ensures m.direction == Out ==> Shaped(lim, m.(state := WaitForPubcomp))
  {
  }

  lemma MoveMarked(lim: Limits, k: Marks, m: ClientMsg, toIn: MsgState, expired: bool, index: nat)
    requires Marked(k, m)
    ensures Marked(k, Started(m, toIn)) && Marked(k, Retried(m, expired)) && Marked(k, ResetEntry(m, index, lim))
    ensures Marked(k, Touched(m, index, lim))
    ensures (m.state == PublishQos1 || m.state == PublishQos2 ==> KeyOf(m) in k.sent) ==> Marked(k, AfterSend(m))
  {
  }

  lemma MoveFormed(r: Rules, m: ClientMsg, toIn: MsgState, expired: bool, index: nat)
    requires Formed(r, m) && (toIn == SendPubrec || toIn == WaitForPubrel)
    ensures Formed(r, Started(m, toIn)) && Formed(r, Retried(m, expired)) && Formed(r, ResetEntry(m, index, r.lim))
    ensures Formed(r, Touched(m, index, r.lim))
    ensures (m.state == PublishQos1 || m.state == PublishQos2 ==> KeyOf(m) in r.marks.sent) ==>
              Formed(r, AfterSend(m))
    ensures m.direction == In ==> Formed(r, m.(state := SendPubrec))
    ensures m.direction == Out && KeyOf(m) in r.marks.received ==> Formed(r, m.(state := WaitForPubcomp))
  {
    hide Shaped, Started, Retried, ResetEntry, Touched, AfterSend;
    MoveShaped(r.lim, m, toIn, expired, index);
    MoveMarked(r.lim, r.marks, m, toIn, expired, index);
  }

  lemma {:induction false} PromoteFormed(msgs: seq<ClientMsg>, r: Rules)
    requires AllFormed(r, msgs)
    ensures AllFormed(r, PromoteHead(msgs, r.lim))
  {
    hide Formed;
    if msgs != [] && msgs[0].state == Queued && r.lim.inflight > 0 {
      MoveFormed(r, msgs[0], SendPubrec, false, 0);
      PromoteFormed(msgs[1..], r);
    }
  }

  lemma {:induction false} SweepFormed(pre: seq<ClientMsg>, rest: seq<ClientMsg>, index: nat, mid: Mid, dir: Direction,
                                       r: Rules, release: bool, deleted: bool)
    requires AllFormed(r, pre) && AllFormed(r, rest)
    ensures AllFormed(r, Sweep(pre, rest, index, mid, dir, r.lim, release, deleted, []).msgs)
    decreases |rest|
  {
    hide Formed, Touched, TouchSends, PromoteHead, IsEntry;
    var lim := r.lim;
    if rest != [] {
      MoveFormed(r, rest[0], SendPubrec, false, index + 1);
      var t := Touched(rest[0], index + 1, lim);
      if IsEntry(t, mid, dir) {
        PromoteFormed(pre + rest[1..] + [], r);
        var all := PromoteHead(pre + rest[1..] + [], lim);
        var index' := if release then index + 1 else index;
        if index' <= lim.inflight {
          SweepFormed(all[..|pre|], all[|pre|..], index', mid, dir, r, release, true);
        }
      } else if !(index + 1 > lim.inflight && deleted) {
        SweepFormed(pre + [t], rest[1..], index + 1, mid, dir, r, release, deleted);
      }
    }
  }

  /** The keys of the PUBLISH packets that were sent. */
  function KeysSent(sent: seq<Packet>): (r: set<Key>)
    ensures forall k :: k in r <==> exists p :: p in sent && p.PUBLISH? && (p.mid, p.store) == k
  {
    set p | p in sent && p.PUBLISH? :: (p.mid, p.store)
  }

  lemma {:induction false} WriteFormed(pre: seq<ClientMsg>, rest: seq<ClientMsg>, r: Rules, budget: nat, seen: nat)
    requires AllFormed(r, pre) && AllFormed(r, rest) && IncomingQos2(rest)
    requires KeysSent(WriteFrom(pre, rest, r.lim, budget, seen).sent) <= r.marks.sent
    ensures AllFormed(r, WriteFrom(pre, rest, r.lim, budget, seen).msgs)
    decreases |rest|, if rest != [] && rest[0].state == Queued then 1 else 0
  {
    hide Formed, AfterSend, PromoteHead, PacketFor;
    var lim := r.lim;
    if rest != [] {
      var t, tail := rest[0], rest[1..];
      var seen' := seen + if t.direction == In then 1 else 0;
      MoveFormed(r, t, SendPubrec, false, 0);
      if t.state == Queued && t.direction == In && (lim.inflight == 0 || seen' < lim.inflight) {
        WriteFormed(pre, [t.(state := SendPubrec)] + tail, r, budget, seen');
      } else if t.state == Queued || PacketFor(t) == None {
        WriteFormed(pre + [t], tail, r, budget, seen');
      } else if budget > 0 {
        if t.state == PublishQos0 {
          PromoteFormed(pre + tail, r);
          PromotedIncoming(pre, rest, lim);
          var all := PromoteHead(pre + tail, lim);
          MoreSent(WriteFrom(all[..|pre|], all[|pre|..], lim, budget - 1, seen'), t, [t]);
          WriteFormed(all[..|pre|], all[|pre|..], r, budget - 1, seen');
        } else {
          MoreSent(WriteFrom(pre + [AfterSend(t)], tail, lim, budget - 1, seen'), t, []);
          WriteFormed(pre + [AfterSend(t)], tail, r, budget - 1, seen');
        }
      }
    }
  }

  lemma MoreSent(w: Written, t: ClientMsg, gone: seq<ClientMsg>)
    requires PacketFor(t).Some?
    ensures var w' := Behind(w, [PacketFor(t).value], gone);
            KeysSent(w.sent) <= KeysSent(w'.sent) &&
            (t.state == PublishQos1 || t.state == PublishQos2 ==> KeyOf(t) in KeysSent(w'.sent))
  {
    var w' := Behind(w, [PacketFor(t).value], gone);
    assert forall p :: p in w'.sent <==> p == PacketFor(t).value || p in w.sent;
  }

  // ------------------------------------------------------ ids of one queue

  lemma CoreParts(m: ClientMsg, n: ClientMsg)
    requires Core(m) == Core(n)
    ensures m.direction == n.direction && m.mid == n.mid && m.store == n.store && m.qos == n.qos
  {
    assert m.direction == Core(m).direction && m.mid == Core(m).mid && m.store == Core(m).store && m.qos == Core(m).qos;
    assert n.direction == Core(n).direction && n.mid == Core(n).mid && n.store == Core(n).store && n.qos == Core(n).qos;
  }

  lemma FindCore(msgs: seq<ClientMsg>, core: ClientMsg) returns (i: nat)
    requires core in CoresIn(msgs)
    ensures i < |msgs| && Core(msgs[i]) == core
  {
    i :| 0 <= i < |msgs| && Cores(msgs)[i] == core;
  }

  /** Two positions of a queue hold two of its cores. */
  lemma TwoCores(msgs: seq<ClientMsg>, i: nat, j: nat)
    requires i < j < |msgs|
    ensures multiset{Core(msgs[i]), Core(msgs[j])} <= CoresIn(msgs)
  {
    var cores := Cores(msgs);
    assert cores == cores[..i] + [cores[i]] + cores[i + 1..j] + [cores[j]] + cores[j + 1..];
  }

  /** ... and two cores are in two positions. */
  lemma TwoPlaces(msgs: seq<ClientMsg>, x: ClientMsg, y: ClientMsg) returns (i: nat, j: nat)
    requires multiset{x, y} <= CoresIn(msgs)
    ensures i < |msgs| && j < |msgs| && i != j && Core(msgs[i]) == x && Core(msgs[j]) == y
  {
    assert multiset{x, y}[x] >= 1 && multiset{x, y}[y] >= 1;
    i := FindCore(msgs, x);
    CoresInDrop(msgs, i);
    assert y in CoresIn(DropAt(msgs, i)) by {
      assert CoresIn(msgs) == CoresIn(DropAt(msgs, i)) + multiset{x};
      assert multiset{x, y}[y] == if x == y then 2 else 1;
    }
    var k := FindCore(DropAt(msgs, i), y);
    j := if k < i then k else k + 1;
  }

  lemma SplitsOnce(stores: Stores, a: seq<ClientMsg>, b: seq<ClientMsg>, gone: seq<ClientMsg>)
    requires Splits(a, b, gone) && IncomingOnce(a) && Sourced(stores, a)
    ensures IncomingOnce(b) && Sourced(stores, b)
  {
    assert CoresIn(b) <= CoresIn(a);
    forall i, j | 0 <= i < j < |b| && b[i].direction == In && b[j].direction == In ensures b[i].mid != b[j].mid {
      TwoCores(b, i, j);
      var k, l := TwoPlaces(a, Core(b[i]), Core(b[j]));
      CoreParts(a[k], b[i]);
      CoreParts(a[l], b[j]);
    }
    forall m | m in b && m.direction == In && m.store in stores ensures stores[m.store].sourceMid == m.mid {
      var i :| 0 <= i < |b| && b[i] == m;
      assert Cores(b)[i] == Core(m);
      assert Core(m) in CoresIn(a);
      var k := FindCore(a, Core(m));
      CoreParts(a[k], m);
    }
  }

  lemma SameOnce(stores: Stores, a: seq<ClientMsg>, b: seq<ClientMsg>)
    requires Cores(a) == Cores(b) && IncomingOnce(a) && Sourced(stores, a)
    ensures IncomingOnce(b) && Sourced(stores, b)
  {
    hide Splits;
    SplitsNone(b);
    SplitsSame(a, b, b, []);
    SplitsOnce(stores, a, b, []);
  }

  // ------------------------------------------------------- the broker's steps

  /** Messages may have gone; those still there are the same. */
  ghost predicate Kept(a: Stores, b: Stores) {
    forall id :: id in b ==> id in a && b[id].sourceMid == a[id].sourceMid
  }

  lemma {:induction false} DerefAllKept(stores: Stores, ids: seq<StoreId>)
    ensures Kept(stores, DerefAll(stores, ids))
    decreases |ids|
  {
    if ids != [] { DerefAllKept(Deref(stores, ids[0]), ids[1..]); }
  }

  lemma NeatStores(u: Setup, h: seq<Marks>, b: Broker, b': Broker)
    requires AllNeat(u, h, b) && b'.clients == b.clients && Kept(b.stores, b'.stores)
    ensures AllNeat(u, h, b')
  {
    hide AllFormed, IncomingOnce;
  }

  lemma NeatQueue(u: Setup, h: seq<Marks>, b: Broker, c: nat, s: Session)
    requires AllNeat(u, h, b) && c < |b.clients| && Neat(RulesOf(u, h, c), b.stores, s.msgs)
    ensures AllNeat(u, h, b.(clients := b.clients[c := s]))
  {
    hide Neat;
  }

  lemma MoreNeat(r: Rules, stores: Stores, msgs: seq<ClientMsg>, m: ClientMsg)
    requires Neat(r, stores, msgs) && Formed(r, m)
    requires m.direction == In ==> m.store in stores && stores[m.store].sourceMid == m.mid
    requires m.direction == In ==> forall n :: n in msgs && n.direction == In ==> n.mid != m.mid
    ensures Neat(r, stores, msgs + [m])
  {
    hide Formed;
  }

  lemma AdmittedFormed(u: Setup, r: Rules, connected: bool, count12: nat, m: ClientMsg)
    requires r.lim == u.lim && (m.direction == In ==> m.qos == 2 && connected)
    requires var v := Admit(u.lim, u.cfg, connected, count12, m.direction, m.qos); v.Accept? && v.state == m.state
    ensures Formed(r, m)
  {
  }

  lemma TakenKept(cfg: Config, stores: Stores, id: StoreId, client: ClientId, dir: Direction, retain: bool)
    requires id in stores
    ensures Kept(stores, Taken(cfg, stores, id, client, dir, retain))
  {
  }

  lemma InsertNeat(u: Setup, h: seq<Marks>, b: Broker, c: nat, mid: Mid, dir: Direction, qos: Qos, retain: bool,
                   id: StoreId)
    requires AllNeat(u, h, b) && c < |b.clients| && id in b.stores
    requires dir == In ==> qos == 2 && b.clients[c].connected && b.stores[id].sourceMid == mid
    requires dir == In ==> forall n :: n in b.clients[c].msgs && n.direction == In ==> n.mid != mid
    ensures AllNeat(u, h, Insert(u, b, c, mid, dir, qos, retain, id))
  {
    hide Formed, Neat, Admit, Count12, AlreadySent, Taken, Kept;
    var s, b' := b.clients[c], Insert(u, b, c, mid, dir, qos, retain, id);
    var v := Admit(u.lim, u.cfg, s.connected, Count12(s.msgs), dir, qos);
    if !AlreadySent(u.cfg, b.stores[id], s.id, dir, retain) && v.Accept? {
      var m := ClientMsg(id, mid, qos, retain, dir, v.state, false);
      AdmittedFormed(u, RulesOf(u, h, c), s.connected, Count12(s.msgs), m);
      TakenKept(u.cfg, b.stores, id, s.id, dir, retain);
      MoreNeat(RulesOf(u, h, c), b.stores, s.msgs, m);
      NeatQueue(u, h, b, c, s.(msgs := s.msgs + [m]));
      NeatStores(u, h, WithMsgs(b, c, s.msgs + [m]), b');
    }
  }

  lemma InsertOutNeat(u: Setup, h: seq<Marks>, b: Broker, c: nat, qos: Qos, retain: bool, id: StoreId)
    requires AllNeat(u, h, b) && c < |b.clients| && id in b.stores
    ensures AllNeat(u, h, InsertOut(u, b, c, qos, retain, id))
  {
    var mid := NextMid(b.clients[c].lastMid);
    assert Neat(RulesOf(u, h, c), b.stores, b.clients[c].msgs);
    hide AllNeat, Insert, NextMid, Neat;
    if qos == 0 {
      InsertNeat(u, h, b, c, 0, Out, 0, retain, id);
    } else {
      NeatQueue(u, h, b, c, b.clients[c].(lastMid := mid));
      InsertNeat(u, h, b.(clients := b.clients[c := b.clients[c].(lastMid := mid)]), c, mid, Out, qos, retain, id);
    }
  }

  lemma {:induction false} WorksNeat(u: Setup, h: seq<Marks>, b: Broker, id: StoreId, qos: Qos, work: seq<Work>)
    requires AllNeat(u, h, b)
    ensures AllNeat(u, h, DoWorks(u, b, id, qos, work))
    decreases |work|
  {
    hide AllNeat, InsertOut;
    if work != [] {
      match work[0] {
        case Keep(slot) => if slot < |b.slots| { NeatStores(u, h, b, SetSlot(b, slot, id)); }
        case Copy(c, granted) =>
          if c < |b.clients| && id in b.stores {
            InsertOutNeat(u, h, b, c, GrantedQos(u.cfg, qos, granted), false, id);
          }
      }
      WorksNeat(u, h, DoWork(u, b, id, qos, work[0]), id, qos, work[1..]);
    }
  }

  lemma QueueNeat(u: Setup, h: seq<Marks>, b: Broker, id: StoreId, qos: Qos, work: seq<Work>)
    requires AllNeat(u, h, b) && id in b.stores
    ensures AllNeat(u, h, MessagesQueue(u, b, id, qos, work))
  {
    hide AllNeat, DoWorks;
    NeatStores(u, h, b, Protect(b, id));
    WorksNeat(u, h, Protect(b, id), id, qos, work);
    NeatStores(u, h, DoWorks(u, Protect(b, id), id, qos, work), MessagesQueue(u, b, id, qos, work));
  }

  lemma FreeingNeat(u: Setup, h: seq<Marks>, b: Broker, c: nat, msgs: seq<ClientMsg>, gone: seq<ClientMsg>)
    requires AllNeat(u, h, b) && c < |b.clients| && Splits(b.clients[c].msgs, msgs, gone) &&
             AllFormed(RulesOf(u, h, c), msgs)
    ensures AllNeat(u, h, Freeing(b, c, msgs, gone))
  {
    assert Neat(RulesOf(u, h, c), b.stores, b.clients[c].msgs);
    SplitsOnce(b.stores, b.clients[c].msgs, msgs, gone);
    DerefAllKept(b.stores, StoresOf(gone));
    assert Neat(RulesOf(u, h, c), b.stores, msgs);
    hide AllNeat, Neat;
    NeatQueue(u, h, b, c, b.clients[c].(msgs := msgs));
    NeatStores(u, h, WithMsgs(b, c, msgs), Freeing(b, c, msgs, gone));
  }

  lemma RewriteNeat(u: Setup, h: seq<Marks>, b: Broker, c: nat, s: Session)
    requires AllNeat(u, h, b) && c < |b.clients| && Cores(s.msgs) == Cores(b.clients[c].msgs) &&
             AllFormed(RulesOf(u, h, c), s.msgs)
    ensures AllNeat(u, h, b.(clients := b.clients[c := s]))
  {
    assert Neat(RulesOf(u, h, c), b.stores, b.clients[c].msgs);
    SameOnce(b.stores, b.clients[c].msgs, s.msgs);
    assert Neat(RulesOf(u, h, c), b.stores, s.msgs);
    hide AllNeat, Neat;
    NeatQueue(u, h, b, c, s);
  }

  lemma FormedAt(u: Setup, h: seq<Marks>, b: Broker, c: nat)
    requires AllNeat(u, h, b) && c < |b.clients|
    ensures AllFormed(RulesOf(u, h, c), b.clients[c].msgs)
  {
    assert Neat(RulesOf(u, h, c), b.stores, b.clients[c].msgs);
  }

  lemma RemoveNeat(u: Setup, h: seq<Marks>, b: Broker, c: nat, i: nat)
    requires AllNeat(u, h, b) && c < |b.clients| && i < |b.clients[c].msgs|
    ensures AllNeat(u, h, RemoveAt(u, b, c, i))
  {
    var msgs := b.clients[c].msgs;
    var rest := PromoteHead(DropAt(msgs, i), u.lim);
    FormedAt(u, h, b, c);
    assert AllFormed(RulesOf(u, h, c), DropAt(msgs, i));
    PromoteFormed(DropAt(msgs, i), RulesOf(u, h, c));
    hide AllNeat, Splits, AllFormed;
    PromoteCores(DropAt(msgs, i), u.lim);
    SplitsNone(rest);
    SplitsSame(DropAt(msgs, i), rest, rest, []);
    SplitsDrop(msgs, i, rest, []);
    assert [msgs[i]] + [] == [msgs[i]];
    FreeingNeat(u, h, b, c, rest, [msgs[i]]);
    assert [msgs[i].store][1..] == [];
    assert StoresOf([msgs[i]]) == [msgs[i].store];
    assert DerefAll(b.stores, [msgs[i].store]) == DerefAll(Deref(b.stores, msgs[i].store), []);
    NeatStores(u, h, Freeing(b, c, rest, [msgs[i]]), RemoveAt(u, b, c, i));
  }

  lemma TouchNeat(u: Setup, h: seq<Marks>, b: Broker, c: nat, i: nat, index: nat)
    requires AllNeat(u, h, b) && c < |b.clients| && i < |b.clients[c].msgs|
    ensures AllNeat(u, h, TouchAt(u, b, c, i, index))
  {
    var msgs := b.clients[c].msgs;
    var now := msgs[i := Touched(msgs[i], index, u.lim)];
    FormedAt(u, h, b, c);
    MoveFormed(RulesOf(u, h, c), msgs[i], SendPubrec, false, index);
    hide AllNeat, Formed, Touched;
    TouchedCore(msgs[i], index, u.lim);
    assert Cores(now) == Cores(msgs);
    assert AllFormed(RulesOf(u, h, c), now);
    RewriteNeat(u, h, b, c, b.clients[c].(msgs := now));
  }

  lemma {:induction false} ReleaseNeat(u: Setup, h: seq<Marks>, b: Broker, c: nat, i: nat, index: nat, mid: Mid,
                                       deleted: bool,
                                       works: seq<seq<Work>>)
    requires AllNeat(u, h, b) && c < |b.clients|
    ensures AllNeat(u, h, ReleaseFrom(u, b, c, i, index, mid, deleted, works))
    decreases |works|, |b.clients[c].msgs| - i
  {
    hide AllNeat, MessagesQueue, RemoveAt, TouchAt;
    if i < |b.clients[c].msgs| {
      TouchNeat(u, h, b, c, i, index + 1);
      var b1 := TouchAt(u, b, c, i, index + 1);
      var m := b1.clients[c].msgs[i];
      if IsEntry(m, mid, In) {
        var quiet := works == [] || m.store !in b1.stores || b1.stores[m.store].topic == None;
        if !quiet { QueueNeat(u, h, b1, m.store, b1.stores[m.store].qos, works[0]); }
        var b2 := if quiet then b1 else MessagesQueue(u, b1, m.store, b1.stores[m.store].qos, works[0]);
        if i < |b2.clients[c].msgs| {
          RemoveNeat(u, h, b2, c, i);
          var b3 := RemoveAt(u, b2, c, i);
          if index + 1 <= u.lim.inflight {
            if works == [] {
              RemoveShorter(u, b2, c, i);
              ReleaseNeat(u, h, b3, c, i, index + 1, mid, true, []);
            } else {
              ReleaseNeat(u, h, b3, c, i, index + 1, mid, true, works[1..]);
            }
          }
        }
      } else if !(index + 1 > u.lim.inflight && deleted) {
        ReleaseNeat(u, h, b1, c, i + 1, index + 1, mid, deleted, works);
      }
    }
  }

  /** A new message has an id that no entry points at. */
  lemma NewNeat(u: Setup, h: seq<Marks>, b: Broker, source: ClientId, mid: Mid, topic: Option<string>, qos: Qos,
                retain: bool,
                hasPayload: bool)
    requires AllNeat(u, h, b) && Sound(u, b)
    ensures AllNeat(u, h, NewStore(b, source, mid, topic, qos, retain, hasPayload))
  {
    var b' := NewStore(b, source, mid, topic, qos, retain, hasPayload);
    forall c | 0 <= c < |b.clients| ensures Neat(RulesOf(u, h, c), b'.stores, b.clients[c].msgs) {
      assert Neat(RulesOf(u, h, c), b.stores, b.clients[c].msgs);
      forall m | m in b.clients[c].msgs ensures m.store in b.stores {
        EntryStored(u, b, c, m);
      }
      assert b.lastDbId + 1 !in b.stores;
    }
  }

  lemma EntryStored(u: Setup, b: Broker, c: nat, m: ClientMsg)
    requires Sound(u, b) && c < |b.clients| && m in b.clients[c].msgs
    ensures m.store in b.stores
  {
    var msgs := b.clients[c].msgs;
    var i :| 0 <= i < |msgs| && msgs[i] == m;
    assert StoresOf(msgs)[i] == m.store;
    assert m.store in RefsIn(msgs);
    QueueRefsHas(b.clients, c, m.store);
    assert m.store in Refs(b) + multiset{};
  }

  lemma {:induction false} QueueRefsHas(clients: seq<Session>, c: nat, id: StoreId)
    requires c < |clients| && id in RefsIn(clients[c].msgs)
    ensures id in QueueRefs(clients)
  {
    if c > 0 { QueueRefsHas(clients[1..], c - 1, id); }
  }

  lemma {:induction false} NotIncoming(msgs: seq<ClientMsg>, stores: Stores, mid: Mid)
    requires FindIncoming(msgs, stores, mid) == None
    ensures forall m :: m in msgs && m.direction == In && m.store in stores ==> stores[m.store].sourceMid != mid
  {
    if msgs != [] { NotIncoming(msgs[1..], stores, mid); }
  }

  lemma ArriveQos2Neat(u: Setup, h: seq<Marks>, b: Broker, c: nat, mid: Mid, topic: Option<string>, retain: bool,
                       hasPayload: bool)
    requires AllNeat(u, h, b) && Sound(u, b) && c < |b.clients| && b.clients[c].connected
    ensures AllNeat(u, h, DoArriveQos2(u, b, c, mid, topic, retain, hasPayload))
  {
    if FindIncoming(b.clients[c].msgs, b.stores, mid) == None {
      NotIncoming(b.clients[c].msgs, b.stores, mid);
      assert Neat(RulesOf(u, h, c), b.stores, b.clients[c].msgs);
      forall n | n in b.clients[c].msgs && n.direction == In ensures n.mid != mid {
        EntryStored(u, b, c, n);
      }
      NewNeat(u, h, b, b.clients[c].id, mid, topic, 2, retain, hasPayload);
      var b' := NewStore(b, b.clients[c].id, mid, topic, 2, retain, hasPayload);
      hide AllNeat, Sound, Neat, Insert, FindIncoming;
      InsertNeat(u, h, b', c, mid, In, 2, retain, b'.lastDbId);
    }
  }

  lemma ArriveNeat(u: Setup, h: seq<Marks>, b: Broker, c: nat, mid: Mid, qos: Qos, topic: string, retain: bool,
                   hasPayload: bool,
                   work: seq<Work>)
    requires AllNeat(u, h, b) && Sound(u, b) && c < |b.clients|
    ensures AllNeat(u, h, DoArrive(u, b, c, mid, qos, topic, retain, hasPayload, work))
  {
    hide AllNeat, Sound, MessagesQueue, NewStore, FindIncoming;
    var found := if qos > 0 then FindIncoming(b.clients[c].msgs, b.stores, mid) else None;
    if found.Some? && found.value in b.stores {
      QueueNeat(u, h, b, found.value, qos, work);
    } else {
      NewNeat(u, h, b, b.clients[c].id, mid, Some(topic), qos, retain, hasPayload);
      var b' := NewStore(b, b.clients[c].id, mid, Some(topic), qos, retain, hasPayload);
      QueueNeat(u, h, b', b'.lastDbId, qos, work);
    }
  }

  lemma {:induction false} OfferNeat(u: Setup, h: seq<Marks>, b: Broker, c: nat, from: seq<nat>, granted: Qos)
    requires AllNeat(u, h, b) && c < |b.clients|
    ensures AllNeat(u, h, DoOffer(u, b, c, from, granted))
    decreases |from|
  {
    hide AllNeat, InsertOut;
    if from != [] {
      if from[0] < |b.slots| && b.slots[from[0]].Some? && b.slots[from[0]].value in b.stores {
        var id := b.slots[from[0]].value;
        var qos := if b.stores[id].qos > granted then granted else b.stores[id].qos;
        InsertOutNeat(u, h, b, c, qos, true, id);
        OfferNeat(u, h, InsertOut(u, b, c, qos, true, id), c, from[1..], granted);
      } else {
        OfferNeat(u, h, b, c, from[1..], granted);
      }
    }
  }

  lemma MovesFormed(r: Rules, msgs: seq<ClientMsg>, expired: seq<bool>)
    requires AllFormed(r, msgs)
    ensures AllFormed(r, Reset(msgs, r.lim))
    ensures |expired| == |msgs| ==> AllFormed(r, Timeout(msgs, expired))
  {
    hide Formed;
    forall i | 0 <= i < |msgs|
      ensures Formed(r, ResetEntry(msgs[i], i, r.lim)) &&
              (|expired| == |msgs| ==> Formed(r, Retried(msgs[i], expired[i])))
    {
      MoveFormed(r, msgs[i], SendPubrec, |expired| == |msgs| && expired[i], i);
    }
  }

  lemma UpdateFormed(r: Rules, msgs: seq<ClientMsg>, mid: Mid)
    requires AllFormed(r, msgs) && KeysOf(msgs, mid) <= r.marks.received
    ensures AllFormed(r, Update(msgs, mid, Out, WaitForPubcomp))
  {
    hide Formed;
    var i := IndexOfEntry(msgs, mid, Out);
    if i < |msgs| {
      assert KeyOf(msgs[i]) in KeysOf(msgs, mid);
      MoveFormed(r, msgs[i], SendPubrec, false, 0);
    }
  }

  // ------------------------------------------------------------- the history

  /** The outgoing entries of an id. */
  function KeysOf(msgs: seq<ClientMsg>, mid: Mid): set<Key> {
    set m | m in msgs && m.direction == Out && m.mid == mid :: KeyOf(m)
  }

  predicate InQueue(msgs: seq<ClientMsg>, k: Key) {
    exists m :: m in msgs && m.direction == Out && KeyOf(m) == k
  }

  /** What an operation adds: a write the PUBLISH packets it sends, a PUBREC the
      entries of its id. */
  function Marking(u: Setup, h: seq<Marks>, b: Broker, op: Op): (r: seq<Marks>)
    requires |h| == |b.clients|
    ensures |r| == |Step(u, b, op).clients|
  {
    if !Possible(b, op) then h
    else
      match op
      case Write(c, budget) =>
        if IncomingQos2(b.clients[c].msgs) then
          var w := WriteFrom([], b.clients[c].msgs, u.lim, budget, 0);
          h[c := h[c].(sent := h[c].sent + KeysSent(w.sent))]
        else h
      case Received(c, mid) => h[c := h[c].(received := h[c].received + KeysOf(b.clients[c].msgs, mid))]
      case Join(id) => h + [Marks({}, {})]
      case _ => h
  }

  /** An entry that has left the queue is forgotten. */
  function Trimmed(h: seq<Marks>, b: Broker): (r: seq<Marks>)
    requires |h| == |b.clients|
    ensures |r| == |h|
    ensures forall c :: 0 <= c < |r| ==> r[c] == Trim(h[c], b.clients[c].msgs)
  {
    seq(|h|, c requires 0 <= c < |h| => Trim(h[c], b.clients[c].msgs))
  }

  function Trim(k: Marks, msgs: seq<ClientMsg>): Marks {
    Marks(set x | x in k.sent && InQueue(msgs, x), set x | x in k.received && InQueue(msgs, x))
  }

  function MarksOf(u: Setup, ops: seq<Op>): (h: seq<Marks>)
    ensures |h| == |Run(u, ops).clients|
  {
    if ops == [] then []
    else
      var before := ops[..|ops| - 1];
      Trimmed(Marking(u, MarksOf(u, before), Run(u, before), ops[|ops| - 1]), Run(u, ops))
  }

  predicate Fewer(a: Marks, b: Marks) {
    a.sent <= b.sent && a.received <= b.received
  }

  lemma MarkedMore(u: Setup, h: seq<Marks>, h': seq<Marks>, b: Broker)
    requires AllNeat(u, h, b) && |h'| == |h| && forall c :: 0 <= c < |h| ==> Fewer(h[c], h'[c])
    ensures AllNeat(u, h', b)
  {
    forall c | 0 <= c < |b.clients| ensures Neat(RulesOf(u, h', c), b.stores, b.clients[c].msgs) {
      assert Neat(RulesOf(u, h, c), b.stores, b.clients[c].msgs);
      forall m | m in b.clients[c].msgs ensures Formed(RulesOf(u, h', c), m) {
        assert Formed(RulesOf(u, h, c), m);
      }
    }
  }

  lemma MarkedTrimmed(u: Setup, h: seq<Marks>, b: Broker)
    requires AllNeat(u, h, b)
    ensures AllNeat(u, Trimmed(h, b), b)
  {
    var h' := Trimmed(h, b);
    forall c | 0 <= c < |b.clients| ensures Neat(RulesOf(u, h', c), b.stores, b.clients[c].msgs) {
      assert Neat(RulesOf(u, h, c), b.stores, b.clients[c].msgs);
      hide IncomingOnce, Sourced, Shaped;
      forall m | m in b.clients[c].msgs ensures Formed(RulesOf(u, h', c), m) {
        assert Formed(RulesOf(u, h, c), m);
        assert m.direction == Out ==> InQueue(b.clients[c].msgs, KeyOf(m));
      }
    }
  }

  lemma StepNeat(u: Setup, h: seq<Marks>, b: Broker, op: Op)
    requires Sound(u, b) && AllNeat(u, h, b)
    ensures AllNeat(u, Marking(u, h, b, op), Step(u, b, op))
  {
    hide AllNeat, Sound, Cores, Splits, AllFormed, DoArrive, DoArriveQos2, ReleaseFrom, Delete, WriteFrom, Timeout,
         Update,
         Reset, DoOffer, Freeing, IncomingQos2, KeysOf, KeysSent;
    NeatLength(u, h, b);
    if Possible(b, op) {
      if op.Join? {
        JoinNeat(u, h, b, op.id);
      } else if op.NewSlot? {
        NeatStores(u, h, b, Step(u, b, op));
      } else {
        var h' := Marking(u, h, b, op);
        MarkedMore(u, h, h', b);
        QueueStepNeat(u, h', b, op);
      }
    }
  }

  lemma NeatLength(u: Setup, h: seq<Marks>, b: Broker)
    requires AllNeat(u, h, b)
    ensures |h| == |b.clients|
  {
  }

  lemma JoinNeat(u: Setup, h: seq<Marks>, b: Broker, id: ClientId)
    requires AllNeat(u, h, b)
    ensures AllNeat(u, h + [Marks({}, {})], b.(clients := b.clients + [Session(id, true, 0, [])]))
  {
    hide Formed;
    var h', b' := h + [Marks({}, {})], b.(clients := b.clients + [Session(id, true, 0, [])]);
    forall c | 0 <= c < |b'.clients| ensures Neat(RulesOf(u, h', c), b'.stores, b'.clients[c].msgs) {
      if c < |b.clients| { assert Neat(RulesOf(u, h, c), b.stores, b.clients[c].msgs); }
    }
  }

  /** What the operation needs to be marked is marked. */
  predicate Told(u: Setup, h: seq<Marks>, b: Broker, op: Op)
    requires |h| == |b.clients|
  {
    match op
    case Write(c, budget) =>
      c < |h| && IncomingQos2(b.clients[c].msgs) ==>
        KeysSent(WriteFrom([], b.clients[c].msgs, u.lim, budget, 0).sent) <= h[c].sent
    case Received(c, mid) => c < |h| ==> KeysOf(b.clients[c].msgs, mid) <= h[c].received
    case _ => true
  }

  lemma QueueStepNeat(u: Setup, h: seq<Marks>, b: Broker, op: Op)
    requires Sound(u, b) && AllNeat(u, h, b) && Possible(b, op) && !op.Join? && !op.NewSlot? && Told(u, h, b, op)
    ensures AllNeat(u, h, Step(u, b, op))
  {
    hide AllNeat, Sound, Cores, Splits, AllFormed, DoArrive, DoArriveQos2, ReleaseFrom, WriteFrom, Timeout, Update,
         Reset, DoOffer, Freeing, IncomingQos2, Sweep, KeysOf, KeysSent;
    var s, msgs := b.clients[op.c], b.clients[op.c].msgs;
    NeatLength(u, h, b);
    FormedAt(u, h, b, op.c);
    var r := RulesOf(u, h, op.c);
    match op
    case Arrive(c, mid, qos, topic, retain, hasPayload, work) =>
      ArriveNeat(u, h, b, c, mid, qos, topic, retain, hasPayload, work);
    case ArriveQos2(c, mid, topic, retain, hasPayload) => ArriveQos2Neat(u, h, b, c, mid, topic, retain, hasPayload);
    case Release(c, mid, works) => ReleaseNeat(u, h, b, c, 0, 0, mid, false, works);
    case Acknowledged(c, mid) =>
      DeleteSplits(msgs, mid, Out, u.lim);
      NoneFormed(r);
      SweepFormed([], msgs, 0, mid, Out, r, false, false);
      FreeingNeat(u, h, b, c, Delete(msgs, mid, Out, u.lim).msgs, Delete(msgs, mid, Out, u.lim).removed);
    case Received(c, mid) =>
      UpdateCores(msgs, mid, Out, WaitForPubcomp);
      UpdateFormed(r, msgs, mid);
      RewriteNeat(u, h, b, c, s.(msgs := Update(msgs, mid, Out, WaitForPubcomp)));
    case Expire(c, expired) =>
      if |expired| == |msgs| {
        RetryCores(msgs, expired, u.lim);
        MovesFormed(r, msgs, expired);
        RewriteNeat(u, h, b, c, s.(msgs := Timeout(msgs, expired)));
      }
    case Write(c, budget) => if IncomingQos2(msgs) { WriteNeat(u, h, b, c, budget); }
    case Disconnect(c) => RewriteNeat(u, h, b, c, s.(connected := false));
    case Reconnect(c) =>
      RetryCores(msgs, seq(|msgs|, i => false), u.lim);
      MovesFormed(r, msgs, []);
      RewriteNeat(u, h, b, c, s.(connected := true, msgs := Reset(msgs, u.lim)));
    case Clean(c) =>
      AllSplits(msgs);
      NoneFormed(r);
      FreeingNeat(u, h, b, c, [], msgs);
    case Offer(c, from, granted) => OfferNeat(u, h, b, c, from, granted);
  }

  lemma NoneFormed(r: Rules)
    ensures AllFormed(r, [])
  {
  }

  lemma WriteNeat(u: Setup, h: seq<Marks>, b: Broker, c: nat, budget: nat)
    requires AllNeat(u, h, b) && c < |b.clients| && IncomingQos2(b.clients[c].msgs)
    requires |h| == |b.clients| && Told(u, h, b, Write(c, budget))
    ensures var w := WriteFrom([], b.clients[c].msgs, u.lim, budget, 0);
            AllNeat(u, h, Freeing(b, c, w.msgs, w.gone))
  {
    hide AllNeat, Splits, AllFormed, WriteFrom, Freeing, IncomingQos2, KeysSent;
    var msgs := b.clients[c].msgs;
    WriteSplits([], msgs, u.lim, budget, 0);
    assert [] + msgs == msgs;
    FormedAt(u, h, b, c);
    NoneFormed(RulesOf(u, h, c));
    WriteFormed([], msgs, RulesOf(u, h, c), budget, 0);
    var w := WriteFrom([], msgs, u.lim, budget, 0);
    FreeingNeat(u, h, b, c, w.msgs, w.gone);
  }

  lemma {:induction false} RunNeat(u: Setup, ops: seq<Op>)
    ensures AllNeat(u, MarksOf(u, ops), Run(u, ops))
  {
    hide Sound, Step, Marking, Trimmed;
    if ops != [] {
      var before, op := ops[..|ops| - 1], ops[|ops| - 1];
      RunSound(u, before);
      RunNeat(u, before);
      StepNeat(u, MarksOf(u, before), Run(u, before), op);
      MarkedTrimmed(u, Marking(u, MarksOf(u, before), Run(u, before), op), Run(u, ops));
    }
  }
}
