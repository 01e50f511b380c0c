/** How a QoS 2 message comes to wait for its PUBREL, and how it is found. */
module WaitingLaws {
  import opened Common
  import opened SubTree
  import opened ClientQueue
  import opened MsgStore
  import opened BrokerStore
  import opened BrokerStoreSteps
  import opened BrokerEntries
  import opened CopyLaws

  /** An incoming entry waits under the id. */
  predicate Waits(msgs: seq<ClientMsg>, mid: Mid) {
    exists m :: m in msgs && m.direction == In && m.mid == mid
  }

  lemma {:induction false} FoundStore(msgs: seq<ClientMsg>, stores: Stores, mid: Mid)
    requires forall m :: m in msgs && m.direction == In ==> m.store in stores && stores[m.store].sourceMid == m.mid
    ensures FindIncoming(msgs, stores, mid).Some? <==> Waits(msgs, mid)
    ensures IncomingOnce(msgs) ==>
              forall m :: m in msgs && m.direction == In && m.mid == mid ==>
                            FindIncoming(msgs, stores, mid) == Some(m.store)
  {
    if msgs != [] {
      var rest := msgs[1..];
      assert forall m :: m in msgs <==> m == msgs[0] || m in rest;
      FoundStore(rest, stores, mid);
      if IncomingOnce(msgs) {
        assert IncomingOnce(rest) by {
          forall i, j | 0 <= i < j < |rest| && rest[i].direction == In && rest[j].direction == In
            ensures rest[i].mid != rest[j].mid
          {
            assert rest[i] == msgs[i + 1] && rest[j] == msgs[j + 1];
          }
        }
        forall m | m in rest && m.direction == In && msgs[0].direction == In ensures m.mid != msgs[0].mid {
          var k :| 0 <= k < |rest| && rest[k] == m;
          assert m == msgs[k + 1];
        }
      }
    }
  }

  /** After any run a PUBLISH is taken for a waiting message if and only if one
      waits under its id, and then for that one. */
  lemma FoundWaiting(u: Setup, ops: seq<Op>, c: nat, mid: Mid)
    requires c < |Run(u, ops).clients|
    ensures var b := Run(u, ops);
            var found := FindIncoming(b.clients[c].msgs, b.stores, mid);
            (found.Some? <==> Waits(b.clients[c].msgs, mid)) &&
            forall m :: m in b.clients[c].msgs && m.direction == In && m.mid == mid ==> found == Some(m.store)
  {
    RunNeat(u, ops);
    RunSound(u, ops);
    var b := Run(u, ops);
    var msgs := b.clients[c].msgs;
    hide Run, Sound, AllFormed, IncomingOnce, FindIncoming, Waits;
    assert Neat(RulesOf(u, MarksOf(u, ops), c), b.stores, msgs);
    forall m | m in msgs && m.direction == In ensures m.store in b.stores && b.stores[m.store].sourceMid == m.mid {
      EntryStored(u, b, c, m);
    }
    FoundStore(msgs, b.stores, mid);
  }

  /** A message is stored and an entry for it waits for its PUBREL: at once up to
      the first limit, to be started up to both together, and not at all beyond. */
  ghost predicate Taken(u: Setup, b: Broker, b': Broker, op: Op, piece: seq<ClientMsg>)
    requires op.ArriveQos2? && op.c < |b.clients|
  {
    var s, id := b.clients[op.c], b.lastDbId + 1;
    var held := Held(s.msgs);
    var now := u.lim.inflight == 0 || held < u.lim.inflight;
    b'.clients == b.clients[op.c := s.(msgs := s.msgs + piece)] && b'.slots == b.slots && b'.lastDbId == id &&
    b'.stores == b.stores[id := Store(|piece|, s.id, op.mid, op.access, 2, op.retain, op.hasPayload, [])] &&
    if now || u.lim.queued == 0 || held < u.lim.inflight + u.lim.queued then
      piece == [ClientMsg(id, op.mid, 2, op.retain, In, if now then WaitForPubrel else Queued, false)]
    else piece == []
  }

  /** Over every run, a QoS 2 message that arrives while one waits under its id
      changes nothing. Any other is taken; no other queue and no slot changes. */
  lemma ArriveWaits(u: Setup, ops: seq<Op>, op: Op) returns (piece: seq<ClientMsg>)
    requires op.ArriveQos2? && op.c < |Run(u, ops).clients| && Run(u, ops).clients[op.c].connected
    ensures var b, b' := Run(u, ops), Step(u, Run(u, ops), op);
            if Waits(b.clients[op.c].msgs, op.mid) then b' == b && piece == []
            else b.lastDbId + 1 !in b.stores && Taken(u, b, b', op, piece)
  {
    hide *;
    var b := Run(u, ops);
    FoundWaiting(u, ops, op.c, op.mid);
    NewId(u, ops);
    if Waits(b.clients[op.c].msgs, op.mid) {
      piece := [];
      TakesNone(u, b, op);
    } else {
      piece := TakesNew(u, b, op);
    }
  }

  lemma TakesNone(u: Setup, b: Broker, op: Op)
    requires op.ArriveQos2? && op.c < |b.clients| && FindIncoming(b.clients[op.c].msgs, b.stores, op.mid).Some?
    ensures Step(u, b, op) == b
  {
    hide FindIncoming;
  }

  lemma TakesNew(u: Setup, b: Broker, op: Op) returns (piece: seq<ClientMsg>)
    requires op.ArriveQos2? && op.c < |b.clients| && b.clients[op.c].connected
    requires FindIncoming(b.clients[op.c].msgs, b.stores, op.mid) == None
    ensures Taken(u, b, Step(u, b, op), op, piece)
  {
    hide FindIncoming, Held, Insert;
    var s, id := b.clients[op.c], b.lastDbId + 1;
    var b1 := NewStore(b, s.id, op.mid, op.access, 2, op.retain, op.hasPayload);
    piece := InsertsIn(u, b1, op.c, op.mid, op.retain, id);
  }

  /** The entry for a stored message on its way in. */
  lemma InsertsIn(u: Setup, b: Broker, c: nat, mid: Mid, retain: bool, id: StoreId) returns (piece: seq<ClientMsg>)
    requires c < |b.clients| && id in b.stores && b.clients[c].connected
    ensures var s, r := b.clients[c], Insert(u, b, c, mid, In, 2, retain, id);
            var held := Held(s.msgs);
            var now := u.lim.inflight == 0 || held < u.lim.inflight;
            r.slots == b.slots && r.clients == b.clients[c := s.(msgs := s.msgs + piece)] && r.lastDbId == b.lastDbId &&
            r.stores == b.stores[id := b.stores[id].(refCount := b.stores[id].refCount + |piece|)] &&
            if now || u.lim.queued == 0 || held < u.lim.inflight + u.lim.queued then
              piece == [ClientMsg(id, mid, 2, retain, In, if now then WaitForPubrel else Queued, false)]
            else piece == []
  {
    var s := b.clients[c];
    HeldIs(s.msgs);
    var v := Admit(u.lim, u.cfg, true, Held(s.msgs), In, 2);
    hide Held, Count12;
    if v.Accept? {
      piece := [ClientMsg(id, mid, 2, retain, In, v.state, false)];
    } else {
      piece := [];
      assert s.msgs + [] == s.msgs && b.clients[c := s] == b.clients && b.stores[id := b.stores[id]] == b.stores;
    }
  }

  lemma NewId(u: Setup, ops: seq<Op>)
    ensures Run(u, ops).lastDbId + 1 !in Run(u, ops).stores
  {
    RunSound(u, ops);
    hide Run, Balanced;
  }
}
