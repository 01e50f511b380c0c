/** What a PUBREL hands on: the message that waits under its id. */
module ReleaseLaws {
  import opened Common
  import opened Topics
  import opened SubTree
  import opened SubSearch
  import opened ClientQueue
  import opened MsgStore
  import opened BrokerStore
  import opened BrokerStoreSteps
  import opened CopyLaws
  import opened PublishLaws
  import opened QueueLaws
  import ArrivalLaws
  import BrokerEntries
  import R = BrokerRuns

  // ---------------------------------------------------- entries only started

  /** The same broker, but that entries of one queue have perhaps been started. */
  ghost predicate Begun(b: Broker, b1: Broker, c: nat) {
    c < |b.clients| && |b1.clients| == |b.clients| &&
    b1 == b.(clients := b.clients[c := b.clients[c].(msgs := b1.clients[c].msgs)]) &&
    Progressed(b.clients[c].msgs, b1.clients[c].msgs)
  }

  /** The same entries, but for how far they have come. */
  ghost predicate Progressed(a: seq<ClientMsg>, b: seq<ClientMsg>) {
    |a| == |b| && forall i :: 0 <= i < |a| ==> Core(b[i]) == Core(a[i])
  }

  lemma CoreIs(m: ClientMsg, n: ClientMsg)
    requires Core(m) == Core(n)
    ensures m.store == n.store && m.mid == n.mid && m.qos == n.qos && m.direction == n.direction && m.retain == n.retain
  {
    assert Core(m).mid == m.mid && Core(m).store == m.store && Core(m).qos == m.qos && Core(m).direction == m.direction;
  }

  lemma TouchBegins(u: Setup, b: Broker, c: nat, i: nat, index: nat)
    requires c < |b.clients| && i < |b.clients[c].msgs|
    ensures Begun(b, TouchAt(u, b, c, i, index), c)
  {
    var msgs := b.clients[c].msgs;
    TouchedCore(msgs[i], index, u.lim);
    hide Touched;
  }

  lemma BegunTwice(b: Broker, b1: Broker, b2: Broker, c: nat)
    requires Begun(b, b1, c) && Begun(b1, b2, c)
    ensures Begun(b, b2, c)
  {
    forall i | 0 <= i < |b.clients[c].msgs| ensures Core(b2.clients[c].msgs[i]) == Core(b.clients[c].msgs[i]) {
      assert Core(b1.clients[c].msgs[i]) == Core(b.clients[c].msgs[i]);
    }
  }

  lemma NotBegun(b: Broker, c: nat)
    requires c < |b.clients|
    ensures Begun(b, b, c)
  {
  }

  /** No entry from here on waits under the id. */
  predicate NoneFrom(msgs: seq<ClientMsg>, i: nat, mid: Mid) {
    forall k :: i <= k < |msgs| ==> !IsEntry(msgs[k], mid, In)
  }

  lemma SameWaiting(a: seq<ClientMsg>, b: seq<ClientMsg>, mid: Mid)
    requires Progressed(a, b)
    ensures forall k :: 0 <= k < |a| ==> IsEntry(b[k], mid, In) == IsEntry(a[k], mid, In) && b[k].store == a[k].store
  {
    forall k | 0 <= k < |a|
      ensures IsEntry(b[k], mid, In) == IsEntry(a[k], mid, In) && b[k].store == a[k].store
    {
      CoreIs(b[k], a[k]);
    }
  }

  /** Where nothing waits under the id the loop only starts entries. */
  lemma {:induction false} ReleaseQuiet(u: Setup, b: Broker, c: nat, i: nat, index: nat, mid: Mid, deleted: bool,
                                        works: seq<seq<Work>>)
    requires c < |b.clients| && NoneFrom(b.clients[c].msgs, i, mid)
    ensures Begun(b, ReleaseFrom(u, b, c, i, index, mid, deleted, works), c)
    decreases |b.clients[c].msgs| - i
  {
    hide TouchAt, MessagesQueue, RemoveAt, Begun, Core;
    NotBegun(b, c);
    if i < |b.clients[c].msgs| {
      var b1 := TouchAt(u, b, c, i, index + 1);
      TouchBegins(u, b, c, i, index + 1);
      BegunParts(b, b1, c, mid);
      if !(index + 1 > u.lim.inflight && deleted) {
        ReleaseQuiet(u, b1, c, i + 1, index + 1, mid, deleted, works);
        BegunTwice(b, b1, ReleaseFrom(u, b1, c, i + 1, index + 1, mid, deleted, works), c);
      }
    }
  }

  lemma BegunParts(b: Broker, b1: Broker, c: nat, mid: Mid)
    requires Begun(b, b1, c)
    ensures |b1.clients| == |b.clients| && |b1.clients[c].msgs| == |b.clients[c].msgs|
    ensures b1.stores == b.stores && b1.slots == b.slots && b1.lastDbId == b.lastDbId
    ensures forall k :: 0 <= k < |b.clients| && k != c ==> b1.clients[k] == b.clients[k]
    ensures forall k :: 0 <= k < |b.clients| ==>
                          b1.clients[k].id == b.clients[k].id && b1.clients[k].connected == b.clients[k].connected
    ensures b1.clients[c] == b.clients[c].(msgs := b1.clients[c].msgs)
    ensures var a, a1 := b.clients[c].msgs, b1.clients[c].msgs;
            Progressed(a, a1) &&
            forall k :: 0 <= k < |a| ==> IsEntry(a1[k], mid, In) == IsEntry(a[k], mid, In) && a1[k].store == a[k].store
  {
    SameWaiting(b.clients[c].msgs, b1.clients[c].msgs, mid);
  }

  // -------------------------------------------------------- the one that waits

  /** The message is handed on if it has a topic: access was not denied. */
  function HandOn(u: Setup, b: Broker, id: StoreId, works: seq<seq<Work>>): (r: Broker)
    ensures |r.clients| == |b.clients| && |r.slots| == |b.slots|
  {
    if works == [] || id !in b.stores || b.stores[id].topic == None then b
    else MessagesQueue(u, b, id, b.stores[id].qos, works[0])
  }

  /** Behind handing on, the entry at `j` is gone from the queue of `c`. */
  ghost predicate TakenOut(b2: Broker, r: Broker, c: nat, j: nat)
    requires c < |b2.clients| && j < |b2.clients[c].msgs|
  {
    r.slots == b2.slots && |r.clients| == |b2.clients| && r.clients[c].id == b2.clients[c].id &&
    r.clients[c].connected == b2.clients[c].connected &&
    (forall k :: 0 <= k < |r.clients| && k != c ==> r.clients[k] == b2.clients[k]) &&
    Progressed(DropAt(b2.clients[c].msgs, j), r.clients[c].msgs)
  }

  lemma RemoveTakes(u: Setup, b2: Broker, c: nat, j: nat)
    requires c < |b2.clients| && j < |b2.clients[c].msgs|
    ensures TakenOut(b2, RemoveAt(u, b2, c, j), c, j)
  {
    PromoteKeeps(DropAt(b2.clients[c].msgs, j), u.lim);
    hide PromoteHead, Core;
  }

  lemma TakenBegun(b2: Broker, b3: Broker, r: Broker, c: nat, j: nat)
    requires c < |b2.clients| && j < |b2.clients[c].msgs| && TakenOut(b2, b3, c, j) && Begun(b3, r, c)
    ensures TakenOut(b2, r, c, j)
  {
    hide Core;
    var now := DropAt(b2.clients[c].msgs, j);
    forall i | 0 <= i < |now| ensures Core(r.clients[c].msgs[i]) == Core(now[i]) {
      assert Core(b3.clients[c].msgs[i]) == Core(now[i]);
    }
  }

  /** Only the entry at `j` waits under the id. */
  predicate WaitsAt(msgs: seq<ClientMsg>, i: nat, j: nat, mid: Mid) {
    i <= j < |msgs| && IsEntry(msgs[j], mid, In) && NoneFrom(msgs[..j], i, mid) && NoneFrom(msgs, j + 1, mid)
  }

  /** At the entry: it is handed on and taken out. */
  lemma {:induction false} ReleaseTakes(u: Setup, b: Broker, c: nat, j: nat, index: nat, mid: Mid,
                                        works: seq<seq<Work>>) returns (b1: Broker)
    requires Balanced(b, multiset{}) && c < |b.clients| && WaitsAt(b.clients[c].msgs, j, j, mid)
    ensures Begun(b, b1, c) && Balanced(b1, multiset{})
    ensures var b2 := HandOn(u, b1, b.clients[c].msgs[j].store, works);
            j < |b2.clients[c].msgs| && TakenOut(b2, ReleaseFrom(u, b, c, j, index, mid, false, works), c, j)
  {
    hide Balanced, TouchAt, MessagesQueue, RemoveAt, Begun, TakenOut, Core, Progressed;
    b1 := TouchAt(u, b, c, j, index + 1);
    TouchBegins(u, b, c, j, index + 1);
    TouchBalanced(u, b, c, j, index + 1);
    BegunParts(b, b1, c, mid);
    var id := b.clients[c].msgs[j].store;
    var b2 := HandOn(u, b1, id, works);
    HandsBehind(u, b1, c, id, works, mid, j);
    RemoveTakes(u, b2, c, j);
    var b3 := RemoveAt(u, b2, c, j);
    if index + 1 <= u.lim.inflight {
      RemovedNone(u, b2, c, j, mid);
      ReleaseQuiet(u, b3, c, j, index + 1, mid, true, if works == [] then [] else works[1..]);
      TakenBegun(b2, b3, ReleaseFrom(u, b3, c, j, index + 1, mid, true, if works == [] then [] else works[1..]), c, j);
    }
  }

  /** What is handed on goes behind the queue and waits for no PUBREL. */
  lemma HandsBehind(u: Setup, b: Broker, c: nat, id: StoreId, works: seq<seq<Work>>, mid: Mid, j: nat)
    requires Balanced(b, multiset{}) && c < |b.clients| && j < |b.clients[c].msgs|
    requires NoneFrom(b.clients[c].msgs, j + 1, mid)
    ensures var msgs := HandOn(u, b, id, works).clients[c].msgs;
            |b.clients[c].msgs| <= |msgs| && NoneFrom(msgs, j + 1, mid)
  {
    hide Balanced, MessagesQueue;
    if works != [] && id in b.stores {
      ArrivalLaws.QueueHands(u, b, id, b.stores[id].qos, works[0]);
      var was, msgs := b.clients[c].msgs, HandOn(u, b, id, works).clients[c].msgs;
      assert forall k :: 0 <= k < |was| && |was| <= |msgs| ==> msgs[..|was|][k] == msgs[k];
    }
  }

  lemma RemovedNone(u: Setup, b: Broker, c: nat, j: nat, mid: Mid)
    requires c < |b.clients| && j < |b.clients[c].msgs| && NoneFrom(b.clients[c].msgs, j + 1, mid)
    ensures var b3 := RemoveAt(u, b, c, j); c < |b3.clients| && NoneFrom(b3.clients[c].msgs, j, mid)
  {
    RemoveTakes(u, b, c, j);
    var now, msgs := DropAt(b.clients[c].msgs, j), RemoveAt(u, b, c, j).clients[c].msgs;
    SameWaiting(now, msgs, mid);
    hide RemoveAt, IsEntry;
    forall k | j <= k < |msgs| ensures !IsEntry(msgs[k], mid, In) {
      assert now[k] == b.clients[c].msgs[k + 1];
    }
  }

  lemma {:induction false} ReleaseMeets(u: Setup, b: Broker, c: nat, i: nat, index: nat, mid: Mid,
                                        works: seq<seq<Work>>, j: nat) returns (b1: Broker)
    requires Balanced(b, multiset{}) && c < |b.clients| && WaitsAt(b.clients[c].msgs, i, j, mid)
    ensures Begun(b, b1, c) && Balanced(b1, multiset{})
    ensures var b2 := HandOn(u, b1, b.clients[c].msgs[j].store, works);
            j < |b2.clients[c].msgs| && TakenOut(b2, ReleaseFrom(u, b, c, i, index, mid, false, works), c, j)
    decreases j - i
  {
    hide *;
    if i == j {
      b1 := ReleaseTakes(u, b, c, j, index, mid, works);
    } else {
      WaitsRange(b.clients[c].msgs, i, j, mid);
      var b0 := ReleasePasses(u, b, c, i, index, mid, works, j);
      b1 := ReleaseMeets(u, b0, c, i + 1, index + 1, mid, works, j);
      BegunTwice(b, b0, b1, c);
    }
  }

  lemma WaitsRange(msgs: seq<ClientMsg>, i: nat, j: nat, mid: Mid)
    requires WaitsAt(msgs, i, j, mid)
    ensures i <= j < |msgs|
  {
  }

  /** An entry in front of it is passed, perhaps started. */
  lemma ReleasePasses(u: Setup, b: Broker, c: nat, i: nat, index: nat, mid: Mid, works: seq<seq<Work>>, j: nat)
    returns (b0: Broker)
    requires Balanced(b, multiset{}) && c < |b.clients| && WaitsAt(b.clients[c].msgs, i, j, mid) && i < j
    ensures Begun(b, b0, c) && Balanced(b0, multiset{})
    ensures c < |b0.clients| && WaitsAt(b0.clients[c].msgs, i + 1, j, mid) && j < |b.clients[c].msgs|
    ensures j < |b0.clients[c].msgs| && b0.clients[c].msgs[j].store == b.clients[c].msgs[j].store
    ensures ReleaseFrom(u, b, c, i, index, mid, false, works) ==
            ReleaseFrom(u, b0, c, i + 1, index + 1, mid, false, works)
  {
    hide Balanced, TouchAt, MessagesQueue, RemoveAt, Begun, Core, Progressed;
    b0 := TouchAt(u, b, c, i, index + 1);
    TouchBegins(u, b, c, i, index + 1);
    TouchBalanced(u, b, c, i, index + 1);
    BegunParts(b, b0, c, mid);
    assert b.clients[c].msgs[..j][i] == b.clients[c].msgs[i];
    StillWaits(b.clients[c].msgs, b0.clients[c].msgs, i, j, mid);
  }

  lemma StillWaits(a: seq<ClientMsg>, b: seq<ClientMsg>, i: nat, j: nat, mid: Mid)
    requires |b| == |a| && forall k :: 0 <= k < |a| ==> IsEntry(b[k], mid, In) == IsEntry(a[k], mid, In)
    requires WaitsAt(a, i, j, mid) && i < j
    ensures WaitsAt(b, i + 1, j, mid)
  {
    hide IsEntry;
    forall k | i + 1 <= k < |b[..j]| ensures !IsEntry(b[..j][k], mid, In) {
      assert b[..j][k] == b[k] && a[..j][k] == a[k];
    }
  }

  // ------------------------------------------------------------ over every run

  lemma OneWaits(u: Setup, past: seq<Op>, c: nat, j: nat)
    requires c < |Run(u, past).clients| && j < |Run(u, past).clients[c].msgs|
    requires Run(u, past).clients[c].msgs[j].direction == In
    ensures Balanced(Run(u, past), multiset{})
    ensures var msgs := Run(u, past).clients[c].msgs;
            WaitsAt(msgs, 0, j, msgs[j].mid) && msgs[j].store in Run(u, past).stores
  {
    BrokerEntries.RunNeat(u, past);
    RunSound(u, past);
    var b := Run(u, past);
    hide Run, Balanced, Orderly, BrokerEntries.AllFormed, BrokerEntries.Sourced;
    assert BrokerEntries.Neat(BrokerEntries.RulesOf(u, BrokerEntries.MarksOf(u, past), c), b.stores, b.clients[c].msgs);
    BrokerEntries.EntryStored(u, b, c, b.clients[c].msgs[j]);
  }

  /** After any run, a PUBREL under whose id nothing waits hands on nothing: at
      most entries of its client are started. */
  lemma ReleaseNothing(u: Setup, past: seq<Op>, c: nat, mid: Mid, works: seq<seq<Work>>)
    requires c < |Run(u, past).clients| && Run(u, past).clients[c].connected
    requires forall m :: m in Run(u, past).clients[c].msgs && m.direction == In ==> m.mid != mid
    ensures var b, r := Run(u, past), Step(u, Run(u, past), Release(c, mid, works));
            r.stores == b.stores && r.slots == b.slots && |r.clients| == |b.clients| &&
            (forall k :: 0 <= k < |b.clients| && k != c ==> r.clients[k] == b.clients[k]) &&
            r.clients[c] == b.clients[c].(msgs := r.clients[c].msgs) && Progressed(b.clients[c].msgs, r.clients[c].msgs)
  {
    hide Run, ReleaseFrom, Begun, Progressed;
    var b := Run(u, past);
    ReleaseQuiet(u, b, c, 0, 0, mid, false, works);
    BegunParts(b, ReleaseFrom(u, b, c, 0, 0, mid, false, works), c, mid);
  }

  /** After any run, a PUBREL takes out the one entry that waits under its id. If
      access was denied, or the tree has nothing to do, nothing is handed on. */
  lemma ReleaseDenied(u: Setup, past: seq<Op>, c: nat, j: nat, works: seq<seq<Work>>)
    requires c < |Run(u, past).clients| && Run(u, past).clients[c].connected && j < |Run(u, past).clients[c].msgs|
    requires Run(u, past).clients[c].msgs[j].direction == In
    requires var id := Run(u, past).clients[c].msgs[j].store;
             works == [] || (id in Run(u, past).stores && Run(u, past).stores[id].topic == None)
    ensures var b := Run(u, past);
            var r := Step(u, b, Release(c, b.clients[c].msgs[j].mid, works));
            r.slots == b.slots && |r.clients| == |b.clients| &&
            (forall k :: 0 <= k < |b.clients| && k != c ==> r.clients[k] == b.clients[k]) &&
            r.clients[c].id == b.clients[c].id && r.clients[c].connected == b.clients[c].connected &&
            Progressed(DropAt(b.clients[c].msgs, j), r.clients[c].msgs)
  {
    var b := Run(u, past);
    OneWaits(u, past, c, j);
    hide *;
    var mid := b.clients[c].msgs[j].mid;
    var b1 := ReleaseMeets(u, b, c, 0, 0, mid, works, j);
    BegunParts(b, b1, c, mid);
    NotHanded(u, b1, b.clients[c].msgs[j].store, works);
    Unpack(u, b, b1, c, j, mid, works);
    DropSame(b.clients[c].msgs, b1.clients[c].msgs, j, [],
             ReleaseFrom(u, b, c, 0, 0, mid, false, works).clients[c].msgs);
  }

  lemma NotHanded(u: Setup, b1: Broker, id: StoreId, works: seq<seq<Work>>)
    ensures works == [] || id !in b1.stores || b1.stores[id].topic == None ==> HandOn(u, b1, id, works) == b1
    ensures works != [] && id in b1.stores && b1.stores[id].topic.Some? ==>
              HandOn(u, b1, id, works) == MessagesQueue(u, b1, id, b1.stores[id].qos, works[0])
  {
    hide MessagesQueue;
  }

  lemma Unpack(u: Setup, b: Broker, b2: Broker, c: nat, j: nat, mid: Mid, works: seq<seq<Work>>)
    requires c < |b.clients| && b.clients[c].connected && c < |b2.clients| && j < |b2.clients[c].msgs|
    requires TakenOut(b2, ReleaseFrom(u, b, c, 0, 0, mid, false, works), c, j)
    ensures var r := ReleaseFrom(u, b, c, 0, 0, mid, false, works);
            Step(u, b, Release(c, mid, works)) == r && r.slots == b2.slots && |r.clients| == |b2.clients| &&
            (forall k :: 0 <= k < |r.clients| && k != c ==> r.clients[k] == b2.clients[k]) &&
            r.clients[c].id == b2.clients[c].id && r.clients[c].connected == b2.clients[c].connected &&
            Progressed(DropAt(b2.clients[c].msgs, j), r.clients[c].msgs)
  {
    hide ReleaseFrom, Progressed;
  }

  lemma DropSame(a: seq<ClientMsg>, a1: seq<ClientMsg>, j: nat, added: seq<ClientMsg>, r: seq<ClientMsg>)
    requires j < |a| && Progressed(a, a1)
    ensures j < |a1 + added|
    ensures Progressed(DropAt(a1 + added, j), r) ==> Progressed(DropAt(a, j) + added, r)
    ensures added == [] && Progressed(DropAt(a1, j), r) ==> Progressed(DropAt(a, j), r)
  {
    hide Core;
    var x, y := DropAt(a, j) + added, DropAt(a1 + added, j);
    assert |x| == |y|;
    forall i | 0 <= i < |x| ensures Core(x[i]) == Core(y[i]) {
      if i < |a| - 1 { assert Core(a1[if i < j then i else i + 1]) == Core(a[if i < j then i else i + 1]); }
    }
    assert a1 + [] == a1 && DropAt(a, j) + [] == DropAt(a, j);
  }

  /** After any run of subscriptions and any run of the store, a PUBREL hands on
      exactly the message that waits under its id: what is put behind the queue of
      any client are copies of it for its own matching filters, the entry is gone
      from the queue of its sender, and the slot of its topic takes it, if there is
      one to set and the top-level node stands. */
  lemma ReleaseQueues(u: Setup, ops: seq<R.Op>, past: seq<Op>, from: nat, j: nat, topic: string, slot: Option<nat>,
                      works: seq<seq<Work>>, c: nat)
    returns (ds: seq<Delivery>, qs: seq<Qos>, pieces: seq<seq<ClientMsg>>)
    requires from < |Run(u, past).clients| && Run(u, past).clients[from].connected
    requires j < |Run(u, past).clients[from].msgs| && Run(u, past).clients[from].msgs[j].direction == In
    requires var b := Run(u, past);
             var id := b.clients[from].msgs[j].store;
             id in b.stores && b.stores[id].topic == Some(topic) && R.PubTopicOk(topic) &&
             works != [] && works[0] == TreeWork(Ids(b.clients), R.Run(ops), topic, slot)
    requires c < |Run(u, past).clients| && Distinct(Run(u, past).clients)
    ensures var b := Run(u, past);
            var m := b.clients[from].msgs[j];
            |Step(u, b, Release(from, m.mid, works)).clients| == |b.clients| &&
            var s, s' := b.clients[c], Step(u, b, Release(from, m.mid, works)).clients[c];
            (if c == from then Progressed(DropAt(s.msgs, j) + Flat(pieces), s'.msgs)
             else s'.msgs == s.msgs + Flat(pieces)) &&
            s'.id == s.id && s'.connected == s.connected &&
            CopiesTo(u, s, !u.cfg.allowDuplicates && s.id in b.stores[m.store].destIds, m.store, b.stores[m.store].qos,
                     ds, qs, pieces)
    ensures OwnMatches(R.FlatRun(ops), Run(u, past).clients[c].id, topic, ds)
    ensures var b := Run(u, past);
            var m := b.clients[from].msgs[j];
            SlotTaken(b, Step(u, b, Release(from, m.mid, works)), m.store, slot,
                      Child(R.Run(ops).root.children, Tokens(topic)[0]).Some?)
  {
    var b := Run(u, past);
    var m := b.clients[from].msgs[j];
    OneWaits(u, past, from, j);
    hide *;
    var b1 := ReleaseMeets(u, b, from, 0, 0, m.mid, works, j);
    BegunParts(b, b1, from, m.mid);
    BegunIds(b, b1, from);
    NotHanded(u, b1, m.store, works);
    Unpack(u, b, HandOn(u, b1, m.store, works), from, j, m.mid, works);
    ds, qs, pieces := TreeQueues(u, ops, b1, m.store, b.stores[m.store].qos, topic, slot, c);
    SameGiven(u, b, b1, c, m.store);
    SameCopies(u, b.clients[c], b1.clients[c], Given(u, b, c, m.store), m.store, b.stores[m.store].qos, ds, qs, pieces);
    GrowsMore(b1.clients[c], HandOn(u, b1, m.store, works).clients[c], b.clients[c], Flat(pieces), []);
    SameSlots(b, b1, HandOn(u, b1, m.store, works), Step(u, b, Release(from, m.mid, works)), m.store, slot,
              Child(R.Run(ops).root.children, Tokens(topic)[0]).Some?);
    if c == from {
      DropSame(b.clients[c].msgs, b1.clients[c].msgs, j, Flat(pieces),
               ReleaseFrom(u, b, from, 0, 0, m.mid, false, works).clients[c].msgs);
    }
  }

  lemma SameGiven(u: Setup, b: Broker, b1: Broker, c: nat, id: StoreId)
    requires c < |b.clients| && id in b.stores && b1.stores == b.stores && |b1.clients| == |b.clients|
    requires b1.clients[c].id == b.clients[c].id
    ensures Given(u, b1, c, id) == Given(u, b, c, id) ==
            (!u.cfg.allowDuplicates && b.clients[c].id in b.stores[id].destIds)
  {
  }

  lemma SameSlots(b: Broker, b1: Broker, b2: Broker, r: Broker, id: StoreId, slot: Option<nat>, stands: bool)
    requires id in b.stores && b1.stores == b.stores && b1.slots == b.slots && r.slots == b2.slots
    ensures SlotTaken(b1, b2, id, slot, stands) ==> SlotTaken(b, r, id, slot, stands)
  {
  }

  lemma BegunIds(b: Broker, b1: Broker, c: nat)
    requires Begun(b, b1, c)
    ensures Ids(b1.clients) == Ids(b.clients) && (Distinct(b.clients) ==> Distinct(b1.clients))
    ensures forall k :: 0 <= k < |b.clients| ==> Progressed(b.clients[k].msgs, b1.clients[k].msgs)
  {
    hide Core;
    assert forall k :: 0 <= k < |b.clients| ==> b1.clients[k].id == b.clients[k].id;
  }

  /** What is queued depends on how many entries count, not on their progress. */
  lemma SameCopies(u: Setup, s: Session, s1: Session, given: bool, id: StoreId, qos: Qos, ds: seq<Delivery>,
                   qs: seq<Qos>, pieces: seq<seq<ClientMsg>>)
    requires Progressed(s.msgs, s1.msgs) && s1.connected == s.connected
    requires CopiesTo(u, s1, given, id, qos, ds, qs, pieces)
    ensures CopiesTo(u, s, given, id, qos, ds, qs, pieces)
  {
    hide Queues, RightQos, Held, Progressed, Flat;
    forall i | 0 <= i < |ds|
      ensures RightQos(u.cfg.upgradeQos, qs[i], qos, ds[i].leaf.qos)
      ensures var now := Flat(pieces[..i]);
              Queues(u, s.connected, given ||
                     (!u.cfg.allowDuplicates && now != []), Held(s.msgs + now), id, qs[i], false,
                     pieces[i])
    {
      HeldSame(s.msgs, s1.msgs, Flat(pieces[..i]));
      assert RightQos(u.cfg.upgradeQos, qs[i], qos, ds[i].leaf.qos);
    }
  }

  lemma HeldSame(a: seq<ClientMsg>, b: seq<ClientMsg>, more: seq<ClientMsg>)
    requires Progressed(a, b)
    ensures Held(a + more) == Held(b + more)
  {
    var x, y := a + more, b + more;
    assert |x| == |y|;
    forall i | 0 <= i < |x| ensures x[i].qos == y[i].qos {
      if i < |a| { CoreIs(b[i], a[i]); }
    }
    assert (set i | 0 <= i < |x| && x[i].qos > 0) == (set i | 0 <= i < |y| && y[i].qos > 0);
  }
}
