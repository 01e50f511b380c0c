/** Publishing, from the tree to the queues: a copy for every match. */
module PublishLaws {
  import opened Common
  import opened Topics
  import opened SubTree
  import opened SubSearch
  import opened ClientQueue
  import opened MsgStore
  import opened BrokerStore
  import opened CopyLaws
  import ArrivalLaws
  import BrokerLaws
  import BrokerStoreSteps
  import R = BrokerRuns
  import Subscriptions

  function Ids(clients: seq<Session>): (ids: seq<ClientId>)
    ensures |ids| == |clients| && forall i :: 0 <= i < |ids| ==> ids[i] == clients[i].id
  {
    seq(|clients|, i requires 0 <= i < |clients| => clients[i].id)
  }

  function IndexOfId(ids: seq<ClientId>, id: ClientId): (i: nat)
    ensures i <= |ids| && (i < |ids| ==> ids[i] == id)
    ensures forall k :: 0 <= k < i ==> ids[k] != id
  {
    if ids == [] || ids[0] == id then 0 else 1 + IndexOfId(ids[1..], id)
  }

  /** SUBSCRIBE is refused with a greater QoS. */
  function AsQos(qos: nat): Qos {
    if qos <= 2 then qos else 2
  }

  /** A copy for each leaf met whose client is there. */
  function CopyWork(ids: seq<ClientId>, ds: seq<Delivery>): seq<Work> {
    if ds == [] then []
    else
      var c := IndexOfId(ids, ds[0].leaf.client);
      (if c < |ids| then [Copy(c, AsQos(ds[0].leaf.qos))] else []) + CopyWork(ids, ds[1..])
  }

  /** The walk over the nodes a search reaches: the slot, if it is to be set, is
      set at the node of the topic itself before its leaves are served. */
  function WalkWork(ids: seq<ClientId>, cs: seq<Hier>, paths: seq<Path>, own: Path, slot: Option<nat>): seq<Work> {
    if paths == [] then []
    else
      var n := NodeIn(cs, paths[0]);
      (if n.Some? && slot.Some? && paths[0] == own then [Keep(slot.value)] else []) +
      (if n.Some? then CopyWork(ids, AtPath(paths[0], n.value.subs)) else []) +
      WalkWork(ids, cs, paths[1..], own, slot)
  }

  /** The work a publish gives: a retained one names the slot of its topic. */
  function TreeWork(ids: seq<ClientId>, tb: R.Broker, topic: string, slot: Option<nat>): seq<Work> {
    var ts := Tokens(topic);
    var tree := BrokerLaws.SearchTree(tb, ts, slot.Some?);
    if tree == None then []
    else WalkWork(ids, tree.value.children, Reached(tree.value.children, ts), ts, slot)
  }

  function CopiesIn(work: seq<Work>): seq<Work> {
    if work == [] then [] else (if work[0].Copy? then [work[0]] else []) + CopiesIn(work[1..])
  }

  lemma {:induction false} CopiesInConcat(a: seq<Work>, b: seq<Work>)
    ensures CopiesIn(a + b) == CopiesIn(a) + CopiesIn(b)
  {
    if a == [] {
      assert a + b == b;
    } else {
      assert (a + b)[1..] == a[1..] + b;
      CopiesInConcat(a[1..], b);
    }
  }

  lemma Grouped(a: seq<Work>, b: seq<Work>, c: seq<Work>)
    ensures a + (b + c) == a + b + c
  {
  }

  lemma {:induction false} CopyWorkConcat(ids: seq<ClientId>, a: seq<Delivery>, b: seq<Delivery>)
    ensures CopyWork(ids, a + b) == CopyWork(ids, a) + CopyWork(ids, b)
  {
    if a == [] {
      assert a + b == b;
    } else {
      assert (a + b)[1..] == a[1..] + b;
      CopyWorkConcat(ids, a[1..], b);
      hide IndexOfId, AsQos;
      var c := IndexOfId(ids, a[0].leaf.client);
      Grouped(if c < |ids| then [Copy(c, AsQos(a[0].leaf.qos))] else [], CopyWork(ids, a[1..]), CopyWork(ids, b));
    }
  }

  lemma {:induction false} AllCopies(ids: seq<ClientId>, ds: seq<Delivery>)
    ensures CopiesIn(CopyWork(ids, ds)) == CopyWork(ids, ds) && forall w :: w in CopyWork(ids, ds) ==> w.Copy?
  {
    if ds != [] {
      AllCopies(ids, ds[1..]);
      var c := IndexOfId(ids, ds[0].leaf.client);
      if c < |ids| {
        assert CopyWork(ids, ds)[1..] == CopyWork(ids, ds[1..]);
      } else {
        assert CopyWork(ids, ds) == CopyWork(ids, ds[1..]);
      }
    }
  }

  /** The copies of the walk are those of the deliveries. */
  lemma {:induction false} WalkCopies(ids: seq<ClientId>, cs: seq<Hier>, paths: seq<Path>, own: Path, slot: Option<nat>)
    ensures CopiesIn(WalkWork(ids, cs, paths, own, slot)) == CopyWork(ids, LeavesAt(cs, paths))
  {
    if paths != [] {
      var n, rest := NodeIn(cs, paths[0]), WalkWork(ids, cs, paths[1..], own, slot);
      var keep := if n.Some? && slot.Some? && paths[0] == own then [Keep(slot.value)] else [];
      var ds := if n.Some? then AtPath(paths[0], n.value.subs) else [];
      WalkCopies(ids, cs, paths[1..], own, slot);
      AllCopies(ids, ds);
      NoWork(ids);
      CopiesInConcat(keep + CopyWork(ids, ds), rest);
      CopiesInConcat(keep, CopyWork(ids, ds));
      CopyWorkConcat(ids, ds, LeavesAt(cs, paths[1..]));
      assert CopiesIn(keep) == [];
      hide CopyWork, AtPath, NodeIn, CopiesIn;
      assert [] + CopyWork(ids, ds) == CopyWork(ids, ds);
    }
  }

  /** The slot is named if the walk comes to its node. */
  lemma {:induction false} WalkKeeps(ids: seq<ClientId>, cs: seq<Hier>, paths: seq<Path>, own: Path, slot: Option<nat>)
    ensures forall s: nat :: Keep(s) in WalkWork(ids, cs, paths, own, slot) <==>
                             slot == Some(s) && own in paths && NodeIn(cs, own).Some?
  {
    if paths != [] {
      var n := NodeIn(cs, paths[0]);
      WalkKeeps(ids, cs, paths[1..], own, slot);
      if n.Some? { AllCopies(ids, AtPath(paths[0], n.value.subs)); }
      assert forall p :: p in paths <==> p == paths[0] || p in paths[1..];
      hide CopyWork, AtPath, NodeIn;
    }
  }

  lemma NoWork(ids: seq<ClientId>)
    ensures CopyWork(ids, []) == []
  {
  }

  lemma {:induction false} MatchesItself(levels: Path)
    ensures LevelsMatch(levels, levels)
  {
    if levels != [] && levels != ["#"] { MatchesItself(levels[1..]); }
  }

  /** The node of a retained topic is made first, so that the walk comes to it. */
  lemma TreeWorkIs(ids: seq<ClientId>, tb: R.Broker, topic: string, slot: Option<nat>)
    requires R.SoundTree(tb) && R.PubTopicOk(topic)
    ensures CopiesIn(TreeWork(ids, tb, topic, slot)) == CopyWork(ids, R.Handed(tb, topic, slot.Some?))
    ensures forall s: nat :: Keep(s) in TreeWork(ids, tb, topic, slot) <==>
                             slot == Some(s) && Child(tb.root.children, Tokens(topic)[0]).Some?
  {
    var ts := Tokens(topic);
    var tree := BrokerLaws.SearchTree(tb, ts, slot.Some?);
    if tree.Some? {
      var h, top := tree.value, Child(tb.root.children, ts[0]).value;
      Subscriptions.FullPathWildFree(topic);
      ChildWellFormed(tb.root, ts[0]);
      BrokerLaws.SearchTreeKeeps(tb, topic, slot.Some?, [], "");
      WalkCopies(ids, h.children, Reached(h.children, ts), ts, slot);
      WalkKeeps(ids, h.children, Reached(h.children, ts), ts, slot);
      if slot.Some? {
        AddCreates(top, ts, None, 0, ts);
        Subscriptions.StepInto(h, ts);
        ReachedIff(h.children, ts, ts);
        MatchesItself(ts);
      }
    }
  }

  // ------------------------------------------------ slots set between copies

  /** Alike for what copies of a message do. */
  predicate Alike(a: Broker, b: Broker, id: StoreId) {
    a.clients == b.clients && id in a.stores && id in b.stores && a.stores[id].destIds == b.stores[id].destIds
  }

  lemma CopyAlike(u: Setup, a: Broker, b: Broker, id: StoreId, qos: Qos, w: Work)
    requires Alike(a, b, id) && w.Copy?
    ensures Alike(DoWork(u, a, id, qos, w), DoWork(u, b, id, qos, w), id)
  {
    hide Admit, GrantedQos, NextMid, Count12;
  }

  /** Setting slots changes nothing for the queues. */
  lemma {:induction false} KeepsAside(u: Setup, a: Broker, b: Broker, id: StoreId, qos: Qos, work: seq<Work>)
    requires Alike(a, b, id) && BrokerStoreSteps.Balanced(a, multiset{id})
    ensures DoWorks(u, a, id, qos, work).clients == DoWorks(u, b, id, qos, CopiesIn(work)).clients
    decreases |work|
  {
    hide DoWork, Alike, BrokerStoreSteps.Balanced;
    AlikeIs(a, b, id);
    if work != [] {
      var w, rest := work[0], work[1..];
      BrokerStoreSteps.WorkBalanced(u, a, multiset{id}, id, qos, w);
      if w.Copy? {
        CopyAlike(u, a, b, id, qos, w);
        KeepsAside(u, DoWork(u, a, id, qos, w), DoWork(u, b, id, qos, w), id, qos, rest);
        assert CopiesIn(work)[1..] == CopiesIn(rest);
      } else {
        KeepAlike(u, a, b, id, qos, w);
        KeepsAside(u, DoWork(u, a, id, qos, w), b, id, qos, rest);
        assert CopiesIn(work) == CopiesIn(rest);
      }
    }
  }

  lemma AlikeIs(a: Broker, b: Broker, id: StoreId)
    requires Alike(a, b, id)
    ensures a.clients == b.clients
  {
  }

  lemma KeepAlike(u: Setup, a: Broker, b: Broker, id: StoreId, qos: Qos, w: Work)
    requires Alike(a, b, id) && BrokerStoreSteps.Balanced(a, multiset{id}) && w.Keep?
    ensures Alike(DoWork(u, a, id, qos, w), b, id)
  {
    hide SetSlot, BrokerStoreSteps.Balanced;
    if w.slot < |a.slots| { ArrivalLaws.SlotHands(a, id, w.slot); }
  }

  /** The deliveries to one client. */
  function Mine(ds: seq<Delivery>, client: ClientId): (r: seq<Delivery>)
    ensures forall d :: d in r <==> d in ds && d.leaf.client == client
  {
    if ds == [] then [] else (if ds[0].leaf.client == client then [ds[0]] else []) + Mine(ds[1..], client)
  }

  lemma {:induction false} MineNoDup(ds: seq<Delivery>, client: ClientId)
    requires NoDup(ds)
    ensures NoDup(Mine(ds, client))
  {
    if ds != [] {
      assert forall i, j :: 0 <= i < j < |ds| - 1 ==> ds[1..][i] != ds[1..][j] by {
        assert forall i :: 0 <= i < |ds| - 1 ==> ds[1..][i] == ds[i + 1];
      }
      MineNoDup(ds[1..], client);
      assert ds[0] !in ds[1..];
    }
  }

  // ----------------------------------------------- what one client is due

  predicate Distinct(clients: seq<Session>) {
    forall i, j :: 0 <= i < j < |clients| ==> clients[i].id != clients[j].id
  }

  /** Whether the message went to the client before and must not go again. */
  predicate Given(u: Setup, b: Broker, c: nat, id: StoreId)
    requires c < |b.clients| && id in b.stores
  {
    !u.cfg.allowDuplicates && b.clients[c].id in b.stores[id].destIds
  }

  /** The deliveries to a client in order: each is queued, with the right QoS, by
      what the queue holds by then, and with duplicates forbidden one is all the
      client gets. */
  ghost predicate CopiesTo(u: Setup, s: Session, given: bool, id: StoreId, qos: Qos, ds: seq<Delivery>, qs: seq<Qos>,
                           pieces: seq<seq<ClientMsg>>) {
    |qs| == |ds| == |pieces| &&
    forall i :: 0 <= i < |ds| ==>
      RightQos(u.cfg.upgradeQos, qs[i], qos, ds[i].leaf.qos) &&
      var now := Flat(pieces[..i]);
      Queues(u, s.connected, given || (!u.cfg.allowDuplicates && now != []), Held(s.msgs + now), id, qs[i], false,
             pieces[i])
  }

  lemma CopiesNext(u: Setup, s: Session, given: bool, id: StoreId, qos: Qos, d: Delivery, q: Qos,
                   piece: seq<ClientMsg>, s': Session, ds: seq<Delivery>, qs: seq<Qos>, pieces: seq<seq<ClientMsg>>)
    requires RightQos(u.cfg.upgradeQos, q, qos, d.leaf.qos)
    requires Queues(u, s.connected, given, Held(s.msgs), id, q, false, piece)
    requires s'.msgs == s.msgs + piece && s'.connected == s.connected
    requires CopiesTo(u, s', given || (!u.cfg.allowDuplicates && piece != []), id, qos, ds, qs, pieces)
    ensures CopiesTo(u, s, given, id, qos, [d] + ds, [q] + qs, [piece] + pieces)
  {
    hide RightQos, Queues, Held, Flat;
    var ds', qs', pieces' := [d] + ds, [q] + qs, [piece] + pieces;
    forall i | 0 <= i < |ds'|
      ensures RightQos(u.cfg.upgradeQos, qs'[i], qos, ds'[i].leaf.qos)
      ensures var now := Flat(pieces'[..i]);
              Queues(u, s.connected, given || (!u.cfg.allowDuplicates && now != []), Held(s.msgs + now), id, qs'[i],
                     false, pieces'[i])
    {
      if i == 0 {
        FlatNone(s.msgs, pieces');
      } else {
        FlatLater(s.msgs, piece, pieces, i - 1);
        var now := Flat(pieces[..i - 1]);
        assert RightQos(u.cfg.upgradeQos, qs[i - 1], qos, ds[i - 1].leaf.qos);
        assert Queues(u, s.connected, given || (!u.cfg.allowDuplicates && piece + now != []), Held(s'.msgs + now), id,
                      qs[i - 1], false, pieces[i - 1]);
      }
    }
  }

  lemma FlatNone(msgs: seq<ClientMsg>, pieces: seq<seq<ClientMsg>>)
    ensures Flat(pieces[..0]) == [] && msgs + Flat(pieces[..0]) == msgs
  {
  }

  lemma FlatLater(msgs: seq<ClientMsg>, piece: seq<ClientMsg>, pieces: seq<seq<ClientMsg>>, i: nat)
    requires i <= |pieces|
    ensures Flat(([piece] + pieces)[..i + 1]) == piece + Flat(pieces[..i])
    ensures msgs + Flat(([piece] + pieces)[..i + 1]) == msgs + piece + Flat(pieces[..i])
  {
    FlatNext(piece, pieces, i);
  }

  /** Entries behind the queue, and ids used up for them; the client is as it was
      otherwise. */
  predicate Grows(s: Session, s': Session, added: seq<ClientMsg>) {
    s' == s.(lastMid := s'.lastMid, msgs := s.msgs + added)
  }

  lemma GrowsMore(s: Session, s1: Session, s2: Session, a: seq<ClientMsg>, b: seq<ClientMsg>)
    ensures Grows(s, s1, a) ==> s1.msgs == s.msgs + a && s1.connected == s.connected && s1.id == s.id
    ensures Grows(s, s1, a) && Grows(s1, s2, b) ==> Grows(s, s2, a + b)
    ensures Grows(s, s, [])
  {
    assert s.msgs + [] == s.msgs && s.msgs + a + b == s.msgs + (a + b);
  }

  /** The first delivery, for whichever client it is. */
  lemma FirstCopy(u: Setup, b: Broker, id: StoreId, qos: Qos, d: Delivery, c: nat, k: nat)
    returns (q: Qos, piece: seq<ClientMsg>)
    requires id in b.stores && c < |b.clients| && Distinct(b.clients)
    requires k == IndexOfId(Ids(b.clients), d.leaf.client) < |b.clients|
    ensures var me, b' := b.clients[c].id, DoWork(u, b, id, qos, Copy(k, AsQos(d.leaf.qos)));
            Ids(b'.clients) == Ids(b.clients) && Distinct(b'.clients) && id in b'.stores &&
            |b'.clients| == |b.clients| && Grows(b.clients[c], b'.clients[c], piece) &&
            if d.leaf.client == me then
              RightQos(u.cfg.upgradeQos, q, qos, d.leaf.qos) &&
              Queues(u, b.clients[c].connected, Given(u, b, c, id), Held(b.clients[c].msgs), id, q, false, piece) &&
              Given(u, b', c, id) == (Given(u, b, c, id) || (!u.cfg.allowDuplicates && piece != []))
            else piece == [] && Given(u, b', c, id) == Given(u, b, c, id)
  {
    hide RightQos, Queues, Held, InsertOut, AsQos, GrantedQos, IndexOfId;
    var ids, granted := Ids(b.clients), AsQos(d.leaf.qos);
    var b' := DoWork(u, b, id, qos, Copy(k, granted));
    q := GrantedQos(u.cfg, qos, granted);
    Granted(u.cfg, qos, d.leaf.qos);
    var mid;
    mid, piece := CopyQueues(u, b, k, q, false, id);
    SameClient(b.clients, c, k, d.leaf.client);
    assert Ids(b'.clients) == ids;
    SameDistinct(b.clients, b'.clients);
    if k != c {
      piece := [];
      assert b.clients[c].msgs + [] == b.clients[c].msgs;
    }
  }

  lemma Granted(cfg: Config, qos: Qos, granted: nat)
    ensures RightQos(cfg.upgradeQos, GrantedQos(cfg, qos, AsQos(granted)), qos, granted)
  {
    GrantedIsRight(cfg, qos, granted);
  }

  lemma SameClient(clients: seq<Session>, c: nat, k: nat, id: ClientId)
    requires Distinct(clients) && c < |clients| && k == IndexOfId(Ids(clients), id) < |clients|
    ensures (k == c) == (id == clients[c].id)
  {
    assert Ids(clients)[c] == clients[c].id && Ids(clients)[k] == clients[k].id;
  }

  lemma SameDistinct(a: seq<Session>, b: seq<Session>)
    requires Distinct(a) && Ids(a) == Ids(b)
    ensures |a| == |b| && Distinct(b)
  {
    assert |a| == |Ids(a)| == |b|;
    forall i | 0 <= i < |b| ensures b[i].id == a[i].id { assert Ids(a)[i] == Ids(b)[i]; }
  }

  lemma FirstOf(u: Setup, b: Broker, id: StoreId, qos: Qos, ids: seq<ClientId>, ds: seq<Delivery>, k: nat, me: ClientId)
    requires ds != [] && k == IndexOfId(ids, ds[0].leaf.client)
    ensures DoWorks(u, b, id, qos, CopyWork(ids, ds)) ==
            if k < |ids| then DoWorks(u, DoWork(u, b, id, qos, Copy(k, AsQos(ds[0].leaf.qos))), id, qos,
                                      CopyWork(ids, ds[1..]))
            else DoWorks(u, b, id, qos, CopyWork(ids, ds[1..]))
    ensures Mine(ds, me) == (if ds[0].leaf.client == me then [ds[0]] else []) + Mine(ds[1..], me)
    ensures k == |ids| && me in ids ==> ds[0].leaf.client != me
  {
    hide DoWork, AsQos;
    if k < |ids| {
      assert CopyWork(ids, ds)[1..] == CopyWork(ids, ds[1..]);
    } else {
      assert [] + CopyWork(ids, ds[1..]) == CopyWork(ids, ds[1..]);
    }
  }

  /** All the work for one message. */
  lemma {:induction false} WorkCopies(u: Setup, b: Broker, id: StoreId, qos: Qos, ds: seq<Delivery>, c: nat)
    returns (qs: seq<Qos>, pieces: seq<seq<ClientMsg>>)
    requires id in b.stores && c < |b.clients| && Distinct(b.clients)
    ensures Grows(b.clients[c], DoWorks(u, b, id, qos, CopyWork(Ids(b.clients), ds)).clients[c], Flat(pieces))
    ensures CopiesTo(u, b.clients[c], Given(u, b, c, id), id, qos, Mine(ds, b.clients[c].id), qs, pieces)
    decreases |ds|, 1
  {
    hide DoWork, RightQos, Queues, Held, Given, AsQos, DoWorks, CopyWork, Mine, Distinct;
    var ids, s := Ids(b.clients), b.clients[c];
    if ds == [] {
      qs, pieces := [], [];
      NothingDue(u, b, id, qos, ids, s.id);
      GrowsMore(s, s, s, [], []);
    } else {
      var k := IndexOfId(ids, ds[0].leaf.client);
      FirstOf(u, b, id, qos, ids, ds, k, s.id);
      assert ids[c] == s.id;
      if k == |ids| {
        qs, pieces := WorkCopies(u, b, id, qos, ds[1..], c);
        assert [] + Mine(ds[1..], s.id) == Mine(ds[1..], s.id);
      } else {
        qs, pieces := CopyAndRest(u, b, id, qos, ds, c, k);
      }
    }
  }

  lemma {:induction false} CopyAndRest(u: Setup, b: Broker, id: StoreId, qos: Qos, ds: seq<Delivery>, c: nat, k: nat)
    returns (qs: seq<Qos>, pieces: seq<seq<ClientMsg>>)
    requires id in b.stores && c < |b.clients| && Distinct(b.clients)
    requires ds != [] && k == IndexOfId(Ids(b.clients), ds[0].leaf.client) < |b.clients|
    ensures Grows(b.clients[c], DoWorks(u, b, id, qos, CopyWork(Ids(b.clients), ds)).clients[c], Flat(pieces))
    ensures CopiesTo(u, b.clients[c], Given(u, b, c, id), id, qos, Mine(ds, b.clients[c].id), qs, pieces)
    decreases |ds|, 0
  {
    hide *;
    var s, b' := b.clients[c], DoWork(u, b, id, qos, Copy(k, AsQos(ds[0].leaf.qos)));
    FirstOf(u, b, id, qos, Ids(b.clients), ds, k, s.id);
    var q, piece := FirstCopy(u, b, id, qos, ds[0], c, k);
    qs, pieces := WorkCopies(u, b', id, qos, ds[1..], c);
    var mine := Mine(ds[1..], s.id);
    GrowsMore(s, b'.clients[c], DoWorks(u, b', id, qos, CopyWork(Ids(b.clients), ds[1..])).clients[c], piece,
              Flat(pieces));
    if ds[0].leaf.client == s.id {
      CopiesNext(u, s, Given(u, b, c, id), id, qos, ds[0], q, piece, b'.clients[c], mine, qs, pieces);
      FlatNext(piece, pieces, 0);
      qs, pieces := [q] + qs, [piece] + pieces;
    } else {
      assert [] + mine == mine && s.msgs + [] == s.msgs && [] + Flat(pieces) == Flat(pieces);
      SameDue(u, s, b'.clients[c], Given(u, b, c, id), id, qos, mine, qs, pieces);
    }
  }

  lemma SameDue(u: Setup, s: Session, s': Session, given: bool, id: StoreId, qos: Qos, ds: seq<Delivery>, qs: seq<Qos>,
                pieces: seq<seq<ClientMsg>>)
    requires s'.msgs == s.msgs && s'.connected == s.connected && CopiesTo(u, s', given, id, qos, ds, qs, pieces)
    ensures CopiesTo(u, s, given, id, qos, ds, qs, pieces)
  {
    hide Queues, RightQos, Held;
  }

  lemma NothingDue(u: Setup, b: Broker, id: StoreId, qos: Qos, ids: seq<ClientId>, me: ClientId)
    ensures DoWorks(u, b, id, qos, CopyWork(ids, [])) == b && Mine([], me) == []
  {
  }

  // ------------------------------------------------- with room for everything

  /** A connected client with no limit gets an entry for every delivery at once,
      or just for the first one. */
  lemma CopiesAtOnce(u: Setup, s: Session, id: StoreId, qos: Qos, ds: seq<Delivery>, qs: seq<Qos>,
                     pieces: seq<seq<ClientMsg>>)
    requires CopiesTo(u, s, false, id, qos, ds, qs, pieces) && s.connected && u.lim.inflight == 0
    ensures forall i :: 0 <= i < |ds| ==>
              if u.cfg.allowDuplicates || i == 0 then
                |pieces[i]| == 1 && pieces[i][0].qos == qs[i] && pieces[i][0].state != Queued
              else pieces[i] == []
  {
    hide Held;
    forall i | 0 <= i < |ds|
      ensures if u.cfg.allowDuplicates || i == 0 then
                |pieces[i]| == 1 && pieces[i][0].qos == qs[i] && pieces[i][0].state != Queued
              else pieces[i] == []
    {
      assert RightQos(u.cfg.upgradeQos, qs[i], qos, ds[i].leaf.qos);
      assert Flat(pieces[..0]) == [];
      if i > 0 {
        assert RightQos(u.cfg.upgradeQos, qs[0], qos, ds[0].leaf.qos);
        assert Flat(pieces[..i]) == pieces[0] + Flat(pieces[..i][1..]);
      }
    }
  }

  /** For a client that is away, with no limit on what waits: an entry for every
      delivery of QoS 1 and 2, and of QoS 0 if the broker is told to, waits; with
      duplicates forbidden only for the first of these. */
  lemma CopiesKept(u: Setup, s: Session, id: StoreId, qos: Qos, ds: seq<Delivery>, qs: seq<Qos>,
                   pieces: seq<seq<ClientMsg>>)
    requires CopiesTo(u, s, false, id, qos, ds, qs, pieces) && !s.connected && u.lim.queued == 0
    ensures forall i :: 0 <= i < |ds| ==>
              (pieces[i] != [] <==>
               (qs[i] > 0 || u.cfg.queueQos0) && (u.cfg.allowDuplicates || Flat(pieces[..i]) == [])) &&
              (pieces[i] != [] ==>
               |pieces[i]| == 1 && pieces[i][0].qos == qs[i] && pieces[i][0].state == Queued)
  {
    hide Held;
    forall i | 0 <= i < |ds|
      ensures (pieces[i] != [] <==>
               (qs[i] > 0 || u.cfg.queueQos0) && (u.cfg.allowDuplicates || Flat(pieces[..i]) == [])) &&
              (pieces[i] != [] ==>
               |pieces[i]| == 1 && pieces[i][0].qos == qs[i] && pieces[i][0].state == Queued)
    {
      assert RightQos(u.cfg.upgradeQos, qs[i], qos, ds[i].leaf.qos);
    }
  }

  // ---------------------------------------------------------- the main result

  /** The filters of a client that match a topic. */
  function MatchingFilters(t: R.Tables, client: ClientId, topic: string): set<string> {
    set k | k in t.subs && k.0 == client && Matches(k.1, topic) :: k.1
  }

  lemma {:induction false} CountFilters(t: R.Tables, client: ClientId, ds: seq<Delivery>, fs: set<string>)
    requires NoDup(ds) && forall f :: f in fs ==> (client, f) in t.subs
    requires forall f :: f in fs ==> Delivery(Tokens(f), Leaf(client, t.subs[(client, f)])) in ds
    requires forall d :: d in ds ==> exists f :: f in fs && d == Delivery(Tokens(f), Leaf(client, t.subs[(client, f)]))
    ensures |ds| == |fs|
    decreases |ds|
  {
    if ds == [] {
      assert fs == {};
    } else {
      assert ds[0] in ds;
      var f :| f in fs && ds[0] == Delivery(Tokens(f), Leaf(client, t.subs[(client, f)]));
      var rest := ds[1..];
      assert forall d :: d in ds <==> d == ds[0] || d in rest;
      assert ds[0] !in rest;
      assert NoDup(rest);
      forall g | g in fs - {f} ensures Delivery(Tokens(g), Leaf(client, t.subs[(client, g)])) in rest {
        if Tokens(g) == Tokens(f) { TokensInjective(g, f); }
      }
      forall d | d in rest
        ensures exists g :: g in fs - {f} && d == Delivery(Tokens(g), Leaf(client, t.subs[(client, g)]))
      {
        var g :| g in fs && d == Delivery(Tokens(g), Leaf(client, t.subs[(client, g)]));
        assert g != f;
      }
      CountFilters(t, client, rest, fs - {f});
    }
  }

  /** The deliveries of a publish to one client are as many as its filters that
      match the topic. */
  lemma DeliveriesCounted(ops: seq<R.Op>, topic: string, retain: bool, client: ClientId)
    requires R.PubTopicOk(topic)
    ensures var ds := Mine(R.Handed(R.Run(ops), topic, retain), client);
            |ds| == |MatchingFilters(R.FlatRun(ops), client, topic)| &&
            forall d :: d in ds <==>
              exists f :: f in MatchingFilters(R.FlatRun(ops), client, topic) &&
                          d == Delivery(Tokens(f), Leaf(client, R.FlatRun(ops).subs[(client, f)]))
  {
    var all, t := R.Handed(R.Run(ops), topic, retain), R.FlatRun(ops);
    var ds, fs := Mine(all, client), MatchingFilters(t, client, topic);
    BrokerLaws.DeliveredExactly(ops, topic, retain);
    MineNoDup(all, client);
    hide R.Run, R.FlatRun, R.Handed, Mine, Tokens, Matches;
    forall f | f in fs ensures Delivery(Tokens(f), Leaf(client, t.subs[(client, f)])) in ds {
      assert (client, f) in t.subs;
    }
    forall d | d in ds
      ensures exists f :: f in fs && d == Delivery(Tokens(f), Leaf(client, t.subs[(client, f)]))
    {
      BrokerLaws.DeliveredToKnown(ops, topic, retain, d);
      var f :| d.path == Tokens(f) && (d.leaf.client, f) in t.subs;
      assert d == Delivery(Tokens(f), Leaf(client, d.leaf.qos));
      assert (client, f) in t.subs && Matches(f, topic);
    }
    CountFilters(t, client, ds, fs);
  }

  /** What handing on a stored message puts into the queue of one client, and
      what the slots hold then. */
  lemma TreeQueues(u: Setup, ops: seq<R.Op>, b: Broker, id: StoreId, qos: Qos, topic: string, slot: Option<nat>,
                   c: nat)
    returns (ds: seq<Delivery>, qs: seq<Qos>, pieces: seq<seq<ClientMsg>>)
    requires R.PubTopicOk(topic) && id in b.stores && BrokerStoreSteps.Balanced(b, multiset{})
    requires c < |b.clients| && Distinct(b.clients)
    ensures Grows(b.clients[c],
                  MessagesQueue(u, b, id, qos, TreeWork(Ids(b.clients), R.Run(ops), topic, slot)).clients[c],
                  Flat(pieces))
    ensures CopiesTo(u, b.clients[c], Given(u, b, c, id), id, qos, ds, qs, pieces)
    ensures OwnMatches(R.FlatRun(ops), b.clients[c].id, topic, ds)
    ensures var b' := MessagesQueue(u, b, id, qos, TreeWork(Ids(b.clients), R.Run(ops), topic, slot));
            SlotTaken(b, b', id, slot, Child(R.Run(ops).root.children, Tokens(topic)[0]).Some?)
  {
    hide *;
    var all := R.Handed(R.Run(ops), topic, slot.Some?);
    ds := Mine(all, b.clients[c].id);
    DeliveriesCounted(ops, topic, slot.Some?, b.clients[c].id);
    Own(R.FlatRun(ops), b.clients[c].id, topic, ds);
    SlotsSet(u, ops, b, id, qos, topic, slot);
    ProtectedSame(u, b, c, id);
    qs, pieces := WorkCopies(u, Protect(b, id), id, qos, all, c);
    CopiesOnly(u, ops, b, id, qos, topic, slot);
  }

  /** The deliveries are one for each filter of the client that matches. */
  ghost predicate OwnMatches(t: R.Tables, client: ClientId, topic: string, ds: seq<Delivery>) {
    var fs := MatchingFilters(t, client, topic);
    |ds| == |fs| &&
    forall d :: d in ds <==> exists f :: f in fs && d == Delivery(Tokens(f), Leaf(client, t.subs[(client, f)]))
  }

  lemma Own(t: R.Tables, client: ClientId, topic: string, ds: seq<Delivery>)
    requires var fs := MatchingFilters(t, client, topic);
             |ds| == |fs| &&
             forall d :: d in ds <==> exists f :: f in fs && d == Delivery(Tokens(f), Leaf(client, t.subs[(client, f)]))
    ensures OwnMatches(t, client, topic, ds)
  {
    hide MatchingFilters, Tokens;
  }

  /** The slot, if there is one to set and a node to hold it, gets the message,
      or nothing if the message is empty; no other slot changes. */
  predicate SlotTaken(b: Broker, b': Broker, id: StoreId, slot: Option<nat>, stands: bool)
    requires id in b.stores
  {
    |b'.slots| == |b.slots| &&
    forall s :: 0 <= s < |b.slots| ==>
      b'.slots[s] == if slot == Some(s) && stands then (if b.stores[id].hasPayload then Some(id) else None)
                     else b.slots[s]
  }

  lemma ProtectedSame(u: Setup, b: Broker, c: nat, id: StoreId)
    requires c < |b.clients| && id in b.stores
    ensures var p := Protect(b, id);
            id in p.stores && p.clients == b.clients && Given(u, p, c, id) == Given(u, b, c, id)
  {
  }

  lemma SlotsSet(u: Setup, ops: seq<R.Op>, b: Broker, id: StoreId, qos: Qos, topic: string, slot: Option<nat>)
    requires R.PubTopicOk(topic) && id in b.stores && BrokerStoreSteps.Balanced(b, multiset{})
    ensures var b' := MessagesQueue(u, b, id, qos, TreeWork(Ids(b.clients), R.Run(ops), topic, slot));
            SlotTaken(b, b', id, slot, Child(R.Run(ops).root.children, Tokens(topic)[0]).Some?)
  {
    hide R.Run, MessagesQueue, TreeWork, BrokerStoreSteps.Balanced;
    R.RunAgrees(ops);
    TreeWorkIs(Ids(b.clients), R.Run(ops), topic, slot);
    ArrivalLaws.QueueHands(u, b, id, qos, TreeWork(Ids(b.clients), R.Run(ops), topic, slot));
  }

  lemma CopiesOnly(u: Setup, ops: seq<R.Op>, b: Broker, id: StoreId, qos: Qos, topic: string, slot: Option<nat>)
    requires R.PubTopicOk(topic) && id in b.stores && BrokerStoreSteps.Balanced(b, multiset{})
    ensures MessagesQueue(u, b, id, qos, TreeWork(Ids(b.clients), R.Run(ops), topic, slot)).clients ==
            DoWorks(u, Protect(b, id), id, qos,
                    CopyWork(Ids(b.clients), R.Handed(R.Run(ops), topic, slot.Some?))).clients
  {
    hide R.Run, R.Handed, DoWorks, TreeWork, CopyWork, BrokerStoreSteps.Balanced;
    BrokerStoreSteps.ProtectBalanced(b, id);
    R.RunAgrees(ops);
    TreeWorkIs(Ids(b.clients), R.Run(ops), topic, slot);
    KeepsAside(u, Protect(b, id), Protect(b, id), id, qos, TreeWork(Ids(b.clients), R.Run(ops), topic, slot));
  }

  /** The PUBLISH with the work the tree gives for it. */
  predicate FromTree(ops: seq<R.Op>, b: Broker, op: Op, slot: Option<nat>) {
    op.Arrive? && op.qos != 2 && Possible(b, op) && R.PubTopicOk(op.topic) &&
    op.work == TreeWork(Ids(b.clients), R.Run(ops), op.topic, slot)
  }

  /** A PUBLISH of QoS 0 or 1 that arrives after any run of subscriptions and any
      run of the store: what is put behind the queue of any client are copies for
      its own matching filters. A retained message takes the slot of its topic if
      the top-level node of it stands; no other slot changes. */
  lemma PublishQueues(u: Setup, ops: seq<R.Op>, past: seq<Op>, op: Op, slot: Option<nat>, c: nat)
    returns (ds: seq<Delivery>, qs: seq<Qos>, pieces: seq<seq<ClientMsg>>)
    requires FromTree(ops, Run(u, past), op, slot)
    requires c < |Run(u, past).clients| && Distinct(Run(u, past).clients)
    ensures var b, id := Run(u, past), ArrivalLaws.TakenFor(Run(u, past), op.c, op.mid, op.qos);
            var again := ArrivalLaws.Reuses(b, op.c, op.mid, op.qos);
            (again ==> id in b.stores) &&
            var given := again && !u.cfg.allowDuplicates && b.clients[c].id in b.stores[id].destIds;
            |Step(u, b, op).clients| == |b.clients| &&
            Step(u, b, op).clients[c] == b.clients[c].(lastMid := Step(u, b, op).clients[c].lastMid,
                                                       msgs := b.clients[c].msgs + Flat(pieces)) &&
            CopiesTo(u, b.clients[c], given, id, op.qos, ds, qs, pieces)
    ensures OwnMatches(R.FlatRun(ops), Run(u, past).clients[c].id, op.topic, ds)
    ensures var b, id := Run(u, past), ArrivalLaws.TakenFor(Run(u, past), op.c, op.mid, op.qos);
            var payload := if ArrivalLaws.Reuses(b, op.c, op.mid, op.qos) then b.stores[id].hasPayload
                           else op.hasPayload;
            |Step(u, b, op).slots| == |b.slots| &&
            forall s :: 0 <= s < |b.slots| ==>
              Step(u, b, op).slots[s] ==
              if slot == Some(s) && Child(R.Run(ops).root.children, Tokens(op.topic)[0]).Some?
              then (if payload then Some(id) else None) else b.slots[s]
  {
    hide Run, Step, R.Run, R.FlatRun, MessagesQueue, TreeWork, CopiesTo, OwnMatches, Distinct, Flat, Tokens, Child,
         BrokerStoreSteps.Balanced, ArrivalLaws.TakenFor, ArrivalLaws.Reuses, SlotTaken, Given, R.PubTopicOk;
    var b, id := Run(u, past), ArrivalLaws.TakenFor(Run(u, past), op.c, op.mid, op.qos);
    var b1 := Taking(u, ops, past, op, slot);
    TakenGiven(u, b, b1, op, c);
    ds, qs, pieces := TreeQueues(u, ops, b1, id, op.qos, op.topic, slot, c);
    TakenSlots(b1, Step(u, b, op), id, slot, Child(R.Run(ops).root.children, Tokens(op.topic)[0]).Some?);
  }

  /** The broker with the message that is handed on, new or waiting. */
  lemma Taking(u: Setup, ops: seq<R.Op>, past: seq<Op>, op: Op, slot: Option<nat>) returns (b1: Broker)
    requires FromTree(ops, Run(u, past), op, slot)
    ensures HandsNext(u, Run(u, past), b1, op)
    ensures BrokerStoreSteps.Balanced(b1, multiset{})
    ensures var b := Run(u, past);
            b1.clients == b.clients && op.work == TreeWork(Ids(b1.clients), R.Run(ops), op.topic, slot)
  {
    BrokerStoreSteps.RunSound(u, past);
    var b := Run(u, past);
    hide Run, R.Run, MessagesQueue, FindIncoming, TreeWork, BrokerStoreSteps.Balanced, BrokerStoreSteps.Orderly;
    if ArrivalLaws.Reuses(b, op.c, op.mid, op.qos) {
      ArrivalLaws.FoundStored(b.clients[op.c].msgs, b.stores, op.mid);
      b1 := b;
    } else {
      ArrivalLaws.NewIsFresh(u, b);
      BrokerStoreSteps.NewStoreBalanced(b, multiset{}, b.clients[op.c].id, op.mid, Some(op.topic), op.qos, op.retain,
                                        op.hasPayload);
      b1 := NewStore(b, b.clients[op.c].id, op.mid, Some(op.topic), op.qos, op.retain, op.hasPayload);
    }
  }

  predicate HandsNext(u: Setup, b: Broker, b1: Broker, op: Op) {
    op.Arrive? && op.c < |b.clients| &&
    var id := ArrivalLaws.TakenFor(b, op.c, op.mid, op.qos);
    id in b1.stores && b1.slots == b.slots && Step(u, b, op) == MessagesQueue(u, b1, id, op.qos, op.work) &&
    if ArrivalLaws.Reuses(b, op.c, op.mid, op.qos) then b1.stores == b.stores
    else b1.stores[id].destIds == [] && b1.stores[id].hasPayload == op.hasPayload
  }

  lemma TakenGiven(u: Setup, b: Broker, b1: Broker, op: Op, c: nat)
    requires HandsNext(u, b, b1, op) && b1.clients == b.clients && c < |b.clients|
    ensures var id := ArrivalLaws.TakenFor(b, op.c, op.mid, op.qos);
            var again := ArrivalLaws.Reuses(b, op.c, op.mid, op.qos);
            id in b1.stores && b1.slots == b.slots && Step(u, b, op) == MessagesQueue(u, b1, id, op.qos, op.work) &&
            (again ==> id in b.stores && b1.stores[id].hasPayload == b.stores[id].hasPayload) &&
            (!again ==> b1.stores[id].hasPayload == op.hasPayload) &&
            Given(u, b1, c, id) == (again && !u.cfg.allowDuplicates && b.clients[c].id in b.stores[id].destIds)
  {
    hide Step, MessagesQueue, ArrivalLaws.TakenFor, ArrivalLaws.Reuses;
  }

  lemma TakenSlots(b: Broker, b': Broker, id: StoreId, slot: Option<nat>, stands: bool)
    requires id in b.stores && SlotTaken(b, b', id, slot, stands)
    ensures |b'.slots| == |b.slots| &&
            forall s :: 0 <= s < |b.slots| ==>
              b'.slots[s] == if slot == Some(s) && stands then (if b.stores[id].hasPayload then Some(id) else None)
                             else b.slots[s]
  {
  }
}
