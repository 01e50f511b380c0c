/** Restoring a backup gives back what was saved. */
module PersistLaws {
  import opened Common
  import opened Topics
  import opened SubTree
  import opened Subscriptions
  import BrokerLaws
  import BrokerRuns
  import opened Persist
  import opened PersistLoad

  /** What holds of a broker's state: ids are distinct and not zero, a message
      has a topic, what is pointed at is there, subscriptions stand where their filters say, and what is retained
      has a payload and a topic without wildcards. */
  ghost predicate Consistent(db: Db) {
    DistinctIds(db.stores) && (forall s :: s in db.stores ==> s.topic != "" && s.id != 0) &&
    DistinctClientIds(db.clients) && (forall c :: c in db.clients ==> SessionFine(db.stores, c)) &&
    WellFormed(db.root) &&
    (forall p, c :: SubAt(db.root, p, c).Some? ==> IsFullPath(p) && ValidLevels(Split(Spelled(p)))) &&
    forall p :: RetainedAt(db.root, p).Some? ==> p != [] && RetainedFine(db.stores, RetainedAt(db.root, p).value)
  }

  predicate RetainedFine(stores: seq<Store>, id: StoreId) {
    StoreOf(stores, id).Some? &&
    StoreOf(stores, id).value.payload != "" && NoWild(StoreOf(stores, id).value.topic)
  }

  /** Over every run of the broker, subscriptions stand where their filters
      say, and retained messages on the paths of topics only. */
  lemma TreeOfRun(ops: seq<BrokerRuns.Op>)
    ensures var root := BrokerRuns.Run(ops).root;
            WellFormed(root) &&
            (forall p, c :: SubAt(root, p, c).Some? ==> IsFullPath(p) && ValidLevels(Split(Spelled(p)))) &&
            forall p :: RetainedAt(root, p).Some? ==> IsFullPath(p) && NoWild(Spelled(p))
  {
    BrokerRuns.RunAgrees(ops);
    var b, t := BrokerRuns.Run(ops), BrokerRuns.FlatRun(ops);
    hide BrokerRuns.Run, BrokerRuns.FlatRun;
    forall p, c | SubAt(b.root, p, c).Some? ensures IsFullPath(p) && ValidLevels(Split(Spelled(p))) {
      assert SubAt(b.root, p, c) == BrokerRuns.TableSub(t, p, c);
      assert (c, Spelled(p)) in t.subs;
    }
    forall p | RetainedAt(b.root, p).Some? ensures IsFullPath(p) && NoWild(Spelled(p)) {
      BrokerLaws.RetainedOnTopics(ops, p);
    }
  }

  /** The tree of any run is consistent with any stores that are there for it
      and any sessions that are. */
  lemma RunConsistent(ops: seq<BrokerRuns.Op>, db: Db)
    requires db.root == BrokerRuns.Run(ops).root
    requires DistinctIds(db.stores) && forall s :: s in db.stores ==> s.topic != "" && s.id != 0
    requires DistinctClientIds(db.clients) && forall c :: c in db.clients ==> SessionFine(db.stores, c)
    requires forall p :: RetainedAt(db.root, p).Some? ==> RetainedFine(db.stores, RetainedAt(db.root, p).value)
    ensures Consistent(db)
  {
    TreeOfRun(ops);
    hide BrokerRuns.Run, WellFormed, SubAt, RetainedAt, FullPath, ValidLevels, RetainedFine, SessionFine, DistinctIds,
         DistinctClientIds;
  }

  function TreeChunks(db: Db): seq<Chunk> {
    ForestChunks(db, "", db.root.children)
  }

  /** The chunks of the tree: one for each leaf of a lasting client, and one for
      each retained message outside `$SYS`. */
  lemma TreeChunkIff(db: Db, c: Chunk)
    requires WellFormed(db.root)
    ensures c in TreeChunks(db) <==> exists p :: RootSays(db, db.root, p, c)
  {
    ForestChunkIff(db, db.root.children, [], c);
    assert NameOf([]) == "";
    hide *;
    RootChild(db, db.root, c);
    assert TreeChunks(db) == ForestChunks(db, "", db.root.children) by { TreeIsForest(db); }
  }

  lemma TreeIsForest(db: Db)
    ensures TreeChunks(db) == ForestChunks(db, "", db.root.children)
  {
  }

  ghost predicate RootSays(db: Db, root: Hier, p: Path, c: Chunk) {
    p != [] && NodeAt(root, p).Some? && Says(db, NodeAt(root, p).value, p, c)
  }

  lemma ChildToRoot(db: Db, root: Hier, i: nat, p: Path, c: Chunk)
    requires DistinctTopics(root.children) && i < |root.children| && InChild(db, root.children, i, [], p, c)
    ensures RootSays(db, root, [root.children[i].topic] + p, c)
  {
    hide Says;
    var q := [root.children[i].topic] + p;
    ChildUnique(root.children, i);
    assert [] + [root.children[i].topic] + p == q && q[1..] == p;
    assert NodeAt(root, q) == NodeAt(root.children[i], p);
  }

  lemma RootToChild(db: Db, root: Hier, p: Path, c: Chunk)
    requires RootSays(db, root, p, c)
    ensures var i := IndexOf(root.children, p[0]); i < |root.children| && InChild(db, root.children, i, [], p[1..], c)
  {
    hide Says;
    assert [] + [p[0]] + p[1..] == p;
  }

  lemma RootChild(db: Db, root: Hier, c: Chunk)
    requires WellFormed(root)
    ensures (exists i, p :: 0 <= i < |root.children| && InChild(db, root.children, i, [], p, c)) <==>
            exists p :: RootSays(db, root, p, c)
  {
    assert DistinctTopics(root.children);
    hide *;
    if i, p :| 0 <= i < |root.children| && InChild(db, root.children, i, [], p, c) { ChildToRoot(db, root, i, p, c); }
    if p :| RootSays(db, root, p, c) { RootToChild(db, root, p, c); }
  }

  lemma {:induction false} SurvivorsHave(clients: seq<Session>, id: ClientId)
    requires Lasting(clients, id)
    ensures IndexOfClient(Survivors(clients), id) < |Survivors(clients)|
  {
    if !(clients[0].id == id && !clients[0].clean) {
      var c :| c in clients && c.id == id && !c.clean;
      assert c in clients[1..];
      SurvivorsHave(clients[1..], id);
      if !clients[0].clean {
        assert Survivors(clients)[1..] == Survivors(clients[1..]);
      } else {
        assert Survivors(clients) == Survivors(clients[1..]);
      }
    }
  }

  lemma TreeFine(db: Db)
    requires Consistent(db)
    ensures AllFine(Rebuilt(db.stores), Survivors(db.clients), TreeChunks(db))
  {
    forall c | c in TreeChunks(db) ensures ChunkFine(Rebuilt(db.stores), Survivors(db.clients), c) {
      TreeChunkIff(db, c);
      var p :| RootSays(db, db.root, p, c);
      hide ForestChunks, Survivors, Rebuilt;
      match c
      case Sub(client, filter, qos) =>
        assert SubAt(db.root, p, client) == Some(qos);
        NameValid(Spelled(p));
        SurvivorsHave(db.clients, client);
      case Retain(id) =>
        assert RetainedAt(db.root, p) == Some(id);
        RebuiltOf(db.stores, id);
    }
  }

  // -------------------------------------------------------- what comes back

  /** The subscription at `q` is saved under the filter of `p`. */
  predicate SavedAs(db: Db, q: Path, client: ClientId, p: Path) {
    SubAt(db.root, q, client).Some? && FullPath(NameOf(q)) == p
  }

  lemma SubChunkIff(db: Db, p: Path, client: ClientId, qos: nat)
    requires Consistent(db)
    ensures (exists c :: c in TreeChunks(db) && SubHere(c, p, client) && c.qos == qos) <==>
            Lasting(db.clients, client) &&
            exists q :: SavedAs(db, q, client, p) && SubAt(db.root, q, client) == Some(qos)
  {
    if c :| c in TreeChunks(db) && SubHere(c, p, client) && c.qos == qos {
      SubChunkMeans(db, c, p, client);
    }
    if Lasting(db.clients, client) {
      if q :| SavedAs(db, q, client, p) && SubAt(db.root, q, client) == Some(qos) {
        SubHasChunk(db, q, p, client);
      }
    }
  }

  lemma SubChunkMeans(db: Db, c: Chunk, p: Path, client: ClientId)
    requires Consistent(db) && c in TreeChunks(db) && SubHere(c, p, client)
    ensures Lasting(db.clients, client) &&
            exists q :: SavedAs(db, q, client, p) && SubAt(db.root, q, client) == Some(c.qos)
  {
    TreeChunkIff(db, c);
    var r :| RootSays(db, db.root, r, c);
    hide TreeChunks, Lasting, NameOf, FullPath;
    assert SubAt(db.root, r, client) == Some(c.qos) && c.filter == NameOf(r);
    assert SavedAs(db, r, client, p);
  }

  lemma SubHasChunk(db: Db, q: Path, p: Path, client: ClientId)
    requires Consistent(db) && Lasting(db.clients, client) && SavedAs(db, q, client, p)
    ensures exists c :: c in TreeChunks(db) && SubHere(c, p, client) && c.qos == SubAt(db.root, q, client).value
  {
    var c := Sub(client, NameOf(q), SubAt(db.root, q, client).value);
    TreeChunkIff(db, c);
    hide TreeChunks, Lasting, NameOf, FullPath;
    assert IsFullPath(q);
    assert RootSays(db, db.root, q, c);
    assert SubHere(c, p, client);
  }

  /** The slot at `q` holds a retained message of this topic. */
  predicate HoldsTopic(db: Db, q: Path, topic: string) {
    var v := RetainedAt(db.root, q);
    v.Some? && StoreOf(db.stores, v.value).Some? &&
    StoreOf(db.stores, v.value).value.topic == topic && StoreOf(db.stores, v.value).value.retain
  }

  lemma RetainChunkIff(db: Db, topic: string, id: StoreId)
    requires Consistent(db) && !Dollar(topic)
    ensures (exists c :: c in TreeChunks(db) && RetainHere(Rebuilt(db.stores), c, FullPath(topic)) &&
                         c.store == id) <==>
            exists q :: HoldsTopic(db, q, topic) && RetainedAt(db.root, q) == Some(id)
  {
    var stores := Rebuilt(db.stores);
    if c :| c in TreeChunks(db) && RetainHere(stores, c, FullPath(topic)) && c.store == id {
      TreeChunkIff(db, c);
      var r :| RootSays(db, db.root, r, c);
      hide TreeChunks, Rebuilt;
      assert RetainedAt(db.root, r) == Some(id);
      RebuiltOf(db.stores, id);
      SpelledFullPath(topic);
      SpelledFullPath(StoreOf(stores, id).value.topic);
      assert HoldsTopic(db, r, topic);
    }
    if q :| HoldsTopic(db, q, topic) && RetainedAt(db.root, q) == Some(id) {
      var c := Retain(id);
      assert !Sys(topic);
      assert RootSays(db, db.root, q, c);
      TreeChunkIff(db, c);
      hide TreeChunks, Rebuilt;
      RebuiltOf(db.stores, id);
      assert RetainHere(stores, c, FullPath(topic));
    }
  }

  /** The subscriptions of a client that has a lasting session come back under
      the names they were saved with; those of all others are gone. */
  ghost predicate SubBack(db: Db, r: Db, p: Path, client: ClientId) {
    var now := SubAt(r.root, p, client);
    if !Lasting(db.clients, client) then now == None
    else
      (now.Some? <==> exists q :: SavedAs(db, q, client, p)) &&
      (now.Some? ==> exists q :: SavedAs(db, q, client, p) && SubAt(db.root, q, client) == now)
  }

  /** A filter that starts with neither a slash nor a dollar sign stays a filter
      of its client, and keeps its QoS if no other one is saved under its name. */
  ghost predicate PlainBack(db: Db, r: Db, filter: string, client: ClientId) {
    var p := FullPath(filter);
    var was, now := SubAt(db.root, p, client), SubAt(r.root, p, client);
    Lasting(db.clients, client) ==>
      (was.Some? ==> now.Some?) && ((forall q :: SavedAs(db, q, client, p) ==> q == p) ==> now == was)
  }

  /** The slots of a topic that does not start with a dollar sign: what is kept
      in some slot as a retained message of the topic comes back in its own. */
  ghost predicate TopicBack(db: Db, r: Db, topic: string) {
    var now := RetainedAt(r.root, FullPath(topic));
    (now.Some? <==> exists q :: HoldsTopic(db, q, topic)) &&
    (now.Some? ==> exists q :: HoldsTopic(db, q, topic) && RetainedAt(db.root, q) == now)
  }

  /** The entries of the lasting queues that point at a message. */
  function Waiting(db: Db, id: StoreId): nat {
    CountOf(QueueOf(Survivors(db.clients)), id)
  }

  /** The slots that are set after the first `n` chunks of the tree. */
  function SlotsAfter(db: Db, n: nat): map<Path, StoreId>
    requires n <= |TreeChunks(db)|
  {
    Slots(Rebuilt(db.stores), TreeChunks(db)[..n])
  }

  /** Saved for some slot. */
  ghost predicate Kept(db: Db, id: StoreId) {
    StoreOf(db.stores, id).Some? && !Sys(StoreOf(db.stores, id).value.topic) &&
    exists p :: p != [] && RetainedAt(db.root, p) == Some(id)
  }

  /** Lost on the way: saved for a slot, waiting in no lasting queue, and in no
      slot any more. */
  ghost function Lost(db: Db, r: Db): set<StoreId> {
    set s | s in db.stores && Kept(db, s.id) && Waiting(db, s.id) == 0 &&
            (forall p :: RetainedAt(r.root, p) != Some(s.id)) :: s.id
  }

  /** What a restored backup must give back: all messages but the lost, each
      with the number of pointers at it, and what the tree held. */
  ghost predicate GivesBack(db: Db, r: Loading) {
    r.db.lastDbId == db.lastDbId && r.db.clients == Survivors(db.clients) &&
    r.db.stores == Living(Rebuilt(db.stores), Lost(db, r.db)) && Exact(r, SlotsAfter(db, |TreeChunks(db)|)) &&
    (forall p, c :: SubBack(db, r.db, p, c)) &&
    (forall filter, c :: Plain(filter) ==> PlainBack(db, r.db, filter, c)) &&
    forall topic :: !Dollar(topic) ==> TopicBack(db, r.db, topic)
  }

  /** These are the slots, and every count is that of queue entries and slots. */
  ghost predicate Exact(r: Loading, slots: map<Path, StoreId>) {
    (forall p :: RetainedAt(r.db.root, p) == At(slots, p)) &&
    forall id :: Count(r.refs, id) == CountOf(QueueOf(r.db.clients), id) + |Holders(slots, id)|
  }

  /** A message that is saved for two slots must, when it is named again, wait in
      a lasting queue or be in a slot that is set: otherwise it is freed by then. */
  predicate Loadable(db: Db) {
    var chunks := TreeChunks(db);
    forall k :: 0 <= k < |chunks| && chunks[k].Retain? && chunks[k] in chunks[..k] ==>
      Waiting(db, chunks[k].store) > 0 || Holders(SlotsAfter(db, k), chunks[k].store) != {}
  }

  // ------------------------------------------------- everything but the tree

  /** Restored up to the tree. */
  function Flat(db: Db): Loading {
    Loading(Db(db.lastDbId, Rebuilt(db.stores), Survivors(db.clients), BLANK.db.root),
            GrabAll(map[], QueueOf(Survivors(db.clients))))
  }

  lemma LinearBack(db: Db, shutdown: bool)
    requires Consistent(db)
    ensures Restore(BLANK, [Cfg(shutdown, db.lastDbId)] + StoreChunks(db.stores) + ClientChunks(db.clients)) ==
            Some(Flat(db))
  {
    var l1 := BLANK.(db := BLANK.db.(lastDbId := db.lastDbId));
    var l2 := l1.(db := l1.db.(stores := Rebuilt(db.stores)));
    var first := [Cfg(shutdown, db.lastDbId)];
    assert first[1..] == [];
    assert Restore(BLANK, first) == Restore(l1, first[1..]) == Some(l1);
    StoresBack(l1, db.stores);
    assert Rebuilt(db.stores) + [] == Rebuilt(db.stores);
    RestoreBoth(BLANK, first, l1, StoreChunks(db.stores), l2);
    forall c | c in db.clients ensures SessionFine(l2.db.stores, c) {
      forall m | m in c.msgs ensures StoreOf(l2.db.stores, m.store).Some? { RebuiltOf(db.stores, m.store); }
    }
    ClientsBack(l2, db.clients);
    assert [] + Survivors(db.clients) == Survivors(db.clients);
    RestoreBoth(BLANK, first + StoreChunks(db.stores), l2, ClientChunks(db.clients), Flat(db));
  }

  lemma FlatBegun(db: Db)
    requires Consistent(db)
    ensures Begun(Flat(db))
  {
    RebuiltDistinct(db.stores);
    var msgs := QueueOf(Survivors(db.clients));
    forall id ensures Count(GrabAll(map[], msgs), id) == CountOf(msgs, id) { GrabAllCounts(map[], msgs, id); }
  }

  lemma LoadableIs(db: Db)
    requires Consistent(db)
    ensures Loadable(db) <==> Readable(Flat(db), TreeChunks(db))
  {
    var d, chunks := Flat(db), TreeChunks(db);
    TreeFine(db);
    hide TreeChunks, Slots, Rebuilt, Holders, CountOf, QueueOf, Survivors;
    forall k | 0 <= k < |chunks| && chunks[k].Retain?
      ensures chunks[k].store in Freed(d, chunks[..k]) <==>
              chunks[k] in chunks[..k] && Waiting(db, chunks[k].store) == 0 &&
              Holders(SlotsAfter(db, k), chunks[k].store) == {}
    {
      assert ChunkFine(d.db.stores, d.db.clients, chunks[k]);
      var i := StoreOfIs(d.db.stores, chunks[k].store);
      assert d.db.stores[i] in d.db.stores && chunks[k] == Retain(chunks[k].store);
      assert |Holders(SlotsAfter(db, k), chunks[k].store)| == 0 <==>
             Holders(SlotsAfter(db, k), chunks[k].store) == {};
    }
  }

  // ------------------------------------------------------------ the round trip

  lemma Regrown(db: Db, shutdown: bool)
    requires Consistent(db)
    ensures Restore(BLANK, Backup(db, shutdown)).Some? <==> Loadable(db)
    ensures Loadable(db) ==> Grown(Flat(db), TreeChunks(db), Restore(BLANK, Backup(db, shutdown)).value)
  {
    LinearBack(db, shutdown);
    TreeFine(db);
    FlatBegun(db);
    LoadableIs(db);
    AllGrow(Flat(db), TreeChunks(db));
    hide Restore, ForestChunks, StoreChunks, ClientChunks, AllFine, Consistent, Grown, Loadable;
    RestoreConcat(BLANK, [Cfg(shutdown, db.lastDbId)] + StoreChunks(db.stores) + ClientChunks(db.clients),
                  TreeChunks(db));
  }

  /** Backup and restore. It succeeds unless a message is freed on the way and
      named again; then the stored messages, the lasting sessions with their
      queues, their subscriptions under the names they were saved with, and the
      retained messages outside the topics that start with a dollar sign come
      back, but for the messages that are lost. */
  lemma Restored(db: Db, shutdown: bool)
    requires Consistent(db)
    ensures Restore(BLANK, Backup(db, shutdown)).Some? <==> Loadable(db)
    ensures Loadable(db) ==> GivesBack(db, Restore(BLANK, Backup(db, shutdown)).value)
  {
    Regrown(db, shutdown);
    if Loadable(db) {
      var r := Restore(BLANK, Backup(db, shutdown)).value;
      LostIs(db, r);
      hide Restore, Consistent, Loadable, Lost, Grown;
      forall p, c ensures SubBack(db, r.db, p, c) { SubComesBack(db, r, p, c); }
      forall filter, c | Plain(filter) ensures PlainBack(db, r.db, filter, c) { PlainComesBack(db, r, filter, c); }
      forall topic | !Dollar(topic) ensures TopicBack(db, r.db, topic) { TopicComesBack(db, r, topic); }
    }
  }

  lemma LostIs(db: Db, r: Loading)
    requires Consistent(db) && Grown(Flat(db), TreeChunks(db), r)
    ensures r.db.lastDbId == db.lastDbId && r.db.clients == Survivors(db.clients)
    ensures r.db.stores == Living(Rebuilt(db.stores), Lost(db, r.db)) && Exact(r, SlotsAfter(db, |TreeChunks(db)|))
  {
    var d, chunks, stores := Flat(db), TreeChunks(db), Rebuilt(db.stores);
    assert chunks[..|chunks|] == chunks;
    hide TreeChunks, Slots, CountOf, QueueOf, Survivors, Consistent, Freed, Lost;
    forall s | s in stores ensures s.id in Freed(d, chunks) <==> s.id in Lost(db, r.db) { LostOne(db, r, s); }
    SameLiving(stores, Freed(d, chunks), Lost(db, r.db));
  }

  lemma LostOne(db: Db, r: Loading, s: Store)
    requires Consistent(db) && Grown(Flat(db), TreeChunks(db), r) && s in Rebuilt(db.stores)
    ensures s.id in Freed(Flat(db), TreeChunks(db)) <==> s.id in Lost(db, r.db)
  {
    var d, chunks := Flat(db), TreeChunks(db);
    var slots := Slots(Rebuilt(db.stores), chunks);
    SavedFrom(db.stores, s);
    TreeChunkIff(db, Retain(s.id));
    KeptIs(db, s.id);
    SomeHolder(r.db.root, slots, s.id);
    hide TreeChunks, Slots, CountOf, QueueOf, Survivors, Rebuilt, Holders, Kept, RetainedAt, DistinctIds, WellFormed;
    assert Waiting(db, s.id) + |Holders(slots, s.id)| == Pointers(d, chunks, s.id);
  }

  lemma SavedFrom(stores: seq<Store>, s: Store)
    requires DistinctIds(stores) && s in Rebuilt(stores)
    ensures exists e :: e in stores && e.id == s.id
  {
    var r := Rebuilt(stores);
    var i :| 0 <= i < |r| && r[i] == s;
    assert stores[|stores| - 1 - i].id == s.id;
  }

  lemma SomeHolder(root: Hier, slots: map<Path, StoreId>, id: StoreId)
    requires forall p :: RetainedAt(root, p) == At(slots, p)
    ensures |Holders(slots, id)| == 0 <==> forall p :: RetainedAt(root, p) != Some(id)
  {
    hide RetainedAt;
    if p :| RetainedAt(root, p) == Some(id) { assert p in Holders(slots, id); }
    if |Holders(slots, id)| > 0 {
      var p :| p in Holders(slots, id);
      assert RetainedAt(root, p) == Some(id);
    }
  }

  lemma KeptIs(db: Db, id: StoreId)
    ensures Kept(db, id) <==> exists p :: RootSays(db, db.root, p, Retain(id))
  {
    if p :| RootSays(db, db.root, p, Retain(id)) { assert RetainedAt(db.root, p) == Some(id); }
    if Kept(db, id) {
      var p :| p != [] && RetainedAt(db.root, p) == Some(id);
      assert RootSays(db, db.root, p, Retain(id));
    }
  }

  lemma SubComesBack(db: Db, r: Loading, p: Path, client: ClientId)
    requires Consistent(db) && Grown(Flat(db), TreeChunks(db), r)
    ensures SubBack(db, r.db, p, client)
  {
    var now := SubAt(r.db.root, p, client);
    assert now == LastSub(TreeChunks(db), p, client);
    LastSubIs(TreeChunks(db), p, client);
    hide LastSub, TreeChunks, Consistent, SubHere, Lasting, Grown;
    if now.Some? {
      SubChunkIff(db, p, client, now.value);
    } else if Lasting(db.clients, client) {
      if q :| SavedAs(db, q, client, p) { SubChunkIff(db, p, client, SubAt(db.root, q, client).value); }
    }
  }

  lemma PlainComesBack(db: Db, r: Loading, filter: string, client: ClientId)
    requires Consistent(db) && Grown(Flat(db), TreeChunks(db), r) && Plain(filter)
    ensures PlainBack(db, r.db, filter, client)
  {
    SubComesBack(db, r, FullPath(filter), client);
    NameKept(filter);
    assert SubAt(db.root, FullPath(filter), client).Some? ==> SavedAs(db, FullPath(filter), client, FullPath(filter));
  }

  lemma TopicComesBack(db: Db, r: Loading, topic: string)
    requires Consistent(db) && Grown(Flat(db), TreeChunks(db), r) && !Dollar(topic)
    ensures TopicBack(db, r.db, topic)
  {
    var stores, chunks, p := Rebuilt(db.stores), TreeChunks(db), FullPath(topic);
    var now := RetainedAt(r.db.root, p);
    assert now == At(Slots(stores, chunks), p);
    SlotsAre(stores, chunks, p);
    TokensFirst(topic);
    hide Slots, TreeChunks, Consistent, RetainHere, Rebuilt, Grown;
    if now.Some? {
      RetainChunkIff(db, topic, now.value);
    } else {
      if q :| HoldsTopic(db, q, topic) { RetainChunkIff(db, topic, RetainedAt(db.root, q).value); }
    }
  }

  /** A retained message comes back in its slot exactly when it is a retained
      message of the topic of that slot, provided no other slot holds one. */
  lemma SlotBackIff(db: Db, shutdown: bool, topic: string)
    requires Consistent(db) && !Dollar(topic) && RetainedAt(db.root, FullPath(topic)).Some?
    requires forall q :: HoldsTopic(db, q, topic) ==> q == FullPath(topic)
    ensures Restore(BLANK, Backup(db, shutdown)).Some? <==> Loadable(db)
    ensures Loadable(db) ==>
              var now := RetainedAt(Restore(BLANK, Backup(db, shutdown)).value.db.root, FullPath(topic));
              ((now == RetainedAt(db.root, FullPath(topic))) <==> HoldsTopic(db, FullPath(topic), topic))
  {
    Restored(db, shutdown);
    hide Restore, Backup, Consistent, Loadable;
    if Loadable(db) {
      assert TopicBack(db, Restore(BLANK, Backup(db, shutdown)).value.db, topic);
    }
  }

  // ------------------------------------------- named once, named by one slot

  /** No chunk of the list names the message again. */
  predicate Once(chunks: seq<Chunk>, id: StoreId) {
    forall j, k :: 0 <= j < k < |chunks| ==> !(chunks[j] == Retain(id) == chunks[k])
  }

  /** At most one node of the tree holds the message. */
  ghost predicate Single(h: Hier, id: StoreId) {
    forall p, q :: RetainedAt(h, p) == Some(id) == RetainedAt(h, q) ==> p == q
  }

  ghost predicate SingleIn(cs: seq<Hier>, id: StoreId) {
    forall i, j, p, q :: 0 <= i < |cs| && 0 <= j < |cs| && RetainedAt(cs[i], p) == Some(id) == RetainedAt(cs[j], q) ==>
      i == j && p == q
  }

  ghost predicate Holds(cs: seq<Hier>, id: StoreId) {
    exists i, p :: 0 <= i < |cs| && RetainedAt(cs[i], p) == Some(id)
  }

  lemma OnceConcat(a: seq<Chunk>, b: seq<Chunk>, id: StoreId)
    ensures Once(a + b, id) <==> Once(a, id) && Once(b, id) && !(Retain(id) in a && Retain(id) in b)
  {
    var all := a + b;
    if Retain(id) in a && Retain(id) in b {
      var j :| 0 <= j < |a| && a[j] == Retain(id);
      var k :| 0 <= k < |b| && b[k] == Retain(id);
      assert all[j] == Retain(id) == all[|a| + k];
    }
    if Once(all, id) {
      assert forall j :: 0 <= j < |a| ==> all[j] == a[j];
      forall j, k | 0 <= j < k < |b| ensures !(b[j] == Retain(id) == b[k]) {
        assert all[|a| + j] == b[j] && all[|a| + k] == b[k];
      }
    }
  }

  lemma {:induction false} NodeHolds(db: Db, name: string, h: Hier, id: StoreId)
    requires WellFormed(h) && StoreOf(db.stores, id).Some? && !Sys(StoreOf(db.stores, id).value.topic)
    ensures Retain(id) in NodeChunks(db, name, h) <==> exists p :: RetainedAt(h, p) == Some(id)
    ensures Once(NodeChunks(db, name, h), id) <==> Single(h, id)
    decreases h, 1
  {
    var here := Named(name, h.topic);
    var leaves, mine, below := LeafChunks(db, here, h.subs), RetainChunks(db, h.retained),
                               ForestChunks(db, here, h.children);
    LeafChunk(db, here, h.subs, Retain(id));
    ForestHolds(db, here, h.children, id);
    OnceConcat(leaves, mine, id);
    OnceConcat(leaves + mine, below, id);
    assert Retain(id) in mine <==> h.retained == Some(id);
    assert Once(leaves, id) by { assert forall j :: 0 <= j < |leaves| ==> leaves[j] in leaves; }
    BelowHolds(h, id);
    hide LeafChunks, RetainChunks, ForestChunks, Once, RetainedAt, Single, SingleIn, Holds;
  }

  lemma {:induction false} ForestHolds(db: Db, name: string, cs: seq<Hier>, id: StoreId)
    requires forall i :: 0 <= i < |cs| ==> WellFormed(cs[i])
    requires StoreOf(db.stores, id).Some? && !Sys(StoreOf(db.stores, id).value.topic)
    ensures Retain(id) in ForestChunks(db, name, cs) <==> Holds(cs, id)
    ensures Once(ForestChunks(db, name, cs), id) <==> SingleIn(cs, id)
    decreases cs, 0
  {
    if cs != [] {
      NodeHolds(db, name, cs[0], id);
      ForestHolds(db, name, cs[1..], id);
      OnceConcat(NodeChunks(db, name, cs[0]), ForestChunks(db, name, cs[1..]), id);
      HoldsSplit(cs, id);
      hide NodeChunks, Once, RetainedAt, Single, SingleIn, Holds, WellFormed;
    }
  }

  lemma HoldsSplit(cs: seq<Hier>, id: StoreId)
    requires cs != []
    ensures Holds(cs, id) <==> (exists p :: RetainedAt(cs[0], p) == Some(id)) || Holds(cs[1..], id)
    ensures SingleIn(cs, id) <==>
            Single(cs[0], id) && SingleIn(cs[1..], id) &&
            !((exists p :: RetainedAt(cs[0], p) == Some(id)) && Holds(cs[1..], id))
  {
    hide RetainedAt;
    var rest := cs[1..];
    assert forall i :: 0 <= i < |rest| ==> rest[i] == cs[i + 1];
    assert forall i :: 1 <= i < |cs| ==> rest[i - 1] == cs[i];
  }

  lemma Upwards(h: Hier, i: nat, p: Path)
    requires WellFormed(h) && i < |h.children|
    ensures RetainedAt(h, [h.children[i].topic] + p) == RetainedAt(h.children[i], p)
    ensures IndexOf(h.children, h.children[i].topic) == i
  {
    ChildUnique(h.children, i);
    AtChild(h, [h.children[i].topic] + p, "");
    assert ([h.children[i].topic] + p)[1..] == p;
  }

  lemma Downwards(h: Hier, p: Path)
    ensures RetainedAt(h, p) == if p == [] then h.retained
            else if IndexOf(h.children, p[0]) < |h.children|
            then RetainedAt(h.children[IndexOf(h.children, p[0])], p[1..]) else None
  {
    if p != [] { AtChild(h, p, ""); }
  }

  lemma SinglePassesDown(h: Hier, id: StoreId)
    requires WellFormed(h) && Single(h, id)
    ensures SingleIn(h.children, id) && !(h.retained == Some(id) && Holds(h.children, id))
  {
    hide RetainedAt, WellFormed;
    var cs := h.children;
    Downwards(h, []);
    forall i, j, p, q | 0 <= i < |cs| && 0 <= j < |cs| && RetainedAt(cs[i], p) == Some(id) == RetainedAt(cs[j], q)
      ensures i == j && p == q && h.retained != Some(id)
    {
      Upwards(h, i, p);
      Upwards(h, j, q);
      var one, two := [cs[i].topic] + p, [cs[j].topic] + q;
      assert one == two && one != [] && one[1..] == p && two[1..] == q && one[0] == two[0];
    }
  }

  lemma SingleComesUp(h: Hier, id: StoreId)
    requires WellFormed(h) && SingleIn(h.children, id) && !(h.retained == Some(id) && Holds(h.children, id))
    ensures Single(h, id)
  {
    hide RetainedAt, WellFormed;
    forall p, q | RetainedAt(h, p) == Some(id) == RetainedAt(h, q) ensures p == q {
      Downwards(h, p);
      Downwards(h, q);
      if p != [] && q != [] {
        assert p == [p[0]] + p[1..] && q == [q[0]] + q[1..];
      }
    }
  }

  lemma BelowHolds(h: Hier, id: StoreId)
    requires WellFormed(h)
    ensures (exists p :: RetainedAt(h, p) == Some(id)) <==> h.retained == Some(id) || Holds(h.children, id)
    ensures Single(h, id) <==> SingleIn(h.children, id) && !(h.retained == Some(id) && Holds(h.children, id))
  {
    if Single(h, id) { SinglePassesDown(h, id); }
    if SingleIn(h.children, id) && !(h.retained == Some(id) && Holds(h.children, id)) { SingleComesUp(h, id); }
    hide RetainedAt, WellFormed, Single, SingleIn;
    Downwards(h, []);
    if p :| RetainedAt(h, p) == Some(id) { Downwards(h, p); }
    if i, p :| 0 <= i < |h.children| && RetainedAt(h.children[i], p) == Some(id) { Upwards(h, i, p); }
  }

  lemma OnceIff(db: Db, id: StoreId)
    requires Consistent(db) && StoreOf(db.stores, id).Some? && !Sys(StoreOf(db.stores, id).value.topic)
    ensures Once(TreeChunks(db), id) <==> SingleIn(db.root.children, id)
  {
    ForestHolds(db, "", db.root.children, id);
  }

  /** A message is held by one slot at most. */
  ghost predicate OneSlotEach(db: Db) {
    forall p, q :: RetainedAt(db.root, p).Some? && RetainedAt(db.root, p) == RetainedAt(db.root, q) ==> p == q
  }

  /** Then the backup can be restored. */
  lemma OneSlotEachLoads(db: Db)
    requires Consistent(db) && OneSlotEach(db)
    ensures Loadable(db)
  {
    var chunks := TreeChunks(db);
    TreeFine(db);
    hide TreeChunks, Rebuilt, Slots;
    forall k | 0 <= k < |chunks| && chunks[k].Retain? ensures chunks[k] !in chunks[..k] {
      var id := chunks[k].store;
      assert ChunkFine(Rebuilt(db.stores), Survivors(db.clients), chunks[k]);
      TreeChunkIff(db, chunks[k]);
      BelowHolds(db.root, id);
      assert Single(db.root, id);
      OnceIff(db, id);
      assert Once(chunks, id);
    }
  }

  lemma NamedTwice(db: Db, p: Path, q: Path, id: StoreId) returns (k: nat)
    requires Consistent(db) && StoreOf(db.stores, id).Some? && !Sys(StoreOf(db.stores, id).value.topic)
    requires p != q && RetainedAt(db.root, p) == Some(id) == RetainedAt(db.root, q)
    ensures k < |TreeChunks(db)| && TreeChunks(db)[k] == Retain(id) && Retain(id) in TreeChunks(db)[..k]
  {
    var chunks := TreeChunks(db);
    OnceIff(db, id);
    BelowHolds(db.root, id);
    assert RetainedAt(db.root, []) == db.root.retained;
    hide TreeChunks, RetainedAt, SingleIn, RetainedFine, WellFormed, SubAt;
    assert !Once(chunks, id);
    var j :| 0 <= j < |chunks| && exists i :: j < i < |chunks| && chunks[j] == Retain(id) == chunks[i];
    k :| j < k < |chunks| && chunks[j] == Retain(id) == chunks[k];
    assert chunks[..k][j] == chunks[j];
  }

  /** A message that was not sent as retained, is held by two slots and waits in
      no lasting queue: its second chunk names it when it has been freed. */
  lemma HeldTwiceFails(db: Db, shutdown: bool, p: Path, q: Path, id: StoreId)
    requires Consistent(db) && StoreOf(db.stores, id).Some? && Waiting(db, id) == 0
    requires var s := StoreOf(db.stores, id).value; !s.retain && !Sys(s.topic)
    requires p != q && RetainedAt(db.root, p) == Some(id) == RetainedAt(db.root, q)
    ensures Restore(BLANK, Backup(db, shutdown)) == None
  {
    Restored(db, shutdown);
    var k := NamedTwice(db, p, q, id);
    RebuiltOf(db.stores, id);
    hide TreeChunks, Rebuilt, Slots, Restore, Backup, Consistent, GivesBack, Waiting;
    forall r ensures r !in Holders(SlotsAfter(db, k), id) { SlotsAre(Rebuilt(db.stores), TreeChunks(db)[..k], r); }
    assert Holders(SlotsAfter(db, k), id) == {};
  }

  /** The top-level nodes that stand again are the two that always do and those
      below which a lasting client is subscribed. */
  lemma {:induction false} TopsAre(chunks: seq<Chunk>, top: string)
    ensures top in Tops(chunks) <==>
            top == "" || top == "$SYS" || exists c :: c in chunks && c.Sub? && Tokens(c.filter)[0] == top
  {
    if chunks != [] {
      var before, last := chunks[..|chunks| - 1], chunks[|chunks| - 1];
      TopsAre(before, top);
      assert forall c :: c in chunks <==> c == last || c in before;
    }
  }

  /** Below another node that starts with a dollar sign a retained message comes
      back only if some lasting client is subscribed there. */
  lemma DollarLost(db: Db, shutdown: bool, topic: string)
    requires Consistent(db) && Loadable(db) && Dollar(topic) && Tokens(topic)[0] != "$SYS"
    requires forall q, k :: SubAt(db.root, q, k).Some? && Lasting(db.clients, k) ==>
                              Tokens(NameOf(q))[0] != Tokens(topic)[0]
    ensures Restore(BLANK, Backup(db, shutdown)).Some?
    ensures RetainedAt(Restore(BLANK, Backup(db, shutdown)).value.db.root, FullPath(topic)) == None
  {
    var chunks, top := TreeChunks(db), Tokens(topic)[0];
    Restored(db, shutdown);
    assert chunks[..|chunks|] == chunks;
    TopsAre(chunks, top);
    TokensFirst(topic);
    hide TreeChunks, Rebuilt, Slots, Restore, Backup, Tokens;
    forall c | c in chunks && c.Sub? ensures Tokens(c.filter)[0] != top {
      TreeChunkIff(db, c);
      var q :| RootSays(db, db.root, q, c);
      assert SubAt(db.root, q, c.client) == Some(c.qos);
    }
    if FullPath(topic) in Slots(Rebuilt(db.stores), chunks) { SlotsStand(Rebuilt(db.stores), chunks, FullPath(topic)); }
  }

  // ------------------------------------------------------- a message is lost

  /** What is in a slot after a restore was sent as retained, on its topic. */
  lemma SlotsOwn(db: Db, shutdown: bool, p: Path, id: StoreId)
    requires Consistent(db) && Loadable(db)
    ensures Restore(BLANK, Backup(db, shutdown)).Some?
    ensures RetainedAt(Restore(BLANK, Backup(db, shutdown)).value.db.root, p) == Some(id) ==>
              StoreOf(db.stores, id).Some? && StoreOf(db.stores, id).value.retain &&
              p == FullPath(StoreOf(db.stores, id).value.topic)
  {
    var chunks, stores := TreeChunks(db), Rebuilt(db.stores);
    Restored(db, shutdown);
    assert chunks[..|chunks|] == chunks;
    SlotsAre(stores, chunks, p);
    hide TreeChunks, Slots, Restore, Backup, Rebuilt;
    if p in Slots(stores, chunks) {
      TreeFine(db);
      SlotsStand(stores, chunks, p);
      var c := Retain(Slots(stores, chunks)[p]);
      TreeChunkIff(db, c);
      var q :| RootSays(db, db.root, q, c);
      RebuiltOf(db.stores, c.store);
    }
  }

  /** Which messages come back: all but those saved for a slot, waiting in no
      lasting queue, and in no slot after the restore. */
  lemma StoreBackIff(db: Db, shutdown: bool, id: StoreId)
    requires Consistent(db) && Loadable(db) && StoreOf(db.stores, id).Some?
    ensures Restore(BLANK, Backup(db, shutdown)).Some?
    ensures var r := Restore(BLANK, Backup(db, shutdown)).value.db;
            StoreOf(r.stores, id).Some? <==>
            !Kept(db, id) || Waiting(db, id) > 0 || exists p :: RetainedAt(r.root, p) == Some(id)
  {
    Restored(db, shutdown);
    var r := Restore(BLANK, Backup(db, shutdown)).value.db;
    hide Restore, Backup, Consistent, Waiting, Kept, RetainedAt;
    var i := StoreOfIs(db.stores, id);
    StoreOfLiving(Rebuilt(db.stores), Lost(db, r), id);
    RebuiltOf(db.stores, id);
  }

  /** A message that comes back is what was saved, but that its outgoing id is
      gone and that a `$SYS` message is no longer marked as retained. */
  lemma ContentBack(db: Db, shutdown: bool, id: StoreId)
    requires Consistent(db) && Loadable(db)
    ensures Restore(BLANK, Backup(db, shutdown)).Some?
    ensures var r := Restore(BLANK, Backup(db, shutdown)).value.db;
            StoreOf(r.stores, id).Some? ==>
              StoreOf(db.stores, id).Some? &&
              var s, now := StoreOf(db.stores, id).value, StoreOf(r.stores, id).value;
              now.source == s.source && now.sourceMid == s.sourceMid && now.mid == 0 && now.topic == s.topic &&
              now.qos == s.qos && now.retain == (s.retain && !("$SYS" <= s.topic)) && now.payload == s.payload
  {
    Restored(db, shutdown);
    var r := Restore(BLANK, Backup(db, shutdown)).value.db;
    hide Restore, Backup, Loadable, Exact, SubBack, PlainBack, TopicBack, Lost;
    StoreOfLiving(Rebuilt(db.stores), Lost(db, r), id);
    if StoreOf(r.stores, id).Some? {
      hide Consistent;
      RebuiltHas(db.stores, id);
      RebuiltOf(db.stores, id);
    }
  }

  lemma {:induction false} RebuiltHas(stores: seq<Store>, id: StoreId)
    requires StoreOf(Rebuilt(stores), id).Some?
    ensures StoreOf(stores, id).Some?
  {
    if stores != [] {
      var a, b := Rebuilt(stores[1..]), Saved(stores[0]).(mid := 0);
      StoreOfEnd(a, b, id);
      if StoreOf(a, id).Some? { RebuiltHas(stores[1..], id); }
    }
  }

  lemma {:induction false} StoreOfEnd(a: seq<Store>, b: Store, id: StoreId)
    ensures StoreOf(a + [b], id) == if StoreOf(a, id).Some? then StoreOf(a, id) else if b.id == id then Some(b)
            else None
  {
    if a == [] {
      assert a + [b] == [b] && [b][1..] == [];
    } else {
      assert (a + [b])[1..] == a[1..] + [b];
      StoreOfEnd(a[1..], b, id);
    }
  }

  /** Exactly the lasting sessions come back, each with its id, its last message id
      and its queue as they were. */
  lemma SessionsBack(db: Db, shutdown: bool)
    requires Consistent(db) && Loadable(db)
    ensures Restore(BLANK, Backup(db, shutdown)).Some?
    ensures var r := Restore(BLANK, Backup(db, shutdown)).value.db;
            (forall c :: c in r.clients <==> c in db.clients && !c.clean) && r.lastDbId == db.lastDbId
  {
    Restored(db, shutdown);
    hide Restore, Backup, Loadable, Exact, SubBack, PlainBack, TopicBack, Lost, Consistent, Living;
    SurvivorsIff(db.clients);
  }

  lemma {:induction false} SurvivorsIff(clients: seq<Session>)
    ensures forall c :: c in Survivors(clients) <==> c in clients && !c.clean
  {
    if clients != [] {
      SurvivorsIff(clients[1..]);
      assert forall c :: c in clients <==> c == clients[0] || c in clients[1..];
    }
  }

  /** A chunk for a retained message sets the slot of its topic, if the message was
      sent as retained and the top-level node stands, to the message, or to nothing
      if it is empty; no other slot changes. */
  lemma SlotChunk(l: Loading, id: StoreId, p: Path)
    requires WellFormed(l.db.root) && StoreOf(l.db.stores, id).Some? && NoWild(StoreOf(l.db.stores, id).value.topic)
    ensures var s, r := StoreOf(l.db.stores, id).value, RestoreChunk(l, Retain(id));
            r.Some? &&
            RetainedAt(r.value.db.root, p) ==
            if s.retain && p == FullPath(s.topic) && Child(l.db.root.children, Tokens(s.topic)[0]).Some?
            then (if s.payload != "" then Some(id) else None) else RetainedAt(l.db.root, p)
  {
    var s := StoreOf(l.db.stores, id).value;
    var i := StoreOfIs(l.db.stores, id);
    FullPathWildFree(s.topic);
    RetainTopEffect(l.db.root, Tokens(s.topic), if s.payload != "" then Some(s.id) else None, p, "");
    hide RetainTop, RetainedAt, FullPath, Tokens, Child, WellFormed, StoreOf;
  }
}
