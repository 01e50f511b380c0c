/** Restoring the tree, chunk by chunk: the filters, the slots and the messages
    that are left, as flat tables say. */
module PersistLoad {
  import opened Common
  import opened Topics
  import opened SubTree
  import opened Subscriptions
  import opened Persist
  import BrokerRuns

  // -------------------------------------------------- what the chunks say

  predicate ChunkFine(stores: seq<Store>, clients: seq<Session>, c: Chunk) {
    match c
    case Sub(client, filter, _) => ValidLevels(Tokens(filter)) && IndexOfClient(clients, client) < |clients|
    case Retain(id) =>
      StoreOf(stores, id).Some? && StoreOf(stores, id).value.payload != "" && NoWild(StoreOf(stores, id).value.topic)
    case _ => false
  }

  predicate AllFine(stores: seq<Store>, clients: seq<Session>, chunks: seq<Chunk>) {
    forall c :: c in chunks ==> ChunkFine(stores, clients, c)
  }

  predicate SubHere(c: Chunk, p: Path, client: ClientId) {
    c.Sub? && c.client == client && FullPath(c.filter) == p
  }

  predicate RetainHere(stores: seq<Store>, c: Chunk, p: Path) {
    c.Retain? && StoreOf(stores, c.store).Some? &&
    StoreOf(stores, c.store).value.retain && FullPath(StoreOf(stores, c.store).value.topic) == p
  }

  /** The top-level nodes that stand: two that always do, and those below which
      a client is subscribed again. */
  function Tops(chunks: seq<Chunk>): set<string> {
    if chunks == [] then {"", "$SYS"}
    else
      var c := chunks[|chunks| - 1];
      Tops(chunks[..|chunks| - 1]) + if c.Sub? then {Tokens(c.filter)[0]} else {}
  }

  /** What the last chunk about a client and a path says. */
  function LastSub(chunks: seq<Chunk>, p: Path, client: ClientId): Option<nat> {
    if chunks == [] then None
    else
      var c := chunks[|chunks| - 1];
      if SubHere(c, p, client) then Some(c.qos) else LastSub(chunks[..|chunks| - 1], p, client)
  }

  /** The slot a chunk is about. */
  function SlotOf(stores: seq<Store>, c: Chunk): (p: Path)
    ensures p != []
  {
    FullPath(if c.Retain? && StoreOf(stores, c.store).Some? then StoreOf(stores, c.store).value.topic else "")
  }

  /** A retained message takes the slot of its topic, if the top-level node of
      it stands by then. */
  predicate Sets(stores: seq<Store>, tops: set<string>, c: Chunk) {
    RetainHere(stores, c, SlotOf(stores, c)) && SlotOf(stores, c)[0] in tops
  }

  function SlotsNext(stores: seq<Store>, tops: set<string>, slots: map<Path, StoreId>, c: Chunk): map<Path, StoreId> {
    if Sets(stores, tops, c) then slots[SlotOf(stores, c) := c.store] else slots
  }

  /** The slots that are set. */
  function Slots(stores: seq<Store>, chunks: seq<Chunk>): map<Path, StoreId> {
    if chunks == [] then map[]
    else
      var before := chunks[..|chunks| - 1];
      SlotsNext(stores, Tops(before), Slots(stores, before), chunks[|chunks| - 1])
  }

  lemma TablesNext(stores: seq<Store>, chunks: seq<Chunk>, c: Chunk)
    ensures Tops(chunks + [c]) == Tops(chunks) + if c.Sub? then {Tokens(c.filter)[0]} else {}
    ensures Slots(stores, chunks + [c]) == SlotsNext(stores, Tops(chunks), Slots(stores, chunks), c)
    ensures forall p, client :: LastSub(chunks + [c], p, client) ==
                                if SubHere(c, p, client) then Some(c.qos) else LastSub(chunks, p, client)
  {
    assert (chunks + [c])[..|chunks|] == chunks;
  }

  function At(slots: map<Path, StoreId>, p: Path): Option<StoreId> {
    if p in slots then Some(slots[p]) else None
  }

  function Holders(slots: map<Path, StoreId>, id: StoreId): set<Path> {
    set p | p in slots && slots[p] == id
  }

  lemma {:induction false} LastSubIs(chunks: seq<Chunk>, p: Path, client: ClientId)
    ensures LastSub(chunks, p, client).Some? <==> exists c :: c in chunks && SubHere(c, p, client)
    ensures LastSub(chunks, p, client).Some? ==>
              exists c :: c in chunks && SubHere(c, p, client) && LastSub(chunks, p, client) == Some(c.qos)
  {
    if chunks != [] {
      var before, last := chunks[..|chunks| - 1], chunks[|chunks| - 1];
      LastSubIs(before, p, client);
      assert forall c :: c in chunks <==> c == last || c in before;
    }
  }

  lemma {:induction false} AlwaysTop(chunks: seq<Chunk>)
    ensures "" in Tops(chunks)
  {
    if chunks != [] { AlwaysTop(chunks[..|chunks| - 1]); }
  }

  /** What is in a slot was put there by a chunk; below the node that always
      stands, every chunk about a slot sets it. */
  lemma {:induction false} SlotsAre(stores: seq<Store>, chunks: seq<Chunk>, p: Path)
    ensures p in Slots(stores, chunks) ==>
              exists c :: c in chunks && RetainHere(stores, c, p) && c.store == Slots(stores, chunks)[p]
    ensures p != [] && p[0] == "" && (exists c :: c in chunks && RetainHere(stores, c, p)) ==>
              p in Slots(stores, chunks)
  {
    if chunks != [] {
      var before, last := chunks[..|chunks| - 1], chunks[|chunks| - 1];
      SlotsAre(stores, before, p);
      AlwaysTop(before);
      assert forall c :: c in chunks <==> c == last || c in before;
    }
  }

  // ----------------------------------------------------- the messages left

  function Living(stores: seq<Store>, gone: set<StoreId>): seq<Store> {
    if stores == [] then []
    else (if stores[0].id in gone then [] else [stores[0]]) + Living(stores[1..], gone)
  }

  lemma {:induction false} StoreOfLiving(stores: seq<Store>, gone: set<StoreId>, id: StoreId)
    ensures StoreOf(Living(stores, gone), id) == if id in gone then None else StoreOf(stores, id)
  {
    if stores != [] {
      StoreOfLiving(stores[1..], gone, id);
      if stores[0].id !in gone {
        assert Living(stores, gone)[1..] == Living(stores[1..], gone);
      } else {
        assert Living(stores, gone) == Living(stores[1..], gone);
      }
    }
  }

  lemma {:induction false} AllLiving(stores: seq<Store>, gone: set<StoreId>)
    requires forall s :: s in stores ==> s.id !in gone
    ensures Living(stores, gone) == stores
  {
    if stores != [] {
      assert stores[0] in stores && forall s :: s in stores[1..] ==> s in stores;
      AllLiving(stores[1..], gone);
    }
  }

  lemma {:induction false} SameLiving(stores: seq<Store>, a: set<StoreId>, b: set<StoreId>)
    requires forall s :: s in stores ==> (s.id in a <==> s.id in b)
    ensures Living(stores, a) == Living(stores, b)
  {
    if stores != [] {
      assert stores[0] in stores && forall s :: s in stores[1..] ==> s in stores;
      SameLiving(stores[1..], a, b);
    }
  }

  lemma {:induction false} WithoutLiving(stores: seq<Store>, gone: set<StoreId>, id: StoreId)
    requires DistinctIds(stores)
    ensures Without(Living(stores, gone), id) == Living(stores, gone + {id})
  {
    if stores != [] {
      var rest := stores[1..];
      WithoutLiving(rest, gone, id);
      if stores[0].id in gone {
        assert Living(stores, gone) == Living(rest, gone);
      } else {
        assert Living(stores, gone)[1..] == Living(rest, gone);
        if stores[0].id == id {
          assert forall s :: s in rest ==> s.id != id;
          SameLiving(rest, gone, gone + {id});
        }
      }
    }
  }

  // ------------------------------------------------------- the tree grows

  predicate Standing(root: Hier) {
    WellFormed(root) && root.topic == "" && Child(root.children, "").Some?
  }

  function GrowOne(stores: seq<Store>, root: Hier, c: Chunk): Hier
    requires c.Sub? || (c.Retain? && StoreOf(stores, c.store).Some?)
  {
    match c
    case Sub(client, filter, qos) => AddTop(root, Tokens(filter), Some(client), qos)
    case Retain(id) =>
      var s := StoreOf(stores, id).value;
      if s.retain then RetainTop(root, Tokens(s.topic), Some(id)) else root
  }

  lemma GrowKeeps(stores: seq<Store>, clients: seq<Session>, root: Hier, c: Chunk, top: string)
    requires ChunkFine(stores, clients, c) && Standing(root)
    ensures Standing(GrowOne(stores, root, c))
    ensures Child(GrowOne(stores, root, c).children, top).Some? <==>
            Child(root.children, top).Some? || (c.Sub? && Tokens(c.filter)[0] == top)
  {
    match c
    case Sub(client, filter, qos) =>
      TokensFirst(filter);
      DollarLevel(Tokens(filter));
      AddTopWellFormed(root, Tokens(filter), Some(client), qos);
      AddTopChild(root, Tokens(filter), Some(client), qos, "");
      AddTopChild(root, Tokens(filter), Some(client), qos, top);
    case Retain(id) =>
      var topic := StoreOf(stores, id).value.topic;
      FullPathWildFree(topic);
      RetainTopWellFormed(root, Tokens(topic), Some(id));
      RetainTopChild(root, Tokens(topic), Some(id), "");
      RetainTopChild(root, Tokens(topic), Some(id), top);
  }

  lemma GrowTells(stores: seq<Store>, clients: seq<Session>, root: Hier, c: Chunk, p: Path, client: ClientId)
    requires ChunkFine(stores, clients, c) && Standing(root)
    ensures SubAt(GrowOne(stores, root, c), p, client) ==
            if SubHere(c, p, client) then Some(c.qos) else SubAt(root, p, client)
    ensures RetainedAt(GrowOne(stores, root, c), p) ==
            if RetainHere(stores, c, p) && Child(root.children, p[0]).Some? then Some(c.store) else RetainedAt(root, p)
  {
    match c
    case Sub(k, filter, qos) => AddTopEffect(root, Tokens(filter), Some(k), qos, p, client);
    case Retain(id) =>
      var topic := StoreOf(stores, id).value.topic;
      FullPathWildFree(topic);
      RetainTopEffect(root, Tokens(topic), Some(id), p, client);
  }

  // ---------------------------------------------------- counting while growing

  /** Before the tree: every reference counted is that of a queue entry. */
  ghost predicate Begun(d: Loading) {
    DistinctIds(d.db.stores) && d.db.root == BrokerRuns.OPENED.root &&
    forall id :: Count(d.refs, id) == CountOf(QueueOf(d.db.clients), id)
  }

  /** The pointers at a message: queue entries and slots. */
  function Pointers(d: Loading, chunks: seq<Chunk>, id: StoreId): nat {
    CountOf(QueueOf(d.db.clients), id) + |Holders(Slots(d.db.stores, chunks), id)|
  }

  /** Freed: named by a chunk, and nothing points at it. */
  function Freed(d: Loading, chunks: seq<Chunk>): set<StoreId> {
    set s | s in d.db.stores && Retain(s.id) in chunks && Pointers(d, chunks, s.id) == 0 :: s.id
  }

  ghost predicate TreeTells(d: Loading, chunks: seq<Chunk>, root: Hier) {
    Standing(root) && (forall t :: Child(root.children, t).Some? <==> t in Tops(chunks)) &&
    (forall p, c :: SubAt(root, p, c) == LastSub(chunks, p, c)) &&
    forall p :: RetainedAt(root, p) == At(Slots(d.db.stores, chunks), p)
  }

  /** After these chunks: the tree is as the tables say, every count is exact,
      and of the messages only the freed are missing. */
  ghost predicate Grown(d: Loading, chunks: seq<Chunk>, r: Loading) {
    r.db.lastDbId == d.db.lastDbId && r.db.clients == d.db.clients && TreeTells(d, chunks, r.db.root) &&
    (forall id :: Count(r.refs, id) == Pointers(d, chunks, id)) &&
    r.db.stores == Living(d.db.stores, Freed(d, chunks))
  }

  lemma Begins(d: Loading)
    requires Begun(d)
    ensures Grown(d, [], d)
  {
    var slots := Slots(d.db.stores, []);
    forall t ensures Child(d.db.root.children, t).Some? <==> t in Tops([]) { BrokerRuns.OpenedTops(t); }
    forall p, c ensures SubAt(d.db.root, p, c) == None { BrokerRuns.OpenedEmpty(p, c); }
    forall p ensures RetainedAt(d.db.root, p) == At(slots, p) { BrokerRuns.OpenedEmpty(p, ""); }
    assert WellFormed(NewHier("")) && WellFormed(NewHier("$SYS"));
    AllLiving(d.db.stores, Freed(d, []));
    assert forall id :: Holders(slots, id) == {};
  }

  lemma TreeNext(d: Loading, chunks: seq<Chunk>, root: Hier, c: Chunk)
    requires TreeTells(d, chunks, root) && ChunkFine(d.db.stores, d.db.clients, c)
    ensures TreeTells(d, chunks + [c], GrowOne(d.db.stores, root, c))
  {
    var stores, all, root' := d.db.stores, chunks + [c], GrowOne(d.db.stores, root, c);
    TablesNext(stores, chunks, c);
    GrowKeeps(stores, d.db.clients, root, c, "");
    hide Slots, Tops, LastSub, Standing, ChunkFine, GrowOne, SubAt, RetainedAt, FullPath, Tokens, SubHere;
    forall t ensures Child(root'.children, t).Some? <==> t in Tops(all) {
      GrowKeeps(stores, d.db.clients, root, c, t);
    }
    forall p, client ensures SubAt(root', p, client) == LastSub(all, p, client) {
      GrowTells(stores, d.db.clients, root, c, p, client);
    }
    forall p ensures RetainedAt(root', p) == At(Slots(stores, all), p) {
      GrowTells(stores, d.db.clients, root, c, p, "");
    }
  }

  lemma DropIs(l: Loading, id: StoreId, k: StoreId)
    ensures var r := Drop(l, id);
            Count(r.refs, k) == (if k == id && Count(l.refs, k) > 0 then Count(l.refs, k) - 1 else Count(l.refs, k)) &&
            r.db == l.db.(stores := if Count(l.refs, id) > 1 then l.db.stores else Without(l.db.stores, id))
  {
  }

  /** One for a pointer at this message. */
  function One(v: Option<StoreId>, id: StoreId): nat {
    if v == Some(id) then 1 else 0
  }

  lemma HoldersNext(slots: map<Path, StoreId>, p: Path, id: StoreId, k: StoreId)
    ensures |Holders(slots[p := id], k)| == |Holders(slots, k)| + One(Some(id), k) - One(At(slots, p), k)
  {
    var was, now := Holders(slots, k), Holders(slots[p := id], k);
    if id == k {
      assert now == was + {p};
    } else {
      assert now == was - {p};
    }
  }

  /** The slot of the message goes from `was` to `now`. */
  predicate Turns(l: Loading, s: Store, was: Option<StoreId>, now: Option<StoreId>, root: Hier) {
    (if s.retain then
       s.payload != "" && root == RetainTop(l.db.root, Tokens(s.topic), Some(s.id)) &&
       was == RetainedAt(l.db.root, FullPath(s.topic)) && now == RetainedAt(root, FullPath(s.topic))
     else was == now == None && root == l.db.root) &&
    (was.Some? ==> Count(l.refs, was.value) > 0 && now == Some(s.id)) && (now.Some? ==> now == Some(s.id))
  }

  lemma RetainCounts(l: Loading, s: Store, was: Option<StoreId>, now: Option<StoreId>, root: Hier, k: StoreId)
    requires Turns(l, s, was, now, root)
    ensures var r := RestoreRetain(l, s);
            Count(r.refs, k) == Count(l.refs, k) + One(now, k) - One(was, k) && r.db.root == root &&
            r.db.lastDbId == l.db.lastDbId && r.db.clients == l.db.clients
    ensures var r := RestoreRetain(l, s);
            var one := if was.Some? && was != now && Count(l.refs, was.value) == 1
                       then Without(l.db.stores, was.value) else l.db.stores;
            r.db.stores == if now == None && Count(l.refs, s.id) == 0 then Without(one, s.id) else one
  {
    hide RetainTop, RetainedAt, Without, FullPath, Tokens;
    var l1 := l.(refs := Grab(l.refs, s.id));
    if was.Some? { DropIs(l1, was.value, k); DropIs(l1, was.value, s.id); DropIs(l1, was.value, was.value); }
    var l2 := if s.retain then PutSlot(l1, s) else l1;
    DropIs(l2, s.id, k);
  }

  lemma {:induction false} SlotsStand(stores: seq<Store>, chunks: seq<Chunk>, p: Path)
    requires p in Slots(stores, chunks)
    ensures p != [] && p[0] in Tops(chunks)
    ensures Retain(Slots(stores, chunks)[p]) in chunks && StoreOf(stores, Slots(stores, chunks)[p]).Some?
  {
    var before, last := chunks[..|chunks| - 1], chunks[|chunks| - 1];
    assert chunks == before + [last];
    if p in Slots(stores, before) { SlotsStand(stores, before, p); }
  }

  /** What is in the slot of a chunk before and after it. */
  lemma SlotMoves(d: Loading, chunks: seq<Chunk>, root: Hier, c: Chunk) returns (was: Option<StoreId>,
                                                                                 now: Option<StoreId>)
    requires TreeTells(d, chunks, root) && ChunkFine(d.db.stores, d.db.clients, c) && c.Retain?
    ensures var s := StoreOf(d.db.stores, c.store).value;
            if s.retain then
              GrowOne(d.db.stores, root, c) == RetainTop(root, Tokens(s.topic), Some(c.store)) &&
              was == RetainedAt(root, FullPath(s.topic)) &&
              now == RetainedAt(GrowOne(d.db.stores, root, c), FullPath(s.topic))
            else was == now == None && GrowOne(d.db.stores, root, c) == root
    ensures was.Some? ==> now == Some(c.store) && Retain(was.value) in chunks &&
                          StoreOf(d.db.stores, was.value).Some?
    ensures now.Some? ==> now == Some(c.store)
    ensures forall k :: |Holders(Slots(d.db.stores, chunks + [c]), k)| ==
                        |Holders(Slots(d.db.stores, chunks), k)| + One(now, k) - One(was, k)
    ensures was.Some? ==> |Holders(Slots(d.db.stores, chunks), was.value)| > 0
  {
    var stores, slots, p := d.db.stores, Slots(d.db.stores, chunks), SlotOf(d.db.stores, c);
    TablesNext(stores, chunks, c);
    TreeNext(d, chunks, root, c);
    was, now := None, None;
    if Sets(stores, Tops(chunks), c) {
      was, now := At(slots, p), Some(c.store);
      forall k ensures |Holders(slots[p := c.store], k)| == |Holders(slots, k)| + One(now, k) - One(was, k) {
        HoldersNext(slots, p, c.store, k);
      }
      if was.Some? { assert p in Holders(slots, was.value); }
    }
    if p in slots { SlotsStand(stores, chunks, p); }
  }

  lemma LivingMoves(stores: seq<Store>, gone: set<StoreId>, frees: bool, was: StoreId, drops: bool, id: StoreId)
    requires DistinctIds(stores)
    ensures var one := if frees then Without(Living(stores, gone), was) else Living(stores, gone);
            (if drops then Without(one, id) else one) ==
            Living(stores, gone + (if frees then {was} else {}) + if drops then {id} else {})
  {
    hide Living, Without, DistinctIds;
    var more := gone + if frees then {was} else {};
    WithoutLiving(stores, gone, was);
    WithoutLiving(stores, more, id);
    assert gone + {} == gone && more + {} == more;
  }

  /** The counts, and the messages that go, in one step. */
  lemma CountsMove(d: Loading, chunks: seq<Chunk>, r: Loading, s: Store, was: Option<StoreId>, now: Option<StoreId>,
                   root: Hier)
    requires Turns(r, s, was, now, root) && forall k :: Count(r.refs, k) == Pointers(d, chunks, k)
    requires forall k :: Pointers(d, chunks + [Retain(s.id)], k) == Pointers(d, chunks, k) + One(now, k) - One(was, k)
    ensures var r' := RestoreRetain(r, s);
            r'.db.root == root && r'.db.lastDbId == r.db.lastDbId && r'.db.clients == r.db.clients &&
            forall k :: Count(r'.refs, k) == Pointers(d, chunks + [Retain(s.id)], k)
    ensures var frees := was.Some? && was != now && Pointers(d, chunks, was.value) == 1;
            var one := if frees then Without(r.db.stores, was.value) else r.db.stores;
            RestoreRetain(r, s).db.stores ==
            if now == None && Pointers(d, chunks, s.id) == 0 then Without(one, s.id) else one
  {
    hide Turns, Pointers, RestoreRetain, Without, Count, One;
    var r' := RestoreRetain(r, s);
    RetainCounts(r, s, was, now, root, s.id);
    forall k ensures Count(r'.refs, k) == Pointers(d, chunks + [Retain(s.id)], k) {
      RetainCounts(r, s, was, now, root, k);
    }
  }

  lemma RetainGrows(d: Loading, chunks: seq<Chunk>, r: Loading, id: StoreId)
    requires Begun(d) && Grown(d, chunks, r) && ChunkFine(d.db.stores, d.db.clients, Retain(id))
    requires id !in Freed(d, chunks)
    ensures Grown(d, chunks + [Retain(id)], RestoreRetain(r, StoreOf(d.db.stores, id).value))
  {
    hide TreeTells, Slots, RestoreRetain, RetainTop, RetainedAt, GrowOne, FullPath, Tokens, Freed, Living, CountOf,
         QueueOf, DistinctIds, Holders, Without;
    var c, s := Retain(id), StoreOf(d.db.stores, id).value;
    var i := StoreOfIs(d.db.stores, id);
    var root := GrowOne(d.db.stores, r.db.root, c);
    var was, now := SlotMoves(d, chunks, r.db.root, c);
    TreeNext(d, chunks, r.db.root, c);
    PointersMove(d, chunks, c, was, now);
    hide Pointers;
    FreedNext(d, chunks, id, was, now);
    CountsMove(d, chunks, r, s, was, now, root);
    LivingMoves(d.db.stores, Freed(d, chunks), was.Some? && was != now && Pointers(d, chunks, was.value) == 1,
                if was.Some? then was.value else 0, now == None && Pointers(d, chunks, id) == 0, id);
  }

  lemma PointersMove(d: Loading, chunks: seq<Chunk>, c: Chunk, was: Option<StoreId>, now: Option<StoreId>)
    requires forall k :: |Holders(Slots(d.db.stores, chunks + [c]), k)| ==
                         |Holders(Slots(d.db.stores, chunks), k)| + One(now, k) - One(was, k)
    ensures forall k :: Pointers(d, chunks + [c], k) == Pointers(d, chunks, k) + One(now, k) - One(was, k)
    ensures was.Some? && |Holders(Slots(d.db.stores, chunks), was.value)| > 0 ==> Pointers(d, chunks, was.value) > 0
  {
  }

  /** Only the message pushed out of the slot and this one can be freed. */
  lemma FreedNext(d: Loading, chunks: seq<Chunk>, id: StoreId, was: Option<StoreId>, now: Option<StoreId>)
    requires DistinctIds(d.db.stores) && StoreOf(d.db.stores, id).Some?
    requires was.Some? ==> now == Some(id) && Retain(was.value) in chunks && StoreOf(d.db.stores, was.value).Some?
    requires now.Some? ==> now == Some(id)
    requires forall k :: Pointers(d, chunks + [Retain(id)], k) == Pointers(d, chunks, k) + One(now, k) - One(was, k)
    requires was.Some? ==> Pointers(d, chunks, was.value) > 0
    requires id !in Freed(d, chunks)
    ensures var one := if was.Some? && was != now && Pointers(d, chunks, was.value) == 1 then {was.value} else {};
            Freed(d, chunks + [Retain(id)]) ==
            Freed(d, chunks) + one + if now == None && Pointers(d, chunks, id) == 0 then {id} else {}
  {
    hide Pointers;
    var i := StoreOfIs(d.db.stores, id);
    if was.Some? { var j := StoreOfIs(d.db.stores, was.value); }
    assert forall e :: e in chunks + [Retain(id)] <==> e in chunks || e == Retain(id);
  }

  /** A message that has been freed cannot be read any more; otherwise the slot
      is set as the tables say, and what nothing points at now is freed. */
  lemma RetainNext(d: Loading, chunks: seq<Chunk>, r: Loading, id: StoreId)
    requires Begun(d) && Grown(d, chunks, r) && ChunkFine(d.db.stores, d.db.clients, Retain(id))
    ensures StoreOf(r.db.stores, id) == if id in Freed(d, chunks) then None else StoreOf(d.db.stores, id)
    ensures id !in Freed(d, chunks) ==>
              Grown(d, chunks + [Retain(id)], RestoreRetain(r, StoreOf(d.db.stores, id).value))
  {
    StoreOfLiving(d.db.stores, Freed(d, chunks), id);
    if id !in Freed(d, chunks) {
      RetainGrows(d, chunks, r, id);
    }
  }

  lemma SubGrows(d: Loading, chunks: seq<Chunk>, r: Loading, c: Chunk)
    requires Grown(d, chunks, r) && c.Sub? && ChunkFine(d.db.stores, d.db.clients, c)
    ensures RestoreChunk(r, c).Some? && Grown(d, chunks + [c], RestoreChunk(r, c).value)
  {
    TreeNext(d, chunks, r.db.root, c);
    TablesNext(d.db.stores, chunks, c);
    hide TreeTells, Slots, AddTop, Tokens, FullPath, Tops;
    assert forall e :: e in chunks + [c] <==> e in chunks || e == c;
    assert Freed(d, chunks + [c]) == Freed(d, chunks);
  }

  /** No chunk names a message that was freed before it. */
  predicate Readable(d: Loading, chunks: seq<Chunk>) {
    forall k :: 0 <= k < |chunks| && chunks[k].Retain? ==> chunks[k].store !in Freed(d, chunks[..k])
  }

  lemma ReadableNext(d: Loading, chunks: seq<Chunk>, c: Chunk)
    ensures Readable(d, chunks + [c]) <==> Readable(d, chunks) && (c.Retain? ==> c.store !in Freed(d, chunks))
  {
    var all := chunks + [c];
    hide Freed;
    assert forall k :: 0 <= k < |chunks| ==> all[k] == chunks[k] && all[..k] == chunks[..k];
    assert all[|chunks|] == c && all[..|chunks|] == chunks;
  }

  /** Restoring the chunks of a tree. */
  lemma {:induction false} AllGrow(d: Loading, chunks: seq<Chunk>)
    requires Begun(d) && AllFine(d.db.stores, d.db.clients, chunks)
    ensures Restore(d, chunks).Some? <==> Readable(d, chunks)
    ensures Readable(d, chunks) ==> Grown(d, chunks, Restore(d, chunks).value)
    decreases |chunks|
  {
    hide Begun, Readable, Grown, Freed, RestoreRetain, ChunkFine;
    if chunks == [] {
      Begins(d);
      NothingRead(d);
    } else {
      var before, c := chunks[..|chunks| - 1], chunks[|chunks| - 1];
      assert chunks == before + [c] && c in chunks;
      AllGrow(d, before);
      RestoreConcat(d, before, [c]);
      ReadableNext(d, before, c);
      assert [c][1..] == [];
      if Readable(d, before) {
        var r := Restore(d, before).value;
        assert Restore(r, [c]) == RestoreChunk(r, c);
        FineKinds(d, c);
        if c.Sub? { SubGrows(d, before, r, c); } else { RetainNext(d, before, r, c.store); }
      }
    }
  }

  lemma FineKinds(d: Loading, c: Chunk)
    requires ChunkFine(d.db.stores, d.db.clients, c)
    ensures c.Sub? || (c.Retain? && StoreOf(d.db.stores, c.store).Some?)
  {
  }

  lemma NothingRead(d: Loading)
    ensures Readable(d, [])
  {
  }
}
