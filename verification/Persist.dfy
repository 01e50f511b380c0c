/** Saving the broker's state in chunks and restoring it: what comes back, and
    under which names. */
module Persist {
  import opened Common
  import opened Topics
  import opened SubTree
  import opened Subscriptions
  import BrokerRuns

  // --------------------------------------------------------------- the state

  datatype Store = Store(id: StoreId, source: string, sourceMid: nat, mid: nat, topic: string, qos: nat, retain: bool,
                         payload: string)

  datatype Queued = Queued(store: StoreId, mid: nat, qos: nat, retain: bool, direction: nat, state: nat, dup: bool)

  datatype Session = Session(id: ClientId, lastMid: nat, clean: bool, disconnected: nat, msgs: seq<Queued>)

  datatype Db = Db(lastDbId: nat, stores: seq<Store>, clients: seq<Session>, root: Hier)

  /** References counted so far, while a file is read. */
  type Counts = map<StoreId, nat>

  /** The state while it is being restored. */
  datatype Loading = Loading(db: Db, refs: Counts)

  datatype Chunk =
    | Cfg(shutdown: bool, lastDbId: nat)
    | MsgStore(stored: Store)
    | ClientMsg(client: ClientId, queued: Queued)
    | Retain(store: StoreId)
    | Sub(client: ClientId, filter: string, qos: nat)
    | Client(client: ClientId, lastMid: nat, disconnected: nat)

  // ------------------------------------------------------------------ saving

  predicate Sys(topic: string) {
    "$SYS" <= topic
  }

  /** `$SYS` messages lose their retain flag. */
  function Saved(s: Store): Store {
    s.(retain := s.retain && !Sys(s.topic))
  }

  function StoreChunks(stores: seq<Store>): seq<Chunk> {
    if stores == [] then [] else [MsgStore(Saved(stores[0]))] + StoreChunks(stores[1..])
  }

  function MsgChunks(client: ClientId, msgs: seq<Queued>): seq<Chunk> {
    if msgs == [] then [] else [ClientMsg(client, msgs[0])] + MsgChunks(client, msgs[1..])
  }

  function ClientChunks(clients: seq<Session>): seq<Chunk> {
    if clients == [] then []
    else
      var c := clients[0];
      (if c.clean then [] else [Client(c.id, c.lastMid, c.disconnected)] + MsgChunks(c.id, c.msgs))
      + ClientChunks(clients[1..])
  }

  predicate Lasting(clients: seq<Session>, id: ClientId) {
    exists c :: c in clients && c.id == id && !c.clean
  }

  /** The name a node is saved under, below a node saved under `name`. */
  function Named(name: string, topic: string): string {
    if name != "" then name + "/" + topic else topic
  }

  function StoreOf(stores: seq<Store>, id: StoreId): Option<Store> {
    if stores == [] then None else if stores[0].id == id then Some(stores[0]) else StoreOf(stores[1..], id)
  }

  function LeafChunks(db: Db, name: string, subs: seq<Leaf>): seq<Chunk> {
    if subs == [] then []
    else (if Lasting(db.clients, subs[0].client) then [Sub(subs[0].client, name, subs[0].qos)] else [])
         + LeafChunks(db, name, subs[1..])
  }

  function RetainChunks(db: Db, retained: Option<StoreId>): seq<Chunk> {
    if retained == None || StoreOf(db.stores, retained.value) == None ||
    Sys(StoreOf(db.stores, retained.value).value.topic)
    then [] else [Retain(retained.value)]
  }

  function NodeChunks(db: Db, name: string, h: Hier): seq<Chunk>
    decreases h, 1
  {
    var here := Named(name, h.topic);
    LeafChunks(db, here, h.subs) + RetainChunks(db, h.retained) + ForestChunks(db, here, h.children)
  }

  function ForestChunks(db: Db, name: string, cs: seq<Hier>): seq<Chunk>
    decreases cs, 0
  {
    if cs == [] then [] else NodeChunks(db, name, cs[0]) + ForestChunks(db, name, cs[1..])
  }

  function Backup(db: Db, shutdown: bool): seq<Chunk> {
    [Cfg(shutdown, db.lastDbId)] + StoreChunks(db.stores) + ClientChunks(db.clients) +
        ForestChunks(db, "", db.root.children)
  }

  // --------------------------------------------------------------- restoring

  function IndexOfClient(clients: seq<Session>, id: ClientId): (i: nat)
    ensures i <= |clients| && (i < |clients| ==> clients[i].id == id)
    ensures forall k :: 0 <= k < i ==> clients[k].id != id
  {
    if clients == [] || clients[0].id == id then 0 else 1 + IndexOfClient(clients[1..], id)
  }

  /** A message id of zero does not replace a known one. */
  function FindOrAdd(clients: seq<Session>, id: ClientId, lastMid: nat): (r: seq<Session>)
    ensures IndexOfClient(clients, id) < |r| && r[IndexOfClient(clients, id)].id == id
  {
    var i := IndexOfClient(clients, id);
    if i < |clients| then (if lastMid != 0 then clients[i := clients[i].(lastMid := lastMid)] else clients)
    else clients + [Session(id, lastMid, false, 0, [])]
  }

  function Count(refs: Counts, id: StoreId): nat {
    if id in refs then refs[id] else 0
  }

  function Grab(refs: Counts, id: StoreId): Counts {
    refs[id := Count(refs, id) + 1]
  }

  function Without(stores: seq<Store>, id: StoreId): seq<Store> {
    if stores == [] then []
    else if stores[0].id == id then stores[1..]
    else [stores[0]] + Without(stores[1..], id)
  }

  /** A reference is given back; with the last one the message goes. */
  function Drop(l: Loading, id: StoreId): Loading {
    var n := Count(l.refs, id);
    if n > 1 then l.(refs := l.refs[id := n - 1])
    else l.(db := l.db.(stores := Without(l.db.stores, id)), refs := l.refs - {id})
  }

  /** The slot of the topic gives up its message and takes this one, if the
      topic has a slot and the message a payload. */
  function PutSlot(l: Loading, s: Store): Loading {
    var p := FullPath(s.topic);
    var root := RetainTop(l.db.root, Tokens(s.topic), if s.payload != "" then Some(s.id) else None);
    var was, now := RetainedAt(l.db.root, p), RetainedAt(root, p);
    var l' := if was.Some? then Drop(l, was.value) else l;
    Loading(l'.db.(root := root), if now.Some? then Grab(l'.refs, now.value) else l'.refs)
  }

  /** A retained message is queued for nobody: it is protected while the slot
      is set and let go again, so that it is freed if nothing points at it. */
  function RestoreRetain(l: Loading, s: Store): Loading {
    var l' := l.(refs := Grab(l.refs, s.id));
    Drop(if s.retain then PutSlot(l', s) else l', s.id)
  }

  /** A message stored without an id gets the next one, and no reference. */
  function RestoreStore(db: Db, s: Store): Db {
    var id := if s.id == 0 then db.lastDbId + 1 else s.id;
    db.(lastDbId := if s.id == 0 then id else db.lastDbId, stores := [s.(id := id, mid := 0)] + db.stores)
  }

  /** No state if the file is refused, or if a chunk names a message that is
      not there; one that has been freed is read through a dead pointer. */
  function RestoreChunk(l: Loading, c: Chunk): Option<Loading> {
    var db := l.db;
    match c
    case Cfg(_, lastDbId) => Some(l.(db := db.(lastDbId := lastDbId)))
    case MsgStore(s) => if s.topic == "" then None else Some(l.(db := RestoreStore(db, s)))
    case ClientMsg(client, queued) =>
      if client == "" || StoreOf(db.stores, queued.store) == None then None
      else
        var i, cs := IndexOfClient(db.clients, client), FindOrAdd(db.clients, client, 0);
        Some(Loading(db.(clients := cs[i := cs[i].(msgs := cs[i].msgs + [queued])]), Grab(l.refs, queued.store)))
    case Retain(id) =>
      var s := StoreOf(db.stores, id);
      if s == None then None else Some(RestoreRetain(l, s.value))
    case Sub(client, filter, qos) =>
      Some(l.(db := db.(clients := FindOrAdd(db.clients, client, 0),
                        root := AddTop(db.root, Tokens(filter), Some(client), qos))))
    case Client(client, lastMid, disconnected) =>
      if client == "" then None
      else
        var i, cs := IndexOfClient(db.clients, client), FindOrAdd(db.clients, client, lastMid);
        Some(l.(db := db.(clients := cs[i := cs[i].(disconnected := disconnected)])))
  }

  function Restore(l: Loading, chunks: seq<Chunk>): Option<Loading>
    decreases |chunks|
  {
    if chunks == [] then Some(l)
    else
      var l' := RestoreChunk(l, chunks[0]);
      if l' == None then None else Restore(l'.value, chunks[1..])
  }

  const BLANK := Loading(Db(0, [], [], BrokerRuns.OPENED.root), map[])

  lemma {:induction false} RestoreConcat(l: Loading, a: seq<Chunk>, b: seq<Chunk>)
    ensures Restore(l, a + b) == if Restore(l, a) == None then None else Restore(Restore(l, a).value, b)
    decreases |a|
  {
    if a == [] {
      assert a + b == b;
    } else {
      assert (a + b)[1..] == a[1..] + b && (a + b)[0] == a[0];
      var l' := RestoreChunk(l, a[0]);
      if l'.Some? { RestoreConcat(l'.value, a[1..], b); }
    }
  }

  lemma RestoreBoth(l: Loading, a: seq<Chunk>, l1: Loading, b: seq<Chunk>, l2: Loading)
    requires Restore(l, a) == Some(l1) && Restore(l1, b) == Some(l2)
    ensures Restore(l, a + b) == Some(l2)
  {
    RestoreConcat(l, a, b);
  }

  // ----------------------------------------------------------- stored messages

  /** The list is written from its front and rebuilt at the front. */
  function Rebuilt(stores: seq<Store>): (r: seq<Store>)
    ensures |r| == |stores|
    ensures forall i :: 0 <= i < |r| ==> r[i] == Saved(stores[|stores| - 1 - i]).(mid := 0)
  {
    if stores == [] then [] else Rebuilt(stores[1..]) + [Saved(stores[0]).(mid := 0)]
  }

  lemma {:induction false} StoresBack(l: Loading, stores: seq<Store>)
    requires forall s :: s in stores ==> s.topic != "" && s.id != 0
    ensures Restore(l, StoreChunks(stores)) == Some(l.(db := l.db.(stores := Rebuilt(stores) + l.db.stores)))
    decreases |stores|
  {
    if stores == [] {
      assert [] + l.db.stores == l.db.stores;
    } else {
      assert stores[0] in stores;
      var first := Saved(stores[0]).(mid := 0);
      var l' := l.(db := l.db.(stores := [first] + l.db.stores));
      StoresBack(l', stores[1..]);
      assert StoreChunks(stores) == [MsgStore(Saved(stores[0]))] + StoreChunks(stores[1..]);
      assert RestoreChunk(l, MsgStore(Saved(stores[0]))) == Some(l');
      assert StoreChunks(stores)[1..] == StoreChunks(stores[1..]);
      RebuiltNext(stores, l.db.stores);
      hide Rebuilt, StoreChunks, RestoreChunk, Saved;
    }
  }

  lemma RebuiltNext(stores: seq<Store>, more: seq<Store>)
    requires stores != []
    ensures Rebuilt(stores[1..]) + ([Saved(stores[0]).(mid := 0)] + more) == Rebuilt(stores) + more
  {
    hide Saved;
    assert Rebuilt(stores) == Rebuilt(stores[1..]) + [Saved(stores[0]).(mid := 0)];
  }

  predicate DistinctIds(stores: seq<Store>) {
    forall i, j :: 0 <= i < j < |stores| ==> stores[i].id != stores[j].id
  }

  lemma {:induction false} StoreOfAt(stores: seq<Store>, i: nat)
    requires i < |stores| && DistinctIds(stores)
    ensures StoreOf(stores, stores[i].id) == Some(stores[i])
  {
    if i > 0 { StoreOfAt(stores[1..], i - 1); }
  }

  lemma {:induction false} StoreOfIs(stores: seq<Store>, id: StoreId) returns (i: nat)
    requires StoreOf(stores, id).Some?
    ensures i < |stores| && stores[i] == StoreOf(stores, id).value && stores[i].id == id
  {
    if stores[0].id == id {
      i := 0;
    } else {
      i := StoreOfIs(stores[1..], id);
      i := i + 1;
    }
  }

  /** A message is found again under its id. */
  lemma RebuiltOf(stores: seq<Store>, id: StoreId)
    requires DistinctIds(stores) && StoreOf(stores, id).Some?
    ensures StoreOf(Rebuilt(stores), id) == Some(Saved(StoreOf(stores, id).value).(mid := 0))
  {
    var i := StoreOfIs(stores, id);
    var r, k := Rebuilt(stores), |stores| - 1 - i;
    RebuiltDistinct(stores);
    assert r[k] == Saved(stores[i]).(mid := 0);
    hide Rebuilt, StoreOf, Sys;
    StoreOfAt(r, k);
  }

  lemma RebuiltDistinct(stores: seq<Store>)
    requires DistinctIds(stores)
    ensures DistinctIds(Rebuilt(stores))
  {
    var r := Rebuilt(stores);
    hide Rebuilt, Sys;
    forall i, j | 0 <= i < j < |r| ensures r[i].id != r[j].id {
      assert r[i].id == stores[|stores| - 1 - i].id && r[j].id == stores[|stores| - 1 - j].id;
    }
  }

  // ------------------------------------------------------------------ sessions

  /** A chunk for a session, known already or not: its last message id is replaced by
      one that is not zero, and its queue stays. */
  lemma SessionChunk(l: Loading, client: ClientId, lastMid: nat, disconnected: nat)
    requires client != ""
    ensures var r := RestoreChunk(l, Client(client, lastMid, disconnected));
            r.Some? && r.value == l.(db := l.db.(clients := r.value.db.clients)) &&
            var was, now := l.db.clients, r.value.db.clients;
            if forall c :: c in was ==> c.id != client then
              now == was + [Session(client, lastMid, false, disconnected, [])]
            else
              |now| == |was| &&
              exists i :: 0 <= i < |was| && was[i].id == client && (forall k :: 0 <= k < i ==> was[k].id != client) &&
                          now == was[i := was[i].(lastMid := if lastMid != 0 then lastMid else was[i].lastMid,
                                                  disconnected := disconnected)]
  {
    var was, i := l.db.clients, IndexOfClient(l.db.clients, client);
    var more := was + [Session(client, lastMid, false, 0, [])];
    if i < |was| {
      assert was[i] in was;
    } else {
      assert FindOrAdd(was, client, lastMid) == more;
      assert IndexOfClient(more, client) == |was| by { LastIsFound(was, more[|was|], client); }
    }
    hide IndexOfClient;
  }

  lemma {:induction false} LastIsFound(a: seq<Session>, s: Session, id: ClientId)
    requires s.id == id && forall c :: c in a ==> c.id != id
    ensures IndexOfClient(a + [s], id) == |a|
  {
    if a != [] {
      assert (a + [s])[1..] == a[1..] + [s];
      LastIsFound(a[1..], s, id);
    }
  }

  function Survivors(clients: seq<Session>): seq<Session> {
    if clients == [] then [] else (if clients[0].clean then [] else [clients[0]]) + Survivors(clients[1..])
  }

  predicate DistinctClientIds(clients: seq<Session>) {
    forall i, j :: 0 <= i < j < |clients| ==> clients[i].id != clients[j].id
  }

  predicate SessionFine(stores: seq<Store>, c: Session) {
    c.id != "" && forall m :: m in c.msgs ==> StoreOf(stores, m.store).Some?
  }

  // ----------------------------------------------------- counting references

  function GrabAll(refs: Counts, msgs: seq<Queued>): Counts
    decreases |msgs|
  {
    if msgs == [] then refs else GrabAll(Grab(refs, msgs[0].store), msgs[1..])
  }

  /** The entries that point at a message. */
  function CountOf(msgs: seq<Queued>, id: StoreId): nat {
    if msgs == [] then 0 else (if msgs[0].store == id then 1 else 0) + CountOf(msgs[1..], id)
  }

  function QueueOf(clients: seq<Session>): seq<Queued> {
    if clients == [] then [] else clients[0].msgs + QueueOf(clients[1..])
  }

  lemma {:induction false} GrabAllCounts(refs: Counts, msgs: seq<Queued>, id: StoreId)
    ensures Count(GrabAll(refs, msgs), id) == Count(refs, id) + CountOf(msgs, id)
    decreases |msgs|
  {
    if msgs != [] { GrabAllCounts(Grab(refs, msgs[0].store), msgs[1..], id); }
  }

  lemma {:induction false} GrabAllConcat(refs: Counts, a: seq<Queued>, b: seq<Queued>)
    ensures GrabAll(refs, a + b) == GrabAll(GrabAll(refs, a), b)
    decreases |a|
  {
    if a == [] {
      assert a + b == b;
    } else {
      assert (a + b)[1..] == a[1..] + b;
      GrabAllConcat(Grab(refs, a[0].store), a[1..], b);
    }
  }

  // ------------------------------------------------------- sessions come back

  lemma {:induction false} MsgsBack(l: Loading, c: Session, msgs: seq<Queued>)
    requires l.db.clients != [] && l.db.clients[|l.db.clients| - 1].id == c.id &&
             IndexOfClient(l.db.clients, c.id) == |l.db.clients| - 1
    requires c.id != "" && forall m :: m in msgs ==> StoreOf(l.db.stores, m.store).Some?
    ensures var cs, last := l.db.clients, |l.db.clients| - 1;
            Restore(l, MsgChunks(c.id, msgs)) ==
            Some(Loading(l.db.(clients := cs[last := cs[last].(msgs := cs[last].msgs + msgs)]), GrabAll(l.refs, msgs)))
    decreases |msgs|
  {
    var was, last := l.db.clients, |l.db.clients| - 1;
    if msgs == [] {
      assert was[last].msgs + [] == was[last].msgs && was[last := was[last]] == was;
    } else {
      assert msgs[0] in msgs && forall m :: m in msgs[1..] ==> m in msgs;
      var cs := was[last := was[last].(msgs := was[last].msgs + [msgs[0]])];
      var l' := Loading(l.db.(clients := cs), Grab(l.refs, msgs[0].store));
      assert MsgChunks(c.id, msgs)[1..] == MsgChunks(c.id, msgs[1..]);
      assert RestoreChunk(l, ClientMsg(c.id, msgs[0])) == Some(l');
      ClientIs(cs, c.id, last);
      MsgsBack(l', c, msgs[1..]);
      assert was[last].msgs + [msgs[0]] + msgs[1..] == was[last].msgs + msgs;
      var now := was[last].(msgs := was[last].msgs + msgs);
      assert cs[last := cs[last].(msgs := cs[last].msgs + msgs[1..])] == was[last := now];
    }
  }

  lemma ClientIs(clients: seq<Session>, id: ClientId, i: nat)
    requires i < |clients| && clients[i].id == id && forall k :: 0 <= k < i ==> clients[k].id != id
    ensures IndexOfClient(clients, id) == i
  {
  }

  /** A lasting session comes back with its id, its last message id and its
      messages in order, each with its reference; the others do not. */
  lemma {:induction false} ClientsBack(l: Loading, clients: seq<Session>)
    requires DistinctClientIds(clients) && forall c :: c in clients ==> SessionFine(l.db.stores, c)
    requires forall c, d :: c in l.db.clients && d in clients ==> c.id != d.id
    ensures Restore(l, ClientChunks(clients)) ==
            Some(Loading(l.db.(clients := l.db.clients + Survivors(clients)),
                         GrabAll(l.refs, QueueOf(Survivors(clients)))))
    decreases |clients|
  {
    NoClients(l);
    hide Restore, ClientChunks, Survivors, MsgChunks, SessionFine, GrabAll, QueueOf;
    if clients != [] {
      var c, rest := clients[0], clients[1..];
      assert clients == [c] + rest && c in clients && forall d :: d in rest ==> d in clients;
      if c.clean {
        ClientsBack(l, rest);
        SkipFirst(c, rest);
      } else {
        OneBack(l, c);
        var l' := Loading(l.db.(clients := l.db.clients + [c]), GrabAll(l.refs, c.msgs));
        forall d | d in rest ensures d.id != c.id {
          var k :| 0 <= k < |rest| && rest[k] == d;
          assert clients[k + 1] == d;
        }
        ClientsBack(l', rest);
        var mine := [Client(c.id, c.lastMid, c.disconnected)] + MsgChunks(c.id, c.msgs);
        var end := Loading(l'.db.(clients := l'.db.clients + Survivors(rest)),
                           GrabAll(l'.refs, QueueOf(Survivors(rest))));
        RestoreBoth(l, mine, l', ClientChunks(rest), end);
        SplitFirst(c, rest);
        GrabAllConcat(l.refs, c.msgs, QueueOf(Survivors(rest)));
        assert l.db.clients + [c] + Survivors(rest) == l.db.clients + ([c] + Survivors(rest));
      }
    }
  }

  lemma NoClients(l: Loading)
    ensures Restore(l, ClientChunks([])) == Some(l) && l.db.clients + Survivors([]) == l.db.clients
    ensures GrabAll(l.refs, QueueOf(Survivors([]))) == l.refs
  {
  }

  lemma SkipFirst(c: Session, rest: seq<Session>)
    requires c.clean
    ensures ClientChunks([c] + rest) == ClientChunks(rest) && Survivors([c] + rest) == Survivors(rest)
  {
    assert ([c] + rest)[1..] == rest;
  }

  lemma SplitFirst(c: Session, rest: seq<Session>)
    requires !c.clean
    ensures ClientChunks([c] + rest) == [Client(c.id, c.lastMid, c.disconnected)] + MsgChunks(c.id, c.msgs) +
            ClientChunks(rest)
    ensures Survivors([c] + rest) == [c] + Survivors(rest)
    ensures QueueOf(Survivors([c] + rest)) == c.msgs + QueueOf(Survivors(rest))
  {
    assert ([c] + rest)[1..] == rest && ([c] + Survivors(rest))[1..] == Survivors(rest);
  }

  lemma OneBack(l: Loading, c: Session)
    requires SessionFine(l.db.stores, c) && !c.clean && forall d :: d in l.db.clients ==> d.id != c.id
    ensures Restore(l, [Client(c.id, c.lastMid, c.disconnected)] + MsgChunks(c.id, c.msgs)) ==
            Some(Loading(l.db.(clients := l.db.clients + [c]), GrabAll(l.refs, c.msgs)))
  {
    var head, cs := Client(c.id, c.lastMid, c.disconnected), l.db.clients;
    var chunks := [head] + MsgChunks(c.id, c.msgs);
    assert chunks[1..] == MsgChunks(c.id, c.msgs);
    ClientIs(cs + [c], c.id, |cs|);
    assert IndexOfClient(cs, c.id) == |cs| by {
      assert forall k :: 0 <= k < |cs| ==> cs[k] in cs;
    }
    var empty := c.(msgs := []);
    var l1 := l.(db := l.db.(clients := cs + [empty]));
    var added := Session(c.id, c.lastMid, false, 0, []);
    assert (cs + [added])[|cs| := added.(disconnected := c.disconnected)] == cs + [empty];
    assert RestoreChunk(l, head) == Some(l1);
    ClientIs(l1.db.clients, c.id, |cs|);
    MsgsBack(l1, c, c.msgs);
    assert [] + c.msgs == c.msgs;
    assert l1.db.clients[|cs| := c] == cs + [c];
  }

  // -------------------------------------------------- names of the tree's nodes

  /** The name under which the node at a path is saved. */
  function NameOf(p: Path): string
    decreases |p|
  {
    if p == [] then "" else Named(NameOf(p[..|p| - 1]), p[|p| - 1])
  }

  /** Empty levels at the front are lost. */
  function StripLead(p: Path): (r: Path)
    requires p != []
    ensures r != [] && |r| <= |p| && r == p[|p| - |r|..]
    decreases |p|
  {
    if |p| > 1 && p[0] == "" then StripLead(p[1..]) else p
  }

  lemma {:induction false} JoinAppend(p: Path, last: string)
    requires p != []
    ensures Join(p + [last]) == Join(p) + "/" + last
    decreases |p|
  {
    if |p| == 1 {
      assert (p + [last])[1..] == [last];
    } else {
      assert (p + [last])[1..] == p[1..] + [last];
      JoinAppend(p[1..], last);
      assert p[0] + "/" + (Join(p[1..]) + "/" + last) == p[0] + "/" + Join(p[1..]) + "/" + last;
    }
  }

  lemma {:induction false} StripAppend(p: Path, last: string)
    requires p != []
    ensures StripLead(p + [last]) == if StripLead(p) == [""] then [last] else StripLead(p) + [last]
    decreases |p|
  {
    if p[0] == "" {
      assert (p + [last])[1..] == p[1..] + [last];
      if |p| > 1 {
        StripAppend(p[1..], last);
      } else {
        assert p == [""] && (p + [last])[1..] == [last];
      }
    } else {
      assert StripLead(p) == p;
    }
  }

  lemma {:induction false} StripJoin(p: Path)
    requires p != []
    ensures Join(StripLead(p)) == "" <==> StripLead(p) == [""]
    decreases |p|
  {
    if |p| > 1 && p[0] == "" { StripJoin(p[1..]); }
  }

  /** A node is saved under its levels, joined, without empty ones in front. */
  lemma {:induction false} NameIs(p: Path)
    requires p != []
    ensures NameOf(p) == Join(StripLead(p))
    decreases |p|
  {
    var q, last := p[..|p| - 1], p[|p| - 1];
    assert p == q + [last];
    if q == [] {
      assert NameOf(q) == "" && p == [last];
    } else {
      NameIs(q);
      StripJoin(q);
      StripAppend(q, last);
      if StripLead(q) != [""] { JoinAppend(StripLead(q), last); }
    }
  }

  predicate Plain(filter: string) {
    filter == "" || (filter[0] != '/' && filter[0] != '$')
  }

  /** A filter is restored under its own name exactly when it starts with
      neither a slash nor a dollar sign. */
  lemma NameKept(filter: string)
    ensures NameOf(FullPath(filter)) == filter <==> Plain(filter)
  {
    var levels, p := Split(filter), FullPath(filter);
    TokensFirst(filter);
    NameIs(p);
    JoinSplit(filter);
    if Dollar(filter) {
      assert p[1..] == levels && StripLead(p) == p && Join(p) == p[0] + "/" + Join(levels);
    } else {
      assert p[2..] == levels && p[0] == "" && p[1..][0] == "" && p[1..][1..] == levels;
      assert StripLead(p) == StripLead(levels);
      if filter != "" {
        FirstLevel(filter);
        if filter[0] == '/' { StripShorter(levels); }
      }
    }
  }

  lemma FirstLevel(filter: string)
    requires filter != ""
    ensures filter[0] == '/' <==> |Split(filter)| > 1 && Split(filter)[0] == ""
    ensures |Split(filter)| == 1 ==> Split(filter)[0] != ""
  {
    JoinSplit(filter);
    if filter[0] == '/' { SplitAtSlash(filter, 0); }
  }

  lemma {:induction false} JoinLength(p: Path, q: Path)
    requires q != [] && |q| < |p| && q == p[|p| - |q|..]
    ensures |Join(q)| < |Join(p)|
    decreases |p|
  {
    if |q| < |p| - 1 {
      assert q == p[1..][|p[1..]| - |q|..];
      JoinLength(p[1..], q);
    } else {
      assert q == p[1..];
    }
  }

  lemma StripShorter(levels: Path)
    requires |levels| > 1 && levels[0] == ""
    ensures Join(StripLead(levels)) != Join(levels)
  {
    JoinLength(levels, StripLead(levels));
  }

  // -------------------------------------------------------- the saved tree

  /** Saved for a leaf somewhere at or below `h`, which is at `path`. */
  lemma {:induction false} LeafChunk(db: Db, name: string, subs: seq<Leaf>, c: Chunk)
    ensures c in LeafChunks(db, name, subs) <==>
            c.Sub? && c.filter == name && Leaf(c.client, c.qos) in subs && Lasting(db.clients, c.client)
  {
    if subs != [] {
      LeafChunk(db, name, subs[1..], c);
      assert forall l :: l in subs <==> l == subs[0] || l in subs[1..];
    }
  }

  /** What the chunk of a node says, the node being at this path. */
  ghost predicate Says(db: Db, h: Hier, path: Path, c: Chunk) {
    match c
    case Sub(client, filter, qos) =>
      filter == NameOf(path) && SubsAt(h, client) == Some(qos) && Lasting(db.clients, client)
    case Retain(id) => h.retained == Some(id) && StoreOf(db.stores, id).Some? &&
                       !Sys(StoreOf(db.stores, id).value.topic)
    case _ => false
  }

  function SubsAt(h: Hier, client: ClientId): Option<nat> {
    LeafOf(h.subs, client)
  }

  /** The chunks of a tree are those of its nodes. */
  ghost predicate SomeNode(db: Db, h: Hier, path: Path, c: Chunk) {
    exists p :: NodeAt(h, p).Some? && Says(db, NodeAt(h, p).value, path + p, c)
  }

  lemma HereSays(db: Db, h: Hier, path: Path, c: Chunk)
    requires WellFormed(h)
    ensures c in LeafChunks(db, NameOf(path), h.subs) + RetainChunks(db, h.retained) <==> Says(db, h, path, c)
  {
    LeafChunk(db, NameOf(path), h.subs, c);
    if c.Sub? { LeafOfMember(h.subs, c.client, c.qos); }
  }

  lemma {:induction false} NodeChunkIff(db: Db, h: Hier, path: Path, name: string, c: Chunk)
    requires WellFormed(h) && path != [] && path[|path| - 1] == h.topic && name == NameOf(path[..|path| - 1])
    ensures c in NodeChunks(db, name, h) <==> SomeNode(db, h, path, c)
    decreases h, 1
  {
    HereSays(db, h, path, c);
    assert Named(name, h.topic) == NameOf(path);
    ForestChunkIff(db, h.children, path, c);
    hide LeafChunks, RetainChunks, ForestChunks, Says, NameOf, Named;
    if c in NodeChunks(db, name, h) { FromChunks(db, h, path, c); }
    if SomeNode(db, h, path, c) { FromNode(db, h, path, c); }
  }

  lemma FromChunks(db: Db, h: Hier, path: Path, c: Chunk)
    requires WellFormed(h)
    requires Says(db, h, path, c) || exists i, p :: 0 <= i < |h.children| && InChild(db, h.children, i, path, p, c)
    ensures SomeNode(db, h, path, c)
  {
    hide Says;
    if Says(db, h, path, c) {
      assert path + [] == path && NodeAt(h, []) == Some(h);
    } else {
      var i, p :| 0 <= i < |h.children| && InChild(db, h.children, i, path, p, c);
      Below(db, h, i, path, p, c);
    }
  }

  lemma FromNode(db: Db, h: Hier, path: Path, c: Chunk)
    requires SomeNode(db, h, path, c)
    ensures Says(db, h, path, c) || exists i, p :: 0 <= i < |h.children| && InChild(db, h.children, i, path, p, c)
  {
    hide Says;
    var p :| NodeAt(h, p).Some? && Says(db, NodeAt(h, p).value, path + p, c);
    if p == [] {
      assert path + [] == path;
    } else {
      var i := IndexOf(h.children, p[0]);
      assert path + p == path + [p[0]] + p[1..];
      assert InChild(db, h.children, i, path, p[1..], c);
    }
  }

  ghost predicate InChild(db: Db, cs: seq<Hier>, i: nat, path: Path, p: Path, c: Chunk)
    requires i < |cs|
  {
    NodeAt(cs[i], p).Some? && Says(db, NodeAt(cs[i], p).value, path + [cs[i].topic] + p, c)
  }

  lemma Below(db: Db, h: Hier, i: nat, path: Path, p: Path, c: Chunk)
    requires i < |h.children| && DistinctTopics(h.children) && InChild(db, h.children, i, path, p, c)
    ensures SomeNode(db, h, path, c)
  {
    ChildUnique(h.children, i);
    var q := [h.children[i].topic] + p;
    assert q[1..] == p && path + q == path + [h.children[i].topic] + p;
    assert NodeAt(h, q) == NodeAt(h.children[i], p);
  }

  lemma {:induction false} ForestChunkIff(db: Db, cs: seq<Hier>, path: Path, c: Chunk)
    requires forall i :: 0 <= i < |cs| ==> WellFormed(cs[i])
    ensures c in ForestChunks(db, NameOf(path), cs) <==>
            exists i, p :: 0 <= i < |cs| && InChild(db, cs, i, path, p, c)
    decreases cs, 0
  {
    if cs != [] {
      var at := path + [cs[0].topic];
      assert at[..|at| - 1] == path;
      NodeChunkIff(db, cs[0], at, NameOf(path), c);
      ForestChunkIff(db, cs[1..], path, c);
      if c in ForestChunks(db, NameOf(path), cs) {
        if c in NodeChunks(db, NameOf(path), cs[0]) {
          var p :| NodeAt(cs[0], p).Some? && Says(db, NodeAt(cs[0], p).value, at + p, c);
          assert InChild(db, cs, 0, path, p, c);
        } else {
          var i, p :| 0 <= i < |cs| - 1 && InChild(db, cs[1..], i, path, p, c);
          assert InChild(db, cs, i + 1, path, p, c);
        }
      }
      if i, p :| 0 <= i < |cs| && InChild(db, cs, i, path, p, c) {
        if i == 0 {
          assert SomeNode(db, cs[0], at, c);
        } else {
          assert InChild(db, cs[1..], i - 1, path, p, c);
        }
      }
    }
  }

  // ---------------------------------------------------------- names stay valid

  lemma {:induction false} SplitJoin(p: Path)
    requires p != [] && forall l :: l in p ==> '/' !in l
    ensures Split(Join(p)) == p
    decreases |p|
  {
    assert p[0] in p && forall l :: l in p[1..] ==> l in p;
    if |p| == 1 {
      SplitNoSlash(p[0]);
    } else {
      var s := Join(p);
      SplitJoin(p[1..]);
      assert s[..|p[0]|] == p[0] && s[|p[0]|] == '/' && s[|p[0]| + 1..] == Join(p[1..]);
      SplitAtSlash(s, |p[0]|);
    }
  }

  lemma {:induction false} StripValid(p: Path)
    requires p != [] && ValidLevels(p)
    ensures ValidLevels(StripLead(p))
    decreases |p|
  {
    if |p| > 1 && p[0] == "" { StripValid(p[1..]); }
  }

  lemma NameLevels(filter: string)
    ensures Split(NameOf(FullPath(filter))) == StripLead(FullPath(filter))
  {
    var p := FullPath(filter);
    SplitSlashFree(filter);
    NameIs(p);
    forall l | l in p ensures '/' !in l { assert l == "" || l in Split(filter); }
    var r := StripLead(p);
    hide *;
    assert forall l :: l in r ==> l in p;
    SplitJoin(r);
  }

  lemma NameValid(filter: string)
    requires ValidLevels(Split(filter))
    ensures ValidLevels(Tokens(NameOf(FullPath(filter))))
  {
    FullPathValid(filter);
    NameLevels(filter);
    StripValid(FullPath(filter));
    TokensValid(NameOf(FullPath(filter)));
  }

  lemma TokensValid(s: string)
    requires ValidLevels(Split(s))
    ensures ValidLevels(Tokens(s))
  {
    var ts := Tokens(s);
    assert ([""] + Split(s))[1..] == Split(s) && [] + Split(s) == Split(s) && NoWild("");
    assert ts == Split(s) || (ts[0] == "" && ts[1..] == Split(s));
  }
}
