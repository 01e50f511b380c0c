/** The broker's store of messages: every stored message carries a count of
    the references to it and the list of clients it has been queued for. */
module MsgStore {
  import opened Common
  import opened SubTree
  import opened ClientQueue

  /** `topic` is absent for a QoS 2 message that was refused on arrival. */
  datatype Store = Store(refCount: int, sourceId: ClientId, sourceMid: Mid, topic: Option<string>,
                         qos: Qos, retain: bool, hasPayload: bool, destIds: seq<ClientId>)

  type Stores = map<StoreId, Store>

  function Ref(stores: Stores, id: StoreId): Stores
    requires id in stores
  {
    stores[id := stores[id].(refCount := stores[id].refCount + 1)]
  }

  /** One reference less; the message goes when none is left. */
  function Deref(stores: Stores, id: StoreId): Stores {
    if id !in stores then stores
    else if stores[id].refCount == 1 then stores - {id}
    else stores[id := stores[id].(refCount := stores[id].refCount - 1)]
  }

  function DerefAll(stores: Stores, ids: seq<StoreId>): Stores
    decreases |ids|
  {
    if ids == [] then stores else DerefAll(Deref(stores, ids[0]), ids[1..])
  }

  function StoresOf(msgs: seq<ClientMsg>): (r: seq<StoreId>)
    ensures |r| == |msgs| && forall i :: 0 <= i < |r| ==> r[i] == msgs[i].store
  {
    if msgs == [] then [] else [msgs[0].store] + StoresOf(msgs[1..])
  }

  function RefsIn(msgs: seq<ClientMsg>): multiset<StoreId> {
    multiset(StoresOf(msgs))
  }

  /** The entries of a queue point at messages that count them. */
  ghost predicate Backed(msgs: seq<ClientMsg>, stores: Stores) {
    forall id :: id in RefsIn(msgs) ==> id in stores && stores[id].refCount >= RefsIn(msgs)[id]
  }

  /** The messages among released entries that are handed on: those with a
      topic. */
  function HandedOn(stores: Stores, released: seq<ClientMsg>): seq<StoreId> {
    if released == [] then []
    else
      (if released[0].store in stores && stores[released[0].store].topic.Some? then [released[0].store] else [])
      + HandedOn(stores, released[1..])
  }

  lemma {:induction false} HandedOnConcat(stores: Stores, a: seq<ClientMsg>, b: seq<ClientMsg>)
    ensures HandedOn(stores, a + b) == HandedOn(stores, a) + HandedOn(stores, b)
  {
    if a == [] {
      assert a + b == b;
    } else {
      assert (a + b)[1..] == a[1..] + b;
      HandedOnConcat(stores, a[1..], b);
    }
  }

  // ---------------------------------------------------------- admission

  datatype Config = Config(allowDuplicates: bool, queueQos0: bool, upgradeQos: bool)

  /** What the queue decides about a new entry: turn it away with a return
      code, or take it in with a state and a return code. */
  datatype Verdict = Refuse(rc: int) | Accept(state: MsgState, rc: int)

  /** Room in the queue: a connected client takes entries at once up to the
      first limit and makes them wait up to the second; a disconnected client
      only makes them wait. Entries of QoS 0 do not count. */
  function Admit(lim: Limits, cfg: Config, connected: bool, count12: int, dir: Direction, qos: Qos): Verdict {
    if connected then
      if qos == 0 || lim.inflight == 0 || count12 < lim.inflight then
        if dir == Out then Accept(StartState(qos), 0)
        else if qos == 2 then Accept(WaitForPubrel, 0)
        else Refuse(1)
      else if lim.queued == 0 || count12 - lim.inflight < lim.queued then Accept(Queued, 2)
      else Refuse(2)
    else if qos == 0 && !cfg.queueQos0 then Refuse(2)
    else if lim.queued > 0 && count12 >= lim.queued then Refuse(2)
    else Accept(Queued, 0)
  }

  /** A fresh outgoing message goes to one client only once. */
  predicate AlreadySent(cfg: Config, s: Store, client: ClientId, dir: Direction, retain: bool) {
    !cfg.allowDuplicates && dir == Out && !retain && client in s.destIds
  }

  /** The message gains a reference and, if copies are watched, the client. */
  function Taken(cfg: Config, stores: Stores, id: StoreId, client: ClientId, dir: Direction, retain: bool): Stores
    requires id in stores
  {
    var s := stores[id].(refCount := stores[id].refCount + 1);
    stores[id := if !cfg.allowDuplicates && dir == Out && !retain then s.(destIds := s.destIds + [client]) else s]
  }

  /** The QoS a fresh message is queued with for a subscription. */
  function GrantedQos(cfg: Config, qos: Qos, granted: Qos): Qos {
    if cfg.upgradeQos then granted else if qos > granted then granted else qos
  }

  /** 16-bit message ids; zero is skipped. */
  function NextMid(mid: Mid): Mid {
    var next := (mid + 1) % 0x10000;
    if next == 0 then 1 else next
  }

  /** The first incoming entry whose message came with this id. */
  function FindIncoming(msgs: seq<ClientMsg>, stores: Stores, mid: Mid): Option<StoreId> {
    if msgs == [] then None
    else if msgs[0].direction == In && msgs[0].store in stores && stores[msgs[0].store].sourceMid == mid
    then Some(msgs[0].store)
    else FindIncoming(msgs[1..], stores, mid)
  }

  lemma StoresOfAt(msgs: seq<ClientMsg>, i: nat)
    requires i < |msgs|
    ensures RefsIn(msgs) == RefsIn(DropAt(msgs, i)) + multiset{msgs[i].store}
  {
    assert StoresOf(DropAt(msgs, i)) == DropAt(StoresOf(msgs), i);
    hide StoresOf;
    MultisetDrop(StoresOf(msgs), i);
  }

  lemma MultisetDrop(ids: seq<StoreId>, i: nat)
    requires i < |ids|
    ensures multiset(ids) == multiset(DropAt(ids, i)) + multiset{ids[i]}
  {
    assert ids == ids[..i] + ([ids[i]] + ids[i + 1..]);
  }

  lemma BackedDrop(msgs: seq<ClientMsg>, i: nat, stores: Stores)
    requires i < |msgs| && Backed(msgs, stores)
    ensures msgs[i].store in stores
    ensures Backed(DropAt(msgs, i), Deref(stores, msgs[i].store))
  {
    StoresOfAt(msgs, i);
    var id := msgs[i].store;
    assert id in RefsIn(msgs);
    forall k | k in RefsIn(DropAt(msgs, i))
      ensures k in Deref(stores, id) && Deref(stores, id)[k].refCount >= RefsIn(DropAt(msgs, i))[k]
    {
      assert k in RefsIn(msgs);
    }
  }

  lemma StoresOfConcat(a: seq<ClientMsg>, b: seq<ClientMsg>)
    ensures StoresOf(a + b) == StoresOf(a) + StoresOf(b)
    ensures RefsIn(a + b) == RefsIn(a) + RefsIn(b)
  {
    assert StoresOf(a + b) == StoresOf(a) + StoresOf(b);
  }

  lemma SameStoresBacked(a: seq<ClientMsg>, b: seq<ClientMsg>, stores: Stores)
    requires |a| == |b| && forall i :: 0 <= i < |a| ==> a[i].store == b[i].store
    ensures StoresOf(a) == StoresOf(b)
    ensures Backed(a, stores) ==> Backed(b, stores)
  {
  }

  class StoreTable {
    var stores: Stores
    var lastDbId: nat

    constructor ()
      ensures stores == map[] && lastDbId == 0
    {
      stores, lastDbId := map[], 0;
    }

    /** A new message enters with no reference. */
    method Add(source: ClientId, mid: Mid, topic: Option<string>, qos: Qos, retain: bool, hasPayload: bool)
      returns (id: StoreId)
      modifies this
      ensures id == old(lastDbId) + 1 == lastDbId
      ensures stores == old(stores)[id := Store(0, source, mid, topic, qos, retain, hasPayload, [])]
    {
      lastDbId := lastDbId + 1;
      id := lastDbId;
      stores := stores[id := Store(0, source, mid, topic, qos, retain, hasPayload, [])];
    }

    /** Give one reference back, freeing the message with its last one. */
    method Release(id: StoreId)
      requires id in stores
      modifies this`stores
      ensures stores == Deref(old(stores), id)
    {
      var s := stores[id].(refCount := stores[id].refCount - 1);
      stores := stores[id := s];
      if s.refCount == 0 {
        stores := stores - {id};
      }
    }
  }
}
