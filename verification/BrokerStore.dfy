/** The broker's message store with everything that points into it: the
    queues of all clients and the retained slots of the tree. */
module BrokerStore {
  import opened Common
  import opened SubTree
  import opened ClientQueue
  import opened MsgStore

  datatype Session = Session(id: ClientId, connected: bool, lastMid: Mid, msgs: seq<ClientMsg>)

  /** `leaked` and `created` are logs: messages stored for nothing, and every
      outgoing entry made from a fresh message, with its client. */
  datatype Broker = Broker(stores: Stores, lastDbId: StoreId, clients: seq<Session>, slots: seq<Option<StoreId>>,
                           leaked: set<StoreId>, created: seq<(StoreId, ClientId)>)

  datatype Setup = Setup(lim: Limits, cfg: Config)

  // ------------------------------------------------------- single updates

  function NewStore(b: Broker, source: ClientId, mid: Mid, topic: Option<string>, qos: Qos, retain: bool,
                    hasPayload: bool): (r: Broker)
    ensures r.lastDbId in r.stores
  {
    var id := b.lastDbId + 1;
    b.(stores := b.stores[id := Store(0, source, mid, topic, qos, retain, hasPayload, [])], lastDbId := id,
       leaked := b.leaked + {id})
  }

  function WithMsgs(b: Broker, c: nat, msgs: seq<ClientMsg>): (r: Broker)
    requires c < |b.clients|
    ensures |r.clients| == |b.clients|
  {
    b.(clients := b.clients[c := b.clients[c].(msgs := msgs)])
  }

  /** Queue a stored message for client `c`, if it is not there already and
      the queue has room. */
  function Insert(u: Setup, b: Broker, c: nat, mid: Mid, dir: Direction, qos: Qos, retain: bool,
                  id: StoreId): (r: Broker)
    requires c < |b.clients| && id in b.stores
    ensures |r.clients| == |b.clients| && |r.slots| == |b.slots| && id in r.stores
    ensures r.leaked <= b.leaked && r.lastDbId == b.lastDbId
  {
    var s := b.clients[c];
    if AlreadySent(u.cfg, b.stores[id], s.id, dir, retain) then b
    else
      match Admit(u.lim, u.cfg, s.connected, Count12(s.msgs), dir, qos)
      case Refuse(_) => b
      case Accept(state, _) =>
        WithMsgs(b, c, s.msgs + [ClientMsg(id, mid, qos, retain, dir, state, false)])
          .(stores := Taken(u.cfg, b.stores, id, s.id, dir, retain), leaked := b.leaked - {id},
            created := if dir == Out && !retain then b.created + [(id, s.id)] else b.created)
  }

  /** The next message id of a client is used up for QoS 1 and 2 only. */
  function InsertOut(u: Setup, b: Broker, c: nat, qos: Qos, retain: bool, id: StoreId): (r: Broker)
    requires c < |b.clients| && id in b.stores
    ensures |r.clients| == |b.clients| && |r.slots| == |b.slots| && id in r.stores
    ensures r.leaked <= b.leaked && r.lastDbId == b.lastDbId
  {
    if qos == 0 then Insert(u, b, c, 0, Out, 0, retain, id)
    else
      var mid := NextMid(b.clients[c].lastMid);
      Insert(u, b.(clients := b.clients[c := b.clients[c].(lastMid := mid)]), c, mid, Out, qos, retain, id)
  }

  /** A retained slot gives up its message and takes the new one, unless that
      one is empty. */
  function SetSlot(b: Broker, slot: nat, id: StoreId): (r: Broker)
    requires slot < |b.slots|
    ensures |r.clients| == |b.clients| && |r.slots| == |b.slots|
    ensures r.leaked <= b.leaked && r.lastDbId == b.lastDbId
  {
    var stores := if b.slots[slot].Some? then Deref(b.stores, b.slots[slot].value) else b.stores;
    if id in stores && stores[id].hasPayload
    then b.(stores := Ref(stores, id), slots := b.slots[slot := Some(id)], leaked := b.leaked - {id})
    else b.(stores := stores, slots := b.slots[slot := None])
  }

  // --------------------------------------------------- handing a message on

  /** What the walk through the tree does at each node: set its retained slot,
      or copy the message to one of its leaves. */
  datatype Work = Keep(slot: nat) | Copy(client: nat, granted: Qos)

  function DoWork(u: Setup, b: Broker, id: StoreId, qos: Qos, w: Work): (r: Broker)
    ensures |r.clients| == |b.clients| && |r.slots| == |b.slots|
    ensures r.leaked <= b.leaked && r.lastDbId == b.lastDbId
  {
    match w
    case Keep(slot) => if slot < |b.slots| then SetSlot(b, slot, id) else b
    case Copy(c, granted) =>
      if c < |b.clients| && id in b.stores
      then InsertOut(u, b, c, GrantedQos(u.cfg, qos, granted), false, id)
      else b
  }

  function DoWorks(u: Setup, b: Broker, id: StoreId, qos: Qos, work: seq<Work>): (r: Broker)
    ensures |r.clients| == |b.clients| && |r.slots| == |b.slots|
    ensures r.leaked <= b.leaked && r.lastDbId == b.lastDbId
    decreases |work|
  {
    if work == [] then b else DoWorks(u, DoWork(u, b, id, qos, work[0]), id, qos, work[1..])
  }

  function Protect(b: Broker, id: StoreId): Broker
    requires id in b.stores
  {
    b.(stores := Ref(b.stores, id), leaked := b.leaked - {id})
  }

  /** The message is protected while the tree is walked. */
  function MessagesQueue(u: Setup, b: Broker, id: StoreId, qos: Qos, work: seq<Work>): (r: Broker)
    requires id in b.stores
    ensures |r.clients| == |b.clients| && |r.slots| == |b.slots|
    ensures r.leaked <= b.leaked - {id} && r.lastDbId == b.lastDbId
  {
    var b' := DoWorks(u, Protect(b, id), id, qos, work);
    b'.(stores := Deref(b'.stores, id))
  }

  // -------------------------------------------------------------- releasing

  /** The entry at `i` of client `c` is taken out of the queue. */
  function RemoveAt(u: Setup, b: Broker, c: nat, i: nat): (r: Broker)
    requires c < |b.clients| && i < |b.clients[c].msgs|
    ensures |r.clients| == |b.clients| && |r.slots| == |b.slots|
    ensures r.leaked <= b.leaked && r.lastDbId == b.lastDbId
  {
    var msgs := b.clients[c].msgs;
    WithMsgs(b, c, PromoteHead(DropAt(msgs, i), u.lim)).(stores := Deref(b.stores, msgs[i].store))
  }

  function TouchAt(u: Setup, b: Broker, c: nat, i: nat, index: nat): (r: Broker)
    requires c < |b.clients| && i < |b.clients[c].msgs|
    ensures |r.clients| == |b.clients| && |r.clients[c].msgs| == |b.clients[c].msgs|
  {
    var msgs := b.clients[c].msgs;
    WithMsgs(b, c, msgs[i := Touched(msgs[i], index, u.lim)])
  }

  /** The release loop over the queue of client `c`, handing on each match
      before taking it out. `works` says what the tree does for each. */
  function ReleaseFrom(u: Setup, b: Broker, c: nat, i: nat, index: nat, mid: Mid, deleted: bool,
                       works: seq<seq<Work>>): (r: Broker)
    requires c < |b.clients|
    ensures |r.clients| == |b.clients| && |r.slots| == |b.slots|
    ensures r.leaked <= b.leaked && r.lastDbId == b.lastDbId
    decreases |works|, |b.clients[c].msgs| - i
  {
    if i >= |b.clients[c].msgs| then b
    else
      var b1 := TouchAt(u, b, c, i, index + 1);
      var m := b1.clients[c].msgs[i];
      if IsEntry(m, mid, In) then
        var b2 := if works == [] || m.store !in b1.stores || b1.stores[m.store].topic == None then b1
                  else MessagesQueue(u, b1, m.store, b1.stores[m.store].qos, works[0]);
        if i >= |b2.clients[c].msgs| then b2
        else
          var b3 := RemoveAt(u, b2, c, i);
          if index + 1 > u.lim.inflight then b3
          else if works == [] then ReleaseFrom(u, b3, c, i, index + 1, mid, true, [])
          else ReleaseFrom(u, b3, c, i, index + 1, mid, true, works[1..])
      else if index + 1 > u.lim.inflight && deleted then b1
      else ReleaseFrom(u, b1, c, i + 1, index + 1, mid, deleted, works)
  }

  // ------------------------------------------------------------- operations

  datatype Op =
    | Arrive(c: nat, mid: Mid, qos: Qos, topic: string, retain: bool, hasPayload: bool, work: seq<Work>)
    | ArriveQos2(c: nat, mid: Mid, access: Option<string>, retain: bool, hasPayload: bool)
    | Release(c: nat, mid: Mid, works: seq<seq<Work>>)
    | Acknowledged(c: nat, mid: Mid)
    | Received(c: nat, mid: Mid)
    | Expire(c: nat, expired: seq<bool>)
    | Write(c: nat, budget: nat)
    | Disconnect(c: nat)
    | Reconnect(c: nat)
    | Clean(c: nat)
    | Offer(c: nat, from: seq<nat>, granted: Qos)
    | Join(id: ClientId)
    | NewSlot

  /** QoS 0 and 1: stored, handed on, and let go. A QoS 1 message under the id
      of a QoS 2 message that still waits is taken for that one. */
  function DoArrive(u: Setup, b: Broker, c: nat, mid: Mid, qos: Qos, topic: string, retain: bool, hasPayload: bool,
                    work: seq<Work>): Broker
    requires c < |b.clients|
  {
    var found := if qos > 0 then FindIncoming(b.clients[c].msgs, b.stores, mid) else None;
    if found.Some? && found.value in b.stores then MessagesQueue(u, b, found.value, qos, work)
    else
      var b' := NewStore(b, b.clients[c].id, mid, Some(topic), qos, retain, hasPayload);
      MessagesQueue(u, b', b'.lastDbId, qos, work)
  }

  /** QoS 2: stored and queued until its PUBREL; `topic` is absent when access
      was denied. */
  function DoArriveQos2(u: Setup, b: Broker, c: nat, mid: Mid, topic: Option<string>, retain: bool,
                        hasPayload: bool): Broker
    requires c < |b.clients|
  {
    if FindIncoming(b.clients[c].msgs, b.stores, mid).Some? then b
    else
      var b' := NewStore(b, b.clients[c].id, mid, topic, 2, retain, hasPayload);
      Insert(u, b', c, mid, In, 2, retain, b'.lastDbId)
  }

  /** Retained messages offered to a new subscription, at the lower QoS. */
  function DoOffer(u: Setup, b: Broker, c: nat, from: seq<nat>, granted: Qos): (r: Broker)
    requires c < |b.clients|
    ensures |r.clients| == |b.clients|
    ensures r.leaked <= b.leaked && r.lastDbId == b.lastDbId
    decreases |from|
  {
    if from == [] then b
    else
      var b' :=
        if from[0] < |b.slots| && b.slots[from[0]].Some? && b.slots[from[0]].value in b.stores then
          var id := b.slots[from[0]].value;
          InsertOut(u, b, c, if b.stores[id].qos > granted then granted else b.stores[id].qos, true, id)
        else b;
      DoOffer(u, b', c, from[1..], granted)
  }

  function Freeing(b: Broker, c: nat, msgs: seq<ClientMsg>, gone: seq<ClientMsg>): Broker
    requires c < |b.clients|
  {
    WithMsgs(b, c, msgs).(stores := DerefAll(b.stores, StoresOf(gone)))
  }

  /** Packets arrive from connected clients, and only those are looked after
      by the timer. */
  predicate Possible(b: Broker, op: Op) {
    op.Join? || op.NewSlot? ||
    (op.c < |b.clients| && (b.clients[op.c].connected || op.Disconnect? || op.Reconnect? || op.Clean?))
  }

  function Step(u: Setup, b: Broker, op: Op): Broker {
    if !Possible(b, op) then b
    else
      match op
      case Arrive(c, mid, qos, topic, retain, hasPayload, work) =>
        if qos == 2 then b else DoArrive(u, b, c, mid, qos, topic, retain, hasPayload, work)
      case ArriveQos2(c, mid, topic, retain, hasPayload) => DoArriveQos2(u, b, c, mid, topic, retain, hasPayload)
      case Release(c, mid, works) => ReleaseFrom(u, b, c, 0, 0, mid, false, works)
      case Acknowledged(c, mid) =>
        var r := Delete(b.clients[c].msgs, mid, Out, u.lim);
        Freeing(b, c, r.msgs, r.removed)
      case Received(c, mid) => WithMsgs(b, c, Update(b.clients[c].msgs, mid, Out, WaitForPubcomp))
      case Expire(c, expired) =>
        if |expired| == |b.clients[c].msgs| then WithMsgs(b, c, Timeout(b.clients[c].msgs, expired)) else b
      case Write(c, budget) =>
        if IncomingQos2(b.clients[c].msgs) then
          var w := WriteFrom([], b.clients[c].msgs, u.lim, budget, 0);
          Freeing(b, c, w.msgs, w.gone)
        else b
      case Disconnect(c) => b.(clients := b.clients[c := b.clients[c].(connected := false)])
      case Reconnect(c) =>
        b.(clients := b.clients[c := b.clients[c].(connected := true, msgs := Reset(b.clients[c].msgs, u.lim))])
      case Clean(c) => Freeing(b, c, [], b.clients[c].msgs)
      case Offer(c, from, granted) => DoOffer(u, b, c, from, granted)
      case Join(id) => b.(clients := b.clients + [Session(id, true, 0, [])])
      case NewSlot => b.(slots := b.slots + [None])
  }

  function Run(u: Setup, ops: seq<Op>): Broker {
    if ops == [] then Broker(map[], 0, [], [], {}, []) else Step(u, Run(u, ops[..|ops| - 1]), ops[|ops| - 1])
  }
}
