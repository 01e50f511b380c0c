/** What queueing a message for a client does. */
module CopyLaws {
  import opened SubTree
  import opened ClientQueue
  import opened MsgStore
  import opened BrokerStore

  // ------------------------------------------------------------ in plain words

  /** The lower of the two, or with upgrading the one of the subscription. A
      SUBSCRIBE asks for no more than 2. */
  predicate RightQos(upgrade: bool, q: Qos, qos: Qos, granted: nat) {
    if upgrade then q == granted || (granted > 2 && q == 2)
    else q <= qos && q <= granted && (q == qos || q == granted)
  }

  /** The entries that count against the limits. */
  function Held(msgs: seq<ClientMsg>): nat {
    |set i | 0 <= i < |msgs| && msgs[i].qos > 0|
  }

  predicate AtOnce(u: Setup, connected: bool, held: nat, q: Qos) {
    connected && (q == 0 || u.lim.inflight == 0 || held < u.lim.inflight)
  }

  /** A connected client has room up to both limits together, a disconnected one
      up to the second; a limit of zero is none, and QoS 0 is not counted, but
      kept for a disconnected client only if the broker is told to. */
  predicate HasRoom(u: Setup, connected: bool, held: nat, q: Qos) {
    if connected then
      q == 0 || u.lim.inflight == 0 || u.lim.queued == 0 || held < u.lim.inflight + u.lim.queued
    else (q > 0 || u.cfg.queueQos0) && (u.lim.queued == 0 || held < u.lim.queued)
  }

  /** A fresh outgoing entry for the message. */
  predicate EntryFor(u: Setup, connected: bool, held: nat, id: StoreId, q: Qos, retain: bool, m: ClientMsg) {
    m.store == id && m.qos == q && m.retain == retain && m.direction == Out && !m.dup &&
    (if q == 0 then m.mid == 0 else 1 <= m.mid <= 65535) &&
    if AtOnce(u, connected, held, q)
    then (q == 0 && m.state == PublishQos0) || (q == 1 && m.state == PublishQos1) || (q == 2 && m.state == PublishQos2)
    else m.state == Queued
  }

  /** One entry, unless the client must not get another or has no room. */
  predicate Queues(u: Setup, connected: bool, given: bool, held: nat, id: StoreId, q: Qos, retain: bool,
                   piece: seq<ClientMsg>) {
    if given || !HasRoom(u, connected, held, q) then piece == []
    else |piece| == 1 && EntryFor(u, connected, held, id, q, retain, piece[0])
  }

  // ------------------------------------------------------------------- one copy

  lemma {:induction false} HeldIs(msgs: seq<ClientMsg>)
    ensures Held(msgs) == Count12(msgs)
  {
    if msgs == [] {
      assert Held([]) == 0;
    } else {
      var n := |msgs| - 1;
      var front, m := msgs[..n], msgs[n];
      assert msgs == front + [m];
      HeldIs(front);
      Count12Append(front, m);
      var a, b := set i | 0 <= i < |msgs| && msgs[i].qos > 0, set i | 0 <= i < n && front[i].qos > 0;
      assert a == if m.qos > 0 then b + {n} else b;
    }
  }

  lemma GrantedIsRight(cfg: Config, qos: Qos, granted: nat)
    ensures RightQos(cfg.upgradeQos, GrantedQos(cfg, qos, if granted <= 2 then granted else 2), qos, granted)
  {
  }

  lemma NextMidRange(mid: Mid)
    ensures 1 <= NextMid(mid) <= 65535
  {
  }

  lemma Admits(u: Setup, connected: bool, held: nat, id: StoreId, mid: Mid, q: Qos, retain: bool)
    requires if q == 0 then mid == 0 else 1 <= mid <= 65535
    ensures var v := Admit(u.lim, u.cfg, connected, held, Out, q);
            v.Accept? == HasRoom(u, connected, held, q) &&
            (v.Accept? ==> EntryFor(u, connected, held, id, q, retain,
                                    ClientMsg(id, mid, q, retain, Out, v.state, false)))
  {
  }

  /** For an outgoing entry nothing changes but the queue of the one client, its
      last id, and the record of where the message went. */
  lemma InsertQueues(u: Setup, b: Broker, c: nat, mid: Mid, q: Qos, retain: bool, id: StoreId)
    returns (piece: seq<ClientMsg>)
    requires c < |b.clients| && id in b.stores
    requires if q == 0 then mid == 0 else 1 <= mid <= 65535
    ensures piece != [] ==> piece[0].mid == mid
    ensures var r, s := Insert(u, b, c, mid, Out, q, retain, id), b.clients[c];
            var given := !u.cfg.allowDuplicates && !retain && s.id in b.stores[id].destIds;
            r.clients == b.clients[c := s.(msgs := s.msgs + piece)] && r.slots == b.slots &&
            Queues(u, s.connected, given, Held(s.msgs), id, q, retain, piece) &&
            Recorded(u, b, r, id, s.id, retain, piece)
  {
    var s := b.clients[c];
    HeldIs(s.msgs);
    Admits(u, s.connected, Held(s.msgs), id, mid, q, retain);
    var r := Insert(u, b, c, mid, Out, q, retain, id);
    var v := Admit(u.lim, u.cfg, s.connected, Held(s.msgs), Out, q);
    hide Admit, HasRoom, EntryFor, Count12, Held;
    if AlreadySent(u.cfg, b.stores[id], s.id, Out, retain) || v.Refuse? {
      piece := [];
      assert r == b;
      assert s.msgs + [] == s.msgs && b.clients[c := s] == b.clients;
      assert b.stores[id := b.stores[id]] == b.stores && b.stores[id].destIds + [] == b.stores[id].destIds;
    } else {
      piece := [ClientMsg(id, mid, q, retain, Out, v.state, false)];
      assert b.stores[id].destIds + [] == b.stores[id].destIds;
    }
  }

  /** The message counts the new entry and notes the client, if clients are
      noted; nothing else about it changes, and no other message does. */
  predicate Recorded(u: Setup, b: Broker, r: Broker, id: StoreId, client: ClientId, retain: bool, piece: seq<ClientMsg>)
    requires id in b.stores
  {
    var noted := if piece != [] && !u.cfg.allowDuplicates && !retain then [client] else [];
    r.stores == b.stores[id := b.stores[id].(refCount := b.stores[id].refCount + |piece|,
                                             destIds := b.stores[id].destIds + noted)]
  }

  /** The id behind the last one; zero is skipped. */
  predicate Follows(last: Mid, mid: Mid) {
    (last < 65535 ==> mid == last + 1) && (last == 65535 ==> mid == 1)
  }

  /** A copy under the next id of the client, which is used up for QoS 1 and 2
      whether there is room or not. */
  lemma CopyQueues(u: Setup, b: Broker, c: nat, q: Qos, retain: bool, id: StoreId)
    returns (mid: Mid, piece: seq<ClientMsg>)
    requires c < |b.clients| && id in b.stores
    ensures var r, s := InsertOut(u, b, c, q, retain, id), b.clients[c];
            var given := !u.cfg.allowDuplicates && !retain && s.id in b.stores[id].destIds;
            r.clients == b.clients[c := s.(lastMid := mid, msgs := s.msgs + piece)] && r.slots == b.slots &&
            Queues(u, s.connected, given, Held(s.msgs), id, q, retain, piece) &&
            Recorded(u, b, r, id, s.id, retain, piece)
    ensures if q == 0 then mid == b.clients[c].lastMid else Follows(b.clients[c].lastMid, mid)
    ensures q > 0 && piece != [] ==> piece[0].mid == mid
  {
    hide Insert, Held, Queues, HasRoom, EntryFor;
    var s := b.clients[c];
    if q == 0 {
      mid := s.lastMid;
      piece := InsertQueues(u, b, c, 0, q, retain, id);
    } else {
      mid := NextMid(s.lastMid);
      var b' := b.(clients := b.clients[c := s.(lastMid := mid)]);
      piece := InsertQueues(u, b', c, mid, q, retain, id);
    }
  }

  function Flat(pieces: seq<seq<ClientMsg>>): seq<ClientMsg> {
    if pieces == [] then [] else pieces[0] + Flat(pieces[1..])
  }

  lemma FlatNext(first: seq<ClientMsg>, pieces: seq<seq<ClientMsg>>, i: nat)
    requires i <= |pieces|
    ensures Flat(([first] + pieces)[..i + 1]) == first + Flat(pieces[..i])
    ensures Flat([first] + pieces) == first + Flat(pieces)
  {
    assert ([first] + pieces)[..i + 1][1..] == pieces[..i];
    assert ([first] + pieces)[1..] == pieces;
  }
}
