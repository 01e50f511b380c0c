/** The QoS 2 exchange of section 4.3.3 of MQTT Version 3.1.1: the client
    library as sender, the broker as receiver, two FIFO channels between
    them. Both in-flight limits are zero and message ids are not reused. */
module Qos2 {
  import opened Common
  import Q = ClientQueue
  import S = MsgStore
  import L = ClientLib
  import SubTree

  type Mid = nat
  type Content = string

  const UNLIMITED := Q.Limits(0, 0)
  const CONFIG := S.Config(true, false, false)

  // -------------------------------------------------------------- the state

  datatype State = State(
    lib: L.Lib,                      // the sender's queue of outgoing messages
    lastMid: Mid,
    queue: seq<Q.ClientMsg>,         // the receiver's queue for this client
    stores: S.Stores,
    lastDbId: SubTree.StoreId,
    connected: bool,
    toBroker: seq<L.LibPacket>,
    toClient: seq<Q.Packet>,
    accepted: map<Mid, Content>,     // every message the library took
    fired: seq<Mid>,                 // the calls of on_publish
    refused: seq<Mid>,               // what access control denied on arrival
    released: seq<Mid>,              // every entry the receiver finished
    handed: seq<(Mid, Content)>)     // what was handed to the subscribers

  function Initial(): State {
    State(L.Lib([], 0, 0), 0, [], map[], 0, true, [], [], map[], [], [], [], [])
  }

  datatype Action =
    | Publish(content: Content)                      // mosquitto_publish with QoS 2
    | Retry(i: nat)                                  // the library's retry check, one message
    | ClientReads                                    // the next packet from the broker
    | BrokerReads(allowed: bool, own: seq<Q.ClientMsg>)  // the next packet from the client
    | BrokerTimeout(expired: seq<bool>)
    | BrokerWrites(budget: nat)
    | BrokerOutgoing(queue: seq<Q.ClientMsg>)        // traffic towards this client
    | Lose                                           // the connection breaks
    | Reconnect                                      // both sessions are kept

  // ------------------------------------------------------------- the sender

  /** Ids are taken in turn; a run in which one would be used twice is not
      considered. */
  function DoPublish(s: State, content: Content): State {
    var mid := S.NextMid(s.lastMid);
    if mid in s.accepted then s
    else
      var sent := if s.connected then [L.Pub(mid, true, content, false)] else [];
      s.(lib := L.Accept(s.lib, mid, true, content), lastMid := mid,
         accepted := s.accepted[mid := content], toBroker := s.toBroker + sent)
  }

  function DoRetry(s: State, i: nat): State {
    if !s.connected || i >= |s.lib.out| || L.Retry(s.lib.out[i]) == None then s
    else
      s.(lib := s.lib.(out := s.lib.out[i := s.lib.out[i].(dup := true)]),
         toBroker := s.toBroker + [L.Retry(s.lib.out[i]).value])
  }

  /** A PUBREC for an unknown id is an error that closes the connection. */
  function DoClientReads(s: State): State {
    if !s.connected || s.toClient == [] then s
    else
      var p, s' := s.toClient[0], s.(toClient := s.toClient[1..]);
      match p
      case PUBREC(mid) =>
        if L.Find(s.lib.out, mid) == |s.lib.out| then Broken(s')
        else s'.(lib := L.Received(s.lib, mid), toBroker := s.toBroker + [L.Rel(mid)])
      case PUBCOMP(mid) =>
        if L.Find(s.lib.out, mid) == |s.lib.out| then s'
        else s'.(lib := L.Acknowledge(s.lib, mid, |s.lib.out|).lib, fired := s.fired + [mid])
      case _ => s'
  }

  function Broken(s: State): State {
    s.(connected := false, toBroker := [], toClient := [])
  }

  // ----------------------------------------------------------- the receiver

  /** A PUBLISH of QoS 2: a message already waiting under this id is only
      answered again; a new one is stored and queued, without its topic when
      access is denied. */
  function DoBrokerPublish(s: State, mid: Mid, content: Content, allowed: bool): State {
    var answered := s.(toClient := s.toClient + [Q.PUBREC(mid)]);
    if S.FindIncoming(s.queue, s.stores, mid).Some? then answered
    else
      var id := s.lastDbId + 1;
      var store := S.Store(0, "", mid, if allowed then Some(content) else None, 2, false, true, []);
      match S.Admit(UNLIMITED, CONFIG, s.connected, Q.Count12(s.queue), Q.In, 2)
      case Accept(state, rc) =>
        answered.(queue := s.queue + [Q.ClientMsg(id, mid, 2, false, Q.In, state, false)],
                  stores := S.Taken(CONFIG, s.stores[id := store], id, "", Q.In, false), lastDbId := id,
                  refused := if allowed then s.refused else s.refused + [mid])
      case Refuse(rc) => s
  }

  /** A PUBREL: the entry is handed on and removed, and PUBCOMP is answered
      whether an entry was found or not. `own` is what handing it on put into
      this client's own queue. */
  function DoBrokerRelease(s: State, mid: Mid, own: seq<Q.ClientMsg>): State {
    AfterSweep(s, mid, Q.Sweep([], s.queue, 0, mid, Q.In, UNLIMITED, true, false, [own]))
  }

  function AfterSweep(s: State, mid: Mid, r: Q.Swept): State {
    s.(queue := r.msgs, stores := S.DerefAll(s.stores, S.StoresOf(r.removed)),
       toClient := s.toClient + r.sent + [Q.PUBCOMP(mid)],
       released := s.released + MidsOf(r.removed),
       handed := s.handed + HandedOf(s.stores, r.removed))
  }

  function MidsOf(msgs: seq<Q.ClientMsg>): seq<Mid> {
    if msgs == [] then [] else [msgs[0].mid] + MidsOf(msgs[1..])
  }

  function HandedOf(stores: S.Stores, msgs: seq<Q.ClientMsg>): seq<(Mid, Content)> {
    if msgs == [] then []
    else
      (if msgs[0].store in stores && stores[msgs[0].store].topic.Some?
       then [(msgs[0].mid, stores[msgs[0].store].topic.value)] else [])
      + HandedOf(stores, msgs[1..])
  }

  predicate AllOut(msgs: seq<Q.ClientMsg>) {
    forall m :: m in msgs ==> m.direction == Q.Out
  }

  function DoBrokerReads(s: State, allowed: bool, own: seq<Q.ClientMsg>): State {
    if !s.connected || s.toBroker == [] || !AllOut(own) || !OutProper(own) then s
    else
      var p, s' := s.toBroker[0], s.(toBroker := s.toBroker[1..]);
      match p
      case Pub(mid, qos2, content, dup) => DoBrokerPublish(s', mid, content, allowed)
      case Rel(mid) => DoBrokerRelease(s', mid, own)
  }

  function Incoming(msgs: seq<Q.ClientMsg>): seq<Q.ClientMsg> {
    if msgs == [] then []
    else (if msgs[0].direction == Q.In then [msgs[0]] else []) + Incoming(msgs[1..])
  }

  /** An outgoing entry never waits for, or answers, what an incoming one
      does. */
  predicate OutProper(msgs: seq<Q.ClientMsg>) {
    forall m :: m in msgs && m.direction == Q.Out ==>
      m.state != Q.SendPubrec && m.state != Q.ResendPubcomp && m.state != Q.WaitForPubrel
  }

  function Apply(s: State, a: Action): State {
    match a
    case Publish(content) => DoPublish(s, content)
    case Retry(i) => DoRetry(s, i)
    case ClientReads => DoClientReads(s)
    case BrokerReads(allowed, own) => DoBrokerReads(s, allowed, own)
    case BrokerTimeout(expired) =>
      if s.connected && |expired| == |s.queue| then s.(queue := Q.Timeout(s.queue, expired)) else s
    case BrokerWrites(budget) =>
      if !s.connected || !Q.IncomingQos2(s.queue) then s
      else
        var w := Q.WriteFrom([], s.queue, UNLIMITED, budget, 0);
        s.(queue := w.msgs, toClient := s.toClient + w.sent)
    case BrokerOutgoing(queue) =>
      if Incoming(queue) == Incoming(s.queue) && OutProper(queue) then s.(queue := queue) else s
    case Lose => Broken(s)
    case Reconnect =>
      if s.connected then s
      else s.(connected := true, lib := L.Reset(s.lib), queue := Q.Reset(s.queue, UNLIMITED))
  }

  function Run(actions: seq<Action>): State {
    if actions == [] then Initial() else Apply(Run(actions[..|actions| - 1]), actions[|actions| - 1])
  }
}
