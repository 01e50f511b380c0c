/** A client's message queue in the broker, as a value: what inserting,
    deleting, releasing, retrying, resetting and writing do to the list. */
module ClientQueue {
  import opened Common
  import opened SubTree

  type Mid = nat
  type Qos = q: nat | q <= 2

  datatype Direction = In | Out

  datatype MsgState =
    | PublishQos0 | PublishQos1 | PublishQos2
    | WaitForPuback | WaitForPubrec | WaitForPubrel | WaitForPubcomp
    | ResendPubrel | ResendPubcomp | SendPubrec | Queued

  datatype ClientMsg = ClientMsg(store: StoreId, mid: Mid, qos: Qos, retain: bool,
                                 direction: Direction, state: MsgState, dup: bool)

  /** The two limits of the broker; zero means unlimited. */
  datatype Limits = Limits(inflight: nat, queued: nat)

  datatype Packet =
    | PUBLISH(mid: Mid, store: StoreId, qos: Qos, retain: bool, dup: bool)
    | PUBREC(mid: Mid)
    | PUBREL(mid: Mid)
    | PUBCOMP(mid: Mid)

  /** Only QoS 2 messages wait in a queue on their way in. */
  predicate IncomingQos2(msgs: seq<ClientMsg>) {
    forall m :: m in msgs && m.direction == In ==> m.qos == 2
  }

  /** How many entries count against the limits. */
  function Count12(msgs: seq<ClientMsg>): nat {
    if msgs == [] then 0 else (if msgs[0].qos > 0 then 1 else 0) + Count12(msgs[1..])
  }

  lemma {:induction false} Count12Update(msgs: seq<ClientMsg>, i: nat, m: ClientMsg)
    requires i < |msgs| && (m.qos > 0 <==> msgs[i].qos > 0)
    ensures Count12(msgs[i := m]) == Count12(msgs)
  {
    var after := msgs[i := m];
    if i == 0 {
      assert after[1..] == msgs[1..];
    } else {
      assert after[1..] == msgs[1..][i - 1 := m];
      Count12Update(msgs[1..], i - 1, m);
    }
  }

  lemma {:induction false} Count12Append(msgs: seq<ClientMsg>, m: ClientMsg)
    ensures Count12(msgs + [m]) == Count12(msgs) + if m.qos > 0 then 1 else 0
  {
    if msgs == [] {
      assert [] + [m] == [m];
      assert [m][1..] == [];
    } else {
      assert (msgs + [m])[1..] == msgs[1..] + [m];
      Count12Append(msgs[1..], m);
    }
  }

  lemma {:induction false} Count12Drop(msgs: seq<ClientMsg>, i: nat)
    requires i < |msgs|
    ensures Count12(msgs) == Count12(DropAt(msgs, i)) + if msgs[i].qos > 0 then 1 else 0
  {
    if i == 0 {
      assert DropAt(msgs, 0) == msgs[1..];
    } else {
      Count12Drop(msgs[1..], i - 1);
      assert DropAt(msgs, i) == [msgs[0]] + DropAt(msgs[1..], i - 1);
    }
  }

  // ------------------------------------------------------------ promotion

  function StartState(qos: Qos): MsgState {
    if qos == 0 then PublishQos0 else if qos == 1 then PublishQos1 else PublishQos2
  }

  /** A waiting entry is started; an incoming one moves to `toIn`. */
  function Started(m: ClientMsg, toIn: MsgState): ClientMsg {
    if m.state != Queued then m
    else if m.direction == Out then m.(state := StartState(m.qos))
    else if m.qos == 2 then m.(state := toIn)
    else m
  }

  /** After a removal every waiting entry at the head of the list is started:
      the loop tests the limit but never counts. */
  function PromoteHead(msgs: seq<ClientMsg>, lim: Limits): (r: seq<ClientMsg>)
    ensures |r| == |msgs|
  {
    if msgs == [] || msgs[0].state != Queued || lim.inflight == 0 then msgs
    else [Started(msgs[0], SendPubrec)] + PromoteHead(msgs[1..], lim)
  }

  // ------------------------------------------------------- delete, release

  predicate IsEntry(m: ClientMsg, mid: Mid, dir: Direction) {
    m.mid == mid && m.direction == dir
  }

  /** The entry met as number `index`, started if it is within the limit. */
  function Touched(m: ClientMsg, index: nat, lim: Limits): ClientMsg {
    if index <= lim.inflight then Started(m, WaitForPubrel) else m
  }

  /** Releasing answers an incoming entry it starts; deleting does not. */
  function TouchSends(m: ClientMsg, index: nat, lim: Limits, release: bool): seq<Packet> {
    if release && index <= lim.inflight && m.state == Queued && m.direction == In && m.qos == 2
    then [PUBREC(m.mid)] else []
  }

  datatype Swept = Swept(msgs: seq<ClientMsg>, sent: seq<Packet>, removed: seq<ClientMsg>)

  /** The loop of delete and release, standing behind `pre` with `index`
      entries counted. Every entry passed within the limit is started; every
      match is taken out, and what handing it on put at the end of the list
      (`later`, one item per match) is seen by the rest of the loop. It ends at
      the end of the list, or past the limit once something was taken out.
      Deleting does not count the entries it takes out; releasing does. */
  function Sweep(pre: seq<ClientMsg>, rest: seq<ClientMsg>, index: nat, mid: Mid, dir: Direction, lim: Limits,
                 release: bool, deleted: bool, later: seq<seq<ClientMsg>>): (r: Swept)
    decreases |later|, |rest|
  {
    if rest == [] then Swept(pre, [], [])
    else
      var t := Touched(rest[0], index + 1, lim);
      var sent := TouchSends(rest[0], index + 1, lim, release);
      if IsEntry(t, mid, dir) then
        var more := if later == [] then [] else later[0];
        var all := PromoteHead(pre + rest[1..] + more, lim);
        var index' := if release then index + 1 else index;
        if index' > lim.inflight then Swept(all, sent, [t])
        else
          var r := Sweep(all[..|pre|], all[|pre|..], index', mid, dir, lim, release, true,
                         if later == [] then [] else later[1..]);
          Swept(r.msgs, sent + r.sent, [t] + r.removed)
      else if index + 1 > lim.inflight && deleted then Swept(pre + [t] + rest[1..], sent, [])
      else
        var r := Sweep(pre + [t], rest[1..], index + 1, mid, dir, lim, release, deleted, later);
        r.(sent := sent + r.sent)
  }

  function Delete(msgs: seq<ClientMsg>, mid: Mid, dir: Direction, lim: Limits): Swept {
    Sweep([], msgs, 0, mid, dir, lim, false, false, [])
  }

  // ---------------------------------------------------------------- update

  function IndexOfEntry(msgs: seq<ClientMsg>, mid: Mid, dir: Direction): (i: nat)
    ensures i <= |msgs| && (i < |msgs| ==> IsEntry(msgs[i], mid, dir))
    ensures forall k :: 0 <= k < i ==> !IsEntry(msgs[k], mid, dir)
  {
    if msgs == [] || IsEntry(msgs[0], mid, dir) then 0 else 1 + IndexOfEntry(msgs[1..], mid, dir)
  }

  function Update(msgs: seq<ClientMsg>, mid: Mid, dir: Direction, state: MsgState): seq<ClientMsg> {
    var i := IndexOfEntry(msgs, mid, dir);
    if i < |msgs| then msgs[i := msgs[i].(state := state)] else msgs
  }

  // --------------------------------------------------------------- timeout

  function RetryState(s: MsgState): Option<MsgState> {
    match s
    case WaitForPuback => Some(PublishQos1)
    case WaitForPubrec => Some(PublishQos2)
    case WaitForPubrel => Some(SendPubrec)
    case WaitForPubcomp => Some(ResendPubrel)
    case _ => None
  }

  function Retried(m: ClientMsg, expired: bool): ClientMsg {
    if expired && RetryState(m.state).Some? then m.(state := RetryState(m.state).value, dup := true) else m
  }

  /** `expired` says which entries the clock finds too old. */
  function Timeout(msgs: seq<ClientMsg>, expired: seq<bool>): (r: seq<ClientMsg>)
    requires |expired| == |msgs|
    ensures |r| == |msgs| && forall i :: 0 <= i < |r| ==> r[i] == Retried(msgs[i], expired[i])
  {
    if msgs == [] then [] else [Retried(msgs[0], expired[0])] + Timeout(msgs[1..], expired[1..])
  }

  // ----------------------------------------------------------------- reset

  /** A started outgoing entry begins again on reconnect, except that a
      message known to be received only has its PUBREL repeated. */
  function ResetState(m: ClientMsg): ClientMsg {
    if m.direction == Out && m.state != Queued then
      m.(state := if m.qos == 2 && m.state == WaitForPubcomp then ResendPubrel else StartState(m.qos))
    else m
  }

  /** The second pass starts waiting entries within the limit, whatever their
      direction. */
  function ResetEntry(m: ClientMsg, index: nat, lim: Limits): ClientMsg {
    var r := ResetState(m);
    if r.state == Queued && (lim.inflight == 0 || index < lim.inflight) then r.(state := StartState(r.qos)) else r
  }

  function Reset(msgs: seq<ClientMsg>, lim: Limits): (r: seq<ClientMsg>)
    ensures |r| == |msgs| && forall i :: 0 <= i < |r| ==> r[i] == ResetEntry(msgs[i], i, lim)
  {
    seq(|msgs|, i requires 0 <= i < |msgs| => ResetEntry(msgs[i], i, lim))
  }

  // ----------------------------------------------------------------- write

  /** The queue after writing, the packets sent, the entries removed because
      they were done, and whether the transport took everything offered. */
  datatype Written = Written(msgs: seq<ClientMsg>, sent: seq<Packet>, gone: seq<ClientMsg>, ok: bool)

  /** What an entry puts on the wire when its turn comes. */
  function PacketFor(m: ClientMsg): Option<Packet> {
    match m.state
    case PublishQos0 => Some(PUBLISH(m.mid, m.store, m.qos, m.retain, m.dup))
    case PublishQos1 => Some(PUBLISH(m.mid, m.store, m.qos, m.retain, m.dup))
    case PublishQos2 => Some(PUBLISH(m.mid, m.store, m.qos, m.retain, m.dup))
    case SendPubrec => Some(PUBREC(m.mid))
    case ResendPubrel => Some(PUBREL(m.mid))
    case ResendPubcomp => Some(PUBCOMP(m.mid))
    case _ => None
  }

  function AfterSend(m: ClientMsg): ClientMsg {
    match m.state
    case PublishQos1 => m.(state := WaitForPuback, dup := true)
    case PublishQos2 => m.(state := WaitForPubrec, dup := true)
    case SendPubrec => m.(state := WaitForPubrel)
    case ResendPubrel => m.(state := WaitForPubcomp)
    case ResendPubcomp => m.(state := WaitForPubrel)
    case _ => m
  }

  function Behind(w: Written, sent: seq<Packet>, gone: seq<ClientMsg>): Written {
    w.(sent := sent + w.sent, gone := gone + w.gone)
  }

  /** The write loop standing behind `pre`. `budget` is how many packets the
      transport takes before it fails; `seen` counts the incoming entries met
      so far, a waiting one that is started being met twice. */
  function WriteFrom(pre: seq<ClientMsg>, rest: seq<ClientMsg>, lim: Limits, budget: nat, seen: nat): (w: Written)
    requires IncomingQos2(rest)
    ensures w.ok ==> |w.sent| <= budget
    decreases |rest|, if rest != [] && rest[0].state == Queued then 1 else 0
  {
    if rest == [] then Written(pre, [], [], true)
    else
      var t := rest[0];
      var seen' := seen + if t.direction == In then 1 else 0;
      if t.state == Queued then
        if t.direction == In && (lim.inflight == 0 || seen' < lim.inflight) then
          WriteFrom(pre, [t.(state := SendPubrec)] + rest[1..], lim, budget, seen')
        else WriteFrom(pre + [t], rest[1..], lim, budget, seen')
      else if PacketFor(t) == None then WriteFrom(pre + [t], rest[1..], lim, budget, seen')
      else if budget == 0 then Written(pre + rest, [], [], false)
      else if t.state == PublishQos0 then
        var all := PromoteHead(pre + rest[1..], lim);
        PromoteKeeps(pre + rest[1..], lim);
        assert forall k :: |pre| <= k < |all| ==> (pre + rest[1..])[k] == rest[k - |pre| + 1];
        Behind(WriteFrom(all[..|pre|], all[|pre|..], lim, budget - 1, seen'), [PacketFor(t).value], [t])
      else
        Behind(WriteFrom(pre + [AfterSend(t)], rest[1..], lim, budget - 1, seen'), [PacketFor(t).value], [])
  }

  /** An entry with its progress taken away. */
  function Core(m: ClientMsg): ClientMsg {
    m.(state := Queued, dup := false)
  }

  lemma {:induction false} PromoteKeeps(msgs: seq<ClientMsg>, lim: Limits)
    ensures forall k :: 0 <= k < |msgs| ==> Core(PromoteHead(msgs, lim)[k]) == Core(msgs[k])
    ensures forall k :: 0 <= k < |msgs| ==> PromoteHead(msgs, lim)[k].qos == msgs[k].qos
    ensures forall k :: 0 <= k < |msgs| ==> PromoteHead(msgs, lim)[k].direction == msgs[k].direction
  {
    if msgs != [] && msgs[0].state == Queued && lim.inflight > 0 {
      PromoteKeeps(msgs[1..], lim);
      var r := PromoteHead(msgs, lim);
      assert forall k :: 1 <= k < |msgs| ==> msgs[k] == msgs[1..][k - 1] && r[k] == PromoteHead(msgs[1..], lim)[k - 1];
    }
  }
}
