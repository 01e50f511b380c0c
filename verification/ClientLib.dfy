/** The outgoing messages of the client library: the queue, the counter of
    messages in flight, and the limit on it. */
module ClientLib {
  import opened Common

  type Mid = nat
  type Content = string

  /** `Held` is a message accepted while the window was full. */
  datatype LibState = Held | WaitPuback | WaitPubrec | WaitPubcomp

  /** Only messages of QoS 1 and 2 are queued. */
  datatype LibMsg = LibMsg(mid: Mid, qos2: bool, content: Content, state: LibState, dup: bool)

  /** `limit` is the largest number in flight; zero means no limit. */
  datatype Lib = Lib(out: seq<LibMsg>, inflight: int, limit: nat)

  datatype LibPacket = Pub(mid: Mid, qos2: bool, content: Content, dup: bool) | Rel(mid: Mid)

  predicate Room(l: Lib) {
    l.limit == 0 || l.inflight < l.limit
  }

  function FirstState(qos2: bool): LibState {
    if qos2 then WaitPubrec else WaitPuback
  }

  function PubOf(m: LibMsg): LibPacket {
    Pub(m.mid, m.qos2, m.content, m.dup)
  }

  // ---------------------------------------------------------- publishing

  /** Accept a message: send it if the window has room, hold it otherwise. */
  function Accept(l: Lib, mid: Mid, qos2: bool, content: Content): Lib {
    var m := LibMsg(mid, qos2, content, if Room(l) then FirstState(qos2) else Held, false);
    Lib(l.out + [m], if Room(l) then l.inflight + 1 else l.inflight, l.limit)
  }

  // ------------------------------------------------------- acknowledging

  function Find(out: seq<LibMsg>, mid: Mid): (i: nat)
    ensures i <= |out| && (i < |out| ==> out[i].mid == mid)
    ensures forall k :: 0 <= k < i ==> out[k].mid != mid
  {
    if out == [] || out[0].mid == mid then 0 else 1 + Find(out[1..], mid)
  }

  /** `ok` is whether the transport took all that was offered. */
  datatype Sending = Sending(lib: Lib, sent: seq<LibPacket>, ok: bool)

  /** Held messages from `i` on move into the window while it has room; the
      transport takes `budget` more packets, and a refusal ends the loop. */
  function Fill(l: Lib, i: nat, budget: nat): (s: Sending)
    requires i <= |l.out|
    ensures |s.lib.out| == |l.out| && s.lib.limit == l.limit
    ensures if s.ok then |s.sent| <= budget else |s.sent| == budget
    decreases |l.out| - i
  {
    if i == |l.out| || !Room(l) then Sending(l, [], true)
    else if l.out[i].state != Held then Fill(l, i + 1, budget)
    else
      var m := l.out[i].(state := FirstState(l.out[i].qos2));
      var l' := l.(out := l.out[i := m], inflight := l.inflight + 1);
      if budget == 0 then Sending(l', [], false)
      else
        var s := Fill(l', i + 1, budget - 1);
        s.(sent := [PubOf(m)] + s.sent)
  }

  /** The message with this id leaves the queue, whatever its state. */
  function Acknowledge(l: Lib, mid: Mid, budget: nat): Sending {
    var i := Find(l.out, mid);
    if i == |l.out| then Sending(l, [], true)
    else Fill(l.(out := DropAt(l.out, i), inflight := l.inflight - 1), 0, budget)
  }

  /** A PUBREC moves the message on, found or not. */
  function Received(l: Lib, mid: Mid): Lib {
    var i := Find(l.out, mid);
    if i == |l.out| then l else l.(out := l.out[i := l.out[i].(state := WaitPubcomp)])
  }

  // ------------------------------------------------- retry and reconnect

  /** What the retry check sends for a message that waited too long. */
  function Retry(m: LibMsg): Option<LibPacket> {
    match m.state
    case Held => None
    case WaitPuback => Some(PubOf(m.(dup := true)))
    case WaitPubrec => Some(PubOf(m.(dup := true)))
    case WaitPubcomp => Some(Rel(m.mid))
  }

  /** On reconnect every queued message counts as in flight; the first ones
      keep going, the rest is held. */
  function ResetMsg(m: LibMsg, index: nat, limit: nat): LibMsg {
    if limit == 0 || index + 1 < limit then (if m.qos2 then m else m.(state := WaitPuback))
    else m.(state := Held)
  }

  function Reset(l: Lib): Lib {
    Lib(seq(|l.out|, i requires 0 <= i < |l.out| => ResetMsg(l.out[i], i, l.limit)), |l.out|, l.limit)
  }

  // --------------------------------------------------------- the window

  function Active(out: seq<LibMsg>): nat {
    if out == [] then 0 else (if out[0].state == Held then 0 else 1) + Active(out[1..])
  }

  /** Active messages first, held ones behind them. */
  predicate ActiveFirst(out: seq<LibMsg>) {
    forall i, j :: 0 <= i < j < |out| ==> out[i].state == Held ==> out[j].state == Held
  }

  /** DropAt reconnects: the counter counts the active messages, stays
      within the limit, the active messages come first in the queue, and a
      message is held only when the window is full. */
  predicate Window(l: Lib) {
    l.inflight == Active(l.out) && (l.limit > 0 ==> l.inflight <= l.limit) && ActiveFirst(l.out) &&
    forall i :: 0 <= i < |l.out| && l.out[i].state == Held ==> l.limit > 0 && l.inflight == l.limit
  }

  /** With reconnects: the counter may count held messages too, but never
      too few, and the active messages stay within the limit. */
  predicate SafeWindow(l: Lib) {
    Active(l.out) <= l.inflight && (l.limit > 0 ==> Active(l.out) <= l.limit)
  }

  lemma {:induction false} ActiveConcat(a: seq<LibMsg>, b: seq<LibMsg>)
    ensures Active(a + b) == Active(a) + Active(b)
  {
    if a == [] {
      assert a + b == b;
    } else {
      assert (a + b)[1..] == a[1..] + b;
      ActiveConcat(a[1..], b);
    }
  }

  lemma ActiveAt(out: seq<LibMsg>, i: nat, m: LibMsg)
    requires i < |out|
    ensures Active(out) == Active(DropAt(out, i)) + if out[i].state == Held then 0 else 1
    ensures Active(out[i := m]) ==
            Active(out) - (if out[i].state == Held then 0 else 1) + if m.state == Held then 0 else 1
  {
    ActiveConcat(out[..i], [out[i]] + out[i + 1..]);
    ActiveConcat([out[i]], out[i + 1..]);
    ActiveConcat(out[..i], out[i + 1..]);
    ActiveConcat(out[..i], [m] + out[i + 1..]);
    ActiveConcat([m], out[i + 1..]);
    assert [out[i]][1..] == [] && [m][1..] == [];
    assert out == out[..i] + ([out[i]] + out[i + 1..]);
    assert out[i := m] == out[..i] + ([m] + out[i + 1..]);
    assert Active([out[i]]) == (if out[i].state == Held then 0 else 1) + Active([out[i]][1..]);
    assert Active([m]) == (if m.state == Held then 0 else 1) + Active([m][1..]);
  }

  lemma {:induction false} NoneHeld(out: seq<LibMsg>)
    ensures Active(out) <= |out|
    ensures (forall i :: 0 <= i < |out| ==> out[i].state != Held) <==> Active(out) == |out|
  {
    if out != [] {
      NoneHeld(out[1..]);
      assert forall i :: 1 <= i < |out| ==> out[i] == out[1..][i - 1];
      assert forall i :: 0 <= i < |out| - 1 ==> out[1..][i] == out[i + 1];
    }
  }

  lemma AcceptKeepsWindow(l: Lib, mid: Mid, qos2: bool, content: Content)
    ensures Window(l) ==> Window(Accept(l, mid, qos2, content))
    ensures SafeWindow(l) ==> SafeWindow(Accept(l, mid, qos2, content))
  {
    var m := LibMsg(mid, qos2, content, if Room(l) then FirstState(qos2) else Held, false);
    ActiveConcat(l.out, [m]);
    assert [m][1..] == [];
    assert Active([m]) == (if m.state == Held then 0 else 1) + Active([m][1..]);
  }

  lemma ReceivedKeepsWindow(l: Lib, mid: Mid)
    requires Find(l.out, mid) < |l.out| ==> l.out[Find(l.out, mid)].state != Held
    ensures Window(l) ==> Window(Received(l, mid))
    ensures SafeWindow(l) ==> SafeWindow(Received(l, mid))
  {
    var i := Find(l.out, mid);
    if i < |l.out| { ActiveAt(l.out, i, l.out[i].(state := WaitPubcomp)); }
  }

  /** While filling: everything before `i` is active, the counter is exact,
      and held messages remain only if the window lacks at most one. */
  predicate Filling(l: Lib, i: nat) {
    i <= |l.out| && l.inflight == Active(l.out) && (l.limit > 0 ==> l.inflight <= l.limit) && ActiveFirst(l.out) &&
    (forall k :: 0 <= k < i ==> l.out[k].state != Held) &&
    forall k :: 0 <= k < |l.out| && l.out[k].state == Held ==> l.limit > 0 && l.inflight >= l.limit - 1
  }

  lemma {:induction false} FillKeepsWindow(l: Lib, i: nat, budget: nat)
    requires Filling(l, i)
    ensures Window(Fill(l, i, budget).lib)
    decreases |l.out| - i
  {
    if i < |l.out| && Room(l) {
      if l.out[i].state != Held {
        FillKeepsWindow(l, i + 1, budget);
      } else {
        var m := l.out[i].(state := FirstState(l.out[i].qos2));
        var l' := l.(out := l.out[i := m], inflight := l.inflight + 1);
        ActiveAt(l.out, i, m);
        assert Filling(l', i + 1);
        if budget > 0 { FillKeepsWindow(l', i + 1, budget - 1); }
      }
    }
  }

  /** Acknowledging a message that was sent keeps the window, also when the
      transport refuses the next message. */
  lemma AcknowledgeKeepsWindow(l: Lib, mid: Mid, budget: nat)
    requires Window(l)
    requires Find(l.out, mid) < |l.out| ==> l.out[Find(l.out, mid)].state != Held
    ensures Window(Acknowledge(l, mid, budget).lib)
  {
    var i := Find(l.out, mid);
    if i < |l.out| {
      ActiveAt(l.out, i, l.out[i]);
      var l' := l.(out := DropAt(l.out, i), inflight := l.inflight - 1);
      assert Filling(l', 0);
      FillKeepsWindow(l', 0, budget);
    }
  }

  lemma {:induction false} FillSafe(l: Lib, i: nat, budget: nat)
    requires SafeWindow(l) && i <= |l.out|
    ensures SafeWindow(Fill(l, i, budget).lib)
    decreases |l.out| - i
  {
    if i < |l.out| && Room(l) {
      if l.out[i].state != Held {
        FillSafe(l, i + 1, budget);
      } else {
        var m := l.out[i].(state := FirstState(l.out[i].qos2));
        ActiveAt(l.out, i, m);
        if budget > 0 { FillSafe(l.(out := l.out[i := m], inflight := l.inflight + 1), i + 1, budget - 1); }
      }
    }
  }

  lemma AcknowledgeSafe(l: Lib, mid: Mid, budget: nat)
    requires SafeWindow(l)
    requires Find(l.out, mid) < |l.out| ==> l.out[Find(l.out, mid)].state != Held
    ensures SafeWindow(Acknowledge(l, mid, budget).lib)
  {
    var i := Find(l.out, mid);
    if i < |l.out| {
      ActiveAt(l.out, i, l.out[i]);
      FillSafe(l.(out := DropAt(l.out, i), inflight := l.inflight - 1), 0, budget);
    }
  }

  lemma ResetSafe(l: Lib)
    ensures SafeWindow(Reset(l))
  {
    var r := Reset(l);
    NoneHeld(r.out);
    if l.limit > 0 && |l.out| >= l.limit {
      var head, tail := r.out[..l.limit - 1], r.out[l.limit - 1..];
      assert r.out == head + tail;
      ActiveConcat(head, tail);
      AllHeld(tail);
      NoneHeld(head);
    }
  }

  lemma {:induction false} AllHeld(out: seq<LibMsg>)
    requires forall i :: 0 <= i < |out| ==> out[i].state == Held
    ensures Active(out) == 0
  {
    if out != [] { AllHeld(out[1..]); }
  }

  // ------------------------------------------------------- whole sessions

  datatype LibOp =
    | Publish(mid: Mid, qos2: bool, content: Content)
    | Ack(mid: Mid, budget: nat)
    | Pubrec(mid: Mid)
    | Reconnect

  function LibStep(l: Lib, op: LibOp): Lib {
    match op
    case Publish(mid, qos2, content) => Accept(l, mid, qos2, content)
    case Ack(mid, budget) => Acknowledge(l, mid, budget).lib
    case Pubrec(mid) => Received(l, mid)
    case Reconnect => Reset(l)
  }

  /** Only messages that were sent are acknowledged. */
  predicate Fair(l: Lib, op: LibOp) {
    match op
    case Publish(_, _, _) => true
    case Ack(mid, _) => Find(l.out, mid) < |l.out| ==> l.out[Find(l.out, mid)].state != Held
    case Pubrec(mid) => Find(l.out, mid) < |l.out| ==> l.out[Find(l.out, mid)].state != Held
    case Reconnect => true
  }

  function LibRun(limit: nat, ops: seq<LibOp>): Lib {
    if ops == [] then Lib([], 0, limit) else LibStep(LibRun(limit, ops[..|ops| - 1]), ops[|ops| - 1])
  }

  predicate FairRun(limit: nat, ops: seq<LibOp>) {
    ops == [] || (FairRun(limit, ops[..|ops| - 1]) && Fair(LibRun(limit, ops[..|ops| - 1]), ops[|ops| - 1]))
  }

  /** The window over whole sessions: exact without reconnects, and within
      the limit with them. */
  lemma {:induction false} WindowHolds(limit: nat, ops: seq<LibOp>)
    requires FairRun(limit, ops)
    ensures SafeWindow(LibRun(limit, ops)) && LibRun(limit, ops).limit == limit
    ensures (forall k :: 0 <= k < |ops| ==> !ops[k].Reconnect?) ==> Window(LibRun(limit, ops))
  {
    if ops != [] {
      var before, op := ops[..|ops| - 1], ops[|ops| - 1];
      WindowHolds(limit, before);
      var l := LibRun(limit, before);
      assert (forall k :: 0 <= k < |ops| ==> !ops[k].Reconnect?) ==>
               !op.Reconnect? && forall k :: 0 <= k < |before| ==> !before[k].Reconnect?;
      match op
      case Publish(mid, qos2, content) => AcceptKeepsWindow(l, mid, qos2, content);
      case Ack(mid, budget) =>
        AcknowledgeSafe(l, mid, budget);
        if Window(l) { AcknowledgeKeepsWindow(l, mid, budget); }
      case Pubrec(mid) => ReceivedKeepsWindow(l, mid);
      case Reconnect => ResetSafe(l);
    }
  }

  // ------------------------------------------------------ the code's form

  datatype Rc = Success | NotFound | SendFailed

  class Mosq {
    var outMessages: seq<LibMsg>
    var inflightMessages: int
    const maxInflight: nat

    constructor (limit: nat)
      ensures View() == Lib([], 0, limit)
    {
      outMessages, inflightMessages, maxInflight := [], 0, limit;
    }

    function View(): Lib
      reads this
    {
      Lib(outMessages, inflightMessages, maxInflight)
    }

    method Publish(mid: Mid, qos2: bool, content: Content) returns (sent: seq<LibPacket>)
      modifies this
      ensures View() == Accept(old(View()), mid, qos2, content)
      ensures sent == if old(Room(View())) then [Pub(mid, qos2, content, false)] else []
    {
      var message := LibMsg(mid, qos2, content, Held, false);
      var full := MessageQueue(message);
      if !full {
        var last := |outMessages| - 1;
        outMessages := outMessages[last := message.(state := if qos2 then WaitPubrec else WaitPuback)];
        sent := [Pub(mid, qos2, content, false)];
      } else {
        sent := [];
      }
    }

    method MessageQueue(message: LibMsg) returns (full: bool)
      modifies this
      ensures outMessages == old(outMessages) + [message] && (full <==> !old(Room(View())))
      ensures inflightMessages == old(inflightMessages) + if full then 0 else 1
    {
      full := false;
      outMessages := outMessages + [message];
      if maxInflight == 0 || inflightMessages < maxInflight {
        inflightMessages := inflightMessages + 1;
      } else {
        full := true;
      }
    }

    /** PUBACK and PUBCOMP: the application is told on success only, so not if
        the transport refused the next held message, although the message is
        gone from the queue. */
    method MessageRemove(mid: Mid, budget: nat) returns (rc: Rc, sent: seq<LibPacket>)
      modifies this
      ensures View() == Acknowledge(old(View()), mid, budget).lib
      ensures sent == Acknowledge(old(View()), mid, budget).sent
      ensures rc == NotFound <==> Find(old(outMessages), mid) == |old(outMessages)|
      ensures rc == SendFailed <==> !Acknowledge(old(View()), mid, budget).ok
    {
      var cur, found := 0, false;
      rc, sent := NotFound, [];
      while cur < |outMessages| && !found
        invariant cur <= |outMessages| && outMessages == old(outMessages) && inflightMessages == old(inflightMessages)
        invariant forall k :: 0 <= k < cur ==> outMessages[k].mid != mid
        invariant found ==> cur < |outMessages| && outMessages[cur].mid == mid
        decreases |outMessages| - cur, !found
      {
        if outMessages[cur].mid == mid {
          found := true;
        } else {
          cur := cur + 1;
        }
      }
      FirstFound(outMessages, mid, cur);
      if found {
        outMessages := DropAt(outMessages, cur);
        inflightMessages := inflightMessages - 1;
        rc, sent := FillWindow(budget);
      }
    }

    static lemma FirstFound(out: seq<LibMsg>, mid: Mid, i: nat)
      requires i <= |out| && (i < |out| ==> out[i].mid == mid) && forall k :: 0 <= k < i ==> out[k].mid != mid
      ensures i == Find(out, mid)
    {
    }

    /** Start held messages while the window has room. */
    method FillWindow(budget: nat) returns (rc: Rc, sent: seq<LibPacket>)
      modifies this
      ensures View() == Fill(old(View()), 0, budget).lib && sent == Fill(old(View()), 0, budget).sent
      ensures rc == if Fill(old(View()), 0, budget).ok then Success else SendFailed
    {
      rc, sent := Success, [];
      var cur, left := 0, budget;
      ghost var goal := Fill(View(), 0, budget);
      while cur < |outMessages|
        invariant cur <= |outMessages|
        invariant Fill(View(), cur, left).lib == goal.lib && sent + Fill(View(), cur, left).sent == goal.sent
        invariant rc == Success && Fill(View(), cur, left).ok == goal.ok
      {
        ghost var rest, before := Fill(View(), cur, left), sent;
        if maxInflight == 0 || inflightMessages < maxInflight {
          if outMessages[cur].state == Held {
            inflightMessages := inflightMessages + 1;
            outMessages := outMessages[cur := outMessages[cur].(state :=
                             if outMessages[cur].qos2 then WaitPubrec else WaitPuback)];
            if left == 0 {
              rc := SendFailed;
              return;
            }
            left := left - 1;
            sent := sent + [PubOf(outMessages[cur])];
            ghost var next := Fill(View(), cur + 1, left);
            assert rest == next.(sent := [PubOf(outMessages[cur])] + next.sent);
            assert sent + next.sent == before + rest.sent;
          }
        } else {
          return;
        }
        cur := cur + 1;
      }
    }

    method OutUpdate(mid: Mid) returns (found: bool)
      modifies this
      ensures View() == Received(old(View()), mid)
      ensures found <==> Find(old(outMessages), mid) < |old(outMessages)|
    {
      var i := 0;
      while i < |outMessages|
        invariant i <= |outMessages| && outMessages == old(outMessages) && inflightMessages == old(inflightMessages)
        invariant forall k :: 0 <= k < i ==> outMessages[k].mid != mid
      {
        if outMessages[i].mid == mid {
          FirstFound(outMessages, mid, i);
          outMessages := outMessages[i := outMessages[i].(state := WaitPubcomp)];
          return true;
        }
        i := i + 1;
      }
      FirstFound(outMessages, mid, i);
      return false;
    }

    method ReconnectReset()
      modifies this
      ensures View() == Reset(old(View()))
    {
      ghost var was := outMessages;
      inflightMessages := 0;
      var i := 0;
      while i < |outMessages|
        invariant i <= |outMessages| == |was| && inflightMessages == i
        invariant forall k :: 0 <= k < |was| ==>
                    outMessages[k] == if k < i then ResetMsg(was[k], k, maxInflight) else was[k]
      {
        inflightMessages := inflightMessages + 1;
        if maxInflight == 0 || inflightMessages < maxInflight {
          if !outMessages[i].qos2 {
            outMessages := outMessages[i := outMessages[i].(state := WaitPuback)];
          }
        } else {
          outMessages := outMessages[i := outMessages[i].(state := Held)];
        }
        i := i + 1;
      }
      assert outMessages == Reset(old(View())).out;
    }
  }
}
