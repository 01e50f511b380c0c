/** What the client library sends, keeps and holds over whole sessions. */
module WindowLaws {
  import opened Common
  import opened ClientLib

  // --------------------------------------------------------- what is started

  /** The state a message waits in once it has been sent. */
  predicate Awaits(m: LibMsg, state: LibState) {
    if m.qos2 then state == WaitPubrec else state == WaitPuback
  }

  /** The messages held before and not held after, as they are sent. */
  function Begun(before: seq<LibMsg>, after: seq<LibMsg>): seq<LibPacket>
    requires |before| == |after|
  {
    if before == [] then []
    else
      var m := before[0];
      (if m.state == Held && after[0].state != Held then [Pub(m.mid, m.qos2, m.content, m.dup)] else []) +
      Begun(before[1..], after[1..])
  }

  /** Nothing but the state of held messages changes. */
  predicate OnlyBegun(before: seq<LibMsg>, after: seq<LibMsg>) {
    |before| == |after| &&
    forall k :: 0 <= k < |before| ==>
      after[k] == before[k] ||
      (before[k].state == Held && after[k] == before[k].(state := after[k].state) && Awaits(before[k], after[k].state))
  }

  lemma {:induction false} NoneBegun(out: seq<LibMsg>)
    ensures Begun(out, out) == [] && OnlyBegun(out, out)
  {
    if out != [] { NoneBegun(out[1..]); }
  }

  lemma {:induction false} BegunSplit(a: seq<LibMsg>, b: seq<LibMsg>, c: seq<LibMsg>, d: seq<LibMsg>)
    requires |a| == |c| && |b| == |d|
    ensures Begun(a + b, c + d) == Begun(a, c) + Begun(b, d)
  {
    if a == [] {
      assert a + b == b && c + d == d;
    } else {
      assert (a + b)[1..] == a[1..] + b && (c + d)[1..] == c[1..] + d;
      BegunSplit(a[1..], b, c[1..], d);
    }
  }

  lemma BegunOne(out: seq<LibMsg>, i: nat, m: LibMsg, after: seq<LibMsg>)
    requires i < |out| && out[i].state == Held && m == out[i].(state := m.state) && Awaits(out[i], m.state)
    requires OnlyBegun(out[i := m], after) && forall k :: 0 <= k <= i ==> after[k] == out[i := m][k]
    ensures OnlyBegun(out, after)
    ensures Begun(out, after) == [Pub(m.mid, m.qos2, m.content, m.dup)] + Begun(out[i := m], after)
  {
    var now := out[i := m];
    assert OnlyBegun(out, after) by {
      forall k | 0 <= k < |out|
        ensures after[k] == out[k] ||
                (out[k].state == Held && after[k] == out[k].(state := after[k].state) && Awaits(out[k], after[k].state))
      {
        assert k != i ==> now[k] == out[k];
      }
    }
    hide OnlyBegun, Awaits, Begun;
    var a, b, d := out[..i], out[i + 1..], after[i + 1..];
    assert out == a + ([out[i]] + b);
    assert now == a + ([m] + b);
    assert after == a + ([m] + d);
    BegunMiddle(a, out[i], m, b, d);
    BegunMiddle(a, m, m, b, d);
    NoneBegun([m]);
    BegunSingle(out[i], m);
    assert [] + Begun(b, d) == Begun(b, d);
  }

  lemma BegunMiddle(a: seq<LibMsg>, h: LibMsg, m: LibMsg, b: seq<LibMsg>, d: seq<LibMsg>)
    requires |b| == |d|
    ensures Begun(a + ([h] + b), a + ([m] + d)) == Begun([h], [m]) + Begun(b, d)
  {
    hide Begun;
    NoneBegun(a);
    BegunSplit(a, [h] + b, a, [m] + d);
    BegunSplit([h], b, [m], d);
    assert [] + (Begun([h], [m]) + Begun(b, d)) == Begun([h], [m]) + Begun(b, d);
  }

  lemma BegunSingle(h: LibMsg, m: LibMsg)
    requires h.state == Held && m == h.(state := m.state) && m.state != Held
    ensures Begun([h], [m]) == [Pub(m.mid, m.qos2, m.content, m.dup)]
  {
    assert [h][1..] == [] && [m][1..] == [];
  }

  /** Filling the window starts held messages and sends each as a PUBLISH, in the
      order of the queue; the transport may refuse the last one. */
  lemma {:induction false} FillSends(l: Lib, i: nat, budget: nat)
    requires i <= |l.out|
    ensures var s := Fill(l, i, budget);
            OnlyBegun(l.out, s.lib.out) && (forall k :: 0 <= k < i ==> s.lib.out[k] == l.out[k]) &&
            var begun := Begun(l.out, s.lib.out);
            if s.ok then s.sent == begun else begun != [] && s.sent == begun[..|begun| - 1]
    decreases |l.out| - i
  {
    hide Begun, OnlyBegun;
    NoneBegun(l.out);
    if i < |l.out| && Room(l) {
      if l.out[i].state != Held {
        FillSends(l, i + 1, budget);
      } else {
        var m := l.out[i].(state := FirstState(l.out[i].qos2));
        var l' := l.(out := l.out[i := m], inflight := l.inflight + 1);
        NoneBegun(l'.out);
        if budget == 0 {
          BegunOne(l.out, i, m, l'.out);
        } else {
          FillSends(l', i + 1, budget - 1);
          BegunOne(l.out, i, m, Fill(l', i + 1, budget - 1).lib.out);
        }
      }
    }
  }

  /** Acknowledging takes the first message of the id out of the queue and then
      starts held ones, each sent as a PUBLISH. */
  lemma AcknowledgeSends(l: Lib, mid: Mid, budget: nat, i: nat)
    requires i < |l.out| && l.out[i].mid == mid && forall k :: 0 <= k < i ==> l.out[k].mid != mid
    ensures var s := Acknowledge(l, mid, budget);
            OnlyBegun(DropAt(l.out, i), s.lib.out) &&
            var begun := Begun(DropAt(l.out, i), s.lib.out);
            if s.ok then s.sent == begun else begun != [] && s.sent == begun[..|begun| - 1]
  {
    assert Find(l.out, mid) == i;
    FillSends(l.(out := DropAt(l.out, i), inflight := l.inflight - 1), 0, budget);
  }

  // --------------------------------------------------- what is kept, in order

  /** What was asked to be published. */
  datatype Wish = Wish(mid: Mid, qos2: bool, content: Content)

  function WithoutFirst(ws: seq<Wish>, mid: Mid): seq<Wish> {
    if ws == [] then [] else if ws[0].mid == mid then ws[1..] else [ws[0]] + WithoutFirst(ws[1..], mid)
  }

  /** What was accepted and not acknowledged. */
  function Outstanding(ops: seq<LibOp>): seq<Wish> {
    if ops == [] then []
    else
      var before := Outstanding(ops[..|ops| - 1]);
      match ops[|ops| - 1]
      case Publish(mid, qos2, content) => before + [Wish(mid, qos2, content)]
      case Ack(mid, _) => WithoutFirst(before, mid)
      case _ => before
  }

  /** The message is the one asked for, not yet repeated, in a state of its QoS. */
  predicate IsFor(m: LibMsg, w: Wish) {
    m.mid == w.mid && m.qos2 == w.qos2 && m.content == w.content && !m.dup &&
    (m.state == Held || m.state == WaitPubcomp || Awaits(m, m.state))
  }

  ghost predicate AllFor(out: seq<LibMsg>, ws: seq<Wish>) {
    |out| == |ws| && forall i :: 0 <= i < |out| ==> IsFor(out[i], ws[i])
  }

  lemma {:induction false} WithoutIs(out: seq<LibMsg>, ws: seq<Wish>, mid: Mid)
    requires AllFor(out, ws)
    ensures var i := Find(out, mid);
            AllFor(if i == |out| then out else DropAt(out, i), WithoutFirst(ws, mid))
  {
    if out != [] {
      ForCons(out, ws);
      if out[0].mid == mid {
        assert DropAt(out, 0) == out[1..];
        hide IsFor;
      } else {
        hide IsFor;
        WithoutIs(out[1..], ws[1..], mid);
        FindNext(out, mid);
        hide AllFor, DropAt, Find;
        var out' := if Find(out[1..], mid) == |out| - 1 then out[1..] else DropAt(out[1..], Find(out[1..], mid));
        ForBoth(out[0], ws[0], out', WithoutFirst(ws[1..], mid));
      }
    }
  }

  lemma FindNext(out: seq<LibMsg>, mid: Mid)
    requires out != [] && out[0].mid != mid
    ensures var i := Find(out[1..], mid);
            Find(out, mid) == i + 1 &&
            (if i + 1 == |out| then out else DropAt(out, i + 1)) ==
            [out[0]] + (if i + 1 == |out| then out[1..] else DropAt(out[1..], i))
  {
    var i := Find(out[1..], mid);
    hide Find;
    if i + 1 < |out| { DropNext(out, i); }
  }

  lemma DropNext(out: seq<LibMsg>, i: nat)
    requires i + 1 < |out|
    ensures DropAt(out, i + 1) == [out[0]] + DropAt(out[1..], i)
  {
    var a, b := DropAt(out, i + 1), [out[0]] + DropAt(out[1..], i);
    hide DropAt;
    assert |a| == |b| && forall k :: 0 <= k < |a| ==> a[k] == b[k];
  }

  lemma ForCons(out: seq<LibMsg>, ws: seq<Wish>)
    requires AllFor(out, ws) && out != []
    ensures |ws| == |out| && IsFor(out[0], ws[0]) && out[0].mid == ws[0].mid && AllFor(out[1..], ws[1..])
  {
    SameMid(out[0], ws[0]);
    hide IsFor;
  }

  lemma ForBoth(m: LibMsg, w: Wish, out: seq<LibMsg>, ws: seq<Wish>)
    requires IsFor(m, w) && AllFor(out, ws)
    ensures AllFor([m] + out, [w] + ws)
  {
    hide IsFor;
  }

  lemma SameMid(m: LibMsg, w: Wish)
    requires IsFor(m, w)
    ensures m.mid == w.mid
  {
  }

  lemma BegunFor(a: seq<LibMsg>, b: seq<LibMsg>, ws: seq<Wish>)
    requires AllFor(a, ws) && OnlyBegun(a, b)
    ensures AllFor(b, ws)
  {
    forall i | 0 <= i < |b| ensures IsFor(b[i], ws[i]) { assert IsFor(a[i], ws[i]); }
  }

  /** Over any session, reconnects included, the queue holds exactly the messages
      that were accepted and not acknowledged, in their order. */
  lemma {:induction false} KeptInOrder(limit: nat, ops: seq<LibOp>)
    ensures AllFor(LibRun(limit, ops).out, Outstanding(ops))
  {
    if ops != [] {
      var before, op := ops[..|ops| - 1], ops[|ops| - 1];
      KeptInOrder(limit, before);
      var l, ws := LibRun(limit, before), Outstanding(before);
      match op
      case Publish(mid, qos2, content) =>
      case Ack(mid, budget) =>
        WithoutIs(l.out, ws, mid);
        var i := Find(l.out, mid);
        if i < |l.out| {
          AcknowledgeSends(l, mid, budget, i);
          BegunFor(DropAt(l.out, i), Acknowledge(l, mid, budget).lib.out, WithoutFirst(ws, mid));
        }
      case Pubrec(mid) =>
      case Reconnect =>
    }
  }

  /** After a reconnect every QoS 1 message within the window is due to be sent
      again, and the retry check does so, marked as a duplicate; a QoS 2 message
      there goes on where it was; the others are held and nothing is sent for them. */
  lemma ReconnectRepeats(l: Lib, i: nat)
    requires i < |l.out|
    ensures var m, n := l.out[i], Reset(l).out[i];
            if l.limit == 0 || i + 1 < l.limit then
              if m.qos2 then n == m
              else n == m.(state := WaitPuback) && Retry(n) == Some(Pub(m.mid, false, m.content, true))
            else n == m.(state := Held) && Retry(n) == None
    ensures |Reset(l).out| == Reset(l).inflight == |l.out| && Reset(l).limit == l.limit
  {
  }

  // ------------------------------------------------ held for good after a reset

  function From(l: Lib, ops: seq<LibOp>): Lib {
    if ops == [] then l else LibStep(From(l, ops[..|ops| - 1]), ops[|ops| - 1])
  }

  /** Only messages that were sent are acknowledged, and the connection holds. */
  predicate OneConnection(l: Lib, ops: seq<LibOp>) {
    ops == [] ||
    (OneConnection(l, ops[..|ops| - 1]) && Fair(From(l, ops[..|ops| - 1]), ops[|ops| - 1]) &&
     !ops[|ops| - 1].Reconnect?)
  }

  /** What the counter counts beyond the messages in flight. */
  function Excess(l: Lib): int {
    l.inflight - Active(l.out)
  }

  predicate Choked(l: Lib) {
    l.limit > 0 && Excess(l) >= l.limit
  }

  function Holding(out: seq<LibMsg>): seq<LibMsg> {
    if out == [] then [] else (if out[0].state == Held then [out[0]] else []) + Holding(out[1..])
  }

  function Published(ops: seq<LibOp>): seq<LibMsg> {
    if ops == [] then []
    else
      Published(ops[..|ops| - 1]) +
      (match ops[|ops| - 1]
       case Publish(mid, qos2, content) => [LibMsg(mid, qos2, content, Held, false)]
       case _ => [])
  }

  lemma {:induction false} HoldingConcat(a: seq<LibMsg>, b: seq<LibMsg>)
    ensures Holding(a + b) == Holding(a) + Holding(b)
  {
    if a == [] {
      assert a + b == b;
    } else {
      assert (a + b)[1..] == a[1..] + b;
      HoldingConcat(a[1..], b);
      Grouped(if a[0].state == Held then [a[0]] else [], Holding(a[1..]), Holding(b));
    }
  }

  lemma Grouped(a: seq<LibMsg>, b: seq<LibMsg>, c: seq<LibMsg>)
    ensures a + (b + c) == a + b + c
  {
  }

  lemma HoldingOne(m: LibMsg)
    ensures Holding([m]) == if m.state == Held then [m] else []
  {
    assert [m][1..] == [];
  }

  /** A message in flight leaves or moves on. */
  lemma HoldingAt(out: seq<LibMsg>, i: nat, m: LibMsg)
    requires i < |out| && out[i].state != Held && m.state != Held
    ensures Holding(DropAt(out, i)) == Holding(out) == Holding(out[i := m])
  {
    var a, b := out[..i], out[i + 1..];
    assert out == a + ([out[i]] + b) && out[i := m] == a + ([m] + b);
    HoldingConcat(a, [out[i]] + b);
    HoldingConcat([out[i]], b);
    HoldingConcat(a, [m] + b);
    HoldingConcat([m], b);
    HoldingConcat(a, b);
    HoldingOne(out[i]);
    HoldingOne(m);
  }

  lemma StepChoked(l: Lib, op: LibOp)
    requires Choked(l) && Fair(l, op) && !op.Reconnect? && Active(l.out) >= 0
    ensures Choked(LibStep(l, op)) && Excess(LibStep(l, op)) == Excess(l)
    ensures Holding(LibStep(l, op).out) ==
            Holding(l.out) + if op.Publish? then [LibMsg(op.mid, op.qos2, op.content, Held, false)] else []
  {
    hide Holding, Active;
    match op
    case Publish(mid, qos2, content) =>
      var m := LibMsg(mid, qos2, content, Held, false);
      HoldingConcat(l.out, [m]);
      HoldingOne(m);
      ActiveConcat(l.out, [m]);
      ActiveOne(m);
    case Ack(mid, budget) =>
      var i := Find(l.out, mid);
      if i < |l.out| {
        HoldingAt(l.out, i, l.out[i]);
        ActiveAt(l.out, i, l.out[i]);
      }
    case Pubrec(mid) =>
      var i := Find(l.out, mid);
      if i < |l.out| {
        HoldingAt(l.out, i, l.out[i].(state := WaitPubcomp));
        ActiveAt(l.out, i, l.out[i].(state := WaitPubcomp));
      }
  }

  lemma ActiveOne(m: LibMsg)
    ensures Active([m]) == if m.state == Held then 0 else 1
  {
    assert [m][1..] == [];
  }

  /** As long as the connection holds, no held message is ever sent, and every
      message accepted is held too. */
  lemma {:induction false} ChokedHolds(l: Lib, ops: seq<LibOp>)
    requires Choked(l) && OneConnection(l, ops)
    ensures Choked(From(l, ops)) && Holding(From(l, ops).out) == Holding(l.out) + Published(ops)
  {
    if ops == [] {
      assert Holding(l.out) + [] == Holding(l.out);
    } else {
      var before, op := ops[..|ops| - 1], ops[|ops| - 1];
      ChokedHolds(l, before);
      StepChoked(From(l, before), op);
    }
  }

  /** After a reconnect from a window that was exact: what is in flight then, and
      what the counter counts too much. */
  lemma ResetCounts(l: Lib)
    requires Window(l) && l.limit > 0
    ensures var r := Reset(l);
            Active(r.out) == (if |l.out| < l.limit then |l.out| else l.limit - 1) && r.inflight == |l.out| &&
            (forall i :: 0 <= i < |l.out| ==> (r.out[i].state == Held <==> i + 1 >= l.limit))
  {
    var r, n := Reset(l), if |l.out| < l.limit then |l.out| else l.limit - 1;
    NoneHeld(l.out);
    forall i | 0 <= i < |l.out| && i + 1 < l.limit ensures l.out[i].state != Held { FrontActive(l, i); }
    var head, tail := r.out[..n], r.out[n..];
    assert r.out == head + tail;
    ActiveConcat(head, tail);
    NoneHeld(head);
    AllHeld(tail);
  }

  /** A message is held only behind as many active ones as the limit says. */
  lemma FrontActive(l: Lib, i: nat)
    requires Window(l) && i < |l.out| && i + 1 < l.limit
    ensures l.out[i].state != Held
  {
    var head, tail := l.out[..i], l.out[i..];
    assert l.out == head + tail;
    ActiveConcat(head, tail);
    NoneHeld(head);
    assert forall k :: 0 <= k < |tail| ==> tail[k] == l.out[i + k];
    if tail[0].state == Held { AllHeld(tail); }
  }

  /** The window is choked after a reconnect if and only if the queue is at least
      one short of twice the limit; with a limit of one it always is. */
  lemma ChokedIff(l: Lib)
    requires Window(l) && l.limit > 0
    ensures Choked(Reset(l)) <==> |l.out| >= 2 * l.limit - 1
  {
    ResetCounts(l);
  }

  // ---------------------------------------------------- started if not choked

  lemma {:induction false} FillStarts(l: Lib, i: nat, j: nat, budget: nat)
    requires i <= j < |l.out| && Room(l) && l.out[j].state == Held
    requires forall k :: i <= k < j ==> l.out[k].state != Held
    ensures Fill(l, i, budget).lib.out[j] == l.out[j].(state := FirstState(l.out[j].qos2))
    decreases j - i
  {
    if i < j {
      FillStarts(l, i + 1, j, budget);
    } else {
      var m := l.out[i].(state := FirstState(l.out[i].qos2));
      var l' := l.(out := l.out[i := m], inflight := l.inflight + 1);
      if budget > 0 { FillSends(l', i + 1, budget - 1); }
    }
  }

  /** Acknowledging the first messages one after the other. */
  function AckFirst(out: seq<LibMsg>, n: nat): (ops: seq<LibOp>)
    requires n <= |out|
    ensures |ops| == n
  {
    if n == 0 then [] else AckFirst(out, n - 1) + [Ack(out[n - 1].mid, 1)]
  }

  lemma {:induction false} AckedSoFar(r: Lib, n: nat)
    requires r.limit > 0 && r.inflight == |r.out| && n <= |r.out| && |r.out| - n >= r.limit
    requires forall k :: 0 <= k < n ==> r.out[k].state != Held
    ensures OneConnection(r, AckFirst(r.out, n)) && From(r, AckFirst(r.out, n)) == Lib(r.out[n..], |r.out| - n, r.limit)
  {
    hide From, OneConnection, Acknowledge, Find, Fill;
    FromNone(r);
    if n > 0 {
      AckedSoFar(r, n - 1);
      var l, op := Lib(r.out[n - 1..], |r.out| - n + 1, r.limit), Ack(r.out[n - 1].mid, 1);
      FromNext(r, AckFirst(r.out, n - 1), op);
      assert l.out[1..] == r.out[n..] && l.out[0] == r.out[n - 1];
      AckHead(l, 1);
    } else {
      assert r.out[0..] == r.out;
    }
  }

  lemma FromNone(l: Lib)
    ensures From(l, []) == l && OneConnection(l, [])
  {
  }

  lemma FromNext(l: Lib, ops: seq<LibOp>, op: LibOp)
    ensures From(l, ops + [op]) == LibStep(From(l, ops), op)
    ensures OneConnection(l, ops + [op]) <==> OneConnection(l, ops) && Fair(From(l, ops), op) && !op.Reconnect?
  {
    assert (ops + [op])[..|ops|] == ops;
  }

  lemma AckHead(l: Lib, budget: nat)
    requires l.out != []
    ensures Find(l.out, l.out[0].mid) == 0
    ensures Acknowledge(l, l.out[0].mid, budget) == Fill(Lib(l.out[1..], l.inflight - 1, l.limit), 0, budget)
    ensures l.limit > 0 && l.inflight - 1 >= l.limit ==>
              Acknowledge(l, l.out[0].mid, budget).lib == Lib(l.out[1..], l.inflight - 1, l.limit)
  {
    assert DropAt(l.out, 0) == l.out[1..];
  }

  /** One more acknowledgement, and the first held message is sent. */
  lemma AckedEnough(r: Lib, n: nat)
    requires r.limit > 0 && r.inflight == |r.out| && n < r.limit - 1 && |r.out| - n == r.limit
    requires forall k :: 0 <= k < |r.out| ==> (r.out[k].state == Held <==> k + 1 >= r.limit)
    ensures OneConnection(r, AckFirst(r.out, n + 1))
    ensures var done := From(r, AckFirst(r.out, n + 1));
            |done.out| == |r.out| - n - 1 && done.out[r.limit - n - 2].mid == r.out[r.limit - 1].mid &&
            done.out[r.limit - n - 2].state != Held
  {
    AckedSoFar(r, n);
    var ops, l := AckFirst(r.out, n + 1), Lib(r.out[n..], |r.out| - n, r.limit);
    assert ops[..n] == AckFirst(r.out, n) && ops[n] == Ack(r.out[n].mid, 1);
    AckHead(l, 1);
    var now := Lib(l.out[1..], l.inflight - 1, l.limit);
    assert forall k :: 0 <= k < |now.out| ==> now.out[k] == r.out[n + 1 + k];
    FillStarts(now, 0, r.limit - n - 2, 1);
  }

  /** Messages held after a reconnect, for a window that was exact: if the queue is
      at least one short of twice the limit, nothing held or accepted later is sent
      as long as the connection holds, whatever is acknowledged; if it is shorter,
      acknowledging the first messages gets the first held one sent. */
  lemma HeldForGood(l: Lib, ops: seq<LibOp>) returns (acks: seq<LibOp>)
    requires Window(l) && l.limit > 0
    ensures |l.out| >= 2 * l.limit - 1 && OneConnection(Reset(l), ops) ==>
              Holding(From(Reset(l), ops).out) == Holding(Reset(l).out) + Published(ops)
    ensures l.limit <= |l.out| < 2 * l.limit - 1 ==>
              OneConnection(Reset(l), acks) &&
              var done, n := From(Reset(l), acks), |l.out| - l.limit + 1;
              Reset(l).out[l.limit - 1].state == Held && |done.out| == |l.out| - n &&
              done.out[l.limit - 1 - n].mid == l.out[l.limit - 1].mid && done.out[l.limit - 1 - n].state != Held
  {
    acks := [];
    ResetCounts(l);
    ChokedIff(l);
    if |l.out| >= 2 * l.limit - 1 {
      if OneConnection(Reset(l), ops) { ChokedHolds(Reset(l), ops); }
    } else if |l.out| >= l.limit {
      AckedEnough(Reset(l), |l.out| - l.limit);
      acks := AckFirst(Reset(l).out, |l.out| - l.limit + 1);
    }
  }

  /** The smallest input: with one message in flight allowed, the message that was
      in flight when the connection broke is held after the reconnect, and neither it
      nor any message accepted later is sent. */
  lemma HeldAfterOne(ops: seq<LibOp>, content: Content)
    ensures var l := LibRun(1, [Publish(1, false, content), Reconnect]);
            l.out == [LibMsg(1, false, content, Held, false)] && l.inflight == 1 &&
            (OneConnection(l, ops) ==> Holding(From(l, ops).out) == l.out + Published(ops))
  {
    var first := [Publish(1, false, content)];
    var m := LibMsg(1, false, content, WaitPuback, false);
    assert [Publish(1, false, content), Reconnect][..1] == first && first[..0] == [];
    assert LibRun(1, first) == Lib([] + [m], 1, 1) && [] + [m] == [m];
    ActiveOne(m);
    var acks := HeldForGood(Lib([m], 1, 1), ops);
    var l := Reset(Lib([m], 1, 1));
    assert l.out == [m.(state := Held)];
    HoldingOne(l.out[0]);
  }
}
