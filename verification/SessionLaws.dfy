/** What one client's packets do to its queue. */
module SessionLaws {
  import opened Common
  import opened SubTree
  import opened ClientQueue
  import opened MsgStore
  import opened BrokerStore
  import opened BrokerStoreSteps
  import opened QueueLaws
  import opened ReleaseLaws
  import opened WriteLaws

  /** Only client `c` changed, and no slot. */
  predicate OnlyFor(b: Broker, r: Broker, c: nat) {
    r.slots == b.slots && |r.clients| == |b.clients| && c < |b.clients| &&
    r.clients[c].id == b.clients[c].id && r.clients[c].lastMid == b.clients[c].lastMid &&
    forall k :: 0 <= k < |b.clients| && k != c ==> r.clients[k] == b.clients[k]
  }

  // ------------------------------------------------- within the in-flight limit

  /** None of the first `n` entries waits. */
  predicate FirstStarted(msgs: seq<ClientMsg>, n: int) {
    forall k :: 0 <= k < |msgs| && k < n ==> msgs[k].state != Queued
  }

  lemma {:induction false} PromoteStays(msgs: seq<ClientMsg>, lim: Limits)
    ensures var r := PromoteHead(msgs, lim);
            forall k :: 0 <= k < |msgs| && msgs[k].state != Queued ==> r[k].state != Queued
  {
    if msgs != [] && msgs[0].state == Queued && lim.inflight > 0 {
      PromoteStays(msgs[1..], lim);
      var r := PromoteHead(msgs, lim);
      assert forall k :: 1 <= k < |msgs| ==> msgs[k] == msgs[1..][k - 1] && r[k] == PromoteHead(msgs[1..], lim)[k - 1];
    }
  }

  predicate AllQos2In(later: seq<seq<ClientMsg>>) {
    forall own :: own in later ==> IncomingQos2(own)
  }

  /** Deleting leaves none of the first entries waiting, as many as may be in
      flight; releasing, which counts what it takes out, one less for each. */
  lemma {:induction false} SweepStarts(pre: seq<ClientMsg>, rest: seq<ClientMsg>, index: nat, mid: Mid, dir: Direction,
                                       lim: Limits, release: bool, deleted: bool, later: seq<seq<ClientMsg>>)
    requires IncomingQos2(rest) && AllQos2In(later) && index >= |pre|
    requires FirstStarted(pre, lim.inflight - (index - |pre|))
    ensures var r := Sweep(pre, rest, index, mid, dir, lim, release, deleted, later);
            FirstStarted(r.msgs, lim.inflight - (index - |pre|) - if release then |r.removed| else 0)
    decreases |later|, |rest|
  {
    if rest != [] {
      var t := Touched(rest[0], index + 1, lim);
      assert rest[0] in rest;
      if IsEntry(t, mid, dir) {
        SweepTakesStarts(pre, rest, index, mid, dir, lim, release, deleted, later);
      } else {
        hide IsEntry;
        SweepStarts(pre + [t], rest[1..], index + 1, mid, dir, lim, release, deleted, later);
      }
    }
  }

  lemma {:induction false} SweepTakesStarts(pre: seq<ClientMsg>, rest: seq<ClientMsg>, index: nat, mid: Mid,
                                            dir: Direction, lim: Limits, release: bool, deleted: bool,
                                            later: seq<seq<ClientMsg>>)
    requires IncomingQos2(rest) && AllQos2In(later) && index >= |pre|
    requires FirstStarted(pre, lim.inflight - (index - |pre|))
    requires rest != [] && IsEntry(Touched(rest[0], index + 1, lim), mid, dir)
    ensures var r := Sweep(pre, rest, index, mid, dir, lim, release, deleted, later);
            FirstStarted(r.msgs, lim.inflight - (index - |pre|) - if release then |r.removed| else 0)
    decreases |later|, |rest|, 0
  {
    hide Touched, TouchSends, IsEntry, PromoteHead, FirstStarted, IncomingQos2, AllQos2In;
    var more := if later == [] then [] else later[0];
    var all := PromoteHead(pre + rest[1..] + more, lim);
    PromotedHalves(pre, rest, more, later, lim, lim.inflight - (index - |pre|));
    var index' := if release then index + 1 else index;
    if index' <= lim.inflight {
      FewerStarted(all[..|pre|], lim.inflight - (index - |pre|), lim.inflight - (index' - |pre|));
      SweepStarts(all[..|pre|], all[|pre|..], index', mid, dir, lim, release, true,
                  if later == [] then [] else later[1..]);
    } else {
      InFront(all, |pre|, lim.inflight - (index - |pre|) - if release then 1 else 0);
    }
  }

  lemma FewerStarted(msgs: seq<ClientMsg>, n: int, k: int)
    requires FirstStarted(msgs, n) && k <= n
    ensures FirstStarted(msgs, k)
  {
  }

  lemma InFront(all: seq<ClientMsg>, i: nat, n: int)
    requires i <= |all| && n <= i && FirstStarted(all[..i], n)
    ensures FirstStarted(all, n)
  {
    assert forall k :: 0 <= k < i ==> all[..i][k] == all[k];
  }

  lemma PromotedHalves(pre: seq<ClientMsg>, rest: seq<ClientMsg>, more: seq<ClientMsg>, later: seq<seq<ClientMsg>>,
                       lim: Limits, n: int)
    requires rest != [] && IncomingQos2(rest) && AllQos2In(later) && FirstStarted(pre, n)
    requires more == if later == [] then [] else later[0]
    ensures var all := PromoteHead(pre + rest[1..] + more, lim);
            IncomingQos2(all[|pre|..]) && FirstStarted(all[..|pre|], n) && FirstStarted(all[..|pre|], n - 1) &&
            (later != [] ==> AllQos2In(later[1..]))
  {
    var less := pre + rest[1..] + more;
    var all := PromoteHead(less, lim);
    PromoteStays(less, lim);
    PromoteKeeps(less, lim);
    hide PromoteHead;
    assert forall k :: 0 <= k < |pre| ==> less[k] == pre[k];
    assert later != [] ==> IncomingQos2(more);
    forall m | m in all[|pre|..] && m.direction == In ensures m.qos == 2 {
      var k :| |pre| <= k < |all| && all[k] == m;
      assert less[k] in rest[1..] + more;
      assert less[k] in rest || less[k] in more;
    }
  }

  /** While a PUBREL is handled, every waiting message on its way in that is passed
      within the limit, up to the one released, is answered with its PUBREC. */
  lemma {:induction false} SweepAnswers(pre: seq<ClientMsg>, rest: seq<ClientMsg>, index: nat, mid: Mid, lim: Limits,
                                        later: seq<seq<ClientMsg>>)
    ensures var sent := Sweep(pre, rest, index, mid, In, lim, true, false, later).sent;
            forall k :: 0 <= k < |rest| && index + k < lim.inflight && rest[k].state == Queued &&
                        rest[k].direction == In && rest[k].qos == 2 &&
                        (forall i :: 0 <= i < k && rest[i].direction == In ==> rest[i].mid != mid) ==>
                          PUBREC(rest[k].mid) in sent
    decreases |rest|
  {
    if rest != [] {
      var t := Touched(rest[0], index + 1, lim);
      TouchedCore(rest[0], index + 1, lim);
      assert t.mid == rest[0].mid && t.direction == rest[0].direction by { CoreIs(t, rest[0]); }
      var sent := Sweep(pre, rest, index, mid, In, lim, true, false, later).sent;
      if !IsEntry(t, mid, In) {
        SweepAnswers(pre + [t], rest[1..], index + 1, mid, lim, later);
        hide Touched;
        forall k | 0 <= k < |rest| && index + k < lim.inflight && rest[k].state == Queued &&
                   rest[k].direction == In && rest[k].qos == 2 &&
                   (forall i :: 0 <= i < k && rest[i].direction == In ==> rest[i].mid != mid)
          ensures PUBREC(rest[k].mid) in sent
        {
          if k > 0 {
            assert rest[k] == rest[1..][k - 1];
            assert forall i :: 0 <= i < k - 1 ==> rest[1..][i] == rest[i + 1];
          }
        }
      } else {
        hide Touched, PromoteHead, Sweep;
        AnswersFirst(pre, rest, index, mid, lim, later);
      }
    }
  }

  lemma AnswersFirst(pre: seq<ClientMsg>, rest: seq<ClientMsg>, index: nat, mid: Mid, lim: Limits,
                     later: seq<seq<ClientMsg>>)
    requires rest != []
    ensures index < lim.inflight && rest[0].state == Queued && rest[0].direction == In && rest[0].qos == 2 ==>
              PUBREC(rest[0].mid) in Sweep(pre, rest, index, mid, In, lim, true, false, later).sent
  {
    hide PromoteHead;
  }

  // --------------------------------------------- waiting messages on their way in

  /** How often the write loop counts an entry: one that waits on its way in is met
      again when it has been started. */
  function Counted(m: ClientMsg): nat {
    if m.direction == Out then 0 else if m.state == Queued then 2 else 1
  }

  function CountedAll(msgs: seq<ClientMsg>): nat {
    if msgs == [] then 0 else Counted(msgs[0]) + CountedAll(msgs[1..])
  }

  lemma {:induction false} MovedCounted(a: seq<ClientMsg>, b: seq<ClientMsg>)
    requires AllMoved(a, b)
    ensures CountedAll(b) <= CountedAll(a)
  {
    if a != [] {
      assert Moved(a[0], b[0]);
      assert forall i :: 0 <= i < |a| - 1 ==> a[1..][i] == a[i + 1] && b[1..][i] == b[i + 1];
      MovedCounted(a[1..], b[1..]);
    }
  }

  /** Due for its PUBREC: it has been started, or will be within the limit. */
  predicate DueIn(msgs: seq<ClientMsg>, k: nat, lim: Limits, seen: nat)
    requires k < |msgs|
  {
    msgs[k].direction == In &&
    (msgs[k].state == SendPubrec ||
     (msgs[k].state == Queued && (lim.inflight == 0 || seen + CountedAll(msgs[..k]) + 1 < lim.inflight)))
  }

  lemma DueParts(rest: seq<ClientMsg>, k: nat, lim: Limits, seen: nat)
    requires k < |rest| && DueIn(rest, k, lim, seen)
    ensures rest[k].direction == In && (rest[k].state == SendPubrec || rest[k].state == Queued)
    ensures k == 0 && rest[0].state == Queued ==> lim.inflight == 0 || seen + 1 < lim.inflight
  {
    assert rest[..0] == [];
  }

  lemma DueStarted(rest: seq<ClientMsg>, k: nat, lim: Limits, seen: nat)
    requires k < |rest| && DueIn(rest, k, lim, seen) && rest[0].state == Queued && rest[0].direction == In
    ensures var now := [rest[0].(state := SendPubrec)] + rest[1..];
            DueIn(now, k, lim, seen + 1) && now[k].mid == rest[k].mid
  {
    var now := [rest[0].(state := SendPubrec)] + rest[1..];
    if k > 0 {
      assert rest[..k][1..] == rest[1..][..k - 1] && now[..k][1..] == rest[1..][..k - 1];
      assert CountedAll(rest[..k]) == 2 + CountedAll(rest[1..][..k - 1]);
      assert CountedAll(now[..k]) == 1 + CountedAll(rest[1..][..k - 1]);
    }
  }

  lemma DueNext(rest: seq<ClientMsg>, k: nat, lim: Limits, seen: nat)
    requires 0 < k < |rest| && DueIn(rest, k, lim, seen)
    ensures DueIn(rest[1..], k - 1, lim, seen + if rest[0].direction == In then 1 else 0)
    ensures rest[1..][k - 1] == rest[k]
  {
    assert rest[..k][1..] == rest[1..][..k - 1];
    assert CountedAll(rest[..k]) == Counted(rest[0]) + CountedAll(rest[1..][..k - 1]);
  }

  lemma StaysDue(pre: seq<ClientMsg>, tail: seq<ClientMsg>, lim: Limits, seen: nat, k: nat)
    requires k < |tail| && DueIn(tail, k, lim, seen) && tail[k].qos == 2
    ensures var all := PromoteHead(pre + tail, lim);
            k < |all[|pre|..]| && DueIn(all[|pre|..], k, lim, seen) && all[|pre|..][k].mid == tail[k].mid
  {
    var all := PromoteHead(pre + tail, lim);
    CutMoved(pre, tail, lim);
    assert Moved(tail[k], all[|pre|..][k]);
    assert AllMoved(tail[..k], all[|pre|..][..k]);
    MovedCounted(tail[..k], all[|pre|..][..k]);
    hide PromoteHead, AllMoved;
  }

  /** Writing answers the messages on their way in that are due, if the transport
      takes everything. */
  lemma {:induction false} WriteAnswers(pre: seq<ClientMsg>, rest: seq<ClientMsg>, lim: Limits, budget: nat, seen: nat,
                                        k: nat)
    requires IncomingQos2(rest) && k < |rest| && DueIn(rest, k, lim, seen)
    requires WriteFrom(pre, rest, lim, budget, seen).ok
    ensures PUBREC(rest[k].mid) in WriteFrom(pre, rest, lim, budget, seen).sent
    decreases |rest|, if rest != [] && rest[0].state == Queued then 1 else 0
  {
    var t, tail := rest[0], rest[1..];
    var seen' := seen + if t.direction == In then 1 else 0;
    if k > 0 { DueNext(rest, k, lim, seen); }
    hide DueIn, PromoteHead;
    DueParts(rest, k, lim, seen);
    if t.state == Queued && t.direction == In && (lim.inflight == 0 || seen' < lim.inflight) {
      var u := t.(state := SendPubrec);
      assert forall m :: m in tail ==> m in rest;
      DueStarted(rest, k, lim, seen);
      WriteAnswers(pre, [u] + tail, lim, budget, seen', k);
    } else if t.state == Queued || PacketFor(t) == None {
      WriteAnswers(pre + [t], tail, lim, budget, seen', k - 1);
    } else if t.state == PublishQos0 {
      var all := PromoteHead(pre + tail, lim);
      QueueLaws.PromotedIncoming(pre, rest, lim);
      StaysDue(pre, tail, lim, seen', k - 1);
      WriteAnswers(all[..|pre|], all[|pre|..], lim, budget - 1, seen', k - 1);
    } else if k > 0 {
      WriteAnswers(pre + [AfterSend(t)], tail, lim, budget - 1, seen', k - 1);
    }
  }

  // ------------------------------------------------------------ over every run

  /** After any run, a PUBACK or PUBCOMP for an id that one outgoing entry has takes
      that entry out; for an id that none has it takes out nothing. All others keep
      their order, and none of the first, as many as may be in flight, waits. */
  lemma AcknowledgedGoes(u: Setup, ops: seq<Op>, c: nat, mid: Mid)
    requires c < |Run(u, ops).clients| && Run(u, ops).clients[c].connected
    ensures var b, r := Run(u, ops), Step(u, Run(u, ops), Acknowledged(c, mid));
            OnlyFor(b, r, c) && r.clients[c].connected && FirstStarted(r.clients[c].msgs, u.lim.inflight)
    ensures var msgs, now := Run(u, ops).clients[c].msgs, Step(u, Run(u, ops), Acknowledged(c, mid)).clients[c].msgs;
            ((forall m :: m in msgs && m.direction == Out ==> m.mid != mid) ==> Progressed(msgs, now)) &&
            forall j :: 0 <= j < |msgs| && OnlyAt(msgs, j, mid) ==> Progressed(DropAt(msgs, j), now)
  {
    hide *;
    var msgs := Run(u, ops).clients[c].msgs;
    StepIs(u, Run(u, ops), c, mid);
    RunQos2(u, ops, c);
    DeleteStarts(msgs, mid, u.lim);
    var now := Delete(msgs, mid, Out, u.lim).msgs;
    if forall m :: m in msgs && m.direction == Out ==> m.mid != mid { DeletesNone(msgs, mid, u.lim); }
    forall j | 0 <= j < |msgs| && OnlyAt(msgs, j, mid) ensures Progressed(DropAt(msgs, j), now) {
      DeletesAt(msgs, j, mid, u.lim);
    }
  }

  lemma RunQos2(u: Setup, ops: seq<Op>, c: nat)
    requires c < |Run(u, ops).clients|
    ensures IncomingQos2(Run(u, ops).clients[c].msgs)
  {
    RunSound(u, ops);
    hide Run;
    assert QueueFine(u.lim, Run(u, ops).clients[c].msgs);
  }

  lemma DeleteStarts(msgs: seq<ClientMsg>, mid: Mid, lim: Limits)
    requires IncomingQos2(msgs)
    ensures FirstStarted(Delete(msgs, mid, Out, lim).msgs, lim.inflight)
  {
    hide Sweep;
    SweepStarts([], msgs, 0, mid, Out, lim, false, false, []);
  }

  /** The one outgoing entry of the id. */
  predicate OnlyAt(msgs: seq<ClientMsg>, j: nat, mid: Mid)
    requires j < |msgs|
  {
    msgs[j].direction == Out && msgs[j].mid == mid &&
    forall k :: 0 <= k < |msgs| && k != j && msgs[k].direction == Out ==> msgs[k].mid != mid
  }

  lemma StepIs(u: Setup, b: Broker, c: nat, mid: Mid)
    requires c < |b.clients| && b.clients[c].connected
    ensures var r := Step(u, b, Acknowledged(c, mid));
            OnlyFor(b, r, c) && r.clients[c].connected &&
            r.clients[c].msgs == Delete(b.clients[c].msgs, mid, Out, u.lim).msgs
  {
    hide Delete, DerefAll;
  }

  lemma CoresAre(a: seq<ClientMsg>, b: seq<ClientMsg>)
    requires Cores(a) == Cores(b)
    ensures Progressed(a, b)
  {
    assert |a| == |Cores(a)| == |b|;
    forall i | 0 <= i < |a| ensures Core(b[i]) == Core(a[i]) { assert Cores(a)[i] == Cores(b)[i]; }
  }

  lemma DeletesNone(msgs: seq<ClientMsg>, mid: Mid, lim: Limits)
    requires forall m :: m in msgs && m.direction == Out ==> m.mid != mid
    ensures Progressed(msgs, Delete(msgs, mid, Out, lim).msgs)
  {
    hide Sweep, Cores;
    NoEntry(msgs, mid, Out);
    SweepTakesOne([], msgs, 0, mid, Out, lim, false, false, []);
    SweepNothing([], msgs, 0, mid, Out, lim, false, false);
    assert Cores([]) == [] by { CoresConcat([], []); NoCores(); }
    assert [] + Cores(msgs) == Cores(msgs);
    CoresAre(msgs, Delete(msgs, mid, Out, lim).msgs);
  }

  lemma NoCores()
    ensures Cores([]) == []
  {
  }

  lemma DeletesAt(msgs: seq<ClientMsg>, j: nat, mid: Mid, lim: Limits)
    requires j < |msgs| && OnlyAt(msgs, j, mid)
    ensures Progressed(DropAt(msgs, j), Delete(msgs, mid, Out, lim).msgs)
  {
    hide Sweep, Cores;
    NoEntry(msgs, mid, Out);
    SweepTakesOne([], msgs, 0, mid, Out, lim, false, false, []);
    SweepNothing([], msgs, 0, mid, Out, lim, false, false);
    NoCores();
    assert IsEntry(msgs[j], mid, Out) && IndexOfEntry(msgs, mid, Out) == j;
    assert [] + DropAt(Cores(msgs), j) + [] == DropAt(Cores(msgs), j);
    DroppedCores(msgs, j);
    CoresAre(DropAt(msgs, j), Delete(msgs, mid, Out, lim).msgs);
  }

  lemma DroppedCores(msgs: seq<ClientMsg>, j: nat)
    requires j < |msgs|
    ensures Cores(DropAt(msgs, j)) == DropAt(Cores(msgs), j)
  {
  }

  /** Nothing put behind the queue is nothing put behind it. */
  lemma {:induction false} SweepNothing(pre: seq<ClientMsg>, rest: seq<ClientMsg>, index: nat, mid: Mid, dir: Direction,
                                        lim: Limits, release: bool, deleted: bool)
    ensures Sweep(pre, rest, index, mid, dir, lim, release, deleted, [[]]) ==
            Sweep(pre, rest, index, mid, dir, lim, release, deleted, [])
    decreases |rest|
  {
    if rest != [] {
      var t := Touched(rest[0], index + 1, lim);
      hide Touched, TouchSends, PromoteHead, IsEntry;
      if IsEntry(t, mid, dir) {
        var own: seq<seq<ClientMsg>> := [[]];
        assert own[1..] == [];
      } else {
        SweepNothing(pre + [t], rest[1..], index + 1, mid, dir, lim, release, deleted);
      }
    }
  }

  /** A PUBREC moves the first outgoing entry of its id on to wait for PUBCOMP. */
  lemma ReceivedMoves(u: Setup, b: Broker, c: nat, mid: Mid)
    requires c < |b.clients| && b.clients[c].connected
    ensures var r := Step(u, b, Received(c, mid));
            OnlyFor(b, r, c) && r.stores == b.stores && |r.clients[c].msgs| == |b.clients[c].msgs|
    ensures var msgs, now := b.clients[c].msgs, Step(u, b, Received(c, mid)).clients[c].msgs;
            forall j :: 0 <= j < |msgs| ==>
              if msgs[j].direction == Out && msgs[j].mid == mid &&
                 forall k :: 0 <= k < j && msgs[k].direction == Out ==> msgs[k].mid != mid
              then now[j] == msgs[j].(state := WaitForPubcomp) else now[j] == msgs[j]
  {
  }

  /** A connection that breaks leaves the queue, its messages and everything else as
      they are; a new client starts with an empty queue. */
  lemma BreaksAndJoins(u: Setup, ops: seq<Op>, c: nat, id: ClientId)
    requires c < |Run(u, ops).clients|
    ensures var b, r := Run(u, ops), Run(u, ops + [Disconnect(c)]);
            r == b.(clients := r.clients) && |r.clients| == |b.clients| && !r.clients[c].connected &&
            r.clients[c].msgs == b.clients[c].msgs && OnlyFor(b, r, c)
    ensures var b, r := Run(u, ops), Run(u, ops + [Join(id)]);
            r == b.(clients := r.clients) && |r.clients| == |b.clients| + 1 && r.clients[..|b.clients|] == b.clients &&
            r.clients[|b.clients|].id == id && r.clients[|b.clients|].connected && r.clients[|b.clients|].msgs == []
  {
    hide *;
    RunNext(u, ops, Disconnect(c));
    RunNext(u, ops, Join(id));
    BreaksIs(u, Run(u, ops), c);
    JoinsIs(u, Run(u, ops), id);
  }

  lemma RunNext(u: Setup, ops: seq<Op>, op: Op)
    ensures Run(u, ops + [op]) == Step(u, Run(u, ops), op)
  {
    assert (ops + [op])[..|ops|] == ops;
    hide Step;
  }

  lemma BreaksIs(u: Setup, b: Broker, c: nat)
    requires c < |b.clients|
    ensures var r := Step(u, b, Disconnect(c));
            r == b.(clients := r.clients) && |r.clients| == |b.clients| && !r.clients[c].connected &&
            r.clients[c].msgs == b.clients[c].msgs && OnlyFor(b, r, c)
  {
  }

  lemma JoinsIs(u: Setup, b: Broker, id: ClientId)
    ensures var r := Step(u, b, Join(id));
            r == b.(clients := r.clients) && |r.clients| == |b.clients| + 1 && r.clients[..|b.clients|] == b.clients &&
            r.clients[|b.clients|].id == id && r.clients[|b.clients|].connected && r.clients[|b.clients|].msgs == []
  {
  }

  /** Another queue points at the message. */
  ghost predicate QueuedElsewhere(b: Broker, c: nat, id: StoreId) {
    exists k, m :: 0 <= k < |b.clients| && k != c && m in b.clients[k].msgs && m.store == id
  }

  /** When a session ends its queue is emptied, over every run: what is still stored
      is what something else points at, or was leaked before. */
  lemma CleanEmpties(u: Setup, ops: seq<Op>, c: nat)
    requires c < |Run(u, ops).clients|
    ensures var b, r := Run(u, ops), Step(u, Run(u, ops), Clean(c));
            OnlyFor(b, r, c) && r.clients[c].msgs == [] && r.clients[c].connected == b.clients[c].connected &&
            forall id :: id in r.stores <==>
              id in b.stores && (id in b.leaked || Some(id) in b.slots || QueuedElsewhere(b, c, id))
  {
    var b, r := Run(u, ops), Step(u, Run(u, ops), Clean(c));
    RunSound(u, ops);
    StepSound(u, b, Clean(c));
    hide Run, Refs, Step, Orderly;
    CleanIs(u, b, c);
    assert Refs(b) + multiset{} == Refs(b) && Refs(r) + multiset{} == Refs(r);
    forall id
      ensures id in r.stores <==>
              id in b.stores && (id in b.leaked || Some(id) in b.slots || QueuedElsewhere(b, c, id))
    {
      RefsIff(b, id);
      RefsIff(r, id);
      if k, m :| 0 <= k < |r.clients| && m in r.clients[k].msgs && m.store == id {
        assert k != c && m in b.clients[k].msgs;
      }
      if k, m :| 0 <= k < |b.clients| && k != c && m in b.clients[k].msgs && m.store == id {
        assert m in r.clients[k].msgs;
      }
    }
  }

  lemma RefsIff(b: Broker, id: StoreId)
    ensures id in Refs(b) <==>
            Some(id) in b.slots || exists k, m :: 0 <= k < |b.clients| && m in b.clients[k].msgs && m.store == id
  {
    QueueRefsIff(b.clients, id);
    SlotRefsIff(b.slots, id);
    hide QueueRefs, SlotRefs;
  }

  lemma {:induction false} QueueRefsIff(clients: seq<Session>, id: StoreId)
    ensures id in QueueRefs(clients) <==> exists k, m :: 0 <= k < |clients| && m in clients[k].msgs && m.store == id
  {
    if clients != [] {
      var rest := clients[1..];
      QueueRefsIff(rest, id);
      RefsInIff(clients[0].msgs, id);
      hide RefsIn, QueueRefs;
      if k, m :| 0 <= k < |rest| && m in rest[k].msgs && m.store == id {
        assert m in clients[k + 1].msgs;
      }
      if k, m :| 0 <= k < |clients| && m in clients[k].msgs && m.store == id {
        if k > 0 { assert m in rest[k - 1].msgs; }
      }
    }
  }

  lemma RefsInIff(msgs: seq<ClientMsg>, id: StoreId)
    ensures id in RefsIn(msgs) <==> exists m :: m in msgs && m.store == id
  {
    var ids := StoresOf(msgs);
    assert forall m :: m in msgs ==> m.store in ids by {
      forall m | m in msgs ensures m.store in ids {
        var i :| 0 <= i < |msgs| && msgs[i] == m;
        assert ids[i] == m.store;
      }
    }
    if id in ids {
      var i :| 0 <= i < |ids| && ids[i] == id;
      assert msgs[i] in msgs && msgs[i].store == id;
    }
  }

  lemma {:induction false} SlotRefsIff(slots: seq<Option<StoreId>>, id: StoreId)
    ensures id in SlotRefs(slots) <==> Some(id) in slots
  {
    if slots != [] { SlotRefsIff(slots[1..], id); }
  }

  lemma CleanIs(u: Setup, b: Broker, c: nat)
    requires c < |b.clients|
    ensures var r := Step(u, b, Clean(c));
            OnlyFor(b, r, c) && r.clients[c].msgs == [] && r.clients[c].connected == b.clients[c].connected
    ensures Step(u, b, Clean(c)).leaked == b.leaked
  {
    hide DerefAll;
  }
}
