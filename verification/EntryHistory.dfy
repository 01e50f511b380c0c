/** What was sent and received before an entry got its state. */
module EntryHistory {
  import opened ClientQueue
  import opened BrokerStore
  import opened BrokerEntries
  import opened WriteLaws

  /** From behind operation `j` on, the outgoing entry has been in the queue. */
  ghost predicate Stays(u: Setup, ops: seq<Op>, j: nat, c: nat, k: Key) {
    forall n :: j < n <= |ops| ==>
      c < |Run(u, ops[..n]).clients| && InQueue(Run(u, ops[..n]).clients[c].msgs, k)
  }

  /** Operation `j` wrote the PUBLISH of the entry. */
  ghost predicate PublishSent(u: Setup, ops: seq<Op>, j: nat, c: nat, k: Key) {
    j < |ops| && ops[j].Write? && ops[j].c == c && Possible(Run(u, ops[..j]), ops[j]) &&
    var msgs := Run(u, ops[..j]).clients[c].msgs;
    IncomingQos2(msgs) &&
    exists p :: p in WriteFrom([], msgs, u.lim, ops[j].budget, 0).sent && p.PUBLISH? && (p.mid, p.store) == k
  }

  /** Operation `j` brought the PUBREC of the entry, which was in the queue. */
  ghost predicate PubrecCame(u: Setup, ops: seq<Op>, j: nat, c: nat, k: Key) {
    j < |ops| && ops[j] == Received(c, k.0) && Possible(Run(u, ops[..j]), ops[j]) &&
    InQueue(Run(u, ops[..j]).clients[c].msgs, k)
  }

  lemma StaysNext(u: Setup, ops: seq<Op>, op: Op, j: nat, c: nat, k: Key)
    requires j <= |ops| && (j == |ops| || Stays(u, ops, j, c, k))
    requires c < |Run(u, ops + [op]).clients| && InQueue(Run(u, ops + [op]).clients[c].msgs, k)
    ensures Stays(u, ops + [op], j, c, k)
  {
    hide Run, InQueue;
    var all := ops + [op];
    forall n | j < n <= |all|
      ensures c < |Run(u, all[..n]).clients| && InQueue(Run(u, all[..n]).clients[c].msgs, k)
    {
      if n <= |ops| { assert all[..n] == ops[..n]; } else { assert all[..n] == all; }
    }
  }

  lemma AtFront(ops: seq<Op>, op: Op, j: nat)
    requires j <= |ops|
    ensures (ops + [op])[..j] == ops[..j] && (j < |ops| ==> (ops + [op])[j] == ops[j])
  {
  }

  /** What is marked was done, and the entry has been in the queue since. */
  lemma {:induction false} MarkedBy(u: Setup, ops: seq<Op>, c: nat, k: Key) returns (j: nat)
    requires c < |Run(u, ops).clients|
    ensures k in MarksOf(u, ops)[c].sent ==>
              exists i :: PublishSent(u, ops, i, c, k) && Stays(u, ops, i, c, k)
    ensures k in MarksOf(u, ops)[c].received ==> PubrecCame(u, ops, j, c, k) && Stays(u, ops, j, c, k)
  {
    j := 0;
    if ops != [] {
      var before, op := ops[..|ops| - 1], ops[|ops| - 1];
      assert ops == before + [op];
      var b, h := Run(u, before), MarksOf(u, before);
      hide Run, Step, MarksOf, PublishSent, PubrecCame, Stays, InQueue;
      MarksNext(u, before, op);
      if c < |b.clients| {
        var i := MarkedBy(u, before, c, k);
        if k in MarksOf(u, ops)[c].sent { SentNext(u, before, op, c, k); }
        if k in MarksOf(u, ops)[c].received { j := ReceivedNext(u, before, op, c, k, i); }
      }
    }
  }

  lemma MarksNext(u: Setup, ops: seq<Op>, op: Op)
    ensures MarksOf(u, ops + [op]) == Trimmed(Marking(u, MarksOf(u, ops), Run(u, ops), op), Run(u, ops + [op]))
    ensures Run(u, ops + [op]) == Step(u, Run(u, ops), op)
    ensures var h, b := MarksOf(u, ops), Run(u, ops);
            forall c :: |b.clients| <= c < |Run(u, ops + [op]).clients| ==>
                          Marking(u, h, b, op)[c] == Marks({}, {})
  {
    assert (ops + [op])[..|ops|] == ops;
  }

  lemma SentNext(u: Setup, ops: seq<Op>, op: Op, c: nat, k: Key)
    requires c < |Run(u, ops).clients| && c < |Run(u, ops + [op]).clients| && k in MarksOf(u, ops + [op])[c].sent
    requires k in MarksOf(u, ops)[c].sent ==>
               exists i :: PublishSent(u, ops, i, c, k) && Stays(u, ops, i, c, k)
    ensures exists i :: PublishSent(u, ops + [op], i, c, k) && Stays(u, ops + [op], i, c, k)
  {
    var b, h := Run(u, ops), MarksOf(u, ops);
    MarksNext(u, ops, op);
    hide Run, Step, MarksOf, Stays, InQueue, KeysSent, WriteFrom;
    assert InQueue(Run(u, ops + [op]).clients[c].msgs, k);
    if k in h[c].sent {
      var i :| PublishSent(u, ops, i, c, k) && Stays(u, ops, i, c, k);
      AtFront(ops, op, i);
      StaysNext(u, ops, op, i, c, k);
      assert PublishSent(u, ops + [op], i, c, k);
    } else {
      AtFront(ops, op, |ops|);
      assert ops[..|ops|] == ops && (ops + [op])[|ops|] == op;
      StaysNext(u, ops, op, |ops|, c, k);
      assert PublishSent(u, ops + [op], |ops|, c, k);
    }
  }

  lemma ReceivedNext(u: Setup, ops: seq<Op>, op: Op, c: nat, k: Key, i: nat) returns (j: nat)
    requires c < |Run(u, ops).clients| && c < |Run(u, ops + [op]).clients| && k in MarksOf(u, ops + [op])[c].received
    requires k in MarksOf(u, ops)[c].received ==> PubrecCame(u, ops, i, c, k) && Stays(u, ops, i, c, k)
    ensures PubrecCame(u, ops + [op], j, c, k) && Stays(u, ops + [op], j, c, k)
  {
    var b, h := Run(u, ops), MarksOf(u, ops);
    MarksNext(u, ops, op);
    hide Run, Step, MarksOf, Stays, KeysSent, WriteFrom;
    assert InQueue(Run(u, ops + [op]).clients[c].msgs, k);
    if k in h[c].received {
      j := i;
      AtFront(ops, op, i);
      StaysNext(u, ops, op, i, c, k);
    } else {
      j := |ops|;
      AtFront(ops, op, |ops|);
      assert ops[..|ops|] == ops && (ops + [op])[|ops|] == op;
      StaysNext(u, ops, op, |ops|, c, k);
    }
  }

  // -------------------------------------------------------- over every run

  /** An outgoing entry waits for PUBACK or PUBREC only if its PUBLISH was sent
      while it was in the queue, where it has been since. */
  lemma WaitsForSent(u: Setup, ops: seq<Op>, c: nat, m: ClientMsg)
    requires c < |Run(u, ops).clients| && m in Run(u, ops).clients[c].msgs && m.direction == Out
    requires m.state == WaitForPuback || m.state == WaitForPubrec
    ensures exists j :: PublishSent(u, ops, j, c, (m.mid, m.store)) && Stays(u, ops, j, c, (m.mid, m.store))
  {
    RunNeat(u, ops);
    FormedAt(u, MarksOf(u, ops), Run(u, ops), c);
    hide Run, MarksOf, PublishSent, Stays;
    assert Formed(RulesOf(u, MarksOf(u, ops), c), m);
    var j := MarkedBy(u, ops, c, (m.mid, m.store));
  }

  /** An outgoing entry is about to repeat its PUBREL, or waits for PUBCOMP, only
      if a PUBREC came while it was in the queue, where it has been since. */
  lemma WaitsForReceived(u: Setup, ops: seq<Op>, c: nat, m: ClientMsg) returns (j: nat)
    requires c < |Run(u, ops).clients| && m in Run(u, ops).clients[c].msgs && m.direction == Out
    requires m.state == ResendPubrel || m.state == WaitForPubcomp
    ensures PubrecCame(u, ops, j, c, (m.mid, m.store)) && Stays(u, ops, j, c, (m.mid, m.store))
  {
    RunNeat(u, ops);
    FormedAt(u, MarksOf(u, ops), Run(u, ops), c);
    hide Run, MarksOf, PubrecCame, Stays;
    assert Formed(RulesOf(u, MarksOf(u, ops), c), m);
    j := MarkedBy(u, ops, c, (m.mid, m.store));
  }

  /** No PUBREL is written to a client but for an entry whose PUBREC came while it
      was in the queue, where it has been since. */
  lemma PubrelAfterPubrec(u: Setup, ops: seq<Op>, c: nat, budget: nat, mid: Mid) returns (m: ClientMsg, j: nat)
    requires c < |Run(u, ops).clients| && IncomingQos2(Run(u, ops).clients[c].msgs)
    requires PUBREL(mid) in WriteFrom([], Run(u, ops).clients[c].msgs, u.lim, budget, 0).sent
    ensures m in Run(u, ops).clients[c].msgs && m.mid == mid && m.direction == Out && m.state == ResendPubrel
    ensures PubrecCame(u, ops, j, c, (mid, m.store)) && Stays(u, ops, j, c, (mid, m.store))
  {
    hide *;
    m := PubrelFrom(u.lim, Run(u, ops).clients[c].msgs, budget, mid);
    PubrelIsOut(u, ops, c, m);
    j := WaitsForReceived(u, ops, c, m);
  }

  lemma PubrelFrom(lim: Limits, msgs: seq<ClientMsg>, budget: nat, mid: Mid) returns (m: ClientMsg)
    requires IncomingQos2(msgs) && PUBREL(mid) in WriteFrom([], msgs, lim, budget, 0).sent
    ensures m in msgs && m.mid == mid && m.state == ResendPubrel
  {
    var fates := WriteOrdered([], msgs, lim, budget, 0);
    hide WriteFrom, PacketsOf;
    var i := SentIsCarried(fates, PUBREL(mid));
    assert FateOf(msgs[i], fates[i]);
    m := msgs[i];
  }

  lemma PubrelIsOut(u: Setup, ops: seq<Op>, c: nat, m: ClientMsg)
    requires c < |Run(u, ops).clients| && m in Run(u, ops).clients[c].msgs && m.state == ResendPubrel
    ensures m.direction == Out
  {
    hide Run, MarksOf;
    RunNeat(u, ops);
    FormedAt(u, MarksOf(u, ops), Run(u, ops), c);
    assert Formed(RulesOf(u, MarksOf(u, ops), c), m);
  }
}
