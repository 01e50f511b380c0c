/** What a client is sent when it is back, or slow to answer. */
module SendLaws {
  import opened Common
  import opened SubTree
  import opened SubSearch
  import opened ClientQueue
  import opened BrokerStore
  import opened CopyLaws
  import opened WriteLaws
  import ArrivalLaws
  import BrokerStoreLaws
  import PublishLaws
  import SessionLaws
  import R = BrokerRuns

  /** What an outgoing entry has sent after a reconnect: an exchange known to be
      half done goes on with its PUBREL, every other starts again. */
  predicate Restarts(m: ClientMsg, f: Fate) {
    if m.qos == 2 && m.state == WaitForPubcomp then Carries(f, PUBREL(m.mid))
    else Carries(f, PUBLISH(m.mid, m.store, m.qos, m.retain, m.dup))
  }

  /** What an entry that got no answer has sent again. */
  predicate Repeats(m: ClientMsg, f: Fate) {
    match m.state
    case WaitForPuback => Carries(f, PUBLISH(m.mid, m.store, m.qos, m.retain, true))
    case WaitForPubrec => Carries(f, PUBLISH(m.mid, m.store, m.qos, m.retain, true))
    case WaitForPubrel => Carries(f, PUBREC(m.mid))
    case WaitForPubcomp => Carries(f, PUBREL(m.mid))
    case _ => true
  }

  lemma RestartSends(m: ClientMsg, index: nat, lim: Limits, f: Fate)
    requires m.direction == Out && (m.state != Queued || lim.inflight == 0 || index < lim.inflight)
    requires var n := ResetEntry(m, index, lim); FateOf(n, f) && (HasPacket(n) ==> f.Sent())
    ensures Restarts(m, f)
  {
  }

  lemma RepeatSends(m: ClientMsg, f: Fate)
    requires var n := Retried(m, true); FateOf(n, f) && (HasPacket(n) ==> f.Sent())
    ensures Repeats(m, f)
  {
  }

  /** After a reconnect, when the transport takes everything: every outgoing entry
      that had been started, and every waiting one that the limit lets start, has
      its packet sent, in the order of the queue. */
  lemma ReconnectSends(msgs: seq<ClientMsg>, lim: Limits, budget: nat) returns (fates: seq<Fate>)
    requires IncomingQos2(msgs)
    ensures IncomingQos2(Reset(msgs, lim)) && |fates| == |msgs|
    ensures var w := WriteFrom([], Reset(msgs, lim), lim, budget, 0);
            w.ok ==>
              w.sent == PacketsOf(fates) &&
              forall i :: 0 <= i < |msgs| && msgs[i].direction == Out &&
                          (msgs[i].state != Queued || lim.inflight == 0 || i < lim.inflight) ==>
                            Restarts(msgs[i], fates[i])
  {
    var now := Reset(msgs, lim);
    assert IncomingQos2(now) by {
      forall m | m in now && m.direction == In ensures m.qos == 2 {
        var i :| 0 <= i < |now| && now[i] == m;
        assert msgs[i] in msgs && now[i] == ResetEntry(msgs[i], i, lim);
      }
    }
    fates := WriteOrdered([], now, lim, budget, 0);
    hide WriteFrom, Reset, ResetEntry, Restarts, FateOf, HasPacket, PacketsOf;
    var w := WriteFrom([], now, lim, budget, 0);
    if w.ok {
      forall i | 0 <= i < |msgs| && msgs[i].direction == Out &&
                 (msgs[i].state != Queued || lim.inflight == 0 || i < lim.inflight)
        ensures Restarts(msgs[i], fates[i])
      {
        assert now[i] == ResetEntry(msgs[i], i, lim) && FateOf(now[i], fates[i]);
        RestartSends(msgs[i], i, lim, fates[i]);
      }
    }
  }

  /** The retry check, when the transport takes everything: every entry that is
      too old repeats its packet, a PUBLISH marked as a duplicate, in the order of
      the queue. */
  lemma RetrySends(msgs: seq<ClientMsg>, expired: seq<bool>, lim: Limits, budget: nat) returns (fates: seq<Fate>)
    requires IncomingQos2(msgs) && |expired| == |msgs|
    ensures IncomingQos2(Timeout(msgs, expired)) && |fates| == |msgs|
    ensures forall i :: 0 <= i < |msgs| && !expired[i] ==> Timeout(msgs, expired)[i] == msgs[i]
    ensures var w := WriteFrom([], Timeout(msgs, expired), lim, budget, 0);
            w.ok ==>
              w.sent == PacketsOf(fates) &&
              forall i :: 0 <= i < |msgs| && expired[i] ==> Repeats(msgs[i], fates[i])
  {
    var now := Timeout(msgs, expired);
    assert IncomingQos2(now) by {
      forall m | m in now && m.direction == In ensures m.qos == 2 {
        var i :| 0 <= i < |now| && now[i] == m;
        assert msgs[i] in msgs && now[i] == Retried(msgs[i], expired[i]);
      }
    }
    fates := WriteOrdered([], now, lim, budget, 0);
    assert forall i :: 0 <= i < |msgs| ==> now[i] == Retried(msgs[i], expired[i]);
    assert forall m :: Retried(m, false) == m;
    hide WriteFrom, Timeout, Retried, Repeats, FateOf, HasPacket, PacketsOf;
    if WriteFrom([], now, lim, budget, 0).ok {
      forall i | 0 <= i < |msgs| && expired[i] ensures Repeats(msgs[i], fates[i]) {
        assert FateOf(now[i], fates[i]);
        RepeatSends(msgs[i], fates[i]);
      }
    }
  }

  // ------------------------------------------------------------ over every run

  /** A client that comes back after any run is connected, and sent what
      `ReconnectSends` says of the queue it had. */
  lemma BackInRun(u: Setup, ops: seq<Op>, c: nat, budget: nat) returns (fates: seq<Fate>)
    requires c < |Run(u, ops).clients|
    ensures var b := Run(u, ops + [Reconnect(c)]);
            SessionLaws.OnlyFor(Run(u, ops), b, c) && b.clients[c].connected && IncomingQos2(b.clients[c].msgs) &&
            var msgs, w := Run(u, ops).clients[c].msgs, WriteFrom([], b.clients[c].msgs, u.lim, budget, 0);
            |fates| == |msgs| &&
            (w.ok ==>
               w.sent == PacketsOf(fates) &&
               forall i :: 0 <= i < |msgs| && msgs[i].direction == Out &&
                           (msgs[i].state != Queued || u.lim.inflight == 0 || i < u.lim.inflight) ==>
                             Restarts(msgs[i], fates[i]))
  {
    var b, ops' := Run(u, ops), ops + [Reconnect(c)];
    assert ops'[..|ops|] == ops;
    BrokerStoreLaws.QueueBounds(u, ops, c);
    fates := ReconnectSends(b.clients[c].msgs, u.lim, budget);
    hide Step, WriteFrom, Restarts, PacketsOf, IncomingQos2, Reset;
    StepsBack(u, b, c);
    assert Run(u, ops') == Step(u, b, Reconnect(c));
  }

  /** The retry check after any run. */
  lemma RetryInRun(u: Setup, ops: seq<Op>, c: nat, expired: seq<bool>, budget: nat) returns (fates: seq<Fate>)
    requires c < |Run(u, ops).clients| && Run(u, ops).clients[c].connected
    requires |expired| == |Run(u, ops).clients[c].msgs|
    ensures var b := Run(u, ops + [Expire(c, expired)]);
            SessionLaws.OnlyFor(Run(u, ops), b, c) && b.clients[c].connected && IncomingQos2(b.clients[c].msgs) &&
            var msgs, now := Run(u, ops).clients[c].msgs, b.clients[c].msgs;
            var w := WriteFrom([], now, u.lim, budget, 0);
            |fates| == |msgs| == |now| && (forall i :: 0 <= i < |msgs| && !expired[i] ==> now[i] == msgs[i]) &&
            (w.ok ==>
               w.sent == PacketsOf(fates) &&
               forall i :: 0 <= i < |msgs| && expired[i] ==> Repeats(msgs[i], fates[i]))
  {
    var b, ops' := Run(u, ops), ops + [Expire(c, expired)];
    assert ops'[..|ops|] == ops;
    BrokerStoreLaws.QueueBounds(u, ops, c);
    fates := RetrySends(b.clients[c].msgs, expired, u.lim, budget);
    hide Step, WriteFrom, Repeats, PacketsOf, IncomingQos2, Timeout;
    StepsOn(u, b, c, expired);
    assert Run(u, ops') == Step(u, b, Expire(c, expired));
  }

  lemma StepsOn(u: Setup, b: Broker, c: nat, expired: seq<bool>)
    requires c < |b.clients| && b.clients[c].connected && |expired| == |b.clients[c].msgs|
    ensures var r := Step(u, b, Expire(c, expired));
            SessionLaws.OnlyFor(b, r, c) && r.clients[c].connected &&
            r.clients[c].msgs == Timeout(b.clients[c].msgs, expired)
  {
    hide Timeout;
  }

  // -------------------------------------------------- published while away

  lemma {:induction false} FlatHas(pieces: seq<seq<ClientMsg>>, i: nat, m: ClientMsg)
    requires i < |pieces| && m in pieces[i]
    ensures m in Flat(pieces)
  {
    if i > 0 { FlatHas(pieces[1..], i - 1, m); }
  }

  /** An outgoing entry that waits is sent once its client is back, if there is
      no limit on what is in flight and the transport takes everything. */
  lemma WaitingIsSent(msgs: seq<ClientMsg>, lim: Limits, budget: nat, m: ClientMsg)
    requires IncomingQos2(msgs) && lim.inflight == 0
    requires m in msgs && m.direction == Out && m.state == Queued
    ensures IncomingQos2(Reset(msgs, lim))
    ensures var w := WriteFrom([], Reset(msgs, lim), lim, budget, 0);
            w.ok ==> PUBLISH(m.mid, m.store, m.qos, m.retain, m.dup) in w.sent
  {
    var fates := ReconnectSends(msgs, lim, budget);
    hide WriteFrom, Reset, PacketsOf;
    if WriteFrom([], Reset(msgs, lim), lim, budget, 0).ok {
      var i :| 0 <= i < |msgs| && msgs[i] == m;
      assert Restarts(msgs[i], fates[i]);
      CarriedIsSent(fates, i, PUBLISH(m.mid, m.store, m.qos, m.retain, m.dup));
    }
  }

  /** With no limits a new message published while a client is away waits for it,
      an entry for every delivery that is due to it, and when the client is back
      and takes everything, each of them is sent as a PUBLISH. */
  lemma PublishedWhileAway(u: Setup, ops: seq<R.Op>, past: seq<Op>, op: Op, slot: Option<nat>, c: nat, budget: nat)
    returns (ds: seq<Delivery>, qs: seq<Qos>, pieces: seq<seq<ClientMsg>>)
    requires PublishLaws.FromTree(ops, Run(u, past), op, slot) && u.lim == Limits(0, 0)
    requires c < |Run(u, past).clients| && PublishLaws.Distinct(Run(u, past).clients)
    requires !Run(u, past).clients[c].connected && !ArrivalLaws.Reuses(Run(u, past), op.c, op.mid, op.qos)
    ensures PublishLaws.OwnMatches(R.FlatRun(ops), Run(u, past).clients[c].id, op.topic, ds)
    ensures |qs| == |ds| == |pieces| &&
            forall i :: 0 <= i < |ds| ==>
              RightQos(u.cfg.upgradeQos, qs[i], op.qos, ds[i].leaf.qos) &&
              (pieces[i] != [] <==>
               (qs[i] > 0 || u.cfg.queueQos0) && (u.cfg.allowDuplicates || Flat(pieces[..i]) == []))
    ensures var b := Run(u, past + [op] + [Reconnect(c)]);
            c < |b.clients| && IncomingQos2(b.clients[c].msgs) &&
            var w := WriteFrom([], b.clients[c].msgs, u.lim, budget, 0);
            w.ok ==>
              forall i :: 0 <= i < |pieces| && pieces[i] != [] ==>
                PUBLISH(pieces[i][0].mid, Run(u, past).lastDbId + 1, qs[i], false, false) in w.sent
  {
    hide Run, Step, WriteFrom, Reset, R.Run, R.FlatRun, PublishLaws.TreeWork, PublishLaws.Distinct, Held,
         PublishLaws.OwnMatches, RightQos, Flat, R.PubTopicOk, Possible;
    var b, id := Run(u, past), Run(u, past).lastDbId + 1;
    ds, qs, pieces := PublishLaws.PublishQueues(u, ops, past, op, slot, c);
    PublishLaws.CopiesKept(u, b.clients[c], id, op.qos, ds, qs, pieces);
    var msgs := b.clients[c].msgs + Flat(pieces);
    Back(u, past, op, c, msgs);
    var w := WriteFrom([], Reset(msgs, u.lim), u.lim, budget, 0);
    if w.ok {
      forall i | 0 <= i < |pieces| && pieces[i] != []
        ensures PUBLISH(pieces[i][0].mid, id, qs[i], false, false) in w.sent
      {
        var m := pieces[i][0];
        KeptEntry(u, b.clients[c], id, op.qos, ds, qs, pieces, i);
        FlatHas(pieces, i, m);
        WaitingIsSent(msgs, u.lim, budget, m);
      }
    }
  }

  lemma KeptEntry(u: Setup, s: Session, id: StoreId, qos: Qos, ds: seq<Delivery>, qs: seq<Qos>,
                  pieces: seq<seq<ClientMsg>>, i: nat)
    requires PublishLaws.CopiesTo(u, s, false, id, qos, ds, qs, pieces) && !s.connected
    requires i < |pieces| && pieces[i] != []
    ensures var m := pieces[i][0];
            m in pieces[i] && m.direction == Out && m.state == Queued && m.store == id && m.qos == qs[i] && !m.retain &&
            !m.dup
  {
    hide Held, Flat;
    assert RightQos(u.cfg.upgradeQos, qs[i], qos, ds[i].leaf.qos);
  }

  lemma Back(u: Setup, past: seq<Op>, op: Op, c: nat, msgs: seq<ClientMsg>)
    requires c < |Step(u, Run(u, past), op).clients| && Step(u, Run(u, past), op).clients[c].msgs == msgs
    ensures IncomingQos2(msgs) && IncomingQos2(Reset(msgs, u.lim))
    ensures var b := Run(u, past + [op] + [Reconnect(c)]);
            c < |b.clients| && b.clients[c].msgs == Reset(msgs, u.lim)
  {
    var ops1, ops2 := past + [op], past + [op] + [Reconnect(c)];
    assert ops1[..|past|] == past && ops2[..|ops1|] == ops1;
    var b := Run(u, ops1);
    assert b == Step(u, Run(u, past), op);
    hide Step, Reset;
    BrokerStoreLaws.QueueBounds(u, ops1, c);
    StepsBack(u, b, c);
    assert Run(u, ops2) == Step(u, b, Reconnect(c));
    hide Run;
    BrokerStoreLaws.QueueBounds(u, ops2, c);
  }

  lemma StepsBack(u: Setup, b: Broker, c: nat)
    requires c < |b.clients|
    ensures var r := Step(u, b, Reconnect(c));
            SessionLaws.OnlyFor(b, r, c) && r.clients[c].connected &&
            r.clients[c].msgs == Reset(b.clients[c].msgs, u.lim)
  {
    hide Reset;
  }
}
