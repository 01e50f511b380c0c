/** The invariant of the QoS 2 exchange, which ties the queues of sender and
    receiver to the two channels between them, and why every step keeps it: the
    five packets, the two retry checks, the reconnect, and whatever else happens
    in the two queues. */
module Qos2Steps {
  import opened Common
  import opened Qos2
  import opened Qos2Receiver
  import Q = ClientQueue
  import S = MsgStore
  import L = ClientLib
  import SubTree

  // ---------------------------------------------------------- the invariant

  /** How far the sender is with a message it still has. */
  function Progress(out: seq<L.LibMsg>, mid: Mid): Option<L.LibState> {
    var i := L.Find(out, mid);
    if i < |out| then Some(out[i].state) else None
  }

  predicate NotSentOn(s: State, mid: Mid) {
    Progress(s.lib.out, mid) == Some(L.WaitPubrec)
  }

  predicate OutFine(m: L.LibMsg, accepted: map<Mid, Content>, fired: seq<Mid>) {
    m.qos2 && (m.state == L.WaitPubrec || m.state == L.WaitPubcomp) &&
    m.mid in accepted && accepted[m.mid] == m.content && m.mid !in fired
  }

  predicate DistinctOut(out: seq<L.LibMsg>) {
    forall i, j :: 0 <= i < j < |out| ==> out[i].mid != out[j].mid
  }

  /** The sender's queue and the callbacks share out the accepted messages. */
  ghost predicate Sender(s: State) {
    s.lib.limit == 0 && SenderOf(s.lib.out, s.accepted, s.fired)
  }

  ghost predicate SenderOf(out: seq<L.LibMsg>, accepted: map<Mid, Content>, fired: seq<Mid>) {
    (forall i :: 0 <= i < |out| ==> OutFine(out[i], accepted, fired)) && DistinctOut(out) &&
    (forall mid :: mid in accepted ==> mid in fired || Progress(out, mid).Some?) &&
    (forall mid :: mid in fired ==> mid in accepted) && NoDup(fired)
  }

  /** The receiver's incoming entries, each with a message of its own. */
  ghost predicate Receiver(s: State) {
    Proper(s.queue) && HeldFine(Ident(s.queue), s)
  }

  ghost predicate HeldFine(ids: seq<(Mid, SubTree.StoreId)>, s: State) {
    (forall i :: 0 <= i < |ids| ==> Fits(s, ids[i])) &&
    forall i, j :: 0 <= i < j < |ids| ==> ids[i].0 != ids[j].0 && ids[i].1 != ids[j].1
  }

  predicate Fits(s: State, p: (Mid, SubTree.StoreId)) {
    p.0 in s.accepted && p.1 <= s.lastDbId && p.1 in s.stores && s.stores[p.1].sourceMid == p.0 &&
    s.stores[p.1].topic == if p.0 in s.refused then None else Some(s.accepted[p.0])
  }

  /** What has been finished was accepted, is not held any more, and was
      handed on once, or not at all if it was refused. */
  ghost predicate Finished(s: State) {
    NoDup(s.released) &&
    (forall mid :: mid in s.released ==> mid in s.accepted && mid !in Held(s.queue) && !NotSentOn(s, mid)) &&
    (forall h :: h in s.handed ==> h.0 in s.released && s.accepted[h.0] == h.1) &&
    (forall i, j :: 0 <= i < j < |s.handed| ==> s.handed[i].0 != s.handed[j].0) &&
    (forall mid :: mid in s.released ==> (mid in s.refused <==> (mid, s.accepted[mid]) !in s.handed)) &&
    (forall mid :: mid in s.refused ==> mid in Held(s.queue) || mid in s.released) &&
    (forall mid :: mid in s.accepted && !NotSentOn(s, mid) ==> mid in Held(s.queue) || mid in s.released) &&
    (forall mid :: mid in s.fired ==> mid in s.released)
  }

  /** Towards the broker: no PUBLISH for a finished message, no PUBREL before
      the PUBREC came, and no PUBLISH behind a PUBREL. */
  ghost predicate ToBroker(s: State) {
    (forall p :: p in s.toBroker && p.Pub? ==>
       p.mid in s.accepted && s.accepted[p.mid] == p.content && p.mid !in s.released) &&
    (forall p :: p in s.toBroker && p.Rel? ==> p.mid in s.accepted && !NotSentOn(s, p.mid)) &&
    PubsFirst(s.toBroker)
  }

  ghost predicate PubsFirst(ch: seq<L.LibPacket>) {
    forall i, j :: 0 <= i < j < |ch| && ch[i].Rel? && ch[j].Pub? ==> ch[i].mid != ch[j].mid
  }

  lemma PubsFirstAppend(ch: seq<L.LibPacket>, p: L.LibPacket)
    requires PubsFirst(ch) && (p.Pub? ==> L.Rel(p.mid) !in ch)
    ensures PubsFirst(ch + [p]) && forall q :: q in ch + [p] <==> q in ch || q == p
  {
    var now := ch + [p];
    forall i, j | 0 <= i < j < |now| && now[i].Rel? && now[j].Pub? ensures now[i].mid != now[j].mid {
      if j == |ch| { assert now[i] in ch && now[i] == L.Rel(now[i].mid); }
    }
  }

  lemma PubsFirstTail(ch: seq<L.LibPacket>)
    requires ch != [] && PubsFirst(ch)
    ensures PubsFirst(ch[1..]) && forall q :: q in ch[1..] ==> q in ch
    ensures ch[0].Rel? ==> forall q :: q in ch[1..] && q.Pub? ==> q.mid != ch[0].mid
  {
    forall q | q in ch[1..] && q.Pub? && ch[0].Rel? ensures q.mid != ch[0].mid {
      var j :| 0 <= j < |ch[1..]| && ch[1..][j] == q;
      assert ch[j + 1] == q;
    }
  }

  /** Towards the client: a PUBREC means the message arrived and the sender
      has not been told it is finished; no PUBREC behind a PUBCOMP. */
  ghost predicate ToClient(s: State) {
    (forall p :: p in s.toClient && p.PUBREC? ==>
       p.mid in s.accepted && p.mid !in s.fired && (p.mid in Held(s.queue) || p.mid in s.released)) &&
    (forall p :: p in s.toClient && p.PUBCOMP? ==> p.mid in s.released) &&
    RecsFirst(s.toClient)
  }

  ghost predicate RecsFirst(ch: seq<Q.Packet>) {
    forall i, j :: 0 <= i < j < |ch| && ch[i].PUBCOMP? && ch[j].PUBREC? ==> ch[i].mid != ch[j].mid
  }

  lemma RecsFirstAppend(ch: seq<Q.Packet>, more: seq<Q.Packet>)
    requires RecsFirst(ch)
    requires forall p :: p in more && p.PUBREC? ==> Q.PUBCOMP(p.mid) !in ch
    requires forall p :: p in more && p.PUBCOMP? ==> more == [p]
    ensures RecsFirst(ch + more) && forall q :: q in ch + more <==> q in ch || q in more
  {
    var now := ch + more;
    forall i, j | 0 <= i < j < |now| && now[i].PUBCOMP? && now[j].PUBREC? ensures now[i].mid != now[j].mid {
      if j >= |ch| {
        assert now[j] in more;
        if i < |ch| { assert now[i] in ch && now[i] == Q.PUBCOMP(now[i].mid); }
      }
    }
  }

  lemma RecsFirstTail(ch: seq<Q.Packet>)
    requires ch != [] && RecsFirst(ch)
    ensures RecsFirst(ch[1..]) && forall q :: q in ch[1..] ==> q in ch
    ensures ch[0].PUBCOMP? ==> forall q :: q in ch[1..] && q.PUBREC? ==> q.mid != ch[0].mid
  {
    forall q | q in ch[1..] && q.PUBREC? && ch[0].PUBCOMP? ensures q.mid != ch[0].mid {
      var j :| 0 <= j < |ch[1..]| && ch[1..][j] == q;
      assert ch[j + 1] == q;
    }
  }

  ghost predicate Inv(s: State) {
    Sender(s) && Receiver(s) && Finished(s) && ToBroker(s) && ToClient(s)
  }

  // --------------------------------------------------------- PUBLISH, retry

  lemma {:induction false} FindAt(out: seq<L.LibMsg>, i: nat)
    requires i < |out| && DistinctOut(out)
    ensures L.Find(out, out[i].mid) == i
  {
  }

  lemma ProgressAppend(out: seq<L.LibMsg>, m: L.LibMsg, mid: Mid)
    ensures Progress(out + [m], mid) ==
            if Progress(out, mid).Some? then Progress(out, mid)
            else if m.mid == mid then Some(m.state) else None
  {
    FindAppend(out, m, mid);
  }

  lemma {:induction false} FindAppend(out: seq<L.LibMsg>, m: L.LibMsg, mid: Mid)
    ensures L.Find(out + [m], mid) ==
            if L.Find(out, mid) < |out| then L.Find(out, mid) else if m.mid == mid then |out| else |out| + 1
  {
    if out == [] {
      assert out + [m] == [m];
      assert [m][1..] == [];
    } else {
      assert (out + [m])[1..] == out[1..] + [m];
      FindAppend(out[1..], m, mid);
    }
  }

  lemma PublishProgress(s: State, content: Content)
    requires Sender(s) && S.NextMid(s.lastMid) !in s.accepted
    ensures var mid, s' := S.NextMid(s.lastMid), DoPublish(s, content);
            s'.lib.out == s.lib.out + [L.LibMsg(mid, true, content, L.WaitPubrec, false)] &&
            (forall k :: Progress(s'.lib.out, k) ==
                         if Progress(s.lib.out, k).Some? then Progress(s.lib.out, k)
                         else if k == mid then Some(L.WaitPubrec) else None) &&
            (forall k :: k in s.accepted ==> (NotSentOn(s', k) <==> NotSentOn(s, k))) && NotSentOn(s', mid)
  {
    var mid, s' := S.NextMid(s.lastMid), DoPublish(s, content);
    var m := L.LibMsg(mid, true, content, L.WaitPubrec, false);
    forall k ensures Progress(s'.lib.out, k) ==
                     if Progress(s.lib.out, k).Some? then Progress(s.lib.out, k)
                     else if k == mid then Some(L.WaitPubrec) else None
    {
      ProgressAppend(s.lib.out, m, k);
    }
    assert Progress(s.lib.out, mid) == None;
  }

  /** Nothing but new accepted messages: the rest of the state is told. */
  lemma PublishKeeps(s: State, content: Content)
    requires Inv(s)
    ensures Inv(DoPublish(s, content))
  {
    if S.NextMid(s.lastMid) !in s.accepted {
      PublishSender(s, content);
      PublishReceiver(s, content);
      PublishFinished(s, content);
      PublishToBroker(s, content);
      PublishToClient(s, content);
    }
  }

  lemma PublishSender(s: State, content: Content)
    requires Sender(s) && S.NextMid(s.lastMid) !in s.accepted
    ensures Sender(DoPublish(s, content))
  {
    PublishProgress(s, content);
  }

  lemma PublishReceiver(s: State, content: Content)
    requires Receiver(s) && S.NextMid(s.lastMid) !in s.accepted
    ensures Receiver(DoPublish(s, content))
  {
    hide Proper;
  }

  lemma PublishFinished(s: State, content: Content)
    requires Sender(s) && Finished(s) && S.NextMid(s.lastMid) !in s.accepted
    ensures Finished(DoPublish(s, content))
  {
    PublishProgress(s, content);
    hide Sender, Progress, NotSentOn, S.NextMid, L.Accept;
  }

  /** The messages known before are known the same way, and none of them is
      back to waiting for its PUBREC. */
  ghost predicate Onward(s: State, s': State) {
    forall m :: m in s.accepted ==>
      m in s'.accepted && s'.accepted[m] == s.accepted[m] && (NotSentOn(s', m) ==> NotSentOn(s, m))
  }

  predicate SendsFine(s: State, s': State, extra: seq<L.LibPacket>) {
    |extra| <= 1 && forall p :: p in extra ==>
      p.mid in s'.accepted &&
      if p.Pub? then s'.accepted[p.mid] == p.content && p.mid !in s'.released && L.Rel(p.mid) !in s.toBroker
      else !NotSentOn(s', p.mid)
  }

  lemma ToBrokerAppend(s: State, s': State, extra: seq<L.LibPacket>)
    requires ToBroker(s) && Onward(s, s') && SendsFine(s, s', extra)
    requires s'.toBroker == s.toBroker + extra && s'.released == s.released
    ensures ToBroker(s')
  {
    hide NotSentOn, PubsFirst;
    if extra == [] {
      assert s'.toBroker == s.toBroker;
    } else {
      var p := extra[0];
      assert extra == [p] && p in extra;
      PubsFirstAppend(s.toBroker, p);
    }
  }

  lemma PublishToBroker(s: State, content: Content)
    requires Sender(s) && Finished(s) && ToBroker(s) && S.NextMid(s.lastMid) !in s.accepted
    ensures ToBroker(DoPublish(s, content))
  {
    PublishProgress(s, content);
    hide Sender, Progress, NotSentOn, S.NextMid, L.Accept, PubsFirst;
    assert L.Rel(S.NextMid(s.lastMid)) !in s.toBroker && S.NextMid(s.lastMid) !in s.released;
    hide ToBroker, Finished;
    var extra := if s.connected then [L.Pub(S.NextMid(s.lastMid), true, content, false)] else [];
    ToBrokerAppend(s, DoPublish(s, content), extra);
  }

  lemma PublishToClient(s: State, content: Content)
    requires ToClient(s)
    ensures ToClient(DoPublish(s, content))
  {
    hide RecsFirst, L.Accept, S.NextMid;
  }

  lemma RetryKeeps(s: State, i: nat)
    requires Inv(s)
    ensures Inv(DoRetry(s, i))
  {
    hide Receiver, Finished, ToBroker, ToClient, NotSentOn, L.Retry;
    if s.connected && i < |s.lib.out| && L.Retry(s.lib.out[i]).Some? {
      var s' := DoRetry(s, i);
      var m := s.lib.out[i];
      FindAt(s.lib.out, i);
      RetryProgress(s, i);
      RetrySender(s, i);
      RestSame(s, s');
      RetrySends(s, i);
      ToBrokerAppend(s, s', [L.Retry(m).value]);
    }
  }

  lemma RetryProgress(s: State, i: nat)
    requires Sender(s)
    ensures forall k :: NotSentOn(DoRetry(s, i), k) <==> NotSentOn(s, k)
  {
    if i < |s.lib.out| {
      FindAt(s.lib.out, i);
      SameProgress(s.lib.out, i, s.lib.out[i].(dup := true));
    }
  }

  /** A step that leaves the receiver's side and the answers alone, moves past
      its PUBREC only what has arrived, and reports only what is finished,
      keeps three parts of the invariant. */
  lemma RestSame(s: State, s': State)
    requires Receiver(s) && Finished(s) && ToClient(s) && Onward(s, s')
    requires s'.queue == s.queue && s'.stores == s.stores && s'.lastDbId == s.lastDbId
    requires s'.released == s.released && s'.handed == s.handed && s'.refused == s.refused && s'.toClient == s.toClient
    requires forall m :: m in s'.accepted && !NotSentOn(s', m) ==>
               (m in s.accepted && !NotSentOn(s, m)) || m in Held(s.queue) || m in s.released
    requires forall m :: m in s'.fired ==> m in s.fired || (m in s.released && Q.PUBREC(m) !in s.toClient)
    ensures Receiver(s') && Finished(s') && ToClient(s')
  {
    hide NotSentOn, Proper, RecsFirst, Held, Ident;
    assert Receiver(s') by { hide Finished, ToClient; }
    assert Finished(s') by { hide Receiver, ToClient; }
    assert ToClient(s') by {
      hide Receiver, Finished;
      forall p | p in s'.toClient && p.PUBREC? ensures p.mid !in s'.fired {
        assert p == Q.PUBREC(p.mid);
      }
    }
  }

  lemma RetrySender(s: State, i: nat)
    requires Sender(s) && s.connected && i < |s.lib.out| && L.Retry(s.lib.out[i]).Some?
    ensures Sender(DoRetry(s, i))
  {
    FindAt(s.lib.out, i);
    SameProgress(s.lib.out, i, s.lib.out[i].(dup := true));
  }

  /** A message waiting for PUBREC is sent again whole, one waiting for
      PUBCOMP as a PUBREL. */
  lemma RetrySends(s: State, i: nat)
    requires Sender(s) && Finished(s) && ToBroker(s) && s.connected && i < |s.lib.out| && L.Retry(s.lib.out[i]).Some?
    ensures var s' := DoRetry(s, i);
            Onward(s, s') && SendsFine(s, s', [L.Retry(s.lib.out[i]).value]) &&
            s'.toBroker == s.toBroker + [L.Retry(s.lib.out[i]).value]
  {
    FindAt(s.lib.out, i);
    SameProgress(s.lib.out, i, s.lib.out[i].(dup := true));
    assert Progress(s.lib.out, s.lib.out[i].mid) == Some(s.lib.out[i].state);
  }

  /** Rewriting a message in place shows only at its own id. */
  lemma SameProgress(out: seq<L.LibMsg>, i: nat, m: L.LibMsg)
    requires i < |out| && m.mid == out[i].mid
    requires DistinctOut(out)
    ensures forall mid :: Progress(out[i := m], mid) == if mid == m.mid then Some(m.state) else Progress(out, mid)
  {
    forall mid ensures Progress(out[i := m], mid) == if mid == m.mid then Some(m.state) else Progress(out, mid) {
      FindAt(out[i := m], i);
      FindRewritten(out, i, m, mid);
    }
  }

  lemma {:induction false} FindRewritten(out: seq<L.LibMsg>, i: nat, m: L.LibMsg, mid: Mid)
    requires i < |out| && m.mid == out[i].mid
    ensures L.Find(out[i := m], mid) == L.Find(out, mid)
  {
    var r := out[i := m];
    if i == 0 {
      assert r[1..] == out[1..];
    } else {
      assert r[1..] == out[1..][i - 1 := m];
      FindRewritten(out[1..], i - 1, m, mid);
    }
  }

  // ------------------------------------------------------ the client reads

  lemma {:induction false} FillIdle(l: L.Lib, i: nat, budget: nat)
    requires i <= |l.out| && forall k :: 0 <= k < |l.out| ==> l.out[k].state != L.Held
    ensures L.Fill(l, i, budget) == L.Sending(l, [], true)
    decreases |l.out| - i
  {
    if i < |l.out| && L.Room(l) { FillIdle(l, i + 1, budget); }
  }

  lemma FindWithout(out: seq<L.LibMsg>, i: nat, mid: Mid)
    requires i < |out| && mid != out[i].mid
    ensures var f := L.Find(out, mid); f != i && L.Find(DropAt(out, i), mid) == if f < i then f else f - 1
  {
    hide L.Find, DropAt;
    var f, r := L.Find(out, mid), DropAt(out, i);
    var g := if f < i then f else f - 1;
    assert f < |out| ==> r[g] == out[f];
    forall k | 0 <= k < g ensures r[k].mid != mid { assert r[k] == out[if k < i then k else k + 1]; }
    assert L.Find(r, mid) == g;
  }

  /** Taking a message out shows only at its own id. */
  lemma WithoutProgress(out: seq<L.LibMsg>, i: nat)
    requires i < |out| && DistinctOut(out)
    ensures forall k :: Progress(DropAt(out, i), k) == if k == out[i].mid then None else Progress(out, k)
  {
    forall k ensures Progress(DropAt(out, i), k) == if k == out[i].mid then None else Progress(out, k) {
      if k == out[i].mid { ProgressNone(DropAt(out, i), k); } else { FindWithout(out, i, k); }
    }
  }

  lemma {:induction false} ProgressNone(out: seq<L.LibMsg>, mid: Mid)
    ensures Progress(out, mid) == None <==> forall i :: 0 <= i < |out| ==> out[i].mid != mid
  {
  }

  /** A packet is taken from the channel to the client and means nothing. */
  lemma DropToClient(s: State)
    requires Inv(s) && s.toClient != []
    ensures Inv(s.(toClient := s.toClient[1..]))
  {
    hide Progress, Proper, PubsFirst, Held;
    var s' := s.(toClient := s.toClient[1..]);
    RecsFirstTail(s.toClient);
    assert forall m :: NotSentOn(s', m) <==> NotSentOn(s, m);
    hide NotSentOn, RecsFirst;
    assert Sender(s') && Receiver(s');
    assert Finished(s') && ToBroker(s');
  }

  lemma ReceivedProgress(s: State, mid: Mid)
    requires Sender(s) && Progress(s.lib.out, mid).Some?
    ensures var l := L.Received(s.lib, mid);
            (forall k :: Progress(l.out, k) == if k == mid then Some(L.WaitPubcomp) else Progress(s.lib.out, k)) &&
            Sender(s.(lib := l))
  {
    var i := L.Find(s.lib.out, mid);
    SameProgress(s.lib.out, i, s.lib.out[i].(state := L.WaitPubcomp));
  }

  function AfterPubrec(s: State, mid: Mid): State {
    s.(lib := L.Received(s.lib, mid), toBroker := s.toBroker + [L.Rel(mid)])
  }

  lemma PubrecSender(s: State, mid: Mid)
    requires Sender(s) && mid in s.accepted && mid !in s.fired
    ensures L.Find(s.lib.out, mid) < |s.lib.out|
    ensures Sender(AfterPubrec(s, mid))
    ensures forall k :: NotSentOn(AfterPubrec(s, mid), k) <==> NotSentOn(s, k) && k != mid
  {
    assert Progress(s.lib.out, mid).Some?;
    ReceivedProgress(s, mid);
    hide L.Received, Progress;
  }

  lemma PubrecKeeps(s: State, mid: Mid)
    requires Inv(s) && mid in s.accepted && mid !in s.fired && (mid in Held(s.queue) || mid in s.released)
    ensures L.Find(s.lib.out, mid) < |s.lib.out|
    ensures Inv(AfterPubrec(s, mid))
  {
    hide Sender, Receiver, Finished, ToBroker, ToClient, NotSentOn, Held, L.Received;
    PubrecSender(s, mid);
    var s' := AfterPubrec(s, mid);
    assert Onward(s, s');
    RestSame(s, s');
    ToBrokerAppend(s, s', [L.Rel(mid)]);
  }

  function AfterPubcomp(s: State, mid: Mid): State {
    s.(lib := L.Acknowledge(s.lib, mid, |s.lib.out|).lib, fired := s.fired + [mid])
  }

  lemma AcknowledgeOut(s: State, mid: Mid)
    requires Sender(s) && L.Find(s.lib.out, mid) < |s.lib.out|
    ensures L.Acknowledge(s.lib, mid, |s.lib.out|).lib ==
            s.lib.(out := DropAt(s.lib.out, L.Find(s.lib.out, mid)), inflight := s.lib.inflight - 1)
  {
    var i := L.Find(s.lib.out, mid);
    FillIdle(s.lib.(out := DropAt(s.lib.out, i), inflight := s.lib.inflight - 1), 0, |s.lib.out|);
  }

  lemma PubcompOut(s: State, mid: Mid)
    requires Sender(s) && L.Find(s.lib.out, mid) < |s.lib.out|
    ensures var out, i, s' := s.lib.out, L.Find(s.lib.out, mid), AfterPubcomp(s, mid);
            s'.lib.limit == s.lib.limit && s'.lib.out == DropAt(out, i) && out[i].mid == mid &&
            forall k :: Progress(s'.lib.out, k) == if k == mid then None else Progress(out, k)
  {
    AcknowledgeOut(s, mid);
    WithoutProgress(s.lib.out, L.Find(s.lib.out, mid));
    hide Sender, Progress, L.Acknowledge, DropAt;
  }

  lemma WithoutFine(out: seq<L.LibMsg>, i: nat, accepted: map<Mid, Content>, fired: seq<Mid>)
    requires i < |out| && SenderOf(out, accepted, fired)
    ensures SenderOf(DropAt(out, i), accepted, fired + [out[i].mid])
  {
    var r, mid := DropAt(out, i), out[i].mid;
    WithoutProgress(out, i);
    hide Progress;
    assert OutFine(out[i], accepted, fired);
    assert forall k :: 0 <= k < |r| ==> r[k] == out[if k < i then k else k + 1];
    assert NoDup(fired + [mid]);
    assert forall k :: k in fired + [mid] <==> k in fired || k == mid;
  }

  lemma PubcompSender(s: State, mid: Mid)
    requires Sender(s) && L.Find(s.lib.out, mid) < |s.lib.out|
    ensures Sender(AfterPubcomp(s, mid))
    ensures forall k :: NotSentOn(AfterPubcomp(s, mid), k) <==> NotSentOn(s, k) && k != mid
  {
    PubcompOut(s, mid);
    WithoutFine(s.lib.out, L.Find(s.lib.out, mid), s.accepted, s.fired);
    hide SenderOf, L.Acknowledge, DropAt, L.Find, Progress;
  }

  lemma ReleasedWasSent(s: State, mid: Mid)
    requires Finished(s) && mid in s.released
    ensures !NotSentOn(s, mid)
  {
    hide NotSentOn, Held;
  }

  lemma PubcompKeeps(s: State, mid: Mid)
    requires Inv(s) && mid in s.released && L.Find(s.lib.out, mid) < |s.lib.out|
    requires Q.PUBREC(mid) !in s.toClient
    ensures Inv(AfterPubcomp(s, mid))
  {
    PubcompSender(s, mid);
    ReleasedWasSent(s, mid);
    hide Sender, Receiver, Finished, ToBroker, ToClient, NotSentOn, Held, L.Acknowledge;
    var s' := AfterPubcomp(s, mid);
    assert Onward(s, s');
    assert s'.toBroker == s.toBroker + [];
    ToBrokerAppend(s, s', []);
    hide Onward, SendsFine;
    RestSame(s, s');
  }

  lemma ClientReadsKeeps(s: State)
    requires Inv(s)
    ensures Inv(DoClientReads(s))
  {
    if s.connected && s.toClient != [] {
      var p, s' := s.toClient[0], s.(toClient := s.toClient[1..]);
      DropToClient(s);
      RecsFirstTail(s.toClient);
      hide Inv, Sender, Receiver, Finished, ToBroker;
      assert p in s.toClient;
      match p
      case PUBREC(mid) =>
        HeadMeans(s);
        PubrecKeeps(s', mid);
      case PUBCOMP(mid) =>
        HeadMeans(s);
        if L.Find(s.lib.out, mid) < |s.lib.out| { PubcompKeeps(s', mid); }
      case _ =>
    }
  }

  lemma HeadMeans(s: State)
    requires Inv(s) && s.toClient != []
    ensures var p := s.toClient[0];
            (p.PUBREC? ==>
               p.mid in s.accepted && p.mid !in s.fired && (p.mid in Held(s.queue) || p.mid in s.released)) &&
            (p.PUBCOMP? ==> p.mid in s.released)
  {
  }

  // ------------------------------------------------------ the broker reads

  /** A step of the receiver leaves the sender's side alone; what it finishes
      must have no PUBLISH on the way. */
  lemma SenderSideSame(s: State, s': State)
    requires Sender(s) && ToBroker(s)
    requires s'.lib == s.lib && s'.accepted == s.accepted && s'.fired == s.fired && s'.toBroker == s.toBroker
    requires forall p :: p in s.toBroker && p.Pub? ==> p.mid in s'.released ==> p.mid in s.released
    ensures Sender(s') && ToBroker(s') && forall m :: NotSentOn(s', m) <==> NotSentOn(s, m)
  {
    hide Progress, PubsFirst;
  }

  /** The queue still holds the same incoming entries, and only answers for
      them were added to the channel. */
  lemma QueueSame(s: State, s': State, extra: seq<Q.Packet>)
    requires Inv(s) && Proper(s'.queue) && Ident(s'.queue) == Ident(s.queue)
    requires s' == s.(queue := s'.queue, toClient := s.toClient + extra)
    requires forall p :: p in extra ==> !p.PUBCOMP? && (p.PUBREC? ==> p.mid in Held(s.queue))
    ensures Inv(s')
  {
    hide Sender, Receiver, Finished, ToBroker, ToClient, NotSentOn, Proper, Ident, RecsFirst;
    SenderSideSame(s, s');
    assert Held(s'.queue) == Held(s.queue);
    QueueSameRest(s, s');
    forall p | p in extra && p.PUBREC? ensures HeldKnown(s, p.mid) { HeldIsKnown(s, p.mid); }
    ToClientAppend(s, s', extra);
  }

  lemma QueueSameRest(s: State, s': State)
    requires Receiver(s) && Finished(s) && Proper(s'.queue) && Ident(s'.queue) == Ident(s.queue)
    requires s' == s.(queue := s'.queue, toClient := s'.toClient)
    ensures Receiver(s') && Finished(s')
  {
    assert Held(s'.queue) == Held(s.queue);
    assert forall m :: NotSentOn(s', m) <==> NotSentOn(s, m) by { hide Receiver, Finished, Progress, Held, Ident,
                                                                 Proper; }
    hide Proper, Held, Ident, NotSentOn;
    assert Receiver(s') by { hide Finished; }
    assert Finished(s') by { hide Receiver; }
  }

  lemma ToClientAppend(s: State, s': State, extra: seq<Q.Packet>)
    requires ToClient(s) && s'.toClient == s.toClient + extra && s'.accepted == s.accepted && s'.fired == s.fired
    requires forall m :: m in Held(s.queue) ==> m in Held(s'.queue) || m in s'.released
    requires forall m :: m in s.released ==> m in s'.released
    requires forall p :: p in extra && p.PUBREC? ==>
               p.mid in s.accepted && p.mid !in s.fired && p.mid in Held(s'.queue) && Q.PUBCOMP(p.mid) !in s.toClient
    requires forall p :: p in extra && p.PUBCOMP? ==> p.mid in s'.released && extra == [p]
    ensures ToClient(s')
  {
    RecsFirstAppend(s.toClient, extra);
    hide RecsFirst, Held;
  }

  predicate HeldKnown(s: State, m: Mid) {
    m in s.accepted && m !in s.released && m !in s.fired && Q.PUBCOMP(m) !in s.toClient
  }

  lemma HeldIsKnown(s: State, m: Mid)
    requires Receiver(s) && Finished(s) && ToClient(s) && m in Held(s.queue)
    ensures HeldKnown(s, m)
  {
    var i :| 0 <= i < |Held(s.queue)| && Held(s.queue)[i] == m;
    assert Ident(s.queue)[i] in Ident(s.queue);
    assert Q.PUBCOMP(m) in s.toClient ==> m in s.released;
  }

  /** A packet is taken from the channel to the broker. */
  lemma TakeFromBroker(s: State)
    requires Inv(s) && s.toBroker != []
    ensures Inv(s.(toBroker := s.toBroker[1..]))
    ensures var p := s.toBroker[0];
            p.mid in s.accepted &&
            (if p.Pub? then s.accepted[p.mid] == p.content && p.mid !in s.released
             else !NotSentOn(s, p.mid) && forall q :: q in s.toBroker[1..] && q.Pub? ==> q.mid != p.mid)
  {
    hide Progress, Proper, Held, RecsFirst;
    var s' := s.(toBroker := s.toBroker[1..]);
    PubsFirstTail(s.toBroker);
    assert s.toBroker[0] in s.toBroker;
    assert forall m :: NotSentOn(s', m) <==> NotSentOn(s, m);
    hide NotSentOn, PubsFirst;
    assert Sender(s') && Receiver(s');
    assert Finished(s') && ToClient(s');
  }

  /** A new incoming entry. */
  lemma ArrivalKeeps(s: State, s': State, m: Q.ClientMsg, allowed: bool)
    requires Inv(s) && m.direction == Q.In && ProperEntry(m) && m.mid in s.accepted
    requires m.mid !in Held(s.queue) && m.mid !in s.released && m.store == s.lastDbId + 1
    requires s' == s.(queue := s.queue + [m], stores := s'.stores, lastDbId := m.store,
                      refused := if allowed then s.refused else s.refused + [m.mid],
                      toClient := s.toClient + [Q.PUBREC(m.mid)])
    requires forall id :: id in s.stores && id != m.store ==> id in s'.stores && s'.stores[id] == s.stores[id]
    requires m.store in s'.stores && s'.stores[m.store].sourceMid == m.mid
    requires s'.stores[m.store].topic == if allowed then Some(s.accepted[m.mid]) else None
    ensures Inv(s')
  {
    hide Sender, Receiver, Finished, ToBroker, ToClient, NotSentOn, RecsFirst;
    IdentConcat(s.queue, [m]);
    IdentOne(m);
    HeldConcat(s.queue, [m]);
    assert Held([m]) == [m.mid];
    SenderSideSame(s, s');
    NotRefused(s, m.mid);
    ArrivalReceiver(s, s', m);
    ArrivalFinished(s, s', m);
    NotReported(s, m.mid);
    hide Held, Ident;
    assert m.mid in Held(s.queue) + [m.mid];
    ToClientAppend(s, s', [Q.PUBREC(m.mid)]);
  }

  lemma NotRefused(s: State, mid: Mid)
    requires Finished(s) && mid !in s.released && mid !in Held(s.queue)
    ensures mid !in s.refused
  {
    hide NotSentOn, Held;
  }

  lemma NotReported(s: State, mid: Mid)
    requires Finished(s) && ToClient(s) && mid !in s.released
    ensures mid !in s.fired && Q.PUBCOMP(mid) !in s.toClient
  {
    hide NotSentOn, RecsFirst;
    assert Q.PUBCOMP(mid) in s.toClient ==> mid in s.released;
  }

  lemma ArrivalFinished(s: State, s': State, m: Q.ClientMsg)
    requires Finished(s) && m.mid !in s.released && Held(s'.queue) == Held(s.queue) + [m.mid]
    requires forall k :: NotSentOn(s', k) <==> NotSentOn(s, k)
    requires s'.accepted == s.accepted && s'.released == s.released && s'.handed == s.handed && s'.fired == s.fired
    requires s'.refused == s.refused || s'.refused == s.refused + [m.mid]
    ensures Finished(s')
  {
    hide NotSentOn, Held;
    assert forall k :: k in Held(s'.queue) <==> k in Held(s.queue) || k == m.mid;
  }

  lemma HeadsAt(ids: seq<(Mid, SubTree.StoreId)>, i: nat)
    requires i < |ids|
    ensures ids[i].0 in Heads(ids)
  {
    assert Heads(ids)[i] == ids[i].0;
  }

  lemma ArrivalReceiver(s: State, s': State, m: Q.ClientMsg)
    requires Receiver(s) && ProperEntry(m) && m.mid in s.accepted && m.mid !in Held(s.queue) &&
             m.store == s.lastDbId + 1
    requires s'.queue == s.queue + [m] && s'.accepted == s.accepted && s'.lastDbId == m.store
    requires s'.refused == s.refused || s'.refused == s.refused + [m.mid]
    requires Ident(s'.queue) == Ident(s.queue) + [(m.mid, m.store)]
    requires forall id :: id in s.stores && id != m.store ==> id in s'.stores && s'.stores[id] == s.stores[id]
    requires Fits(s', (m.mid, m.store))
    ensures Receiver(s')
  {
    hide Ident;
    var was, now := Ident(s.queue), Ident(s'.queue);
    forall i | 0 <= i < |now| ensures Fits(s', now[i]) && (i < |was| ==> now[i].0 != m.mid && now[i].1 != m.store) {
      if i < |was| {
        HeadsAt(was, i);
        assert Fits(s, was[i]);
      }
    }
  }

  lemma FindHeld(s: State, mid: Mid)
    requires Receiver(s)
    ensures S.FindIncoming(s.queue, s.stores, mid).Some? <==> mid in Held(s.queue)
  {
    hide Held, Ident, Proper;
    forall p | p in Ident(s.queue) ensures p.1 in s.stores && s.stores[p.1].sourceMid == p.0 {
      var i :| 0 <= i < |Ident(s.queue)| && Ident(s.queue)[i] == p;
      assert Fits(s, p);
    }
    FindIff(s.queue, s.stores, mid);
  }

  lemma ArrivalShape(s: State, mid: Mid, content: Content, allowed: bool)
    requires s.connected && S.FindIncoming(s.queue, s.stores, mid) == None
    ensures var m := Q.ClientMsg(s.lastDbId + 1, mid, 2, false, Q.In, Q.WaitForPubrel, false);
            var s' := DoBrokerPublish(s, mid, content, allowed);
            s' == s.(queue := s.queue + [m], stores := s'.stores, lastDbId := m.store,
                     refused := if allowed then s.refused else s.refused + [mid],
                     toClient := s.toClient + [Q.PUBREC(mid)]) &&
            (forall id :: id in s.stores && id != m.store ==> id in s'.stores && s'.stores[id] == s.stores[id]) &&
            m.store in s'.stores && s'.stores[m.store].sourceMid == mid &&
            s'.stores[m.store].topic == if allowed then Some(content) else None
  {
  }

  lemma BrokerPublishKeeps(s: State, mid: Mid, content: Content, allowed: bool)
    requires Inv(s) && s.connected && mid in s.accepted && s.accepted[mid] == content && mid !in s.released
    ensures Inv(DoBrokerPublish(s, mid, content, allowed))
  {
    FindHeld(s, mid);
    var s' := DoBrokerPublish(s, mid, content, allowed);
    assert Proper(s.queue);
    hide Sender, Receiver, Finished, ToBroker, ToClient, NotSentOn, Proper, Ident, Held, S.FindIncoming;
    if S.FindIncoming(s.queue, s.stores, mid).Some? {
      QueueSame(s, s', [Q.PUBREC(mid)]);
    } else {
      var m := Q.ClientMsg(s.lastDbId + 1, mid, 2, false, Q.In, Q.WaitForPubrel, false);
      ArrivalShape(s, mid, content, allowed);
      hide DoBrokerPublish;
      ArrivalKeeps(s, s', m, allowed);
    }
  }

  lemma {:induction false} HeldIff(msgs: seq<Q.ClientMsg>, mid: Mid)
    ensures Q.IndexOfEntry(msgs, mid, Q.In) < |msgs| <==> mid in Held(msgs)
  {
    if msgs != [] {
      HeldIff(msgs[1..], mid);
      assert msgs == [msgs[0]] + msgs[1..];
      HeldConcat([msgs[0]], msgs[1..]);
      IdentOne(msgs[0]);
    }
  }

  // ----------------------------------------------------------- the release

  /** One entry is taken out: the others keep their ids and their messages. */
  lemma ReleaseReceiver(s: State, s': State, i: nat)
    requires Receiver(s) && i < |Ident(s.queue)| && Proper(s'.queue)
    requires Ident(s'.queue) == DropAt(Ident(s.queue), i)
    requires s'.stores == S.Deref(s.stores, Ident(s.queue)[i].1)
    requires s'.accepted == s.accepted && s'.refused == s.refused && s'.lastDbId == s.lastDbId
    ensures Receiver(s')
  {
    hide Ident, Proper;
    var was, now := Ident(s.queue), Ident(s'.queue);
    forall k | 0 <= k < |now| ensures Fits(s', now[k]) {
      assert now[k] == was[if k < i then k else k + 1];
      assert Fits(s, now[k]);
    }
  }

  lemma ReleaseHeld(s: State, s': State, i: nat)
    requires Receiver(s) && i < |Ident(s.queue)| && Ident(s'.queue) == DropAt(Ident(s.queue), i)
    ensures var mid := Ident(s.queue)[i].0;
            mid in Held(s.queue) && forall m :: m in Held(s'.queue) <==> m in Held(s.queue) && m != mid
  {
    hide Ident, Proper, Fits;
    HeadsAt(Ident(s.queue), i);
    DropHeads(Ident(s.queue), i);
  }

  lemma {:induction false} InHeads(ids: seq<(Mid, SubTree.StoreId)>, m: Mid)
    ensures m in Heads(ids) <==> exists k :: 0 <= k < |ids| && ids[k].0 == m
  {
    if m in Heads(ids) {
      var k :| 0 <= k < |ids| && Heads(ids)[k] == m;
      assert ids[k].0 == m;
    }
    if k :| 0 <= k < |ids| && ids[k].0 == m { assert Heads(ids)[k] == m; }
  }

  lemma DropHeads(ids: seq<(Mid, SubTree.StoreId)>, i: nat)
    requires i < |ids| && forall j, k :: 0 <= j < k < |ids| ==> ids[j].0 != ids[k].0
    ensures forall m :: m in Heads(DropAt(ids, i)) <==> m in Heads(ids) && m != ids[i].0
  {
    hide Heads, DropAt;
    forall m ensures m in Heads(DropAt(ids, i)) <==> m in Heads(ids) && m != ids[i].0 {
      InHeads(ids, m);
      InHeads(DropAt(ids, i), m);
      DropHead(ids, i, m);
    }
  }

  lemma DropHead(ids: seq<(Mid, SubTree.StoreId)>, i: nat, m: Mid)
    requires i < |ids| && forall j, k :: 0 <= j < k < |ids| ==> ids[j].0 != ids[k].0
    ensures var now := DropAt(ids, i);
            (exists k :: 0 <= k < |now| && now[k].0 == m) <==>
            m != ids[i].0 && exists k :: 0 <= k < |ids| && ids[k].0 == m
  {
    hide DropAt;
    var now := DropAt(ids, i);
    if m != ids[i].0 {
      if k :| 0 <= k < |ids| && ids[k].0 == m { assert now[if k < i then k else k - 1] == ids[k]; }
    }
    if k :| 0 <= k < |now| && now[k].0 == m { assert ids[if k < i then k else k + 1] == now[k]; }
  }

  lemma ReleaseFinished(s: State, s': State, mid: Mid)
    requires Finished(s) && mid in Held(s.queue) && mid in s.accepted && !NotSentOn(s, mid)
    requires forall m :: m in Held(s'.queue) <==> m in Held(s.queue) && m != mid
    requires forall k :: NotSentOn(s', k) <==> NotSentOn(s, k)
    requires s'.accepted == s.accepted && s'.refused == s.refused && s'.fired == s.fired
    requires s'.released == s.released + [mid]
    requires s'.handed == s.handed + if mid in s.refused then [] else [(mid, s.accepted[mid])]
    ensures Finished(s')
  {
    hide NotSentOn, Held;
    assert mid !in s.released;
    assert NoDup(s'.released);
    assert forall m :: m in s'.released <==> m in s.released || m == mid;
    assert forall h :: h in s'.handed <==> h in s.handed || (mid !in s.refused && h == (mid, s.accepted[mid]));
    forall i, j | 0 <= i < j < |s'.handed| ensures s'.handed[i].0 != s'.handed[j].0 {
      assert s.handed[i] in s.handed;
    }
  }

  /** What a release of one entry changes. */
  ghost predicate Releases(s: State, s': State, k: nat, mid: Mid, own: seq<Q.ClientMsg>) {
    k < |s.queue| && Q.IsEntry(s.queue[k], mid, Q.In) &&
    s' == s.(queue := DropAt(s.queue, k) + own, stores := S.Deref(s.stores, s.queue[k].store),
             toClient := s.toClient + [Q.PUBCOMP(mid)], released := s.released + [mid],
             handed := s.handed + HandedOf(s.stores, [s.queue[k]]))
  }

  lemma ReleaseIdent(s: State, k: nat, own: seq<Q.ClientMsg>)
    requires k < |s.queue| && s.queue[k].direction == Q.In && Proper(s.queue) && AllOut(own) && OutProper(own)
    ensures var i, now := |Ident(s.queue[..k])|, DropAt(s.queue, k) + own;
            Proper(now) && i < |Ident(s.queue)| && Ident(s.queue)[i] == (s.queue[k].mid, s.queue[k].store) &&
            Ident(now) == DropAt(Ident(s.queue), i)
  {
    IdentDrop(s.queue, k);
    IdentConcat(DropAt(s.queue, k), own);
    IdentOut(own);
    hide Ident;
    forall m | m in DropAt(s.queue, k) + own ensures ProperEntry(m) {
      assert m in s.queue || m in own;
    }
  }

  lemma ReleaseHands(s: State, k: nat)
    requires Receiver(s) && k < |s.queue| && s.queue[k].direction == Q.In
    requires (s.queue[k].mid, s.queue[k].store) in Ident(s.queue)
    ensures s.queue[k].mid in s.accepted
    ensures HandedOf(s.stores, [s.queue[k]]) ==
            if s.queue[k].mid in s.refused then [] else [(s.queue[k].mid, s.accepted[s.queue[k].mid])]
  {
    hide Ident, Proper, Held;
    assert [s.queue[k]][1..] == [];
  }

  lemma ReleaseReceives(s: State, s': State, k: nat, mid: Mid, own: seq<Q.ClientMsg>)
    requires Receiver(s) && Releases(s, s', k, mid, own) && AllOut(own) && OutProper(own)
    ensures Receiver(s') && mid in s.accepted && mid in Held(s.queue)
    ensures forall m :: m in Held(s'.queue) <==> m in Held(s.queue) && m != mid
    ensures s'.handed == s.handed + if mid in s.refused then [] else [(mid, s.accepted[mid])]
  {
    assert Proper(s.queue);
    ReleaseIdent(s, k, own);
    ReleaseHands(s, k);
    var i := |Ident(s.queue[..k])|;
    hide Receiver, Proper, Ident, Held, HandedOf, S.Deref, DropAt, AllOut, OutProper;
    ReleaseReceiver(s, s', i);
    ReleaseHeld(s, s', i);
  }

  lemma ReleaseEntryKeeps(s: State, s': State, k: nat, mid: Mid, own: seq<Q.ClientMsg>)
    requires Inv(s) && Releases(s, s', k, mid, own) && AllOut(own) && OutProper(own) && !NotSentOn(s, mid)
    requires forall p :: p in s.toBroker && p.Pub? ==> p.mid != mid
    ensures Inv(s')
  {
    hide Sender, Receiver, Finished, ToBroker, ToClient, NotSentOn, Held, HandedOf, S.Deref, DropAt, AllOut,
         OutProper;
    ReleaseReceives(s, s', k, mid, own);
    SenderSideSame(s, s');
    ReleaseFinished(s, s', mid);
    ToClientAppend(s, s', [Q.PUBCOMP(mid)]);
  }

  /** A repeated PUBREL of a finished message is only answered. */
  lemma ReleaseAgainKeeps(s: State, s': State, mid: Mid)
    requires Inv(s) && mid in s.released && s' == s.(toClient := s.toClient + [Q.PUBCOMP(mid)])
    ensures Inv(s')
  {
    assert Proper(s.queue);
    hide Sender, Receiver, Finished, ToBroker, ToClient, NotSentOn, RecsFirst, Proper, Ident;
    SenderSideSame(s, s');
    QueueSameRest(s, s');
    ToClientAppend(s, s', [Q.PUBCOMP(mid)]);
  }

  lemma ReleaseShape(s: State, mid: Mid, own: seq<Q.ClientMsg>)
    ensures var s', k := DoBrokerRelease(s, mid, own), Q.IndexOfEntry(s.queue, mid, Q.In);
            if k == |s.queue| then s' == s.(toClient := s.toClient + [Q.PUBCOMP(mid)])
            else Releases(s, s', k, mid, own)
  {
    var k := Q.IndexOfEntry(s.queue, mid, Q.In);
    ReleaseFirst([], s.queue, 0, mid, own);
    hide Q.Sweep, AfterSweep;
    if k == |s.queue| {
      assert [] + s.queue == s.queue;
      SweptNone(s, mid);
    } else {
      assert [] + DropAt(s.queue, k) + own == DropAt(s.queue, k) + own;
      SweptOne(s, mid, DropAt(s.queue, k) + own, s.queue[k]);
    }
  }

  lemma SweptNone(s: State, mid: Mid)
    ensures AfterSweep(s, mid, Q.Swept(s.queue, [], [])) == s.(toClient := s.toClient + [Q.PUBCOMP(mid)])
  {
    assert s.toClient + [] == s.toClient && s.released + [] == s.released && s.handed + [] == s.handed;
  }

  lemma SweptOne(s: State, mid: Mid, msgs: seq<Q.ClientMsg>, e: Q.ClientMsg)
    requires e.mid == mid
    ensures AfterSweep(s, mid, Q.Swept(msgs, [], [e])) ==
            s.(queue := msgs, stores := S.Deref(s.stores, e.store), toClient := s.toClient + [Q.PUBCOMP(mid)],
               released := s.released + [mid], handed := s.handed + HandedOf(s.stores, [e]))
  {
    hide HandedOf, S.Deref;
    assert s.toClient + [] == s.toClient;
    assert S.StoresOf([e]) == [e.store];
    assert S.DerefAll(s.stores, [e.store]) == S.DerefAll(S.Deref(s.stores, e.store), [e.store][1..]);
    assert MidsOf([e]) == [e.mid] + MidsOf([e][1..]);
  }

  lemma HeldArrived(s: State, mid: Mid)
    requires Finished(s) && mid in s.accepted && !NotSentOn(s, mid) && mid !in Held(s.queue)
    ensures mid in s.released
  {
    hide NotSentOn, Held;
  }

  lemma BrokerReleaseKeeps(s: State, mid: Mid, own: seq<Q.ClientMsg>)
    requires Inv(s) && AllOut(own) && OutProper(own) && mid in s.accepted && !NotSentOn(s, mid)
    requires forall p :: p in s.toBroker && p.Pub? ==> p.mid != mid
    ensures Inv(DoBrokerRelease(s, mid, own))
  {
    ReleaseShape(s, mid, own);
    HeldIff(s.queue, mid);
    var s', k := DoBrokerRelease(s, mid, own), Q.IndexOfEntry(s.queue, mid, Q.In);
    hide *;
    if k == |s.queue| {
      assert Finished(s) by { InvFinished(s); }
      HeldArrived(s, mid);
      ReleaseAgainKeeps(s, s', mid);
    } else {
      ReleaseEntryKeeps(s, s', k, mid, own);
    }
  }

  lemma InvFinished(s: State)
    requires Inv(s)
    ensures Finished(s)
  {
  }

  lemma BrokerReadsKeeps(s: State, allowed: bool, own: seq<Q.ClientMsg>)
    requires Inv(s)
    ensures Inv(DoBrokerReads(s, allowed, own))
  {
    if s.connected && s.toBroker != [] && AllOut(own) && OutProper(own) {
      TakeFromBroker(s);
      hide Inv, NotSentOn, AllOut, OutProper, DoBrokerPublish, DoBrokerRelease;
      var s' := s.(toBroker := s.toBroker[1..]);
      assert NotSentOn(s', s.toBroker[0].mid) <==> NotSentOn(s, s.toBroker[0].mid) by { SameLib(s, s'); }
      match s.toBroker[0]
      case Pub(mid, qos2, content, dup) => BrokerPublishKeeps(s', mid, content, allowed);
      case Rel(mid) => BrokerReleaseKeeps(s', mid, own);
    }
  }

  lemma SameLib(s: State, s': State)
    requires s'.lib.out == s.lib.out
    ensures forall m :: NotSentOn(s', m) <==> NotSentOn(s, m)
  {
  }

  // ----------------------------------------------- timer, writing, the line

  lemma TimeoutKeeps(s: State, expired: seq<bool>)
    requires Inv(s) && |expired| == |s.queue|
    ensures Inv(s.(queue := Q.Timeout(s.queue, expired)))
  {
    TimeoutIdent(s.queue, expired);
    hide Sender, Finished, ToBroker, ToClient, Q.Timeout;
    var s' := s.(queue := Q.Timeout(s.queue, expired));
    assert s'.toClient == s.toClient + [];
    QueueSame(s, s', []);
  }

  lemma WriteKeeps(s: State, budget: nat)
    requires Inv(s) && Q.IncomingQos2(s.queue)
    ensures var w := Q.WriteFrom([], s.queue, UNLIMITED, budget, 0);
            Inv(s.(queue := w.msgs, toClient := s.toClient + w.sent))
  {
    WriteIdent([], s.queue, budget, 0);
    hide Sender, Finished, ToBroker, ToClient, Q.WriteFrom;
    var w := Q.WriteFrom([], s.queue, UNLIMITED, budget, 0);
    assert [] + Ident(s.queue) == Ident(s.queue);
    QueueSame(s, s.(queue := w.msgs, toClient := s.toClient + w.sent), w.sent);
  }

  lemma OutgoingKeeps(s: State, queue: seq<Q.ClientMsg>)
    requires Inv(s) && Incoming(queue) == Incoming(s.queue) && OutProper(queue)
    ensures Inv(s.(queue := queue))
  {
    IncomingIdent(queue);
    IncomingIdent(s.queue);
    hide Sender, Finished, ToBroker, ToClient, Incoming, Ident;
    var s' := s.(queue := queue);
    forall m | m in queue ensures ProperEntry(m) {
      if m.direction == Q.In { assert m in Incoming(queue); }
    }
    assert s'.toClient == s.toClient + [];
    QueueSame(s, s', []);
  }

  lemma LoseKeeps(s: State)
    requires Inv(s)
    ensures Inv(Broken(s))
  {
    hide Progress, Proper, Held, Ident, SenderOf;
    SameLib(s, Broken(s));
    hide NotSentOn;
    assert Receiver(Broken(s)) by { hide Finished, ToBroker, ToClient; }
    assert Finished(Broken(s)) by { hide Receiver, ToBroker, ToClient; }
  }

  lemma ReconnectKeeps(s: State)
    requires Inv(s)
    ensures Inv(s.(connected := true, lib := L.Reset(s.lib), queue := Q.Reset(s.queue, UNLIMITED)))
  {
    var s1 := s.(connected := true, lib := L.Reset(s.lib));
    ResetSame(s);
    ResetLib(s, s1);
    ResetIdent(s.queue);
    hide Sender, Finished, ToBroker, ToClient, L.Reset, Q.Reset;
    var s' := s1.(queue := Q.Reset(s1.queue, UNLIMITED));
    assert s'.toClient == s1.toClient + [];
    QueueSame(s1, s', []);
  }

  lemma ResetSame(s: State)
    requires Sender(s)
    ensures L.Reset(s.lib).out == s.lib.out && L.Reset(s.lib).limit == 0
  {
    assert forall i :: 0 <= i < |s.lib.out| ==> OutFine(s.lib.out[i], s.accepted, s.fired);
  }

  lemma ResetLib(s: State, s': State)
    requires Inv(s) && s'.lib.out == s.lib.out && s'.lib.limit == 0
    requires s' == s.(connected := s'.connected, lib := s'.lib)
    ensures Inv(s')
  {
    SameLib(s, s');
    hide NotSentOn, SenderOf;
    assert Sender(s') by { hide Receiver, Finished, ToBroker, ToClient; }
    hide Sender;
    RestSame(s, s');
    hide Receiver, Finished, ToClient;
    assert s'.toBroker == s.toBroker + [];
    ToBrokerAppend(s, s', []);
  }
}
