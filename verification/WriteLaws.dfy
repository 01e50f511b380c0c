/** Writing a queue: packets leave in the order of its entries. */
module WriteLaws {
  import opened Common
  import opened ClientQueue
  import QueueLaws

  /** What writing did with one entry: it stayed, with a packet or without, or
      it left with its packet. */
  datatype Fate = Stayed(m: ClientMsg, packet: Option<Packet>) | Left(sent: Packet) {
    predicate Sent() {
      Left? || packet.Some?
    }
  }

  /** The entry as it is when its turn comes: one that waited has been started
      with its PUBLISH or, coming in with QoS 2, its PUBREC. */
  function Turn(m: ClientMsg): ClientMsg {
    if m.state != Queued then m
    else if m.direction == Out then
      m.(state := if m.qos == 0 then PublishQos0 else if m.qos == 1 then PublishQos1 else PublishQos2)
    else if m.qos == 2 then m.(state := SendPubrec) else m
  }

  /** An entry may have been started without its turn coming. */
  predicate Moved(m: ClientMsg, n: ClientMsg) {
    n == m || n == Turn(m)
  }

  /** The packet of an entry in each of the states that has one. */
  predicate Sends(m: ClientMsg, p: Packet) {
    match m.state
    case PublishQos0 => p == PUBLISH(m.mid, m.store, m.qos, m.retain, m.dup)
    case PublishQos1 => p == PUBLISH(m.mid, m.store, m.qos, m.retain, m.dup)
    case PublishQos2 => p == PUBLISH(m.mid, m.store, m.qos, m.retain, m.dup)
    case SendPubrec => p == PUBREC(m.mid)
    case ResendPubrel => p == PUBREL(m.mid)
    case ResendPubcomp => p == PUBCOMP(m.mid)
    case _ => false
  }

  predicate HasPacket(m: ClientMsg) {
    m.state == PublishQos0 || m.state == PublishQos1 || m.state == PublishQos2 || m.state == SendPubrec ||
    m.state == ResendPubrel || m.state == ResendPubcomp
  }

  /** What it waits for behind its packet; a PUBLISH that is sent again will be
      marked as a duplicate. */
  predicate Awaits(m: ClientMsg, n: ClientMsg) {
    match m.state
    case PublishQos1 => n == m.(state := WaitForPuback, dup := true)
    case PublishQos2 => n == m.(state := WaitForPubrec, dup := true)
    case SendPubrec => n == m.(state := WaitForPubrel)
    case ResendPubrel => n == m.(state := WaitForPubcomp)
    case ResendPubcomp => n == m.(state := WaitForPubrel)
    case _ => false
  }

  /** An entry that sends its packet goes on to the state after it, unless it
      was a PUBLISH in the state for QoS 0: that one leaves. */
  predicate FateOf(m: ClientMsg, f: Fate) {
    match f
    case Stayed(n, None) => Moved(m, n)
    case Stayed(n, Some(p)) => Sends(Turn(m), p) && Awaits(Turn(m), n)
    case Left(p) => Turn(m).state == PublishQos0 && Sends(Turn(m), p)
  }

  lemma AsSent(m: ClientMsg)
    ensures HasPacket(m) <==> PacketFor(m).Some?
    ensures forall p :: Sends(m, p) <==> PacketFor(m) == Some(p)
    ensures HasPacket(m) && m.state != PublishQos0 ==> Awaits(m, AfterSend(m))
    ensures Turn(m) == Started(m, SendPubrec)
  {
  }

  function PacketsOf(fates: seq<Fate>): seq<Packet> {
    if fates == [] then []
    else
      (match fates[0]
       case Stayed(_, p) => if p.Some? then [p.value] else []
       case Left(p) => [p])
      + PacketsOf(fates[1..])
  }

  predicate Carries(f: Fate, p: Packet) {
    f == Left(p) || (f.Stayed? && f.packet == Some(p))
  }

  lemma {:induction false} CarriedIsSent(fates: seq<Fate>, i: nat, p: Packet)
    requires i < |fates| && Carries(fates[i], p)
    ensures p in PacketsOf(fates)
  {
    if i > 0 { CarriedIsSent(fates[1..], i - 1, p); }
  }

  lemma {:induction false} SentIsCarried(fates: seq<Fate>, p: Packet) returns (i: nat)
    requires p in PacketsOf(fates)
    ensures i < |fates| && Carries(fates[i], p)
  {
    if Carries(fates[0], p) {
      i := 0;
    } else {
      i := SentIsCarried(fates[1..], p);
      i := i + 1;
    }
  }

  function Stayers(fates: seq<Fate>): seq<ClientMsg> {
    if fates == [] then [] else (if fates[0].Stayed? then [fates[0].m] else []) + Stayers(fates[1..])
  }

  function Leavers(rest: seq<ClientMsg>, fates: seq<Fate>): seq<ClientMsg>
    requires |fates| == |rest|
  {
    if fates == [] then [] else (if fates[0].Left? then [Turn(rest[0])] else []) + Leavers(rest[1..], fates[1..])
  }

  ghost predicate Fates(rest: seq<ClientMsg>, fates: seq<Fate>) {
    |fates| == |rest| && forall i :: 0 <= i < |rest| ==> FateOf(rest[i], fates[i])
  }

  ghost predicate AllMoved(a: seq<ClientMsg>, b: seq<ClientMsg>) {
    |a| == |b| && forall i :: 0 <= i < |a| ==> Moved(a[i], b[i])
  }

  /** Every entry has one fate: the packets sent are those of the fates in the
      order of the list, the entries that left are gone, and the others stand in
      their old order behind the ones in front. */
  ghost predicate Ordered(pre: seq<ClientMsg>, rest: seq<ClientMsg>, w: Written, fates: seq<Fate>) {
    Fates(rest, fates) && w.sent == PacketsOf(fates) && w.gone == Leavers(rest, fates) &&
    |pre| <= |w.msgs| && AllMoved(pre, w.msgs[..|pre|]) && w.msgs[|pre|..] == Stayers(fates)
  }

  /** Up to here every entry that had a packet sent it. */
  ghost predicate SentTo(rest: seq<ClientMsg>, fates: seq<Fate>, k: nat)
    requires k <= |rest| == |fates|
  {
    forall i :: 0 <= i < k && HasPacket(rest[i]) ==> fates[i].Sent()
  }

  /** If the transport took everything, all that had a packet sent it; if not,
      as many packets were sent as it took, by the entries in front of the one
      it refused. */
  ghost predicate Thorough(rest: seq<ClientMsg>, w: Written, fates: seq<Fate>, budget: nat)
    requires |rest| == |fates|
  {
    if w.ok then |w.sent| <= budget && SentTo(rest, fates, |rest|)
    else
      |w.sent| == budget &&
      exists k :: 0 <= k < |rest| && SentTo(rest, fates, k) && HasPacket(Turn(rest[k])) &&
                  forall i :: k <= i < |rest| ==> !fates[i].Sent()
  }

  // ---------------------------------------------------------- one entry more

  lemma FatesNext(t: ClientMsg, f: Fate, tail: seq<ClientMsg>, fates: seq<Fate>)
    requires FateOf(t, f) && Fates(tail, fates)
    ensures Fates([t] + tail, [f] + fates)
  {
    hide FateOf;
    var rest, more := [t] + tail, [f] + fates;
    assert forall i :: 1 <= i < |rest| ==> rest[i] == tail[i - 1] && more[i] == fates[i - 1];
  }

  lemma ListsNext(t: ClientMsg, f: Fate, tail: seq<ClientMsg>, fates: seq<Fate>)
    requires |tail| == |fates|
    ensures PacketsOf([f] + fates) ==
            (match f case Stayed(_, p) => if p.Some? then [p.value] else [] case Left(p) => [p]) + PacketsOf(fates)
    ensures Stayers([f] + fates) == (if f.Stayed? then [f.m] else []) + Stayers(fates)
    ensures Leavers([t] + tail, [f] + fates) == (if f.Left? then [Turn(t)] else []) + Leavers(tail, fates)
  {
    assert ([f] + fates)[1..] == fates && ([t] + tail)[1..] == tail;
  }

  lemma ThoroughNext(t: ClientMsg, f: Fate, tail: seq<ClientMsg>, fates: seq<Fate>, w: Written, w': Written,
                     budget: nat)
    requires |tail| == |fates| && Thorough(tail, w, fates, budget) && w'.ok == w.ok
    requires |w'.sent| == |w.sent| + if f.Sent() then 1 else 0
    requires HasPacket(t) ==> f.Sent()
    ensures Thorough([t] + tail, w', [f] + fates, budget + if f.Sent() then 1 else 0)
  {
    var rest, more := [t] + tail, [f] + fates;
    assert forall i :: 1 <= i < |rest| ==> rest[i] == tail[i - 1] && more[i] == fates[i - 1];
    if !w.ok {
      var k :| 0 <= k < |tail| && SentTo(tail, fates, k) && HasPacket(Turn(tail[k])) &&
               forall i :: k <= i < |tail| ==> !fates[i].Sent();
      assert SentTo(rest, more, k + 1);
    }
  }

  /** The entry `t` stayed as `u`, and was perhaps started later. */
  lemma StayNext(pre: seq<ClientMsg>, t: ClientMsg, u: ClientMsg, tail: seq<ClientMsg>, w: Written, w': Written,
                 fates: seq<Fate>, p: Option<Packet>)
    returns (f: Fate)
    requires Ordered(pre + [u], tail, w, fates)
    requires w' == w.(sent := (if p.Some? then [p.value] else []) + w.sent)
    requires if p.Some? then Sends(Turn(t), p.value) && Awaits(Turn(t), u) else u == t
    ensures f.Sent() == p.Some? && Ordered(pre, [t] + tail, w', [f] + fates)
  {
    var n := w.msgs[|pre|];
    f := Stayed(n, p);
    assert w.msgs[..|pre| + 1][|pre|] == n && (pre + [u])[|pre|] == u && Moved(u, n);
    assert FateOf(t, f) by {
      if p.Some? { Settled(Turn(t), u); }
    }
    FatesNext(t, f, tail, fates);
    ListsNext(t, f, tail, fates);
    assert w.msgs[|pre|..] == [n] + w.msgs[|pre| + 1..];
    forall i | 0 <= i < |pre| ensures Moved(pre[i], w.msgs[..|pre|][i]) {
      assert (pre + [u])[i] == pre[i] && w.msgs[..|pre| + 1][i] == w.msgs[i];
    }
    assert [] + Leavers(tail, fates) == Leavers(tail, fates);
    hide FateOf, Moved, Fates, PacketsOf, Stayers, Leavers;
  }

  /** An entry that has sent its packet does not wait to be started. */
  lemma Settled(m: ClientMsg, n: ClientMsg)
    requires Awaits(m, n)
    ensures Turn(n) == n
  {
  }

  // ------------------------------------------------- entries started meanwhile

  lemma MovedFate(m: ClientMsg, n: ClientMsg, f: Fate)
    requires Moved(m, n)
    ensures Turn(n) == Turn(m) && (HasPacket(m) ==> n == m)
    ensures FateOf(n, f) ==> FateOf(m, f)
    ensures forall o :: Moved(n, o) ==> Moved(m, o)
  {
  }

  lemma {:induction false} MovedLeavers(rest: seq<ClientMsg>, now: seq<ClientMsg>, fates: seq<Fate>)
    requires AllMoved(rest, now) && |fates| == |rest|
    ensures Leavers(rest, fates) == Leavers(now, fates)
  {
    if rest != [] {
      MovedFate(rest[0], now[0], fates[0]);
      assert forall i :: 0 <= i < |rest| - 1 ==> rest[1..][i] == rest[i + 1] && now[1..][i] == now[i + 1];
      MovedLeavers(rest[1..], now[1..], fates[1..]);
    }
  }

  /** What is said of the entries as they are now holds of them as they were. */
  lemma Renamed(pre: seq<ClientMsg>, rest: seq<ClientMsg>, before: seq<ClientMsg>, now: seq<ClientMsg>, w: Written,
                fates: seq<Fate>, budget: nat)
    requires Ordered(before, now, w, fates) && Thorough(now, w, fates, budget)
    requires AllMoved(pre, before) && AllMoved(rest, now)
    ensures Ordered(pre, rest, w, fates) && Thorough(rest, w, fates, budget)
  {
    MovedLeavers(rest, now, fates);
    forall i | 0 <= i < |rest|
      ensures FateOf(rest[i], fates[i]) && Turn(now[i]) == Turn(rest[i]) &&
              (HasPacket(rest[i]) ==> now[i] == rest[i])
    {
      MovedFate(rest[i], now[i], fates[i]);
    }
    forall i | 0 <= i < |pre| ensures Moved(pre[i], w.msgs[..|pre|][i]) {
      assert Moved(before[i], w.msgs[..|pre|][i]);
      MovedFate(pre[i], before[i], Left(PUBREC(0)));
    }
    hide FateOf, Moved, PacketsOf, Stayers, Leavers, Turn, HasPacket;
    assert forall k :: 0 <= k <= |rest| && SentTo(now, fates, k) ==> SentTo(rest, fates, k);
  }

  lemma {:induction false} PromoteMoves(msgs: seq<ClientMsg>, lim: Limits)
    ensures AllMoved(msgs, PromoteHead(msgs, lim))
  {
    if msgs != [] && msgs[0].state == Queued && lim.inflight > 0 {
      PromoteMoves(msgs[1..], lim);
      var r := PromoteHead(msgs, lim);
      assert r[1..] == PromoteHead(msgs[1..], lim);
      assert forall i :: 1 <= i < |msgs| ==> msgs[i] == msgs[1..][i - 1] && r[i] == r[1..][i - 1];
    }
  }

  // ------------------------------------------------------------- the main result

  /** The transport took nothing more. */
  lemma {:induction false} StayAll(rest: seq<ClientMsg>) returns (fates: seq<Fate>)
    ensures Fates(rest, fates) && PacketsOf(fates) == [] && Stayers(fates) == rest && Leavers(rest, fates) == []
    ensures forall i :: 0 <= i < |fates| ==> !fates[i].Sent()
  {
    if rest == [] {
      fates := [];
    } else {
      var more := StayAll(rest[1..]);
      fates := [Stayed(rest[0], None)] + more;
      FatesNext(rest[0], Stayed(rest[0], None), rest[1..], more);
      ListsNext(rest[0], Stayed(rest[0], None), rest[1..], more);
      assert rest == [rest[0]] + rest[1..];
    }
  }

  lemma Stop(pre: seq<ClientMsg>, rest: seq<ClientMsg>, ok: bool) returns (fates: seq<Fate>)
    requires ok ==> rest == []
    requires !ok ==> rest != [] && HasPacket(Turn(rest[0]))
    ensures |fates| == |rest| && Ordered(pre, rest, Written(pre + rest, [], [], ok), fates)
    ensures Thorough(rest, Written(pre + rest, [], [], ok), fates, 0)
  {
    fates := StayAll(rest);
    assert (pre + rest)[..|pre|] == pre && (pre + rest)[|pre|..] == rest;
    assert SentTo(rest, fates, 0);
  }

  /** With more room nothing changes that was finished with less. */
  lemma RoomLeft(rest: seq<ClientMsg>, w: Written, fates: seq<Fate>, budget: nat)
    requires |rest| == |fates| && Thorough(rest, w, fates, 0) && w.ok
    ensures Thorough(rest, w, fates, budget)
  {
  }

  /** Writing, for any limits and wherever the transport stops. */
  lemma {:induction false} WriteOrdered(pre: seq<ClientMsg>, rest: seq<ClientMsg>, lim: Limits, budget: nat, seen: nat)
    returns (fates: seq<Fate>)
    requires IncomingQos2(rest)
    ensures var w := WriteFrom(pre, rest, lim, budget, seen);
            |fates| == |rest| && Ordered(pre, rest, w, fates) && Thorough(rest, w, fates, budget)
    decreases |rest|, if rest != [] && rest[0].state == Queued then 1 else 0, 1
  {
    hide Ordered, Thorough, AllMoved, PromoteHead;
    if rest == [] {
      fates := Stop(pre, rest, true);
      assert pre + rest == pre;
      RoomLeft(rest, Written(pre, [], [], true), fates, budget);
    } else {
      var t, tail := rest[0], rest[1..];
      var seen' := seen + if t.direction == In then 1 else 0;
      assert rest == [t] + tail;
      AsSent(t);
      if t.state == Queued && t.direction == In && (lim.inflight == 0 || seen' < lim.inflight) {
        var u := t.(state := SendPubrec);
        fates := WriteOrdered(pre, [u] + tail, lim, budget, seen');
        StartedHead(pre, t, u, tail);
        Renamed(pre, rest, pre, [u] + tail, WriteFrom(pre, [u] + tail, lim, budget, seen'), fates, budget);
      } else if t.state == Queued || PacketFor(t) == None {
        fates := WriteStays(pre, t, t, tail, lim, budget, seen', None);
        NothingBehind(WriteFrom(pre + [t], tail, lim, budget, seen'));
      } else if budget == 0 {
        fates := Stop(pre, rest, false);
      } else if t.state == PublishQos0 {
        fates := WriteGone(pre, rest, lim, budget, seen');
      } else {
        fates := WriteStays(pre, t, AfterSend(t), tail, lim, budget - 1, seen', PacketFor(t));
      }
    }
  }

  lemma NothingBehind(w: Written)
    ensures Behind(w, [], []) == w
  {
    assert [] + w.sent == w.sent && [] + w.gone == w.gone;
  }

  lemma StartedHead(pre: seq<ClientMsg>, t: ClientMsg, u: ClientMsg, tail: seq<ClientMsg>)
    requires Moved(t, u)
    ensures AllMoved(pre, pre) && AllMoved([t] + tail, [u] + tail)
  {
  }

  lemma {:induction false} WriteStays(pre: seq<ClientMsg>, t: ClientMsg, u: ClientMsg, tail: seq<ClientMsg>,
                                      lim: Limits,
                                      budget: nat, seen: nat, p: Option<Packet>)
    returns (fates: seq<Fate>)
    requires IncomingQos2(tail) && (HasPacket(t) ==> p.Some?)
    requires if p.Some? then Sends(Turn(t), p.value) && Awaits(Turn(t), u) else u == t
    ensures var w := WriteFrom(pre + [u], tail, lim, budget, seen);
            var w' := Behind(w, if p.Some? then [p.value] else [], []);
            |fates| == |tail| + 1 && Ordered(pre, [t] + tail, w', fates) &&
            Thorough([t] + tail, w', fates, budget + if p.Some? then 1 else 0)
    decreases |tail| + 1, 0, 0
  {
    hide Ordered, Thorough, WriteFrom;
    var w := WriteFrom(pre + [u], tail, lim, budget, seen);
    var w' := Behind(w, if p.Some? then [p.value] else [], []);
    var more := WriteOrdered(pre + [u], tail, lim, budget, seen);
    assert [] + w.gone == w.gone;
    var f := StayNext(pre, t, u, tail, w, w', more, p);
    fates := [f] + more;
    ThoroughNext(t, f, tail, more, w, w', budget);
  }

  lemma {:induction false} WriteGone(pre: seq<ClientMsg>, rest: seq<ClientMsg>, lim: Limits, budget: nat, seen: nat)
    returns (fates: seq<Fate>)
    requires IncomingQos2(rest)
    requires rest != [] && rest[0].state == PublishQos0 && budget > 0
    ensures var all := PromoteHead(pre + rest[1..], lim);
            IncomingQos2(all[|pre|..]) &&
            var w := Behind(WriteFrom(all[..|pre|], all[|pre|..], lim, budget - 1, seen), [PacketFor(rest[0]).value],
                            [rest[0]]);
            |fates| == |rest| && Ordered(pre, rest, w, fates) && Thorough(rest, w, fates, budget)
    decreases |rest|, 0, 0
  {
    hide Ordered, Thorough, PromoteHead, WriteFrom;
    var t, tail := rest[0], rest[1..];
    var all := PromoteHead(pre + tail, lim);
    QueueLaws.PromotedIncoming(pre, rest, lim);
    var w := WriteFrom(all[..|pre|], all[|pre|..], lim, budget - 1, seen);
    var more := WriteOrdered(all[..|pre|], all[|pre|..], lim, budget - 1, seen);
    CutMoved(pre, tail, lim);
    Renamed(pre, tail, all[..|pre|], all[|pre|..], w, more, budget - 1);
    var f := Left(PacketFor(t).value);
    fates := [f] + more;
    assert rest == [t] + tail;
    GoneNext(pre, t, tail, w, more);
    ThoroughNext(t, f, tail, more, w, Behind(w, [PacketFor(t).value], [t]), budget - 1);
  }

  lemma GoneNext(pre: seq<ClientMsg>, t: ClientMsg, tail: seq<ClientMsg>, w: Written, fates: seq<Fate>)
    requires Ordered(pre, tail, w, fates) && t.state == PublishQos0
    ensures Ordered(pre, [t] + tail, Behind(w, [PacketFor(t).value], [t]), [Left(PacketFor(t).value)] + fates)
  {
    var f := Left(PacketFor(t).value);
    FatesNext(t, f, tail, fates);
    ListsNext(t, f, tail, fates);
    assert [] + Stayers(fates) == Stayers(fates);
    hide FateOf, Moved, Fates, PacketsOf, Stayers, Leavers;
  }

  lemma CutMoved(pre: seq<ClientMsg>, tail: seq<ClientMsg>, lim: Limits)
    ensures var all := PromoteHead(pre + tail, lim);
            AllMoved(pre, all[..|pre|]) && AllMoved(tail, all[|pre|..])
  {
    var all := PromoteHead(pre + tail, lim);
    PromoteMoves(pre + tail, lim);
    assert forall k :: 0 <= k < |tail| ==> all[|pre| + k] == all[|pre|..][k] && (pre + tail)[|pre| + k] == tail[k];
    assert forall k :: 0 <= k < |pre| ==> all[k] == all[..|pre|][k] && (pre + tail)[k] == pre[k];
  }
}
