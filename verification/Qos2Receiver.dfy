/** The receiving side of the QoS 2 exchange: what the broker's queue
    operations do to the incoming entries when the limits are zero. */
module Qos2Receiver {
  import opened Common
  import opened Qos2
  import Q = ClientQueue
  import S = MsgStore
  import SubTree

  /** The incoming entries: their ids and the messages they point to. */
  function Ident(msgs: seq<Q.ClientMsg>): seq<(Mid, SubTree.StoreId)> {
    if msgs == [] then []
    else (if msgs[0].direction == Q.In then [(msgs[0].mid, msgs[0].store)] else []) + Ident(msgs[1..])
  }

  /** Incoming entries have QoS 2 and wait for PUBREL or are about to repeat
      PUBREC; outgoing ones are in states of their own. */
  predicate Proper(msgs: seq<Q.ClientMsg>) {
    forall m :: m in msgs ==> ProperEntry(m)
  }

  predicate ProperEntry(m: Q.ClientMsg) {
    if m.direction == Q.In then m.qos == 2 && (m.state == Q.WaitForPubrel || m.state == Q.SendPubrec)
    else m.state != Q.SendPubrec && m.state != Q.ResendPubcomp && m.state != Q.WaitForPubrel
  }

  lemma {:induction false} IdentConcat(a: seq<Q.ClientMsg>, b: seq<Q.ClientMsg>)
    ensures Ident(a + b) == Ident(a) + Ident(b)
  {
    IdentEmpty();
    hide Ident;
    if a == [] {
      assert a + b == b;
    } else {
      IdentConcat(a[1..], b);
      var head := IdentHead(a, b);
      assert head + (Ident(a[1..]) + Ident(b)) == head + Ident(a[1..]) + Ident(b);
    }
  }

  lemma IdentEmpty()
    ensures Ident([]) == []
  {
  }

  lemma IdentHead(a: seq<Q.ClientMsg>, b: seq<Q.ClientMsg>) returns (head: seq<(Mid, SubTree.StoreId)>)
    requires a != []
    ensures Ident(a) == head + Ident(a[1..]) && Ident(a + b) == head + Ident(a[1..] + b)
  {
    head := if a[0].direction == Q.In then [(a[0].mid, a[0].store)] else [];
    assert (a + b)[1..] == a[1..] + b;
  }

  lemma IdentOne(m: Q.ClientMsg)
    ensures Ident([m]) == if m.direction == Q.In then [(m.mid, m.store)] else []
  {
    assert [m][1..] == [];
  }

  lemma {:induction false} IdentOut(msgs: seq<Q.ClientMsg>)
    requires AllOut(msgs)
    ensures Ident(msgs) == []
  {
    if msgs != [] {
      assert msgs[0] in msgs && forall m :: m in msgs[1..] ==> m in msgs;
      IdentOut(msgs[1..]);
    }
  }

  /** The ids of the incoming entries. */
  function Heads(ids: seq<(Mid, SubTree.StoreId)>): (r: seq<Mid>)
    ensures |r| == |ids| && forall i :: 0 <= i < |r| ==> r[i] == ids[i].0
  {
    if ids == [] then [] else [ids[0].0] + Heads(ids[1..])
  }

  function Held(msgs: seq<Q.ClientMsg>): seq<Mid> {
    Heads(Ident(msgs))
  }

  lemma HeldConcat(a: seq<Q.ClientMsg>, b: seq<Q.ClientMsg>)
    ensures Held(a + b) == Held(a) + Held(b)
  {
    IdentConcat(a, b);
    assert Heads(Ident(a) + Ident(b)) == Heads(Ident(a)) + Heads(Ident(b));
  }

  // ---------------------------------------------------- the four operations

  lemma {:induction false} TimeoutIdent(msgs: seq<Q.ClientMsg>, expired: seq<bool>)
    requires |expired| == |msgs| && Proper(msgs)
    ensures Ident(Q.Timeout(msgs, expired)) == Ident(msgs) && Proper(Q.Timeout(msgs, expired))
  {
    if msgs != [] {
      assert msgs[0] in msgs && forall m :: m in msgs[1..] ==> m in msgs;
      TimeoutIdent(msgs[1..], expired[1..]);
      var r := Q.Timeout(msgs, expired);
      assert r == [Q.Retried(msgs[0], expired[0])] + Q.Timeout(msgs[1..], expired[1..]);
    }
  }

  lemma {:induction false} SameIdent(a: seq<Q.ClientMsg>, b: seq<Q.ClientMsg>)
    requires |a| == |b|
    requires forall i :: 0 <= i < |a| ==>
               a[i].direction == b[i].direction && a[i].mid == b[i].mid && a[i].store == b[i].store
    ensures Ident(a) == Ident(b)
  {
    if a != [] { SameIdent(a[1..], b[1..]); }
  }

  lemma ResetIdent(msgs: seq<Q.ClientMsg>)
    requires Proper(msgs)
    ensures Ident(Q.Reset(msgs, UNLIMITED)) == Ident(msgs) && Proper(Q.Reset(msgs, UNLIMITED))
  {
    var r := Q.Reset(msgs, UNLIMITED);
    forall i | 0 <= i < |r| ensures ProperEntry(r[i]) {
      assert msgs[i] in msgs;
    }
    SameIdent(msgs, r);
  }

  /** Writing sends a PUBREC only for an incoming entry it finds, and no
      PUBCOMP; the incoming entries stay. */
  predicate WriteFine(w: Q.Written, pre: seq<Q.ClientMsg>, rest: seq<Q.ClientMsg>) {
    Ident(w.msgs) == Ident(pre) + Ident(rest) && Proper(w.msgs) &&
    forall p :: p in w.sent ==> !p.PUBCOMP? && (p.PUBREC? ==> p.mid in Held(rest))
  }

  lemma WriteFineNext(w: Q.Written, pre: seq<Q.ClientMsg>, t: Q.ClientMsg, u: Q.ClientMsg, tail: seq<Q.ClientMsg>)
    requires WriteFine(w, pre + [u], tail) && u.direction == t.direction && u.mid == t.mid && u.store == t.store
    ensures WriteFine(w, pre, [t] + tail)
  {
    IdentConcat(pre, [u]);
    IdentConcat([t], tail);
    IdentOne(u);
    IdentOne(t);
    HeldConcat([t], tail);
    hide Ident, Held, Proper;
    assert Ident(pre) + Ident([t]) + Ident(tail) == Ident(pre) + (Ident([t]) + Ident(tail));
  }

  lemma WriteFineSent(w: Q.Written, p: Q.Packet, gone: seq<Q.ClientMsg>, pre: seq<Q.ClientMsg>, rest: seq<Q.ClientMsg>)
    requires WriteFine(w, pre, rest) && !p.PUBCOMP? && (p.PUBREC? ==> p.mid in Held(rest))
    ensures WriteFine(Q.Behind(w, [p], gone), pre, rest)
  {
  }

  lemma ProperSplit(t: Q.ClientMsg, tail: seq<Q.ClientMsg>, pre: seq<Q.ClientMsg>, u: Q.ClientMsg)
    requires Proper([t] + tail) && Proper(pre) && ProperEntry(u)
    ensures ProperEntry(t) && Proper(tail) && Proper(pre + [u])
    ensures forall m :: m in tail ==> m in [t] + tail
  {
    assert t in [t] + tail && forall m :: m in tail ==> m in [t] + tail;
  }

  lemma {:induction false} WriteIdent(pre: seq<Q.ClientMsg>, rest: seq<Q.ClientMsg>, budget: nat, seen: nat)
    requires Proper(pre) && Proper(rest)
    requires Q.IncomingQos2(rest)
    ensures WriteFine(Q.WriteFrom(pre, rest, UNLIMITED, budget, seen), pre, rest)
    decreases |rest|
  {
    hide WriteFine;
    if rest == [] {
      WriteFineStop(pre, rest, true);
    } else {
      var t, tail := rest[0], rest[1..];
      assert rest == [t] + tail;
      assert ProperEntry(t);
      var u := Q.AfterSend(t);
      ProperSplit(t, tail, pre, if t.state == Q.Queued || Q.PacketFor(t) == None then t else u);
      var seen' := seen + if t.direction == Q.In then 1 else 0;
      if t.state == Q.Queued || Q.PacketFor(t) == None {
        WriteIdent(pre + [t], tail, budget, seen');
        WriteFineNext(Q.WriteFrom(pre + [t], tail, UNLIMITED, budget, seen'), pre, t, t, tail);
      } else if budget == 0 {
        WriteFineStop(pre, rest, false);
      } else {
        HeldFirst(t, tail);
        var p := Q.PacketFor(t).value;
        if t.state == Q.PublishQos0 {
          NoPromotion(pre, tail);
          WriteIdent(pre, tail, budget - 1, seen');
          var w := Q.WriteFrom(pre, tail, UNLIMITED, budget - 1, seen');
          WriteFineGone(w, pre, t, tail);
          WriteFineSent(w, p, [t], pre, rest);
        } else {
          WriteIdent(pre + [u], tail, budget - 1, seen');
          var w := Q.WriteFrom(pre + [u], tail, UNLIMITED, budget - 1, seen');
          WriteFineNext(w, pre, t, u, tail);
          WriteFineSent(w, p, [], pre, rest);
        }
      }
    }
  }

  lemma WriteFineStop(pre: seq<Q.ClientMsg>, rest: seq<Q.ClientMsg>, ok: bool)
    requires Proper(pre) && Proper(rest)
    ensures WriteFine(Q.Written(pre + rest, [], [], ok), pre, rest)
    ensures rest == [] ==> pre + rest == pre
  {
    IdentConcat(pre, rest);
  }

  lemma WriteFineGone(w: Q.Written, pre: seq<Q.ClientMsg>, t: Q.ClientMsg, tail: seq<Q.ClientMsg>)
    requires WriteFine(w, pre, tail) && t.direction == Q.Out
    ensures WriteFine(w, pre, [t] + tail)
  {
    HeldConcat([t], tail);
    IdentConcat([t], tail);
    IdentOne(t);
    assert Ident(pre) + ([] + Ident(tail)) == Ident(pre) + Ident(tail);
  }

  lemma HeldFirst(t: Q.ClientMsg, tail: seq<Q.ClientMsg>)
    ensures t.direction == Q.In ==> t.mid in Held([t] + tail)
  {
    IdentConcat([t], tail);
    IdentOne(t);
    if t.direction == Q.In { assert Held([t] + tail)[0] == t.mid; }
  }

  lemma NoPromotion(pre: seq<Q.ClientMsg>, tail: seq<Q.ClientMsg>)
    ensures Q.PromoteHead(pre + tail, UNLIMITED) == pre + tail
    ensures (pre + tail)[..|pre|] == pre && (pre + tail)[|pre|..] == tail
  {
  }

  lemma DropBehind(pre: seq<Q.ClientMsg>, rest: seq<Q.ClientMsg>, k: nat)
    requires 0 < k < |rest|
    ensures pre + [rest[0]] + DropAt(rest[1..], k - 1) == pre + DropAt(rest, k)
  {
    assert [rest[0]] + DropAt(rest[1..], k - 1) == DropAt(rest, k);
  }

  /** With zero limits a PUBREL takes out the first incoming entry with its
      id, touches nothing else, and sends nothing by itself. */
  lemma {:induction false} ReleaseFirst(pre: seq<Q.ClientMsg>, rest: seq<Q.ClientMsg>, index: nat, mid: Mid,
                                        own: seq<Q.ClientMsg>)
    ensures var r := Q.Sweep(pre, rest, index, mid, Q.In, UNLIMITED, true, false, [own]);
            var k := Q.IndexOfEntry(rest, mid, Q.In);
            r.sent == [] &&
            if k == |rest| then r.msgs == pre + rest && r.removed == []
            else r.msgs == pre + DropAt(rest, k) + own && r.removed == [rest[k]]
    decreases |rest|
  {
    if rest == [] {
      assert pre + rest == pre;
    } else {
      assert Q.Touched(rest[0], index + 1, UNLIMITED) == rest[0];
      if Q.IsEntry(rest[0], mid, Q.In) {
        assert pre + rest[1..] + own == pre + DropAt(rest, 0) + own;
        assert Q.PromoteHead(pre + rest[1..] + own, UNLIMITED) == pre + rest[1..] + own;
      } else {
        ReleaseFirst(pre + [rest[0]], rest[1..], index + 1, mid, own);
        assert pre + [rest[0]] + rest[1..] == pre + rest;
        if Q.IndexOfEntry(rest, mid, Q.In) < |rest| { DropBehind(pre, rest, Q.IndexOfEntry(rest, mid, Q.In)); }
      }
    }
  }

  lemma {:induction false} IdentDrop(msgs: seq<Q.ClientMsg>, k: nat)
    requires k < |msgs| && msgs[k].direction == Q.In
    ensures var i := |Ident(msgs[..k])|;
            i < |Ident(msgs)| && Ident(msgs)[i] == (msgs[k].mid, msgs[k].store) &&
            Ident(DropAt(msgs, k)) == DropAt(Ident(msgs), i)
  {
    assert msgs == msgs[..k] + ([msgs[k]] + msgs[k + 1..]);
    IdentConcat(msgs[..k], [msgs[k]] + msgs[k + 1..]);
    IdentConcat([msgs[k]], msgs[k + 1..]);
    IdentOne(msgs[k]);
    IdentConcat(msgs[..k], msgs[k + 1..]);
  }

  /** The incoming entry of an id is found exactly when it is there. */
  lemma {:induction false} FindIff(msgs: seq<Q.ClientMsg>, stores: S.Stores, mid: Mid)
    requires forall p :: p in Ident(msgs) ==> p.1 in stores && stores[p.1].sourceMid == p.0
    ensures S.FindIncoming(msgs, stores, mid).Some? <==> mid in Held(msgs)
  {
    if msgs != [] {
      var first: seq<(Mid, SubTree.StoreId)> :=
        if msgs[0].direction == Q.In then [(msgs[0].mid, msgs[0].store)] else [];
      assert Ident(msgs) == first + Ident(msgs[1..]);
      assert forall p :: p in Ident(msgs[1..]) ==> p in Ident(msgs);
      FindIff(msgs[1..], stores, mid);
      assert msgs == [msgs[0]] + msgs[1..];
      HeldConcat([msgs[0]], msgs[1..]);
      IdentOne(msgs[0]);
      if msgs[0].direction == Q.In {
        assert (msgs[0].mid, msgs[0].store) in Ident(msgs);
      }
    }
  }

  lemma {:induction false} IncomingIdent(a: seq<Q.ClientMsg>)
    ensures Ident(a) == Ident(Incoming(a))
    ensures forall m :: m in Incoming(a) <==> m in a && m.direction == Q.In
  {
    if a != [] {
      IncomingIdent(a[1..]);
      assert a == [a[0]] + a[1..];
      var first := if a[0].direction == Q.In then [a[0]] else [];
      IdentConcat(first, Incoming(a[1..]));
      if first != [] { IdentOne(a[0]); }
    }
  }
}
