/** Every message of the exchange can still be completed. */
module Qos2Progress {
  import opened Common
  import opened Qos2
  import opened Qos2Steps
  import Q = ClientQueue
  import L = ClientLib
  import Qos2Laws
  import S = MsgStore

  // ------------------------------------------------------- the four answers

  /** A PUBLISH is answered by PUBREC, a PUBREL by PUBCOMP, whatever is held. */
  lemma BrokerAnswers(s: State, allowed: bool)
    requires s.connected && s.toBroker != []
    ensures var p, s' := s.toBroker[0], DoBrokerReads(s, allowed, []);
            s'.toBroker == s.toBroker[1..] && s'.lib == s.lib && s'.accepted == s.accepted && s'.fired == s.fired &&
            s'.connected && s'.toClient == s.toClient + [if p.Pub? then Q.PUBREC(p.mid) else Q.PUBCOMP(p.mid)]
  {
    var s' := s.(toBroker := s.toBroker[1..]);
    match s.toBroker[0]
    case Pub(mid, qos2, content, dup) =>
      if S.FindIncoming(s.queue, s.stores, mid) == None { ArrivalShape(s', mid, content, allowed); }
    case Rel(mid) =>
      ReleaseShape(s', mid, []);
      hide DoBrokerRelease;
  }

  /** A PUBREC is answered by PUBREL; a PUBCOMP calls on_publish, if the message
      is still there. */
  lemma ClientAnswers(s: State)
    requires Inv(s) && s.connected && s.toClient != []
    ensures var p, s' := s.toClient[0], DoClientReads(s);
            s'.toClient == s.toClient[1..] && s'.accepted == s.accepted && s'.connected &&
            s'.toBroker == s.toBroker + (if p.PUBREC? then [L.Rel(p.mid)] else []) &&
            s'.fired == s.fired +
                        (if p.PUBCOMP? && Progress(s.lib.out, p.mid).Some? then [p.mid] else []) &&
            forall k :: Progress(s'.lib.out, k) ==
                        if p.PUBREC? && k == p.mid then Some(L.WaitPubcomp)
                        else if p.PUBCOMP? && k == p.mid then None else Progress(s.lib.out, k)
  {
    var p := s.toClient[0];
    HeadMeans(s);
    assert Sender(s);
    hide Inv, Sender, Receiver, Finished, ToBroker, ToClient, L.Received, L.Acknowledge, L.Find, Progress;
    match p
    case PUBREC(mid) =>
      PubrecSender(s, mid);
      ReceivedProgress(s, mid);
    case PUBCOMP(mid) => if L.Find(s.lib.out, mid) < |s.lib.out| { PubcompOut(s, mid); }
    case _ =>
  }

  // ---------------------------------------------------------- one more step

  /** What is still to be answered, the start of an exchange weighing most. */
  function WorkToBroker(ch: seq<L.LibPacket>): nat {
    if ch == [] then 0 else (if ch[0].Pub? then 4 else 2) + WorkToBroker(ch[1..])
  }

  function WorkToClient(ch: seq<Q.Packet>): nat {
    if ch == [] then 0 else (if ch[0].PUBREC? then 3 else 1) + WorkToClient(ch[1..])
  }

  function Left(s: State): nat {
    WorkToBroker(s.toBroker) + WorkToClient(s.toClient)
  }

  lemma {:induction false} WorkToBrokerAppend(ch: seq<L.LibPacket>, p: L.LibPacket)
    ensures WorkToBroker(ch + [p]) == WorkToBroker(ch) + if p.Pub? then 4 else 2
  {
    if ch == [] {
      assert ch + [p] == [p] && [p][1..] == [];
    } else {
      assert (ch + [p])[1..] == ch[1..] + [p];
      WorkToBrokerAppend(ch[1..], p);
    }
  }

  lemma {:induction false} WorkToClientAppend(ch: seq<Q.Packet>, p: Q.Packet)
    ensures WorkToClient(ch + [p]) == WorkToClient(ch) + if p.PUBREC? then 3 else 1
  {
    if ch == [] {
      assert ch + [p] == [p] && [p][1..] == [];
    } else {
      assert (ch + [p])[1..] == ch[1..] + [p];
      WorkToClientAppend(ch[1..], p);
    }
  }

  /** The message is done, or the packet that carries it on is on its way. */
  predicate OnItsWay(s: State, mid: Mid) {
    mid in s.fired ||
    (Progress(s.lib.out, mid) == Some(L.WaitPubrec) &&
     ((exists p :: p in s.toBroker && p.Pub? && p.mid == mid) || Q.PUBREC(mid) in s.toClient)) ||
    (Progress(s.lib.out, mid) == Some(L.WaitPubcomp) && (L.Rel(mid) in s.toBroker || Q.PUBCOMP(mid) in s.toClient))
  }

  /** Neither a new message nor a lost connection. */
  predicate Quiet(a: Action) {
    !a.Publish? && !a.Lose?
  }

  /** Whichever side has something to read reads it. */
  function Serve(s: State, allowed: bool): Action {
    if s.toBroker != [] then BrokerReads(allowed, []) else ClientReads
  }

  lemma ServeStep(s: State, allowed: bool, mid: Mid)
    requires Inv(s) && s.connected && Left(s) > 0 && OnItsWay(s, mid)
    ensures var s' := Apply(s, Serve(s, allowed));
            s'.connected && Left(s') < Left(s) && OnItsWay(s', mid)
  {
    hide Inv, Progress;
    if s.toBroker != [] {
      BrokerAnswers(s, allowed);
      var p := s.toBroker[0];
      WorkToClientAppend(s.toClient, if p.Pub? then Q.PUBREC(p.mid) else Q.PUBCOMP(p.mid));
      assert s.toBroker == [p] + s.toBroker[1..];
      hide DoBrokerReads, WorkToClient;
    } else {
      ClientAnswers(s);
      var p := s.toClient[0];
      assert s.toClient == [p] + s.toClient[1..];
      if p.PUBREC? {
        WorkToBrokerAppend(s.toBroker, L.Rel(p.mid));
      } else {
        assert s.toBroker + [] == s.toBroker && s.fired + [] == s.fired;
      }
      hide DoClientReads;
    }
  }

  // ------------------------------------------------------------ to the end

  lemma Then(before: seq<Action>, a: Action, more: seq<Action>)
    ensures before + ([a] + more) == before + [a] + more
    ensures Run(before + [a]) == Apply(Run(before), a)
  {
    assert (before + [a])[..|before|] == before;
  }

  /** When nothing is on the way any more, the message is done. */
  lemma {:induction false} Served(before: seq<Action>, allowed: bool, mid: Mid) returns (more: seq<Action>)
    requires Run(before).connected && OnItsWay(Run(before), mid)
    ensures (forall a :: a in more ==> Quiet(a)) && mid in Run(before + more).fired
    decreases Left(Run(before))
  {
    var s := Run(before);
    if Left(s) == 0 {
      more := [];
      assert before + [] == before;
      assert s.toBroker == [] && s.toClient == [];
    } else {
      var a := Serve(s, allowed);
      Qos2Laws.RunInv(before);
      ServeStep(s, allowed, mid);
      Then(before, a, []);
      more := Served(before + [a], allowed, mid);
      Then(before, a, more);
      more := [a] + more;
    }
  }

  /** The retry check repeats the PUBLISH, marked as a duplicate, until the PUBREC
      has come, and the PUBREL from then on. */
  lemma RetryRepeats(s: State, i: nat)
    requires Inv(s) && s.connected && i < |s.lib.out|
    ensures var m, s' := s.lib.out[i], DoRetry(s, i);
            m.mid in s.accepted &&
            (m.state == L.WaitPubrec || m.state == L.WaitPubcomp) &&
            s'.toBroker == s.toBroker + [if m.state == L.WaitPubrec then L.Pub(m.mid, true, s.accepted[m.mid], true)
                                         else L.Rel(m.mid)] &&
            s'.connected && s'.toClient == s.toClient && s'.fired == s.fired && s'.accepted == s.accepted &&
            forall k :: Progress(s'.lib.out, k) == Progress(s.lib.out, k)
  {
    assert OutFine(s.lib.out[i], s.accepted, s.fired);
    FindAt(s.lib.out, i);
    SameProgress(s.lib.out, i, s.lib.out[i].(dup := true));
  }

  /** A broken connection has nothing in its channels and is resumed as it was. */
  lemma Resumes(s: State, mid: Mid)
    requires Inv(s)
    ensures var s' := Apply(s, Reconnect);
            s'.connected && s'.fired == s.fired && s'.accepted == s.accepted
  {
  }

  /** Completion: after every run, every message the library took can be brought
      to its end, without a new message and without another loss of the
      connection, and whatever access control says. */
  lemma Completion(before: seq<Action>, allowed: bool, mid: Mid) returns (more: seq<Action>)
    requires mid in Run(before).accepted
    ensures (forall a :: a in more ==> Quiet(a)) && mid in Run(before + more).fired
  {
    var s := Run(before);
    Qos2Laws.RunInv(before);
    Resumes(s, mid);
    Then(before, Reconnect, []);
    var ops1 := before + [Reconnect];
    var s1 := Run(ops1);
    Qos2Laws.RunInv(ops1);
    if mid in s1.fired {
      more := [Reconnect];
    } else {
      assert Progress(s1.lib.out, mid).Some?;
      var i := L.Find(s1.lib.out, mid);
      RetryRepeats(s1, i);
      Then(ops1, Retry(i), []);
      var s2 := Run(ops1 + [Retry(i)]);
      assert OnItsWay(s2, mid) by {
        assert s2.toBroker[|s1.toBroker|] in s2.toBroker;
      }
      more := Served(ops1 + [Retry(i)], allowed, mid);
      Then(ops1, Retry(i), more);
      Then(before, Reconnect, [Retry(i)] + more);
      more := [Reconnect] + ([Retry(i)] + more);
    }
  }
}
