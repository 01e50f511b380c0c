/** Exactly once: over every run of the exchange a message is handed on once. */
module Qos2Laws {
  import opened Common
  import opened Qos2
  import opened Qos2Steps
  import Q = ClientQueue
  import L = ClientLib

  lemma StepKeeps(s: State, a: Action)
    requires Inv(s)
    ensures Inv(Apply(s, a))
  {
    hide Inv;
    match a
    case Publish(content) => PublishKeeps(s, content);
    case Retry(i) => RetryKeeps(s, i);
    case ClientReads => ClientReadsKeeps(s);
    case BrokerReads(allowed, own) => BrokerReadsKeeps(s, allowed, own);
    case BrokerTimeout(expired) => if |expired| == |s.queue| { TimeoutKeeps(s, expired); }
    case BrokerWrites(budget) => if Q.IncomingQos2(s.queue) { WriteKeeps(s, budget); }
    case BrokerOutgoing(queue) =>
      if Incoming(queue) == Incoming(s.queue) && OutProper(queue) { OutgoingKeeps(s, queue); }
    case Lose => LoseKeeps(s);
    case Reconnect => ReconnectKeeps(s);
  }

  lemma {:induction false} RunInv(actions: seq<Action>)
    ensures Inv(Run(actions))
  {
    if actions != [] {
      RunInv(actions[..|actions| - 1]);
      StepKeeps(Run(actions[..|actions| - 1]), actions[|actions| - 1]);
    }
  }

  /** At most once: over every run no message is handed on twice, and what is
      handed on is what the library accepted under that id. */
  lemma AtMostOnce(actions: seq<Action>)
    ensures var s := Run(actions);
            (forall i, j :: 0 <= i < j < |s.handed| ==> s.handed[i].0 != s.handed[j].0) &&
            forall h :: h in s.handed ==> h.0 in s.accepted && s.accepted[h.0] == h.1
  {
    RunInv(actions);
  }

  /** Exactly once: when on_publish has been called for a message, the broker
      has handed it on exactly once, or, exactly when access control denied
      it, not at all; and on_publish is called at most once. */
  lemma ExactlyOnce(actions: seq<Action>)
    ensures var s := Run(actions);
            NoDup(s.fired) &&
            forall mid :: mid in s.fired ==>
              mid in s.accepted &&
              (mid !in s.refused <==> exists i :: 0 <= i < |s.handed| && s.handed[i] == (mid, s.accepted[mid])) &&
              forall i, j :: 0 <= i < j < |s.handed| ==> !(s.handed[i].0 == mid && s.handed[j].0 == mid)
  {
    RunInv(actions);
    var s := Run(actions);
    forall mid | mid in s.fired
      ensures mid !in s.refused <==> exists i :: 0 <= i < |s.handed| && s.handed[i] == (mid, s.accepted[mid])
    {
      assert mid in s.released;
    }
  }

  /** Over every run the sender knows the message of every PUBREC that
      reaches it, so no PUBREC closes a connection. */
  lemma PubrecIsKnown(actions: seq<Action>)
    ensures var s := Run(actions);
            s.toClient != [] && s.toClient[0].PUBREC? ==> L.Find(s.lib.out, s.toClient[0].mid) < |s.lib.out|
  {
    RunInv(actions);
    var s := Run(actions);
    if s.toClient != [] && s.toClient[0].PUBREC? {
      assert Inv(s);
      hide Run;
      HeadMeans(s);
      PubrecSender(s, s.toClient[0].mid);
    }
  }
}
