/** What clients can rely on after any run of requests. */
module BrokerLaws {
  import opened Common
  import opened Topics
  import opened SubTree
  import opened SubSearch
  import opened Retained
  import opened Subscriptions
  import opened BrokerRuns
  import opened SubGather
  import SessionClean
  import SubRoot
  import Matcher

  // ------------------------------------------------ who gets a publish

  lemma LeafAtPath(h: Hier, p: Path, leaf: Leaf)
    requires WellFormed(h)
    ensures NodeAt(h, p).Some? && leaf in NodeAt(h, p).value.subs <==> SubAt(h, p, leaf.client) == Some(leaf.qos)
  {
    if NodeAt(h, p).Some? {
      NodeAtWellFormed(h, p);
      LeafOfMember(NodeAt(h, p).value.subs, leaf.client, leaf.qos);
    }
  }

  /** The tree the search walks: the children of the top-level node. */
  function SearchTree(b: Broker, ts: Path, retain: bool): Option<Hier>
    requires ts != []
  {
    var top := Child(b.root.children, ts[0]);
    if top == None then None else Some(if retain then Add(top.value, ts, None, 0) else top.value)
  }

  lemma SearchTreeKeeps(b: Broker, topic: string, retain: bool, p: Path, client: ClientId)
    requires SoundTree(b) && NoWild(topic) && SearchTree(b, Tokens(topic), retain).Some?
    ensures WellFormed(SearchTree(b, Tokens(topic), retain).value)
    ensures SubAt(SearchTree(b, Tokens(topic), retain).value, p, client) ==
            SubAt(b.root, [Tokens(topic)[0]] + p, client)
  {
    var ts := Tokens(topic);
    var top := Child(b.root.children, ts[0]).value;
    ChildWellFormed(b.root, ts[0]);
    FullPathWildFree(topic);
    WildFreeValid(ts);
    LiteralTopic(ts);
    AddEffect(top, ts, None, 0, p, client);
    AddWellFormed(top, ts, None, 0);
    var full := [ts[0]] + p;
    assert full[1..] == p;
    AtChild(b.root, full, client);
  }

  /** One delivery: it happens exactly for the leaf at a matching path. */
  lemma HandedIff(b: Broker, topic: string, retain: bool, d: Delivery)
    requires SoundTree(b) && PubTopicOk(topic)
    ensures d in Handed(b, topic, retain) <==>
            d.path != [] && SubAt(b.root, [Tokens(topic)[0]] + d.path, d.leaf.client) == Some(d.leaf.qos) &&
            LevelsMatch(d.path, Tokens(topic))
  {
    var ts := Tokens(topic);
    var tree := SearchTree(b, ts, retain);
    FullPathWildFree(topic);
    if tree == None {
      AtChild(b.root, [ts[0]] + d.path, d.leaf.client);
    } else {
      var cs := tree.value.children;
      SearchTreeKeeps(b, topic, retain, d.path, d.leaf.client);
      LeavesAtMember(cs, Reached(cs, ts), d);
      ReachedIff(cs, ts, d.path);
      LeafAtPath(tree.value, d.path, d.leaf);
      if d.path != [] { StepInto(tree.value, d.path); }
    }
  }

  lemma FullPathOf(first: string, p: Path, filter: string)
    requires p == Tokens(filter)
    ensures IsFullPath([first] + p) ==> first == Tokens(filter)[0]
    ensures [first] + p == FullPath(filter) <==> first == Tokens(filter)[0]
  {
    var full := [first] + p;
    assert full[1..] == p;
    if IsFullPath(full) {
      var s := Spelled(full);
      assert FullPath(s)[1..] == Tokens(s);
      TokensInjective(s, filter);
    }
  }

  /** After any run, a publish is handed to exactly the subscriptions in the
      flat table whose filter matches the topic level by level, and to each
      of them once. */
  lemma {:induction false} DeliveredExactly(ops: seq<Op>, topic: string, retain: bool)
    requires PubTopicOk(topic)
    ensures NoDup(Handed(Run(ops), topic, retain))
    ensures forall c, f, q :: Delivery(Tokens(f), Leaf(c, q)) in Handed(Run(ops), topic, retain) <==>
              (c, f) in FlatRun(ops).subs && FlatRun(ops).subs[(c, f)] == q && Matches(f, topic)
  {
    RunAgrees(ops);
    hide *;
    HandedAgrees(Run(ops), FlatRun(ops), topic, retain);
  }

  lemma HandedAgrees(b: Broker, t: Tables, topic: string, retain: bool)
    requires Agree(b, t) && PubTopicOk(topic)
    ensures NoDup(Handed(b, topic, retain))
    ensures forall c, f, q :: Delivery(Tokens(f), Leaf(c, q)) in Handed(b, topic, retain) <==>
              (c, f) in t.subs && t.subs[(c, f)] == q && Matches(f, topic)
  {
    HandedNoDup(b, topic, retain);
    forall c, f, q
      ensures Delivery(Tokens(f), Leaf(c, q)) in Handed(b, topic, retain) <==>
              (c, f) in t.subs && t.subs[(c, f)] == q && Matches(f, topic)
    {
      HandedFilter(b, t, topic, retain, c, f, q);
    }
  }

  /** ... and nobody else: every delivery belongs to a filter in the table. */
  lemma {:induction false} DeliveredToKnown(ops: seq<Op>, topic: string, retain: bool, d: Delivery)
    requires PubTopicOk(topic) && d in Handed(Run(ops), topic, retain)
    ensures exists f :: d.path == Tokens(f) && (d.leaf.client, f) in FlatRun(ops).subs
  {
    RunAgrees(ops);
    var b, t := Run(ops), FlatRun(ops);
    HandedIff(b, topic, retain, d);
    var full := [Tokens(topic)[0]] + d.path;
    assert SubAt(b.root, full, d.leaf.client) == TableSub(t, full, d.leaf.client);
    assert full[1..] == d.path && FullPath(Spelled(full))[1..] == Tokens(Spelled(full));
  }

  lemma HandedNoDup(b: Broker, topic: string, retain: bool)
    requires SoundTree(b) && PubTopicOk(topic)
    ensures NoDup(Handed(b, topic, retain))
  {
    var ts := Tokens(topic);
    FullPathWildFree(topic);
    var tree := SearchTree(b, ts, retain);
    if tree.Some? {
      SearchTreeKeeps(b, topic, retain, [], "");
      ReachedNoDup(tree.value.children, ts);
      LeavesAtNoDup(tree.value.children, Reached(tree.value.children, ts));
    }
  }

  lemma HandedFilter(b: Broker, t: Tables, topic: string, retain: bool, c: ClientId, f: string, q: nat)
    requires Agree(b, t) && PubTopicOk(topic)
    ensures Delivery(Tokens(f), Leaf(c, q)) in Handed(b, topic, retain) <==>
            (c, f) in t.subs && t.subs[(c, f)] == q && Matches(f, topic)
  {
    var ts := Tokens(topic);
    HandedIff(b, topic, retain, Delivery(Tokens(f), Leaf(c, q)));
    FullPathOf(ts[0], Tokens(f), f);
    SpelledFullPath(f);
    var full := [ts[0]] + Tokens(f);
    assert SubAt(b.root, full, c) == TableSub(t, full, c);
    if (c, f) in t.subs {
      TokensMatch(f, topic);
    }
  }

  /** Every subscription the character matcher accepts is delivered to; the
      tree delivers beyond it in the two shapes the matcher misses. */
  lemma {:induction false} MatcherAgainstTree(ops: seq<Op>, topic: string, retain: bool, c: ClientId, f: string)
    requires PubTopicOk(topic) && (c, f) in FlatRun(ops).subs
    ensures Delivery(Tokens(f), Leaf(c, FlatRun(ops).subs[(c, f)])) in Handed(Run(ops), topic, retain) <==>
            Matcher.Decides(f, topic) ||
            (Matches(f, topic) && (Matcher.HashAfterPlus(Split(f), Split(topic)) ||
                                   Matcher.HashForEmptyEnd(Split(f), Split(topic))))
  {
    DeliveredExactly(ops, topic, retain);
  }

  // ------------------------------------------------ the retained slots

  /** The slot of a topic holds the last retained publish with a payload, or
      nothing if the last one was empty; no other path holds anything a
      wildcard could have put there. */
  lemma {:induction false} RetainedIsMap(ops: seq<Op>)
    ensures forall topic :: PubTopicOk(topic) && Rooted(topic) ==>
              RetainedAt(Run(ops).root, FullPath(topic)) == TableRetained(FlatRun(ops), topic)
    ensures forall p :: !WildFree(p) ==> RetainedAt(Run(ops).root, p) == None
  {
    RunAgrees(ops);
  }

  /** For any topic, rooted or not: the message is kept exactly when the
      top-level node of the topic stands. */
  lemma {:induction false} RetainKeptIff(ops: seq<Op>, topic: string, stored: StoreId)
    requires PubTopicOk(topic)
    ensures RetainedAt(Step(Run(ops), Publish(topic, true, stored, true)).root, FullPath(topic)) == Some(stored)
       <==> Child(Run(ops).root.children, Tokens(topic)[0]).Some?
  {
    RunAgrees(ops);
    FullPathWildFree(topic);
    RetainTopEffect(Run(ops).root, Tokens(topic), Some(stored), FullPath(topic), "");
    AtChild(Run(ops).root, FullPath(topic), "");
  }

  /** Whatever the topic starts with, a slot changes only when a retained
      message is published on its own topic while the top-level node stands. */
  lemma RetainedStep(ops: seq<Op>, op: Op, p: Path)
    ensures RetainedAt(Step(Run(ops), op).root, p) ==
            if op.Publish? && op.retain && PubTopicOk(op.topic) && p == FullPath(op.topic) &&
               Child(Run(ops).root.children, Tokens(op.topic)[0]).Some?
            then (if op.hasPayload then Some(op.stored) else None) else RetainedAt(Run(ops).root, p)
  {
    RunAgrees(ops);
    var b := Run(ops);
    hide Run;
    match op
    case Subscribe(c, filter, qos) => if SubTopicOk(filter) { SubscribeRoot(b, op); }
    case Unsubscribe(c, filter) => if SubTopicOk(filter) { UnsubscribeRoot(b, op); }
    case EndSession(c) => SessionClean.CleanAllEffect(b.root, NodesOf(b, c), c, p, c);
    case Publish(topic, retain, stored, hasPayload) =>
      if PubTopicOk(topic) && retain {
        FullPathWildFree(topic);
        RetainTopEffect(b.root, Tokens(topic), if hasPayload then Some(stored) else None, p, "");
      }
  }

  /** Only the paths of topics ever hold a retained message. */
  lemma {:induction false} RetainedOnTopics(ops: seq<Op>, p: Path)
    requires RetainedAt(Run(ops).root, p).Some?
    ensures IsFullPath(p) && PubTopicOk(Spelled(p))
  {
    if ops == [] {
      OpenedEmpty(p, "");
    } else {
      var before, op := ops[..|ops| - 1], ops[|ops| - 1];
      RetainedStep(before, op, p);
      if RetainedAt(Run(before).root, p).Some? {
        RetainedOnTopics(before, p);
      } else {
        SpelledFullPath(op.topic);
      }
    }
  }

  /** A retained message on a fresh `$` tree other than `$SYS` is lost. */
  lemma RetainedLost()
    ensures PubTopicOk("$a") && RetainedAt(Run([Publish("$a", true, 1, true)]).root, FullPath("$a")) == None
  {
    var ops: seq<Op> := [];
    var op := Publish("$a", true, 1, true);
    assert Run(ops) == OPENED;
    assert [op][..0] == ops && Run([op]) == Step(Run(ops), op);
    SplitNoSlash("$a");
    assert Tokens("$a") == ["$a"];
    OpenedTops("$a");
    hide Step, RetainedAt;
    RetainedStep(ops, op, FullPath("$a"));
    OpenedEmpty(FullPath("$a"), "");
  }

  // -------------------------------------- the offer to a new subscriber

  /** The nodes offered to a client after it subscribed with the filter. */
  function OfferedTo(b: Broker, filter: string): seq<Path> {
    var top := Child(b.root.children, Tokens(filter)[0]);
    if top == None then [] else Offered(top.value.children, Tokens(filter), 0)
  }

  /** Where the one gap is: the `#` of the filter stands for no level, and the
      node has no child and is not the last of its siblings (or sits directly
      at the first level). */
  predicate Skipped(b: Broker, filter: string, topic: string) {
    var top := Child(b.root.children, Tokens(topic)[0]);
    var n := NodeAt(b.root, FullPath(topic));
    top.Some? && n.Some? && AtHashParent(Tokens(filter), Tokens(topic)) && n.value.children == [] &&
    !(LastSibling(top.value.children, Tokens(topic)) && |Tokens(topic)| > 1)
  }

  lemma FullPathNode(b: Broker, topic: string)
    ensures var top := Child(b.root.children, Tokens(topic)[0]);
            NodeAt(b.root, FullPath(topic)) ==
            if top == None then None else NodeIn(top.value.children, Tokens(topic))
  {
    assert FullPath(topic)[1..] == Tokens(topic);
  }

  /** A subscriber is offered the retained message of a topic exactly when the
      filter matches and the node is not skipped, and never twice. */
  lemma {:induction false} OfferedExactly(ops: seq<Op>, filter: string, topic: string)
    requires SubTopicOk(filter) && PubTopicOk(topic)
    requires RetainedAt(Run(ops).root, FullPath(topic)).Some?
    ensures Tokens(filter)[0] == Tokens(topic)[0] && Tokens(topic) in OfferedTo(Run(ops), filter) <==>
            Matches(filter, topic) && !Skipped(Run(ops), filter, topic)
    ensures NoDup(OfferedTo(Run(ops), filter))
  {
    RunAgrees(ops);
    var b := Run(ops);
    var top := Child(b.root.children, Tokens(filter)[0]);
    FullPathNode(b, topic);
    TokensMatch(filter, topic);
    FullPathValid(filter);
    FullPathWildFree(topic);
    if top.Some? {
      ChildWellFormed(b.root, Tokens(filter)[0]);
      OfferedIff(top.value.children, Tokens(filter), 0, Tokens(topic));
      OfferedNoDup(top.value.children, Tokens(filter), 0);
    }
  }

  /** Nothing else is offered: a node that is offered and holds a message
      stands for a topic the filter matches. */
  lemma {:induction false} OfferedOnlyMatching(ops: seq<Op>, filter: string, p: Path)
    requires SubTopicOk(filter) && p in OfferedTo(Run(ops), filter)
    requires RetainedAt(Run(ops).root, [Tokens(filter)[0]] + p).Some?
    ensures WildFree(p) && LevelsMatch(Tokens(filter), p)
  {
    RunAgrees(ops);
    var b := Run(ops);
    var full := [Tokens(filter)[0]] + p;
    assert WildFree(full);
    forall l | l in p ensures NoWild(l) { assert l in full; }
    FullPathValid(filter);
    ChildWellFormed(b.root, Tokens(filter)[0]);
    OfferedIff(Child(b.root.children, Tokens(filter)[0]).value.children, Tokens(filter), 0, p);
  }

  /** Right after subscribing, a filter that does not use both wildcards is
      offered every retained message it matches. */
  lemma {:induction false} OfferedAllAfterSubscribe(ops: seq<Op>, c: ClientId, filter: string, qos: nat, topic: string)
    requires SubTopicOk(filter) && PubTopicOk(topic) && ('+' !in filter || '#' !in filter)
    requires RetainedAt(Run(ops + [Subscribe(c, filter, qos)]).root, FullPath(topic)).Some?
    requires Matches(filter, topic)
    ensures Tokens(topic) in OfferedTo(Run(ops + [Subscribe(c, filter, qos)]), filter)
  {
    var op := Subscribe(c, filter, qos);
    var all := ops + [op];
    assert all[..|all| - 1] == ops && all[|all| - 1] == op;
    RunAgrees(ops);
    OfferedExactly(all, filter, topic);
    if AtHashParent(Tokens(filter), Tokens(topic)) {
      HashParentIsPrefix(filter, topic);
      AddTopEffect(Run(ops).root, Tokens(filter), Some(c), qos, FullPath(filter), c);
      ParentHasChild(Run(all).root, FullPath(topic), FullPath(filter));
    }
  }

  lemma {:induction false} ParentHasChild(h: Hier, p: Path, q: Path)
    requires NodeAt(h, q).Some? && |q| == |p| + 1 && q[..|p|] == p
    ensures NodeAt(h, p).Some? && NodeAt(h, p).value.children != []
    decreases |p|
  {
    if p != [] {
      assert q[0] == p[0] && q[1..][..|p| - 1] == p[1..];
      ParentHasChild(Child(h.children, p[0]).value, p[1..], q[1..]);
    }
  }

  lemma HashParentIsPrefix(filter: string, topic: string)
    requires SubTopicOk(filter) && NoWild(topic) && Matches(filter, topic)
    requires AtHashParent(Tokens(filter), Tokens(topic)) && ('+' !in filter || '#' !in filter)
    ensures |FullPath(filter)| == |FullPath(topic)| + 1 &&
            FullPath(filter)[..|FullPath(topic)|] == FullPath(topic)
  {
    var f, t := Tokens(filter), Tokens(topic);
    TokensMatch(filter, topic);
    TokensChars(filter);
    assert "#"[0] == '#' && f[|f| - 1] in f;
    LiteralPrefix(f, t);
    assert FullPath(filter)[..|t| + 1] == [f[0]] + f[..|t|];
  }

  lemma {:induction false} LiteralPrefix(f: Path, t: Path)
    requires LevelsMatch(f, t) && |t| + 1 == |f| && f[|f| - 1] == "#" && "+" !in f
    ensures f[..|t|] == t
    decreases |f|
  {
    if t != [] {
      assert f[0] in f && f[1..][|f| - 2] == "#";
      forall l | l in f[1..] ensures l != "+" { assert l in f; }
      LiteralPrefix(f[1..], t[1..]);
      assert f[..|t|] == [f[0]] + f[1..][..|t| - 1] && t == [t[0]] + t[1..];
    }
  }

  /** A character of a token is a character of the string. */
  lemma TokensChars(s: string)
    ensures "#" in Tokens(s) ==> '#' in s
    ensures "+" in Tokens(s) ==> '+' in s
  {
    SplitChars(s);
  }

  lemma {:induction false} SplitChars(s: string)
    ensures forall l, c :: l in Split(s) && c in l ==> c in s
    ensures "#" in Split(s) ==> '#' in s
    ensures "+" in Split(s) ==> '+' in s
  {
    if s != "" {
      SplitChars(s[1..]);
      var rest := Split(s[1..]);
      assert s == [s[0]] + s[1..];
      if s[0] != '/' {
        forall l, c | l in Split(s) && c in l ensures c in s {
          if l == [s[0]] + rest[0] {
            assert c == s[0] || c in rest[0];
          } else {
            assert l in rest;
          }
        }
      }
    }
    assert "#"[0] in "#" && "+"[0] in "+";
  }

  // -------------------------------------- what the methods really return

  function LeavesOf(ds: seq<Delivery>): seq<Leaf> {
    if ds == [] then [] else [ds[0].leaf] + LeavesOf(ds[1..])
  }

  lemma {:induction false} LeavesOfConcat(a: seq<Delivery>, b: seq<Delivery>)
    ensures LeavesOf(a + b) == LeavesOf(a) + LeavesOf(b)
  {
    if a == [] {
      assert a + b == b;
    } else {
      assert (a + b)[1..] == a[1..] + b;
      LeavesOfConcat(a[1..], b);
    }
  }

  lemma {:induction false} LeavesOfAtPath(path: Path, subs: seq<Leaf>)
    ensures LeavesOf(AtPath(path, subs)) == subs
  {
    if subs != [] {
      LeavesOfAtPath(path, subs[1..]);
      assert AtPath(path, subs)[1..] == AtPath(path, subs[1..]);
    }
  }

  lemma {:induction false} LeavesAtGather(cs: seq<Hier>, paths: seq<Path>)
    ensures LeavesOf(LeavesAt(cs, paths)) == Gather(cs, paths, OwnSubs)
  {
    if paths != [] {
      LeavesAtGather(cs, paths[1..]);
      var n := NodeIn(cs, paths[0]);
      var here := if n.Some? then AtPath(paths[0], n.value.subs) else [];
      if n.Some? { LeavesOfAtPath(paths[0], n.value.subs); }
      LeavesOfConcat(here, LeavesAt(cs, paths[1..]));
    }
  }

  /** The leaves the publish entry point returns are those of the deliveries
      characterised above. */
  lemma QueuedAreHanded(b: Broker, topic: string, retain: bool)
    requires SoundTree(b) && PubTopicOk(topic)
    ensures SubRoot.LeavesQueued(b.root, Tokens(topic), retain) == LeavesOf(Handed(b, topic, retain))
  {
    var ts := Tokens(topic);
    var tree := SearchTree(b, ts, retain);
    FullPathWildFree(topic);
    if tree.Some? {
      SearchTreeKeeps(b, topic, retain, [], "");
      var cs := tree.value.children;
      LeavesReachedGather(cs, ts);
      LeavesAtGather(cs, Reached(cs, ts));
    }
  }

  /** The messages the subscribe entry point queues are the retained messages
      of the offered nodes. */
  lemma QueuedAreOffered(b: Broker, filter: string)
    requires SoundTree(b)
    ensures var top := Child(b.root.children, Tokens(filter)[0]);
            SubRoot.MsgsQueued(b.root, Tokens(filter)) ==
            if top == None then [] else Gather(top.value.children, OfferedTo(b, filter), OwnMsg)
  {
    var top := Child(b.root.children, Tokens(filter)[0]);
    if top.Some? {
      ChildWellFormed(b.root, Tokens(filter)[0]);
      MsgsOfferedGather(top.value.children, Tokens(filter), 0);
    }
  }
}
