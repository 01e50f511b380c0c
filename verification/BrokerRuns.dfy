/** Whole runs of subscription requests against two flat tables. */
module BrokerRuns {
  import opened Common
  import opened Topics
  import opened SubTree
  import opened SubSearch
  import opened Subscriptions
  import opened SessionClean

  // ------------------------------------------------------------ requests

  datatype Op =
    | Subscribe(client: ClientId, filter: string, qos: nat)
    | Unsubscribe(client: ClientId, filter: string)
    | EndSession(client: ClientId)
    | Publish(topic: string, retain: bool, stored: StoreId, hasPayload: bool)

  /** A topic the broker takes a PUBLISH for. */
  predicate PubTopicOk(topic: string) {
    topic != "" && NoWild(topic) && |topic| <= MAX_TOPIC
  }

  // ------------------------------------------------------- the real thing

  datatype Broker = Broker(root: Hier, nodes: map<ClientId, seq<Option<Path>>>)

  const OPENED := Broker(Hier("", [NewHier(""), NewHier("$SYS")], [], None), map[])

  function NodesOf(b: Broker, client: ClientId): seq<Option<Path>> {
    if client in b.nodes then b.nodes[client] else []
  }

  /** A new leaf is noted in the first empty slot of the client's list. */
  function Note(nodes: seq<Option<Path>>, p: Path): seq<Option<Path>> {
    if nodes == [] then [Some(p)]
    else if nodes[0] == None then [Some(p)] + nodes[1..]
    else [nodes[0]] + Note(nodes[1..], p)
  }

  /** A removed leaf leaves an empty slot behind. */
  function Forget(nodes: seq<Option<Path>>, p: Path): seq<Option<Path>> {
    if nodes == [] then []
    else if nodes[0] == Some(p) then [None] + nodes[1..]
    else [nodes[0]] + Forget(nodes[1..], p)
  }

  function Step(b: Broker, op: Op): Broker {
    match op
    case Subscribe(c, filter, qos) =>
      if !SubTopicOk(filter) then b
      else
        Broker(AddTop(b.root, Tokens(filter), Some(c), qos),
               if SubAt(b.root, FullPath(filter), c) == None
               then b.nodes[c := Note(NodesOf(b, c), FullPath(filter))] else b.nodes)
    case Unsubscribe(c, filter) =>
      if !SubTopicOk(filter) then b
      else
        Broker(RemoveTop(b.root, Tokens(filter), c),
               if SubAt(b.root, FullPath(filter), c).Some?
               then b.nodes[c := Forget(NodesOf(b, c), FullPath(filter))] else b.nodes)
    case EndSession(c) =>
      Broker(CleanAll(b.root, NodesOf(b, c), c), b.nodes[c := []])
    case Publish(topic, retain, stored, hasPayload) =>
      if !PubTopicOk(topic) || !retain then b
      else b.(root := RetainTop(b.root, Tokens(topic), if hasPayload then Some(stored) else None))
  }

  function Run(ops: seq<Op>): Broker {
    if ops == [] then OPENED else Step(Run(ops[..|ops| - 1]), ops[|ops| - 1])
  }

  /** The leaves a publish is handed to, in order. The search runs on the tree
      in which the path of a retained topic has just been made. */
  function Handed(b: Broker, topic: string, retain: bool): seq<Delivery> {
    var ts := Tokens(topic);
    var top := Child(b.root.children, ts[0]);
    if top == None then []
    else
      var cs := if retain then Add(top.value, ts, None, 0).children else top.value.children;
      LeavesAt(cs, Reached(cs, ts))
  }

  // --------------------------------------------------------- flat tables

  datatype Tables = Tables(subs: map<(ClientId, string), nat>, retained: map<string, StoreId>)

  const NOTHING := Tables(map[], map[])

  function FlatStep(t: Tables, op: Op): Tables {
    match op
    case Subscribe(c, filter, qos) =>
      if SubTopicOk(filter) then t.(subs := t.subs[(c, filter) := qos]) else t
    case Unsubscribe(c, filter) =>
      t.(subs := t.subs - {(c, filter)})
    case EndSession(c) =>
      t.(subs := map k | k in t.subs && k.0 != c :: t.subs[k])
    case Publish(topic, retain, stored, hasPayload) =>
      if !PubTopicOk(topic) || !retain then t
      else t.(retained := if hasPayload then t.retained[topic := stored] else t.retained - {topic})
  }

  function FlatRun(ops: seq<Op>): Tables {
    if ops == [] then NOTHING else FlatStep(FlatRun(ops[..|ops| - 1]), ops[|ops| - 1])
  }

  /** What the table of subscriptions answers for a path of the tree. */
  function TableSub(t: Tables, p: Path, client: ClientId): Option<nat> {
    if IsFullPath(p) && (client, Spelled(p)) in t.subs then Some(t.subs[(client, Spelled(p))]) else None
  }

  /** Topics below the two top-level nodes that always exist. */
  predicate Rooted(topic: string) {
    Tokens(topic)[0] == "" || Tokens(topic)[0] == "$SYS"
  }

  function TableRetained(t: Tables, topic: string): Option<StoreId> {
    if topic in t.retained then Some(t.retained[topic]) else None
  }

  // ------------------------------------------------------- the invariant

  predicate SoundTree(b: Broker) {
    WellFormed(b.root) && b.root.topic == "" &&
    Child(b.root.children, "").Some? && Child(b.root.children, "$SYS").Some?
  }

  ghost predicate SameSubs(b: Broker, t: Tables) {
    (forall k :: k in t.subs ==> SubTopicOk(k.1)) &&
    forall p, c :: SubAt(b.root, p, c) == TableSub(t, p, c)
  }

  /** Every client's list names each node holding one of its leaves once. */
  ghost predicate NodesListed(b: Broker) {
    forall p, c :: multiset(NodesOf(b, c))[Some(p)] == if SubAt(b.root, p, c).Some? then 1 else 0
  }

  ghost predicate SameRetained(b: Broker, t: Tables) {
    (forall topic :: PubTopicOk(topic) && Rooted(topic) ==>
       RetainedAt(b.root, FullPath(topic)) == TableRetained(t, topic)) &&
    (forall p :: !WildFree(p) ==> RetainedAt(b.root, p) == None) &&
    (forall topic :: topic in t.retained ==> PubTopicOk(topic))
  }

  ghost predicate Agree(b: Broker, t: Tables) {
    SoundTree(b) && SameSubs(b, t) && NodesListed(b) && SameRetained(b, t)
  }

  // ------------------------------------------------------ it is inductive

  lemma {:induction false} NoteCount(nodes: seq<Option<Path>>, p: Path, q: Path)
    ensures multiset(Note(nodes, p))[Some(q)] == multiset(nodes)[Some(q)] + if q == p then 1 else 0
  {
    if nodes != [] {
      assert nodes == [nodes[0]] + nodes[1..];
      if nodes[0] != None { NoteCount(nodes[1..], p, q); }
    }
  }

  lemma {:induction false} ForgetCount(nodes: seq<Option<Path>>, p: Path, q: Path)
    ensures multiset(Forget(nodes, p))[Some(q)] ==
            multiset(nodes)[Some(q)] - if q == p && Some(p) in nodes then 1 else 0
  {
    if nodes != [] {
      assert nodes == [nodes[0]] + nodes[1..];
      if nodes[0] != Some(p) { ForgetCount(nodes[1..], p, q); }
    }
  }

  lemma TopStands(b: Broker, topic: string)
    ensures Child(b.root.children, topic).Some? <==> NodeAt(b.root, [topic]).Some?
  {
    assert [topic][1..] == [];
  }

  lemma SpelledIs(p: Path, s: string)
    ensures p == FullPath(s) <==> IsFullPath(p) && Spelled(p) == s
  {
    SpelledFullPath(s);
  }

  /** An edit that leaves every retained slot alone keeps that part. */
  lemma RetainedCarries(b: Broker, t: Tables, b': Broker, t': Tables)
    requires SameRetained(b, t) && t'.retained == t.retained
    requires forall p :: RetainedAt(b'.root, p) == RetainedAt(b.root, p)
    ensures SameRetained(b', t')
  {
    forall topic | PubTopicOk(topic) && Rooted(topic)
      ensures RetainedAt(b'.root, FullPath(topic)) == TableRetained(t', topic)
    {
      assert RetainedAt(b'.root, FullPath(topic)) == RetainedAt(b.root, FullPath(topic));
    }
    forall p | !WildFree(p) ensures RetainedAt(b'.root, p) == None {
      assert RetainedAt(b'.root, p) == RetainedAt(b.root, p);
    }
  }

  /** One client's answer at one path changed, and its list followed. */
  lemma ChangedAt(b: Broker, t: Tables, b': Broker, t': Tables, client: ClientId, filter: string, now: Option<nat>)
    requires SameSubs(b, t) && SubTopicOk(filter)
    requires forall p, c :: SubAt(b'.root, p, c) ==
                            if p == FullPath(filter) && c == client then now else SubAt(b.root, p, c)
    requires t'.subs == if now.Some? then t.subs[(client, filter) := now.value] else t.subs - {(client, filter)}
    ensures SameSubs(b', t')
  {
    forall p, c ensures SubAt(b'.root, p, c) == TableSub(t', p, c) {
      SpelledIs(p, filter);
      assert SubAt(b.root, p, c) == TableSub(t, p, c);
    }
  }

  lemma SubscribeAgrees(b: Broker, t: Tables, op: Op)
    requires Agree(b, t) && op.Subscribe? && SubTopicOk(op.filter)
    ensures Agree(Step(b, op), FlatStep(t, op))
  {
    SubscribeRoot(b, op);
    SubscribeListed(b, op);
    hide SoundTree, NodesListed;
    var b', t' := Step(b, op), FlatStep(t, op);
    ChangedAt(b, t, b', t', op.client, op.filter, Some(op.qos));
    RetainedCarries(b, t, b', t');
  }

  lemma SubscribeRoot(b: Broker, op: Op)
    requires SoundTree(b) && op.Subscribe? && SubTopicOk(op.filter)
    ensures var b' := Step(b, op);
            SoundTree(b') && (forall p :: RetainedAt(b'.root, p) == RetainedAt(b.root, p)) &&
            forall p, c :: SubAt(b'.root, p, c) ==
                           if p == FullPath(op.filter) && c == op.client then Some(op.qos) else SubAt(b.root, p, c)
  {
    var b', ts := Step(b, op), Tokens(op.filter);
    forall p, c
      ensures SubAt(b'.root, p, c) ==
              if p == FullPath(op.filter) && c == op.client then Some(op.qos) else SubAt(b.root, p, c)
    {
      AddTopEffect(b.root, ts, Some(op.client), op.qos, p, c);
    }
    forall p ensures RetainedAt(b'.root, p) == RetainedAt(b.root, p) {
      AddTopEffect(b.root, ts, Some(op.client), op.qos, p, "");
    }
    assert SoundTree(b') by {
      FullPathValid(op.filter);
      AddTopWellFormed(b.root, ts, Some(op.client), op.qos);
      AddTopChild(b.root, ts, Some(op.client), op.qos, "");
      AddTopChild(b.root, ts, Some(op.client), op.qos, "$SYS");
    }
  }

  lemma SubscribeListed(b: Broker, op: Op)
    requires SoundTree(b) && NodesListed(b) && op.Subscribe? && SubTopicOk(op.filter)
    ensures NodesListed(Step(b, op))
  {
    SubscribeRoot(b, op);
    hide SoundTree, SubAt;
    var b', full := Step(b, op), FullPath(op.filter);
    forall p, c
      ensures multiset(NodesOf(b', c))[Some(p)] == if SubAt(b'.root, p, c).Some? then 1 else 0
    {
      NoteCount(NodesOf(b, c), full, p);
      assert multiset(NodesOf(b, c))[Some(p)] == if SubAt(b.root, p, c).Some? then 1 else 0;
    }
  }

  lemma UnsubscribeAgrees(b: Broker, t: Tables, op: Op)
    requires Agree(b, t) && op.Unsubscribe? && SubTopicOk(op.filter)
    ensures Agree(Step(b, op), FlatStep(t, op))
  {
    UnsubscribeRoot(b, op);
    UnsubscribeListed(b, op);
    hide SoundTree, NodesListed;
    var b', t' := Step(b, op), FlatStep(t, op);
    ChangedAt(b, t, b', t', op.client, op.filter, None);
    RetainedCarries(b, t, b', t');
  }

  lemma UnsubscribeRoot(b: Broker, op: Op)
    requires SoundTree(b) && op.Unsubscribe? && SubTopicOk(op.filter)
    ensures var b' := Step(b, op);
            SoundTree(b') && (forall p :: RetainedAt(b'.root, p) == RetainedAt(b.root, p)) &&
            forall p, c :: SubAt(b'.root, p, c) ==
                           if p == FullPath(op.filter) && c == op.client then None else SubAt(b.root, p, c)
  {
    var b', ts := Step(b, op), Tokens(op.filter);
    forall p, c
      ensures SubAt(b'.root, p, c) ==
              if p == FullPath(op.filter) && c == op.client then None else SubAt(b.root, p, c)
    {
      RemoveTopEffect(b.root, ts, op.client, p, c);
    }
    forall p ensures RetainedAt(b'.root, p) == RetainedAt(b.root, p) {
      RemoveTopEffect(b.root, ts, op.client, p, "");
    }
    assert SoundTree(b') by {
      RemoveTopWellFormed(b.root, ts, op.client);
      RemoveTopChild(b.root, ts, op.client, "");
      RemoveTopChild(b.root, ts, op.client, "$SYS");
    }
  }

  lemma UnsubscribeListed(b: Broker, op: Op)
    requires SoundTree(b) && NodesListed(b) && op.Unsubscribe? && SubTopicOk(op.filter)
    ensures NodesListed(Step(b, op))
  {
    UnsubscribeRoot(b, op);
    hide SoundTree, SubAt;
    var b', full := Step(b, op), FullPath(op.filter);
    forall p, c
      ensures multiset(NodesOf(b', c))[Some(p)] == if SubAt(b'.root, p, c).Some? then 1 else 0
    {
      ForgetCount(NodesOf(b, c), full, p);
      assert multiset(NodesOf(b, c))[Some(p)] == if SubAt(b.root, p, c).Some? then 1 else 0;
      assert Some(p) in NodesOf(b, c) <==> multiset(NodesOf(b, c))[Some(p)] > 0;
    }
  }

  lemma RemoveTopChild(root: Hier, tokens: Path, client: ClientId, topic: string)
    requires WellFormed(root) && tokens != []
    ensures Child(RemoveTop(root, tokens, client).children, topic).Some? <==> Child(root.children, topic).Some?
  {
    var i := IndexOf(root.children, tokens[0]);
    if i < |root.children| {
      ChildUpdated(root.children, i, Remove(root.children[i], tokens, client), topic);
    }
  }

  lemma PinnedStay(b: Broker, b': Broker)
    requires SoundTree(b) && WellFormed(b'.root) && b'.root.topic == ""
    requires forall p :: Pinned(p) && NodeAt(b.root, p).Some? ==> NodeAt(b'.root, p).Some?
    ensures SoundTree(b')
  {
    TopStands(b, "");
    TopStands(b, "$SYS");
    TopStands(b', "");
    TopStands(b', "$SYS");
    assert Pinned([""]) && Pinned(["$SYS"]);
  }

  /** The walk over the client's list takes away all its leaves. */
  lemma EndSessionClears(b: Broker, client: ClientId, p: Path, c: ClientId)
    requires SoundTree(b) && NodesListed(b)
    ensures SubAt(CleanAll(b.root, NodesOf(b, client), client), p, c) ==
            if c == client then None else SubAt(b.root, p, c)
  {
    var nodes := NodesOf(b, client);
    CleanAllEffect(b.root, nodes, client, p, c);
    assert multiset(NodesOf(b, client))[Some(p)] == if SubAt(b.root, p, client).Some? then 1 else 0;
    assert Some(p) in nodes <==> multiset(nodes)[Some(p)] > 0;
  }

  lemma EndSessionAgrees(b: Broker, t: Tables, op: Op)
    requires Agree(b, t) && op.EndSession?
    ensures Agree(Step(b, op), FlatStep(t, op))
  {
    var b', t' := Step(b, op), FlatStep(t, op);
    var nodes := NodesOf(b, op.client);
    forall p, c
      ensures SubAt(b'.root, p, c) == if c == op.client then None else SubAt(b.root, p, c)
    {
      EndSessionClears(b, op.client, p, c);
    }
    assert SameSubs(b', t') by {
      forall p, c ensures SubAt(b'.root, p, c) == TableSub(t', p, c) {
        assert SubAt(b.root, p, c) == TableSub(t, p, c);
      }
    }
    forall p
      ensures RetainedAt(b'.root, p) == RetainedAt(b.root, p)
      ensures Pinned(p) && NodeAt(b.root, p).Some? ==> NodeAt(b'.root, p).Some?
    {
      CleanAllEffect(b.root, nodes, op.client, p, op.client);
    }
    CleanAllEffect(b.root, nodes, op.client, [], op.client);
    PinnedStay(b, b');
    RetainedCarries(b, t, b', t');
    assert NodesListed(b') by {
      forall p, c
        ensures multiset(NodesOf(b', c))[Some(p)] == if SubAt(b'.root, p, c).Some? then 1 else 0
      {
        assert NodesOf(b', c) == if c == op.client then [] else NodesOf(b, c);
      }
    }
  }

  lemma PublishRetains(b: Broker, t: Tables, op: Op)
    requires SameRetained(b, t) && SoundTree(b) && op.Publish? && op.retain && PubTopicOk(op.topic)
    ensures SameRetained(Step(b, op), FlatStep(t, op))
  {
    var b', t' := Step(b, op), FlatStep(t, op);
    var ts := Tokens(op.topic);
    var v := if op.hasPayload then Some(op.stored) else None;
    FullPathWildFree(op.topic);
    SpelledFullPath(op.topic);
    forall topic | PubTopicOk(topic) && Rooted(topic)
      ensures RetainedAt(b'.root, FullPath(topic)) == TableRetained(t', topic)
    {
      RetainTopEffect(b.root, ts, v, FullPath(topic), "");
      SpelledFullPath(topic);
      assert RetainedAt(b.root, FullPath(topic)) == TableRetained(t, topic);
    }
    forall p | !WildFree(p) ensures RetainedAt(b'.root, p) == None {
      RetainTopEffect(b.root, ts, v, p, "");
    }
  }

  lemma PublishAgrees(b: Broker, t: Tables, op: Op)
    requires Agree(b, t) && op.Publish? && op.retain && PubTopicOk(op.topic)
    ensures Agree(Step(b, op), FlatStep(t, op))
  {
    var b', t' := Step(b, op), FlatStep(t, op);
    var ts := Tokens(op.topic);
    var v := if op.hasPayload then Some(op.stored) else None;
    FullPathWildFree(op.topic);
    PublishRetains(b, t, op);
    assert SoundTree(b') by {
      RetainTopWellFormed(b.root, ts, v);
      RetainTopChild(b.root, ts, v, "");
      RetainTopChild(b.root, ts, v, "$SYS");
    }
    forall p, c ensures SubAt(b'.root, p, c) == SubAt(b.root, p, c) {
      RetainTopEffect(b.root, ts, v, p, c);
    }
    assert SameSubs(b', t') by {
      forall p, c ensures SubAt(b'.root, p, c) == TableSub(t', p, c) {
        assert SubAt(b.root, p, c) == TableSub(t, p, c);
      }
    }
    assert NodesListed(b') by {
      forall p, c
        ensures multiset(NodesOf(b', c))[Some(p)] == if SubAt(b'.root, p, c).Some? then 1 else 0
      {
        assert NodesOf(b', c) == NodesOf(b, c);
      }
    }
  }

  lemma StepAgrees(b: Broker, t: Tables, op: Op)
    requires Agree(b, t)
    ensures Agree(Step(b, op), FlatStep(t, op))
  {
    match op
    case Subscribe(c, filter, qos) => if SubTopicOk(filter) { SubscribeAgrees(b, t, op); }
    case Unsubscribe(c, filter) =>
      if SubTopicOk(filter) {
        UnsubscribeAgrees(b, t, op);
      } else {
        assert FlatStep(t, op).subs == t.subs;
      }
    case EndSession(c) => EndSessionAgrees(b, t, op);
    case Publish(topic, retain, stored, hasPayload) =>
      if PubTopicOk(topic) && retain { PublishAgrees(b, t, op); }
  }

  lemma OpenedTops(topic: string)
    ensures Child(OPENED.root.children, topic) ==
            if topic == "" || topic == "$SYS" then Some(NewHier(topic)) else None
  {
    assert OPENED.root.children == [NewHier("")] + [NewHier("$SYS")];
    ChildCons(NewHier(""), [NewHier("$SYS")], topic);
    assert [NewHier("$SYS")] == [NewHier("$SYS")] + [];
    ChildCons(NewHier("$SYS"), [], topic);
  }

  lemma OpenedAgrees()
    ensures Agree(OPENED, NOTHING)
  {
    OpenedTops("");
    OpenedTops("$SYS");
    forall p, c ensures SubAt(OPENED.root, p, c) == None { OpenedEmpty(p, c); }
    forall p ensures RetainedAt(OPENED.root, p) == None { OpenedEmpty(p, ""); }
  }

  lemma OpenedEmpty(p: Path, c: ClientId)
    ensures SubAt(OPENED.root, p, c) == None && RetainedAt(OPENED.root, p) == None
  {
    if p != [] {
      AtChild(OPENED.root, p, c);
      OpenedTops(p[0]);
      NewHierHasNothing(p[0], p[1..], c);
    }
  }

  /** After any run the tree answers like the tables. */
  lemma {:induction false} RunAgrees(ops: seq<Op>)
    ensures Agree(Run(ops), FlatRun(ops))
  {
    if ops == [] {
      OpenedAgrees();
    } else {
      RunAgrees(ops[..|ops| - 1]);
      StepAgrees(Run(ops[..|ops| - 1]), FlatRun(ops[..|ops| - 1]), ops[|ops| - 1]);
    }
  }
}
