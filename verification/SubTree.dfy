/** The subscription tree as a value, and what each edit changes at every path. */
module SubTree {
  import opened Common
  import opened Topics

  type ClientId = string
  type StoreId = nat
  type Path = seq<string>

  datatype Leaf = Leaf(client: ClientId, qos: nat)

  datatype Hier = Hier(topic: string, children: seq<Hier>, subs: seq<Leaf>, retained: Option<StoreId>)

  function NewHier(topic: string): Hier {
    Hier(topic, [], [], None)
  }

  predicate Bare(h: Hier) {
    h.children == [] && h.subs == [] && h.retained == None
  }

  // ------------------------------------------------------- sibling lists

  /** Where the first sibling with this topic stands; the length of the list
      if there is none. */
  function IndexOf(cs: seq<Hier>, topic: string): (i: nat)
    ensures i <= |cs| && (i < |cs| ==> cs[i].topic == topic)
    ensures forall k :: 0 <= k < i ==> cs[k].topic != topic
  {
    if cs == [] || cs[0].topic == topic then 0 else 1 + IndexOf(cs[1..], topic)
  }

  function Child(cs: seq<Hier>, topic: string): (c: Option<Hier>)
    ensures c.Some? ==> c.value in cs && c.value.topic == topic
  {
    var i := IndexOf(cs, topic);
    if i < |cs| then Some(cs[i]) else None
  }

  predicate DistinctTopics(cs: seq<Hier>) {
    forall i, j :: 0 <= i < j < |cs| ==> cs[i].topic != cs[j].topic
  }

  lemma ChildUnique(cs: seq<Hier>, i: nat)
    requires DistinctTopics(cs) && i < |cs|
    ensures Child(cs, cs[i].topic) == Some(cs[i])
  {
  }

  lemma ChildUpdated(cs: seq<Hier>, i: nat, h: Hier, topic: string)
    requires DistinctTopics(cs) && i < |cs| && h.topic == cs[i].topic
    ensures DistinctTopics(cs[i := h])
    ensures Child(cs[i := h], topic) == if topic == h.topic then Some(h) else Child(cs, topic)
  {
    var ds := cs[i := h];
    assert forall k :: 0 <= k < |cs| ==> ds[k].topic == cs[k].topic;
    ChildUnique(ds, i);
    if topic != h.topic {
      var k := IndexOf(cs, topic);
      if k < |cs| { ChildUnique(ds, k); }
    }
  }

  lemma ChildAppended(cs: seq<Hier>, h: Hier, topic: string)
    requires DistinctTopics(cs) && Child(cs, h.topic) == None
    ensures DistinctTopics(cs + [h])
    ensures Child(cs + [h], topic) == if topic == h.topic then Some(h) else Child(cs, topic)
  {
    var ds := cs + [h];
    assert forall k :: 0 <= k < |cs| ==> ds[k] == cs[k];
    ChildUnique(ds, |cs|);
    var k := IndexOf(cs, topic);
    if k < |cs| { ChildUnique(ds, k); }
  }

  lemma ChildPrepended(cs: seq<Hier>, h: Hier, topic: string)
    requires DistinctTopics(cs) && Child(cs, h.topic) == None
    ensures DistinctTopics([h] + cs)
    ensures Child([h] + cs, topic) == if topic == h.topic then Some(h) else Child(cs, topic)
  {
    var ds := [h] + cs;
    assert ds[1..] == cs;
    assert forall k :: 1 <= k < |ds| ==> ds[k] == cs[k - 1];
  }

  lemma ChildDropped(cs: seq<Hier>, i: nat, topic: string)
    requires DistinctTopics(cs) && i < |cs|
    ensures DistinctTopics(DropAt(cs, i))
    ensures Child(DropAt(cs, i), topic) == if topic == cs[i].topic then None else Child(cs, topic)
  {
    var ds := DropAt(cs, i);
    var k := IndexOf(cs, topic);
    if k < |cs| && k != i {
      ChildUnique(ds, if k < i then k else k - 1);
    }
  }

  // ------------------------------------------------- what a path leads to

  function NodeAt(h: Hier, path: Path): Option<Hier>
    decreases |path|
  {
    if path == [] then Some(h)
    else
      var c := Child(h.children, path[0]);
      if c == None then None else NodeAt(c.value, path[1..])
  }

  function LeafOf(subs: seq<Leaf>, client: ClientId): Option<nat> {
    if subs == [] then None
    else if subs[0].client == client then Some(subs[0].qos)
    else LeafOf(subs[1..], client)
  }

  /** The granted QoS of a client at a path. */
  function SubAt(h: Hier, path: Path, client: ClientId): Option<nat> {
    var n := NodeAt(h, path);
    if n == None then None else LeafOf(n.value.subs, client)
  }

  function RetainedAt(h: Hier, path: Path): Option<StoreId> {
    var n := NodeAt(h, path);
    if n == None then None else n.value.retained
  }

  lemma AtChild(h: Hier, path: Path, client: ClientId)
    requires path != []
    ensures var c := Child(h.children, path[0]);
            SubAt(h, path, client) == (if c == None then None else SubAt(c.value, path[1..], client)) &&
            RetainedAt(h, path) == (if c == None then None else RetainedAt(c.value, path[1..]))
  {
  }

  predicate DistinctClients(subs: seq<Leaf>) {
    forall i, j :: 0 <= i < j < |subs| ==> subs[i].client != subs[j].client
  }

  /** Siblings have different topics, a node has one leaf per client, and
      nothing hangs below a `#`. */
  predicate WellFormed(h: Hier) {
    DistinctTopics(h.children) && DistinctClients(h.subs) &&
    (h.topic == "#" ==> h.children == []) &&
    forall i :: 0 <= i < |h.children| ==> WellFormed(h.children[i])
  }

  lemma ChildWellFormed(h: Hier, topic: string)
    requires WellFormed(h) && Child(h.children, topic).Some?
    ensures WellFormed(Child(h.children, topic).value)
  {
  }

  // --------------------------------------------------------- leaf lists

  function LeafIndex(subs: seq<Leaf>, client: ClientId): (i: nat)
    ensures i <= |subs| && (i < |subs| ==> subs[i].client == client)
    ensures forall k :: 0 <= k < i ==> subs[k].client != client
  {
    if subs == [] || subs[0].client == client then 0 else 1 + LeafIndex(subs[1..], client)
  }

  lemma {:induction false} LeafOfIndex(subs: seq<Leaf>, client: ClientId)
    ensures var i := LeafIndex(subs, client);
            LeafOf(subs, client) == if i < |subs| then Some(subs[i].qos) else None
  {
    if subs != [] && subs[0].client != client { LeafOfIndex(subs[1..], client); }
  }

  lemma LeafOfMember(subs: seq<Leaf>, client: ClientId, qos: nat)
    requires DistinctClients(subs)
    ensures LeafOf(subs, client) == Some(qos) <==> Leaf(client, qos) in subs
  {
    LeafOfIndex(subs, client);
  }

  /** A second subscription of a client to the same filter only changes the
      QoS; a first one goes to the end of the list. */
  function AddLeaf(subs: seq<Leaf>, client: ClientId, qos: nat): seq<Leaf> {
    var i := LeafIndex(subs, client);
    if i < |subs| then subs[i := Leaf(client, qos)] else subs + [Leaf(client, qos)]
  }

  function DropLeaf(subs: seq<Leaf>, client: ClientId): seq<Leaf> {
    var i := LeafIndex(subs, client);
    if i < |subs| then DropAt(subs, i) else subs
  }

  lemma AddLeafEffect(subs: seq<Leaf>, client: ClientId, qos: nat, other: ClientId)
    requires DistinctClients(subs)
    ensures DistinctClients(AddLeaf(subs, client, qos))
    ensures LeafOf(AddLeaf(subs, client, qos), other) ==
            if other == client then Some(qos) else LeafOf(subs, other)
  {
    var after := AddLeaf(subs, client, qos);
    LeafOfIndex(subs, other);
    LeafOfIndex(after, other);
    var k := LeafIndex(subs, other);
    if other != client && k < |subs| { assert after[k] == subs[k]; }
    var i := LeafIndex(subs, client);
    assert after[i] == Leaf(client, qos);
  }

  lemma DropLeafEffect(subs: seq<Leaf>, client: ClientId, other: ClientId)
    requires DistinctClients(subs)
    ensures DistinctClients(DropLeaf(subs, client))
    ensures LeafOf(DropLeaf(subs, client), other) ==
            if other == client then None else LeafOf(subs, other)
  {
    hide LeafOf, LeafIndex;
    var i, k := LeafIndex(subs, client), LeafIndex(subs, other);
    LeafOfIndex(subs, other);
    if i < |subs| {
      var after := DropAt(subs, i);
      LeafOfIndex(after, other);
      if other != client && k < |subs| {
        LeafUnique(after, if k < i then k else k - 1);
      }
    }
  }

  lemma LeafUnique(subs: seq<Leaf>, k: nat)
    requires DistinctClients(subs) && k < |subs|
    ensures LeafIndex(subs, subs[k].client) == k
  {
  }

  // ----------------------------------------------------------- the edits

  /** Walk down the tokens, creating what is missing; at the end add the leaf
      (or nothing, when a retained message only needs the path to exist). */
  function Add(h: Hier, tokens: Path, who: Option<ClientId>, qos: nat): (r: Hier)
    ensures r.topic == h.topic && r.retained == h.retained
    decreases |tokens|
  {
    if tokens == [] then
      if who == None then h else h.(subs := AddLeaf(h.subs, who.value, qos))
    else
      var i := IndexOf(h.children, tokens[0]);
      if i < |h.children| then
        h.(children := h.children[i := Add(h.children[i], tokens[1..], who, qos)])
      else
        h.(children := h.children + [Add(NewHier(tokens[0]), tokens[1..], who, qos)])
  }

  /** Take the client's leaf away; on the way back drop every node of the path
      that is left bare. */
  function Remove(h: Hier, tokens: Path, client: ClientId): (r: Hier)
    ensures r.topic == h.topic && r.retained == h.retained
    decreases |tokens|
  {
    if tokens == [] then h.(subs := DropLeaf(h.subs, client))
    else
      var i := IndexOf(h.children, tokens[0]);
      if i == |h.children| then h
      else
        var c := Remove(h.children[i], tokens[1..], client);
        h.(children := if Bare(c) then DropAt(h.children, i) else h.children[i := c])
  }

  // ----------------------------------------------- what the edits change

  /** `Add` answers for the one client at the one path, and nowhere else. */
  lemma AddShape(h: Hier, tokens: Path, who: Option<ClientId>, qos: nat)
    ensures tokens == [] ==> Add(h, tokens, who, qos).children == h.children
    ensures tokens != [] ==>
              var i := IndexOf(h.children, tokens[0]);
              Add(h, tokens, who, qos).children ==
              if i < |h.children| then h.children[i := Add(h.children[i], tokens[1..], who, qos)]
              else h.children + [Add(NewHier(tokens[0]), tokens[1..], who, qos)]
  {
  }

  lemma {:induction false} AddEffect(h: Hier, tokens: Path, who: Option<ClientId>, qos: nat,
                                     path: Path, client: ClientId)
    requires WellFormed(h)
    ensures SubAt(Add(h, tokens, who, qos), path, client) ==
            if path == tokens && who == Some(client) then Some(qos) else SubAt(h, path, client)
    ensures RetainedAt(Add(h, tokens, who, qos), path) == RetainedAt(h, path)
    decreases |tokens|
  {
    if tokens == [] {
      if who.Some? { AddLeafEffect(h.subs, who.value, qos, client); }
    } else {
      var i := IndexOf(h.children, tokens[0]);
      var sub := if i < |h.children| then h.children[i] else NewHier(tokens[0]);
      var sub' := Add(sub, tokens[1..], who, qos);
      if path != [] {
        AddShape(h, tokens, who, qos);
        AtChild(h, path, client);
        AtChild(Add(h, tokens, who, qos), path, client);
        assert path == [path[0]] + path[1..] && tokens == [tokens[0]] + tokens[1..];
        if i < |h.children| {
          ChildUpdated(h.children, i, sub', path[0]);
        } else {
          ChildAppended(h.children, sub', path[0]);
        }
        if path[0] == tokens[0] {
          AddEffect(sub, tokens[1..], who, qos, path[1..], client);
        }
      }
    }
  }

  lemma {:induction false} AddWellFormed(h: Hier, tokens: Path, who: Option<ClientId>, qos: nat)
    requires WellFormed(h) && ValidLevels(tokens) && (h.topic == "#" ==> tokens == [])
    ensures WellFormed(Add(h, tokens, who, qos))
    decreases |tokens|
  {
    if tokens == [] {
      if who.Some? { AddLeafEffect(h.subs, who.value, qos, who.value); }
    } else {
      var i := IndexOf(h.children, tokens[0]);
      var sub := if i < |h.children| then h.children[i] else NewHier(tokens[0]);
      AddWellFormed(sub, tokens[1..], who, qos);
      var sub' := Add(sub, tokens[1..], who, qos);
      if i < |h.children| {
        ChildUpdated(h.children, i, sub', tokens[0]);
      } else {
        ChildAppended(h.children, sub', tokens[0]);
      }
    }
  }

  /** After `Add` the whole path exists, and every node stays. */
  lemma {:induction false} AddCreates(h: Hier, tokens: Path, who: Option<ClientId>, qos: nat, path: Path)
    requires WellFormed(h)
    ensures NodeAt(Add(h, tokens, who, qos), path).Some? <==> path <= tokens || NodeAt(h, path).Some?
    decreases |tokens|
  {
    AddShape(h, tokens, who, qos);
    hide Add;
    if tokens != [] && path != [] {
      var i := IndexOf(h.children, tokens[0]);
      var sub := if i < |h.children| then h.children[i] else NewHier(tokens[0]);
      var sub' := Add(sub, tokens[1..], who, qos);
      assert path == [path[0]] + path[1..] && tokens == [tokens[0]] + tokens[1..];
      if i < |h.children| {
        ChildUpdated(h.children, i, sub', path[0]);
      } else {
        ChildAppended(h.children, sub', path[0]);
      }
      if path[0] == tokens[0] {
        AddCreates(sub, tokens[1..], who, qos, path[1..]);
      }
    }
  }

  lemma BareHasNothing(h: Hier, path: Path, client: ClientId)
    requires Bare(h)
    ensures SubAt(h, path, client) == None && RetainedAt(h, path) == None
  {
  }

  /** `Remove` takes away the one leaf and nothing else that anyone could ask
      for: pruning loses no leaf and no retained message. */
  lemma {:induction false} RemoveEffect(h: Hier, tokens: Path, client: ClientId, path: Path, other: ClientId)
    requires WellFormed(h)
    ensures SubAt(Remove(h, tokens, client), path, other) ==
            if path == tokens && other == client then None else SubAt(h, path, other)
    ensures RetainedAt(Remove(h, tokens, client), path) == RetainedAt(h, path)
    decreases |tokens|
  {
    if tokens == [] {
      DropLeafEffect(h.subs, client, other);
    } else {
      var i := IndexOf(h.children, tokens[0]);
      if i < |h.children| && path != [] {
        var sub := Remove(h.children[i], tokens[1..], client);
        assert path == [path[0]] + path[1..] && tokens == [tokens[0]] + tokens[1..];
        if path[0] == tokens[0] {
          RemoveEffect(h.children[i], tokens[1..], client, path[1..], other);
        }
        if Bare(sub) {
          ChildDropped(h.children, i, path[0]);
          BareHasNothing(sub, path[1..], other);
        } else {
          ChildUpdated(h.children, i, sub, path[0]);
        }
      } else if path == tokens {
        assert Child(h.children, tokens[0]) == None;
      }
    }
  }

  lemma {:induction false} RemoveWellFormed(h: Hier, tokens: Path, client: ClientId)
    requires WellFormed(h)
    ensures WellFormed(Remove(h, tokens, client))
    decreases |tokens|
  {
    if tokens == [] {
      DropLeafEffect(h.subs, client, client);
    } else {
      var i := IndexOf(h.children, tokens[0]);
      if i < |h.children| {
        RemoveWellFormed(h.children[i], tokens[1..], client);
        var sub := Remove(h.children[i], tokens[1..], client);
        if Bare(sub) {
          ChildDropped(h.children, i, tokens[0]);
        } else {
          ChildUpdated(h.children, i, sub, tokens[0]);
        }
      }
    }
  }
}
