/** Subscription requests on the tree together with the clients' node lists. */
module Subscriptions {
  import opened Common
  import opened Topics
  import opened SubTree
  import opened SubSearch
  import opened Retained

  // --------------------------------------------------- paths and filters

  /** Where a filter or topic lives in the tree: below the top-level node
      named by its first token, which the path then spells once more. */
  function FullPath(s: string): (p: Path)
    ensures |p| >= 2
  {
    [Tokens(s)[0]] + Tokens(s)
  }

  /** The string a path spells. */
  function Spelled(p: Path): string
    requires |p| >= 2
  {
    if Dollar(p[0]) || |p| == 2 then Join(p[1..]) else Join(p[2..])
  }

  lemma SpelledFullPath(s: string)
    ensures Spelled(FullPath(s)) == s
  {
    TokensFirst(s);
    JoinSplit(s);
    var p := FullPath(s);
    assert p[1..] == Tokens(s);
    if Dollar(s) {
      assert Dollar(p[0]) && p[1..] == Split(s);
    } else {
      assert p[0] == "" && |p| >= 3 && p[2..] == Split(s);
    }
  }

  predicate IsFullPath(p: Path) {
    |p| >= 2 && p == FullPath(Spelled(p))
  }

  lemma FullPathWildFree(s: string)
    requires NoWild(s)
    ensures WildFree(Tokens(s)) && WildFree(FullPath(s))
  {
    SplitNoWild(s);
    var ts := Tokens(s);
    forall l | l in ts ensures NoWild(l) {
      assert l == "" || l in Split(s);
    }
    assert ts[0] in ts;
  }

  lemma FullPathValid(s: string)
    requires ValidLevels(Split(s))
    ensures ValidLevels(Tokens(s)) && ValidLevels(FullPath(s)) && Tokens(s)[0] != "#" && Tokens(s)[0] != "+"
  {
    TokensFirst(s);
    var ts := Tokens(s);
    if !Dollar(s) {
      assert ts[1..] == Split(s);
    } else {
      assert ts == Split(s) && ts[0][0] == '$';
    }
    DollarLevel(ts);
    assert FullPath(s)[1..] == ts;
  }

  lemma DollarLevel(ts: Path)
    requires ts != [] && (ts[0] == "" || Dollar(ts[0])) && ValidLevels(ts)
    ensures NoWild(ts[0]) && ts[0] != "#" && ts[0] != "+"
  {
  }

  lemma {:induction false} WildFreeValid(levels: Path)
    requires WildFree(levels)
    ensures ValidLevels(levels)
  {
    if levels != [] {
      assert NoWild(levels[0]);
      WildFreeValid(levels[1..]);
    }
  }

  // ------------------------------------------- the edits below the root

  /** Add below the top-level node of the first token; a new top-level node
      goes to the front of the list. */
  function AddTop(root: Hier, tokens: Path, who: Option<ClientId>, qos: nat): (r: Hier)
    requires tokens != []
  {
    var i := IndexOf(root.children, tokens[0]);
    if i < |root.children| then
      root.(children := root.children[i := Add(root.children[i], tokens, who, qos)])
    else
      root.(children := [Add(NewHier(tokens[0]), tokens, who, qos)] + root.children)
  }

  function RemoveTop(root: Hier, tokens: Path, client: ClientId): (r: Hier)
    requires tokens != []
  {
    var i := IndexOf(root.children, tokens[0]);
    if i == |root.children| then root
    else root.(children := root.children[i := Remove(root.children[i], tokens, client)])
  }

  /** A retained publish: make sure the path exists, then set the slots the
      search may set. Without the top-level node nothing happens. */
  function RetainTop(root: Hier, tokens: Path, v: Option<StoreId>): (r: Hier)
    requires tokens != []
  {
    var i := IndexOf(root.children, tokens[0]);
    if i == |root.children| then root
    else
      var top := Add(root.children[i], tokens, None, 0);
      root.(children := root.children[i := top.(children := SetRetained(top.children, tokens, v))])
  }

  lemma StepInto(h: Hier, path: Path)
    requires path != []
    ensures NodeAt(h, path) == NodeIn(h.children, path)
  {
  }

  /** The top-level node with this topic, a new one if there is none. */
  function TopFor(root: Hier, topic: string): Hier {
    if Child(root.children, topic) == None then NewHier(topic) else Child(root.children, topic).value
  }

  lemma AddTopChild(root: Hier, tokens: Path, who: Option<ClientId>, qos: nat, topic: string)
    requires DistinctTopics(root.children) && tokens != []
    ensures Child(AddTop(root, tokens, who, qos).children, topic) ==
            if topic == tokens[0] then Some(Add(TopFor(root, topic), tokens, who, qos))
            else Child(root.children, topic)
  {
    var i := IndexOf(root.children, tokens[0]);
    var sub' := Add(TopFor(root, tokens[0]), tokens, who, qos);
    if i < |root.children| {
      ChildUpdated(root.children, i, sub', topic);
    } else {
      ChildPrepended(root.children, sub', topic);
    }
  }

  lemma NewHierHasNothing(topic: string, p: Path, client: ClientId)
    ensures SubAt(NewHier(topic), p, client) == None && RetainedAt(NewHier(topic), p) == None
  {
    BareHasNothing(NewHier(topic), p, client);
  }

  lemma AddTopEffect(root: Hier, tokens: Path, who: Option<ClientId>, qos: nat, p: Path, client: ClientId)
    requires WellFormed(root) && tokens != []
    ensures SubAt(AddTop(root, tokens, who, qos), p, client) ==
            if p == [tokens[0]] + tokens && who == Some(client) then Some(qos) else SubAt(root, p, client)
    ensures RetainedAt(AddTop(root, tokens, who, qos), p) == RetainedAt(root, p)
  {
    if p != [] {
      AddTopChild(root, tokens, who, qos, p[0]);
      StepEq(p, tokens);
      AtChild(root, p, client);
      AtChild(AddTop(root, tokens, who, qos), p, client);
      if p[0] == tokens[0] {
        if Child(root.children, p[0]).Some? { ChildWellFormed(root, p[0]); }
        AddEffect(TopFor(root, p[0]), tokens, who, qos, p[1..], client);
        NewHierHasNothing(p[0], p[1..], client);
      }
    }
  }

  lemma StepEq(p: Path, tokens: Path)
    requires p != [] && tokens != []
    ensures p == [tokens[0]] + tokens <==> p[0] == tokens[0] && p[1..] == tokens
  {
    assert p == [p[0]] + p[1..];
    assert ([tokens[0]] + tokens)[1..] == tokens;
  }

  lemma AddTopWellFormed(root: Hier, tokens: Path, who: Option<ClientId>, qos: nat)
    requires WellFormed(root) && root.topic != "#" && tokens != [] && ValidLevels(tokens) && tokens[0] != "#"
    ensures WellFormed(AddTop(root, tokens, who, qos))
  {
    var i := IndexOf(root.children, tokens[0]);
    var sub := if i < |root.children| then root.children[i] else NewHier(tokens[0]);
    AddWellFormed(sub, tokens, who, qos);
    var sub' := Add(sub, tokens, who, qos);
    if i < |root.children| {
      ChildUpdated(root.children, i, sub', tokens[0]);
    } else {
      ChildPrepended(root.children, sub', tokens[0]);
    }
  }

  lemma RemoveTopEffect(root: Hier, tokens: Path, client: ClientId, p: Path, other: ClientId)
    requires WellFormed(root) && tokens != []
    ensures SubAt(RemoveTop(root, tokens, client), p, other) ==
            if p == [tokens[0]] + tokens && other == client then None else SubAt(root, p, other)
    ensures RetainedAt(RemoveTop(root, tokens, client), p) == RetainedAt(root, p)
  {
    if p != [] {
      AtChild(root, p, other);
      AtChild(RemoveTop(root, tokens, client), p, other);
      hide SubAt, RetainedAt, Remove;
      var i := IndexOf(root.children, tokens[0]);
      assert p == [p[0]] + p[1..];
      if i < |root.children| {
        ChildUpdated(root.children, i, Remove(root.children[i], tokens, client), p[0]);
        if p[0] == tokens[0] {
          RemoveEffect(root.children[i], tokens, client, p[1..], other);
        }
      } else if p[0] == tokens[0] {
        assert Child(root.children, p[0]) == None;
      }
    }
  }

  lemma RemoveTopWellFormed(root: Hier, tokens: Path, client: ClientId)
    requires WellFormed(root) && tokens != []
    ensures WellFormed(RemoveTop(root, tokens, client))
  {
    var i := IndexOf(root.children, tokens[0]);
    if i < |root.children| {
      RemoveWellFormed(root.children[i], tokens, client);
      ChildUpdated(root.children, i, Remove(root.children[i], tokens, client), tokens[0]);
    }
  }

  function Retaining(top: Hier, tokens: Path, v: Option<StoreId>): Hier {
    var top' := Add(top, tokens, None, 0);
    top'.(children := SetRetained(top'.children, tokens, v))
  }

  lemma RetainTopChild(root: Hier, tokens: Path, v: Option<StoreId>, topic: string)
    requires DistinctTopics(root.children) && tokens != []
    ensures Child(RetainTop(root, tokens, v).children, topic) ==
            if topic == tokens[0] && Child(root.children, topic).Some?
            then Some(Retaining(TopFor(root, topic), tokens, v))
            else Child(root.children, topic)
  {
    var i := IndexOf(root.children, tokens[0]);
    if i < |root.children| {
      ChildUpdated(root.children, i, Retaining(root.children[i], tokens, v), topic);
    }
  }

  lemma RetainingEffect(top: Hier, tokens: Path, v: Option<StoreId>, p: Path, client: ClientId)
    requires WellFormed(top) && tokens != [] && WildFree(tokens)
    ensures SubAt(Retaining(top, tokens, v), p, client) == SubAt(top, p, client)
    ensures RetainedAt(Retaining(top, tokens, v), p) == if p == tokens then v else RetainedAt(top, p)
  {
    var top' := Add(top, tokens, None, 0);
    AddEffect(top, tokens, None, 0, p, client);
    AddCreates(top, tokens, None, 0, p);
    if p != [] {
      SetRetainedEffect(top'.children, tokens, v, p);
      StepInto(top', p);
      StepInto(Retaining(top, tokens, v), p);
    }
  }

  lemma RetainTopEffect(root: Hier, tokens: Path, v: Option<StoreId>, p: Path, client: ClientId)
    requires WellFormed(root) && tokens != [] && WildFree(tokens)
    ensures SubAt(RetainTop(root, tokens, v), p, client) == SubAt(root, p, client)
    ensures RetainedAt(RetainTop(root, tokens, v), p) ==
            if p == [tokens[0]] + tokens && Child(root.children, tokens[0]).Some? then v
            else RetainedAt(root, p)
  {
    if p != [] {
      RetainTopChild(root, tokens, v, p[0]);
      if p[0] == tokens[0] && Child(root.children, p[0]).Some? {
        ChildWellFormed(root, p[0]);
        RetainingEffect(TopFor(root, p[0]), tokens, v, p[1..], client);
      }
      StepEq(p, tokens);
    }
  }

  lemma RetainTopWellFormed(root: Hier, tokens: Path, v: Option<StoreId>)
    requires WellFormed(root) && tokens != [] && WildFree(tokens)
    ensures WellFormed(RetainTop(root, tokens, v))
  {
    var i := IndexOf(root.children, tokens[0]);
    if i < |root.children| {
      WildFreeValid(tokens);
      LiteralTopic(tokens);
      AddWellFormed(root.children[i], tokens, None, 0);
      var top := Add(root.children[i], tokens, None, 0);
      var top' := top.(children := SetRetained(top.children, tokens, v));
      forall k | 0 <= k < |top.children| ensures WellFormed(top'.children[k]) {
        SetBranchWellFormed(top.children[k], tokens, v);
      }
      SameTopicsSameChild(top.children, top'.children, "");
      ChildUpdated(root.children, i, top', tokens[0]);
    }
  }
}
