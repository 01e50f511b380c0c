/** Inputs at which tree or matcher do not do what one would expect of them, with
    the runs that lead there. */
module BrokerExamples {
  import opened Common
  import opened Topics
  import opened SubTree
  import opened Retained
  import opened Subscriptions
  import opened BrokerRuns
  import opened BrokerLaws
  import opened Matcher

  lemma SplitThree(a: string, b: string, c: string)
    requires '/' !in a && '/' !in b && '/' !in c
    ensures Split(a + "/" + b) == [a, b] && Split(a + "/" + b + "/" + c) == [a, b, c]
  {
    SplitTwo(a, b);
    SplitTwo(b, c);
    var s := a + "/" + b + "/" + c;
    assert s[..|a|] == a && s[|a|] == '/' && s[|a| + 1..] == b + "/" + c;
    SplitAtSlash(s, |a|);
  }

  lemma SplitTwo(a: string, b: string)
    requires '/' !in a && '/' !in b
    ensures Split(a + "/" + b) == [a, b]
  {
    var s := a + "/" + b;
    assert s[..|a|] == a && s[|a|] == '/' && s[|a| + 1..] == b;
    SplitAtSlash(s, |a|);
    SplitNoSlash(b);
  }

  /** The filters and topics of the examples, level by level. */
  lemma Levels()
    ensures Split("a/b") == ["a", "b"] && Split("a/") == ["a", ""] && Split("a/#") == ["a", "#"]
    ensures Split("a/+/#") == ["a", "+", "#"]
    ensures Tokens("a/b") == ["", "a", "b"] && Tokens("a/+/#") == ["", "a", "+", "#"]
  {
    SplitThree("a", "b", "");
    SplitThree("a", "", "");
    SplitThree("a", "#", "");
    SplitThree("a", "+", "#");
    assert "a" + "/" + "b" == "a/b" && "a" + "/" + "" == "a/" && "a" + "/" + "#" == "a/#" &&
           "a" + "/" + "+" + "/" + "#" == "a/+/#";
    assert [""] + ["a", "b"] == ["", "a", "b"] && [""] + ["a", "+", "#"] == ["", "a", "+", "#"];
  }

  /** The character matcher refuses both shapes, which the tree delivers. */
  lemma MatcherRefuses()
    ensures Matches("a/+/#", "a/b") && !Decides("a/+/#", "a/b")
    ensures Matches("a/#", "a/") && !Decides("a/#", "a/")
  {
    Levels();
    assert LevelsMatch(["#"], []) && LevelsMatch(["+", "#"], ["b"]) by {
      assert ["+", "#"][1..] == ["#"] && ["b"][1..] == [];
    }
    assert ["a", "+", "#"][1..] == ["+", "#"] && ["a", "b"][1..] == ["b"];
    assert ["a", "#"][1..] == ["#"] && ["a", ""][1..] == [""];
  }

  // ------------------------------------- a retained message that is not offered

  /** A node that had to be made is the last of its siblings. */
  lemma {:induction false} AddedLast(h: Hier, tokens: Path, who: Option<ClientId>, qos: nat, k: nat)
    requires WellFormed(h) && 0 < k <= |tokens| && NodeAt(h, tokens[..k]) == None
    ensures LastSibling(Add(h, tokens, who, qos).children, tokens[..k])
    decreases k
  {
    var i := IndexOf(h.children, tokens[0]);
    var sub := if i < |h.children| then h.children[i] else NewHier(tokens[0]);
    var sub' := Add(sub, tokens[1..], who, qos);
    assert tokens[..k][1..] == tokens[1..][..k - 1];
    AddShape(h, tokens, who, qos);
    hide Add;
    if i < |h.children| {
      ChildUpdated(h.children, i, sub', tokens[0]);
    } else {
      ChildAppended(h.children, sub', tokens[0]);
    }
    if k > 1 {
      AddedLast(sub, tokens[1..], who, qos, k - 1);
    }
  }

  lemma {:induction false} OneLast(cs: seq<Hier>, p: Path, q: Path)
    requires LastSibling(cs, p) && LastSibling(cs, q) && |p| == |q| && p[..|p| - 1] == q[..|p| - 1]
    ensures p == q
    decreases |p|
  {
    if |p| > 1 {
      assert p[0] == p[..|p| - 1][0] == q[0];
      assert p[1..][..|p| - 2] == p[..|p| - 1][1..] == q[1..][..|p| - 2];
      OneLast(Child(cs, p[0]).value.children, p[1..], q[1..]);
      assert p == [p[0]] + p[1..] && q == [q[0]] + q[1..];
    }
  }

  lemma {:induction false} ChildStands(h: Hier, p: Path)
    requires WellFormed(h) && NodeAt(h, p).Some? && NodeAt(h, p).value.children != []
    ensures exists t :: NodeAt(h, p + [t]).Some?
    decreases |p|
  {
    if p == [] {
      ChildUnique(h.children, 0);
      assert ([] + [h.children[0].topic])[1..] == [];
      assert NodeAt(h, [] + [h.children[0].topic]).Some?;
    } else {
      var c := Child(h.children, p[0]).value;
      ChildWellFormed(h, p[0]);
      ChildStands(c, p[1..]);
      var t :| NodeAt(c, p[1..] + [t]).Some?;
      assert (p + [t])[1..] == p[1..] + [t] && (p + [t])[0] == p[0];
      assert NodeAt(h, p + [t]).Some?;
    }
  }

  lemma RunNext(ops: seq<Op>, op: Op)
    ensures Run(ops + [op]) == Step(Run(ops), op)
  {
    assert (ops + [op])[..|ops|] == ops;
  }

  /** The nodes below the top-level one after a retained publish. */
  lemma NodesRetained(root: Hier, tokens: Path, v: Option<StoreId>, p: Path)
    requires WellFormed(root) && tokens != [] && WildFree(tokens) && Child(root.children, tokens[0]).Some?
    ensures var top := Child(RetainTop(root, tokens, v).children, tokens[0]);
            top.Some? &&
            (NodeAt(top.value, p).Some? <==> p <= tokens || NodeAt(Child(root.children, tokens[0]).value, p).Some?)
  {
    var top := Child(root.children, tokens[0]).value;
    RetainTopChild(root, tokens, v, tokens[0]);
    ChildWellFormed(root, tokens[0]);
    AddCreates(top, tokens, None, 0, p);
    if p != [] {
      SetRetainedEffect(Add(top, tokens, None, 0).children, tokens, v, p);
      StepInto(Add(top, tokens, None, 0), p);
      StepInto(Retaining(top, tokens, v), p);
    }
  }

  /** What stands below the top-level node when "a/+/#" has been added to a
      tree of nothing but "a/b". */
  lemma BesideFilter(was: Hier, now: Hier, topic: Path, filter: Path, c: ClientId)
    requires WellFormed(was) && WellFormed(now) && now == Add(was, filter, Some(c), 0)
    requires topic == ["", "a", "b"] && filter == ["", "a", "+", "#"] &&
             forall p :: NodeAt(was, p).Some? <==> p <= topic
    ensures NodeAt(now, topic).Some? && NodeAt(now, topic).value.children == [] && !LastSibling(now.children, topic)
  {
    AddCreates(was, filter, Some(c), 0, topic);
    forall x ensures NodeAt(now, topic + [x]) == None {
      AddCreates(was, filter, Some(c), 0, topic + [x]);
      assert (topic + [x])[2] == "b" && filter[2] == "+";
    }
    if NodeAt(now, topic).value.children != [] { ChildStands(now, topic); }
    if LastSibling(now.children, topic) {
      assert filter[..3] == ["", "a", "+"] && filter[..3][2] != topic[2];
      AddedLast(was, filter, Some(c), 0, 3);
      assert filter[..3][..2] == ["", "a"] == topic[..2];
      OneLast(now.children, topic, filter[..3]);
    }
  }

  lemma Accepted()
    ensures SubTopicOk("a/+/#") && PubTopicOk("a/b")
  {
    Levels();
  }

  /** The offer after "a/b" was retained and "a/+/#" subscribed to: the filter
      matches the topic, and still it is not offered. */
  lemma OfferSkips(c: ClientId)
    ensures var b := Run([Publish("a/b", true, 1, true), Subscribe(c, "a/+/#", 0)]);
            RetainedAt(b.root, FullPath("a/b")) == Some(1) && Matches("a/+/#", "a/b") &&
            Tokens("a/b") !in OfferedTo(b, "a/+/#")
  {
    var none: seq<Op> := [];
    var first := none + [Publish("a/b", true, 1, true)];
    var ops := first + [Subscribe(c, "a/+/#", 0)];
    assert ops == [Publish("a/b", true, 1, true), Subscribe(c, "a/+/#", 0)];
    RunNext(none, Publish("a/b", true, 1, true));
    RunNext(first, Subscribe(c, "a/+/#", 0));
    Accepted();
    assert Run(none) == OPENED;
    RunAgrees(first);
    RunAgrees(ops);
    OpenedAgrees();
    GapMade(OPENED, Run(first), Run(ops), c);
    MatcherRefuses();
    Levels();
    hide Run, Step;
    OfferedExactly(ops, "a/+/#", "a/b");
  }

  lemma GapMade(b0: Broker, b1: Broker, b2: Broker, c: ClientId)
    requires b0 == OPENED && SoundTree(b0) && SoundTree(b1) && SoundTree(b2)
    requires b1 == Step(b0, Publish("a/b", true, 1, true)) && b2 == Step(b1, Subscribe(c, "a/+/#", 0))
    ensures Skipped(b2, "a/+/#", "a/b") && RetainedAt(b2.root, FullPath("a/b")) == Some(1)
  {
    Levels();
    Accepted();
    hide SubTopicOk, PubTopicOk, Split, RetainTop, AddTop, WellFormed, LastSibling;
    GapTrees(b0.root, b1.root, b2.root, Tokens("a/b"), Tokens("a/+/#"), c);
    FullPathNode(b2, "a/b");
    StepInto(Child(b2.root.children, "").value, Tokens("a/b"));
  }

  lemma GapTrees(r0: Hier, r1: Hier, r2: Hier, topic: Path, filter: Path, c: ClientId)
    requires r0 == OPENED.root && WellFormed(r0) && WellFormed(r1) && WellFormed(r2)
    requires topic == ["", "a", "b"] && filter == ["", "a", "+", "#"] && WildFree(topic)
    requires r1 == RetainTop(r0, topic, Some(1)) && r2 == AddTop(r1, filter, Some(c), 0)
    ensures RetainedAt(r2, ["", "", "a", "b"]) == Some(1) && Child(r2.children, "").Some?
    ensures var top := Child(r2.children, "").value;
            NodeAt(top, topic).Some? && NodeAt(top, topic).value.children == [] && !LastSibling(top.children, topic)
  {
    OpenedTops("");
    assert [""] + topic == ["", "", "a", "b"];
    RetainTopEffect(r0, topic, Some(1), [""] + topic, "");
    AddTopEffect(r1, filter, Some(c), 0, [""] + topic, "");
    NodesRetained(r0, topic, Some(1), []);
    AddTopChild(r1, filter, Some(c), 0, "");
    ChildWellFormed(r1, "");
    ChildWellFormed(r2, "");
    var was, now := Child(r1.children, "").value, Child(r2.children, "").value;
    forall p ensures NodeAt(was, p).Some? <==> p <= topic {
      NodesRetained(r0, topic, Some(1), p);
    }
    hide AddTop, RetainTop, WellFormed, RetainedAt, LastSibling;
    BesideFilter(was, now, topic, filter, c);
  }
}
