/** Retained messages in the subscription tree: where a retained publish puts
    its message, and which messages a new filter is offered. */
module Retained {
  import opened Common
  import opened Topics
  import opened SubTree
  import opened SubSearch

  // ------------------------------------------------- a retained publish

  /** The retained slots after a search that may set them: the slot at the
      literal path of the topic gets the new value, slots met through a
      wildcard keep theirs. */
  function SetRetained(cs: seq<Hier>, tokens: Path, v: Option<StoreId>): (r: seq<Hier>)
    ensures |r| == |cs|
    ensures forall i :: 0 <= i < |r| ==> r[i] == SetBranch(cs[i], tokens, v)
    decreases |tokens|, |cs|
  {
    if cs == [] then [] else [SetBranch(cs[0], tokens, v)] + SetRetained(cs[1..], tokens, v)
  }

  function SetBranch(b: Hier, tokens: Path, v: Option<StoreId>): (r: Hier)
    ensures r.topic == b.topic && r.subs == b.subs
    decreases |tokens|, 0
  {
    if tokens != [] && b.topic == tokens[0] && b.topic != "+" then
      Hier(b.topic, SetRetained(b.children, tokens[1..], v), b.subs, if |tokens| == 1 then v else b.retained)
    else b
  }

  lemma SameTopicsSameChild(cs: seq<Hier>, ds: seq<Hier>, topic: string)
    requires |cs| == |ds| && forall i :: 0 <= i < |cs| ==> cs[i].topic == ds[i].topic
    ensures IndexOf(cs, topic) == IndexOf(ds, topic)
    ensures DistinctTopics(cs) ==> DistinctTopics(ds)
  {
  }

  lemma ChildSet(cs: seq<Hier>, tokens: Path, v: Option<StoreId>, topic: string)
    ensures Child(SetRetained(cs, tokens, v), topic) ==
            if Child(cs, topic) == None then None else Some(SetBranch(Child(cs, topic).value, tokens, v))
  {
    SameTopicsSameChild(cs, SetRetained(cs, tokens, v), topic);
  }

  /** Only the slot at the path of the topic changes. */
  lemma {:induction false} SetRetainedEffect(cs: seq<Hier>, tokens: Path, v: Option<StoreId>, p: Path)
    requires WildFree(tokens)
    ensures var was, now := NodeIn(cs, p), NodeIn(SetRetained(cs, tokens, v), p);
            (now.Some? <==> was.Some?) &&
            (was.Some? ==> now.value.subs == was.value.subs &&
                           now.value.retained == if p == tokens then v else was.value.retained)
    decreases |tokens|
  {
    if p != [] {
      ChildSet(cs, tokens, v, p[0]);
      if Child(cs, p[0]).Some? {
        SetBranchEffect(Child(cs, p[0]).value, tokens, v, p);
      }
    }
  }

  lemma {:induction false} SetBranchEffect(b: Hier, tokens: Path, v: Option<StoreId>, p: Path)
    requires WildFree(tokens) && p != [] && p[0] == b.topic
    ensures var was, now := NodeAt(b, p[1..]), NodeAt(SetBranch(b, tokens, v), p[1..]);
            (now.Some? <==> was.Some?) &&
            (was.Some? ==> now.value.subs == was.value.subs &&
                           now.value.retained == if p == tokens then v else was.value.retained)
    decreases |tokens|, 0
  {
    if tokens != [] && b.topic == tokens[0] {
      LiteralTopic(tokens);
      assert p == [p[0]] + p[1..] && tokens == [tokens[0]] + tokens[1..];
      if |p| > 1 {
        SetRetainedEffect(b.children, tokens[1..], v, p[1..]);
      }
    }
  }

  lemma {:induction false} SetBranchWellFormed(b: Hier, tokens: Path, v: Option<StoreId>)
    requires WellFormed(b) && WildFree(tokens)
    ensures WellFormed(SetBranch(b, tokens, v))
    decreases |tokens|
  {
    var r := SetBranch(b, tokens, v);
    if r != b {
      forall i | 0 <= i < |r.children| ensures WellFormed(r.children[i]) {
        SetBranchWellFormed(b.children[i], tokens[1..], v);
      }
      SameTopicsSameChild(b.children, r.children, "");
    }
  }

  // ---------------------------------------- the offer to a new subscriber

  /** The nodes whose retained message is offered, in the order of the
      search; `level` is the depth of this call below the top-level node. */
  function Offered(cs: seq<Hier>, tokens: Path, level: nat): seq<Path>
    requires tokens != []
    decreases cs
  {
    if cs == [] then []
    else OfferedBranch(cs[0], tokens, level, |cs| == 1) + Offered(cs[1..], tokens, level)
  }

  function OfferedBranch(b: Hier, tokens: Path, level: nat, last: bool): seq<Path>
    requires tokens != []
    decreases b
  {
    if tokens == ["#"] then
      [[b.topic]] + Under(b.topic, Offered(b.children, tokens, level + 1))
    else if b.topic != "+" && (b.topic == tokens[0] || tokens[0] == "+") then
      if |tokens| > 1 then
        Under(b.topic, Offered(b.children, tokens[1..], level + 1)) +
        (if OfferFlag(b.children, tokens[1..]) == -1 || (last && tokens[1] == "#" && level > 0)
         then [[b.topic]] else [])
      else [[b.topic]]
    else []
  }

  /** What the search returns to its caller: -1 when a final `#` met at least
      one child. */
  function OfferFlag(cs: seq<Hier>, tokens: Path): int {
    if tokens == ["#"] && cs != [] then -1 else 0
  }

  /** Is the node at this path the last of its siblings? */
  predicate LastSibling(cs: seq<Hier>, p: Path)
    decreases |p|
  {
    p != [] && cs != [] &&
    if |p| == 1 then cs[|cs| - 1].topic == p[0]
    else Child(cs, p[0]).Some? && LastSibling(Child(cs, p[0]).value.children, p[1..])
  }

  /** The node at `p` stands where the `#` of the filter hangs, so the `#`
      stands for no level at all. */
  predicate AtHashParent(filter: Path, p: Path) {
    |filter| >= 2 && |p| == |filter| - 1 && filter[|filter| - 1] == "#"
  }

  /** Exactly which nodes of a matching path are offered: all of them, except
      that a node at the parent level of a final `#` must have a child, or be
      the last of its siblings below the first level. */
  predicate Offers(cs: seq<Hier>, tokens: Path, level: nat, p: Path) {
    p != [] && NodeIn(cs, p).Some? && LevelsMatch(tokens, p) &&
    (AtHashParent(tokens, p) ==>
       NodeIn(cs, p).value.children != [] || (LastSibling(cs, p) && level + |p| > 1))
  }

  lemma LastSiblingCons(b: Hier, rest: seq<Hier>, p: Path)
    requires p != [] && DistinctTopics([b] + rest)
    ensures LastSibling([b] + rest, p) <==>
            if p[0] == b.topic then (if |p| == 1 then rest == [] else LastSibling(b.children, p[1..]))
            else LastSibling(rest, p)
  {
    var cs := [b] + rest;
    ChildCons(b, rest, p[0]);
    DistinctCons(b, rest);
    if rest != [] {
      assert cs[|cs| - 1] == rest[|rest| - 1] && cs[0] == b;
    }
  }

  lemma {:induction false} OfferedIff(cs: seq<Hier>, tokens: Path, level: nat, p: Path)
    requires ForestWellFormed(cs) && tokens != [] && ValidLevels(tokens) && WildFree(p)
    ensures p in Offered(cs, tokens, level) <==> Offers(cs, tokens, level, p)
    decreases cs
  {
    if cs != [] {
      var b, rest := cs[0], cs[1..];
      assert cs == [b] + rest;
      DistinctCons(b, rest);
      OfferedIff(rest, tokens, level, p);
      OfferedBranchIff(b, tokens, level, rest == [], p);
      if p != [] {
        NodeInCons(b, rest, p);
        LastSiblingCons(b, rest, p);
      }
    }
  }

  lemma {:induction false} OfferedBranchIff(b: Hier, tokens: Path, level: nat, last: bool, p: Path)
    requires WellFormed(b) && tokens != [] && ValidLevels(tokens) && WildFree(p)
    ensures p in OfferedBranch(b, tokens, level, last) <==>
            p != [] && p[0] == b.topic && NodeAt(b, p[1..]).Some? && LevelsMatch(tokens, p) &&
            (AtHashParent(tokens, p) ==>
               NodeAt(b, p[1..]).value.children != [] ||
               ((if |p| == 1 then last else LastSibling(b.children, p[1..])) && level + |p| > 1))
    decreases b
  {
    if p != [] {
      LiteralTopic(p);
      if tokens == ["#"] {
        OfferedIff(b.children, tokens, level + 1, p[1..]);
        UnderMember(b.topic, Offered(b.children, tokens, level + 1), p);
        assert |p| == 1 ==> p == [p[0]];
      } else if |tokens| > 1 {
        OfferedIff(b.children, tokens[1..], level + 1, p[1..]);
        OfferedInner(b, tokens, level, last, p);
      } else {
        assert tokens[1..] == [] && (|p| == 1 ==> p == [p[0]]);
        assert LevelsMatch(tokens[1..], p[1..]) <==> |p| == 1;
      }
    } else {
      UnderMember(b.topic, Offered(b.children, tokens, level + 1), p);
      if |tokens| > 1 {
        UnderMember(b.topic, Offered(b.children, tokens[1..], level + 1), p);
      }
    }
  }

  lemma OfferedInner(b: Hier, tokens: Path, level: nat, last: bool, p: Path)
    requires |tokens| > 1 && ValidLevels(tokens) && p != [] && p[0] != "+"
    requires p[1..] in Offered(b.children, tokens[1..], level + 1)
        <==> Offers(b.children, tokens[1..], level + 1, p[1..])
    ensures p in OfferedBranch(b, tokens, level, last) <==>
            p[0] == b.topic && NodeAt(b, p[1..]).Some? && LevelsMatch(tokens, p) &&
            (AtHashParent(tokens, p) ==>
               NodeAt(b, p[1..]).value.children != [] ||
               ((if |p| == 1 then last else LastSibling(b.children, p[1..])) && level + |p| > 1))
  {
    var ts, tail := tokens[1..], p[1..];
    UnderMember(b.topic, Offered(b.children, ts, level + 1), p);
    assert LevelsMatch(tokens, p) <==> (tokens[0] == "+" || tokens[0] == p[0]) && LevelsMatch(ts, tail);
    assert ts == ["#"] <==> tokens[1] == "#";
    if |p| == 1 {
      assert tail == [] && p == [p[0]];
      assert LevelsMatch(ts, tail) <==> ts == ["#"];
    } else {
      assert AtHashParent(tokens, p) <==> AtHashParent(ts, tail);
      assert NodeAt(b, tail) == NodeIn(b.children, tail);
    }
  }

  lemma LiteralTopic(p: Path)
    requires WildFree(p) && p != []
    ensures p[0] != "+" && p[0] != "#"
  {
    assert NoWild(p[0]);
    assert "+"[0] == '+' && "#"[0] == '#';
  }

  lemma {:induction false} OfferedBelow(cs: seq<Hier>, tokens: Path, level: nat, p: Path)
    requires tokens != [] && p in Offered(cs, tokens, level)
    ensures p != [] && Child(cs, p[0]).Some?
    decreases |cs|
  {
    var b, rest := cs[0], cs[1..];
    assert cs == [b] + rest;
    if p in OfferedBranch(b, tokens, level, |cs| == 1) {
      OfferedBranchBelow(b, tokens, level, |cs| == 1, p);
    } else {
      OfferedBelow(rest, tokens, level, p);
    }
    ChildCons(b, rest, p[0]);
  }

  lemma OfferedBranchBelow(b: Hier, tokens: Path, level: nat, last: bool, p: Path)
    requires tokens != [] && p in OfferedBranch(b, tokens, level, last)
    ensures p != [] && p[0] == b.topic
  {
    UnderMember(b.topic, Offered(b.children, tokens, level + 1), p);
    if |tokens| > 1 { UnderMember(b.topic, Offered(b.children, tokens[1..], level + 1), p); }
  }

  /** No node is offered twice. */
  lemma {:induction false} OfferedNoDup(cs: seq<Hier>, tokens: Path, level: nat)
    requires ForestWellFormed(cs) && tokens != []
    ensures NoDup(Offered(cs, tokens, level))
    decreases cs
  {
    if cs != [] {
      var b, rest := cs[0], cs[1..];
      assert cs == [b] + rest;
      DistinctCons(b, rest);
      OfferedNoDup(rest, tokens, level);
      OfferedBranchNoDup(b, tokens, level, |cs| == 1);
      var here := OfferedBranch(b, tokens, level, |cs| == 1);
      forall p | p in here ensures p !in Offered(rest, tokens, level) {
        OfferedBranchBelow(b, tokens, level, |cs| == 1, p);
        if p in Offered(rest, tokens, level) { OfferedBelow(rest, tokens, level, p); }
      }
      NoDupConcat(here, Offered(rest, tokens, level));
    }
  }

  lemma {:induction false} OfferedBranchNoDup(b: Hier, tokens: Path, level: nat, last: bool)
    requires WellFormed(b) && tokens != []
    ensures NoDup(OfferedBranch(b, tokens, level, last))
    decreases b
  {
    var ts := if tokens == ["#"] || |tokens| == 1 then tokens else tokens[1..];
    var below := Offered(b.children, ts, level + 1);
    OfferedNoDup(b.children, ts, level + 1);
    UnderNoDup(b.topic, below);
    var own: seq<Path> := [[b.topic]];
    forall p | p in Under(b.topic, below) ensures p !in own {
      UnderMember(b.topic, below, p);
      OfferedBelow(b.children, ts, level + 1, p[1..]);
    }
    NoDupConcat(Under(b.topic, below), own);
    NoDupConcat(own, Under(b.topic, below));
    assert Under(b.topic, below) + [] == Under(b.topic, below);
  }
}
