/** The two searches of the subscription tree: which nodes a published topic
    reaches, and which retained messages a new filter is offered. */
module SubSearch {
  import opened Common
  import opened Topics
  import opened SubTree

  // ------------------------------------------------------ paths and lists

  /** The same step put in front of every path of a list. */
  function Under(step: string, paths: seq<Path>): (r: seq<Path>)
    ensures |r| == |paths| && forall i :: 0 <= i < |r| ==> r[i] == [step] + paths[i]
  {
    if paths == [] then [] else [[step] + paths[0]] + Under(step, paths[1..])
  }

  lemma UnderMember(step: string, paths: seq<Path>, p: Path)
    ensures p in Under(step, paths) <==> p != [] && p[0] == step && p[1..] in paths
  {
    var r := Under(step, paths);
    if p in r {
      var i :| 0 <= i < |r| && r[i] == p;
      assert p[1..] == paths[i];
    }
    if p != [] && p[0] == step && p[1..] in paths {
      var i :| 0 <= i < |paths| && paths[i] == p[1..];
      assert r[i] == [step] + p[1..] == p;
    }
  }

  lemma UnderNoDup(step: string, paths: seq<Path>)
    requires NoDup(paths)
    ensures NoDup(Under(step, paths))
  {
    var r := Under(step, paths);
    forall i, j | 0 <= i < j < |r| ensures r[i] != r[j] {
      assert r[i][1..] == paths[i] && r[j][1..] == paths[j];
    }
  }

  /** The node at a non-empty path below a list of siblings. */
  function NodeIn(cs: seq<Hier>, path: Path): Option<Hier> {
    if path == [] then None
    else
      var c := Child(cs, path[0]);
      if c == None then None else NodeAt(c.value, path[1..])
  }

  predicate ForestWellFormed(cs: seq<Hier>) {
    DistinctTopics(cs) && forall i :: 0 <= i < |cs| ==> WellFormed(cs[i])
  }

  lemma ChildCons(b: Hier, rest: seq<Hier>, topic: string)
    ensures Child([b] + rest, topic) == if topic == b.topic then Some(b) else Child(rest, topic)
  {
    assert ([b] + rest)[1..] == rest;
  }

  lemma DistinctCons(b: Hier, rest: seq<Hier>)
    requires DistinctTopics([b] + rest)
    ensures DistinctTopics(rest) && Child(rest, b.topic) == None
  {
    var cs := [b] + rest;
    assert cs[0] == b && forall k :: 0 <= k < |rest| ==> cs[k + 1] == rest[k];
    assert forall k :: 0 <= k < |rest| ==> rest[k].topic != b.topic;
  }

  lemma NodeInCons(b: Hier, rest: seq<Hier>, path: Path)
    requires path != [] && DistinctTopics([b] + rest)
    ensures NodeIn([b] + rest, path) ==
            if path[0] == b.topic then NodeAt(b, path[1..]) else NodeIn(rest, path)
    ensures path[0] == b.topic ==> NodeIn(rest, path) == None
  {
    ChildCons(b, rest, path[0]);
    DistinctCons(b, rest);
  }

  // ------------------------------------------------- search for a publish

  /** The nodes a search reaches, as paths, in the order they are processed. */
  function Reached(cs: seq<Hier>, tokens: Path): seq<Path>
    decreases |tokens|, |cs|
  {
    if cs == [] then [] else ReachedBranch(cs[0], tokens) + Reached(cs[1..], tokens)
  }

  function ReachedBranch(b: Hier, tokens: Path): seq<Path>
    decreases |tokens|, 0
  {
    if tokens != [] && (b.topic == tokens[0] || b.topic == "+") then
      Under(b.topic, Reached(b.children, tokens[1..])) + (if |tokens| == 1 then [[b.topic]] else [])
    else if b.topic == "#" && b.children == [] then [[b.topic]]
    else []
  }

  /** A node is reached exactly when its path, read as a filter, matches. */
  lemma {:induction false} ReachedIff(cs: seq<Hier>, tokens: Path, p: Path)
    requires ForestWellFormed(cs) && WildFree(tokens)
    ensures p in Reached(cs, tokens) <==> p != [] && NodeIn(cs, p).Some? && LevelsMatch(p, tokens)
    decreases |tokens|, |cs|
  {
    if cs != [] {
      var b, rest := cs[0], cs[1..];
      assert cs == [b] + rest;
      ReachedIff(rest, tokens, p);
      ReachedBranchIff(b, tokens, p);
      if p != [] { NodeInCons(b, rest, p); }
    }
  }

  lemma {:induction false} ReachedBranchIff(b: Hier, tokens: Path, p: Path)
    requires WellFormed(b) && WildFree(tokens)
    ensures p in ReachedBranch(b, tokens) <==>
            p != [] && p[0] == b.topic && NodeAt(b, p[1..]).Some? && LevelsMatch(p, tokens)
    decreases |tokens|, 0
  {
    if tokens != [] && (b.topic == tokens[0] || b.topic == "+") {
      assert NoWild(tokens[0]) && b.topic != "#" by { assert tokens[0] in tokens; assert "#"[0] == '#'; }
      ReachedIff(b.children, tokens[1..], if p == [] then [] else p[1..]);
      UnderMember(b.topic, Reached(b.children, tokens[1..]), p);
      assert |p| == 1 ==> p == [p[0]] && p[1..] == [];
    } else if p != [] && p[0] == b.topic {
      if b.topic == "#" {
        HashNodeAlone(b, p);
      } else {
        assert p != ["#"];
      }
    }
  }

  lemma HashNodeAlone(b: Hier, p: Path)
    requires WellFormed(b) && b.topic == "#" && p != [] && p[0] == "#"
    ensures NodeAt(b, p[1..]).Some? <==> p == ["#"]
  {
    assert |p| == 1 ==> p == ["#"];
  }

  lemma {:induction false} ReachedNoDup(cs: seq<Hier>, tokens: Path)
    requires ForestWellFormed(cs) && WildFree(tokens)
    ensures NoDup(Reached(cs, tokens))
    decreases |tokens|, |cs|
  {
    if cs != [] {
      var b, rest := cs[0], cs[1..];
      assert cs == [b] + rest;
      ReachedNoDup(rest, tokens);
      ReachedBranchNoDup(b, tokens);
      forall p | p in ReachedBranch(b, tokens) ensures p !in Reached(rest, tokens) {
        ReachedBranchIff(b, tokens, p);
        ReachedIff(rest, tokens, p);
        NodeInCons(b, rest, p);
      }
      NoDupConcat(ReachedBranch(b, tokens), Reached(rest, tokens));
    }
  }

  lemma {:induction false} ReachedBranchNoDup(b: Hier, tokens: Path)
    requires WellFormed(b) && WildFree(tokens)
    ensures NoDup(ReachedBranch(b, tokens))
    decreases |tokens|, 0
  {
    if tokens != [] && (b.topic == tokens[0] || b.topic == "+") {
      var below := Reached(b.children, tokens[1..]);
      ReachedNoDup(b.children, tokens[1..]);
      UnderNoDup(b.topic, below);
      var last: seq<Path> := if |tokens| == 1 then [[b.topic]] else [];
      forall p | p in Under(b.topic, below) ensures p !in last {
        UnderMember(b.topic, below, p);
        ReachedIff(b.children, tokens[1..], p[1..]);
      }
      NoDupConcat(Under(b.topic, below), last);
    }
  }

  // -------------------------------------------------- what is handed over

  datatype Delivery = Delivery(path: Path, leaf: Leaf)

  /** The leaves found at a list of paths, each with the path it hangs at. */
  function LeavesAt(cs: seq<Hier>, paths: seq<Path>): seq<Delivery>
  {
    if paths == [] then []
    else
      (if NodeIn(cs, paths[0]).Some? then AtPath(paths[0], NodeIn(cs, paths[0]).value.subs) else [])
      + LeavesAt(cs, paths[1..])
  }

  function AtPath(path: Path, subs: seq<Leaf>): (r: seq<Delivery>)
    ensures |r| == |subs| && forall i :: 0 <= i < |r| ==> r[i] == Delivery(path, subs[i])
  {
    if subs == [] then [] else [Delivery(path, subs[0])] + AtPath(path, subs[1..])
  }

  lemma {:induction false} LeavesAtMember(cs: seq<Hier>, paths: seq<Path>, d: Delivery)
    ensures d in LeavesAt(cs, paths) <==>
            d.path in paths && NodeIn(cs, d.path).Some? && d.leaf in NodeIn(cs, d.path).value.subs
  {
    if paths != [] {
      LeavesAtMember(cs, paths[1..], d);
      var first := NodeIn(cs, paths[0]);
      if first.Some? {
        var here := AtPath(paths[0], first.value.subs);
        if d.path == paths[0] && d.leaf in first.value.subs {
          var i :| 0 <= i < |first.value.subs| && first.value.subs[i] == d.leaf;
          assert here[i] == d;
        }
      }
    }
  }

  lemma {:induction false} LeavesAtNoDup(cs: seq<Hier>, paths: seq<Path>)
    requires ForestWellFormed(cs) && NoDup(paths)
    ensures NoDup(LeavesAt(cs, paths))
  {
    if paths != [] {
      var p, rest := paths[0], paths[1..];
      LeavesAtNoDup(cs, rest);
      var first := NodeIn(cs, p);
      if first.Some? {
        var here := AtPath(p, first.value.subs);
        NodeInWellFormed(cs, p);
        assert NoDup(here);
        forall d | d in here ensures d !in LeavesAt(cs, rest) {
          LeavesAtMember(cs, rest, d);
          assert paths == [p] + rest;
        }
        NoDupConcat(here, LeavesAt(cs, rest));
      }
    }
  }

  lemma {:induction false} NodeAtWellFormed(h: Hier, path: Path)
    requires WellFormed(h) && NodeAt(h, path).Some?
    ensures WellFormed(NodeAt(h, path).value)
    decreases |path|
  {
    if path != [] {
      ChildWellFormed(h, path[0]);
      NodeAtWellFormed(Child(h.children, path[0]).value, path[1..]);
    }
  }

  lemma NodeInWellFormed(cs: seq<Hier>, path: Path)
    requires ForestWellFormed(cs) && path != [] && NodeIn(cs, path).Some?
    ensures WellFormed(NodeIn(cs, path).value)
  {
    NodeAtWellFormed(Child(cs, path[0]).value, path[1..]);
  }
}
