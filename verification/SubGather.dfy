/** The two searches once more, collecting what they find on the way instead
    of naming paths: the form in which the code runs them. */
module SubGather {
  import opened Topics
  import opened SubTree
  import opened SubSearch
  import opened Retained

  /** The leaves a search meets, in order. */
  function LeavesReached(cs: seq<Hier>, tokens: Path): seq<Leaf>
    decreases |tokens|, |cs|
  {
    if cs == [] then [] else LeavesBranch(cs[0], tokens) + LeavesReached(cs[1..], tokens)
  }

  function LeavesBranch(b: Hier, tokens: Path): seq<Leaf>
    decreases |tokens|, 0
  {
    if tokens != [] && (b.topic == tokens[0] || b.topic == "+") then
      LeavesReached(b.children, tokens[1..]) + (if |tokens| == 1 then b.subs else [])
    else if b.topic == "#" && b.children == [] then b.subs
    else []
  }

  /** The retained messages offered to a new subscriber, in order. */
  function MsgsOffered(cs: seq<Hier>, tokens: Path, level: nat): seq<StoreId>
    requires tokens != []
    decreases cs
  {
    if cs == [] then []
    else MsgsBranch(cs[0], tokens, level, |cs| == 1) + MsgsOffered(cs[1..], tokens, level)
  }

  function MsgsBranch(b: Hier, tokens: Path, level: nat, last: bool): seq<StoreId>
    requires tokens != []
    decreases b
  {
    if tokens == ["#"] then
      OwnMsg(b) + MsgsOffered(b.children, tokens, level + 1)
    else if b.topic != "+" && (b.topic == tokens[0] || tokens[0] == "+") then
      if |tokens| > 1 then
        MsgsOffered(b.children, tokens[1..], level + 1) +
        (if OfferFlag(b.children, tokens[1..]) == -1 || (last && tokens[1] == "#" && level > 0)
         then OwnMsg(b) else [])
      else OwnMsg(b)
    else []
  }

  function OwnMsg(b: Hier): seq<StoreId> {
    if b.retained.Some? then [b.retained.value] else []
  }

  function OwnSubs(b: Hier): seq<Leaf> {
    b.subs
  }

  // ------------------------------------------- same thing, path by path

  /** What `f` finds at the nodes of a list of paths. */
  function Gather<T>(cs: seq<Hier>, paths: seq<Path>, f: Hier -> seq<T>): seq<T> {
    if paths == [] then []
    else
      (if NodeIn(cs, paths[0]).Some? then f(NodeIn(cs, paths[0]).value) else []) + Gather(cs, paths[1..], f)
  }

  lemma {:induction false} GatherConcat<T>(cs: seq<Hier>, a: seq<Path>, b: seq<Path>, f: Hier -> seq<T>)
    ensures Gather(cs, a + b, f) == Gather(cs, a, f) + Gather(cs, b, f)
  {
    if a == [] {
      assert a + b == b;
    } else {
      assert (a + b)[1..] == a[1..] + b;
      GatherConcat(cs, a[1..], b, f);
    }
  }

  lemma {:induction false} GatherUnder<T>(b: Hier, rest: seq<Hier>, paths: seq<Path>, f: Hier -> seq<T>)
    requires forall p :: p in paths ==> p != []
    ensures Gather([b] + rest, Under(b.topic, paths), f) == Gather(b.children, paths, f)
  {
    if paths != [] {
      var p := [b.topic] + paths[0];
      assert p[1..] == paths[0] && paths[0] in paths;
      assert Under(b.topic, paths)[0] == p && Under(b.topic, paths)[1..] == Under(b.topic, paths[1..]);
      ChildCons(b, rest, b.topic);
      StepsDown(b, paths[0]);
      assert forall q :: q in paths[1..] ==> q in paths;
      GatherUnder(b, rest, paths[1..], f);
    }
  }

  lemma StepsDown(b: Hier, p: Path)
    requires p != []
    ensures NodeAt(b, p) == NodeIn(b.children, p)
  {
  }

  lemma {:induction false} GatherSkip<T>(b: Hier, rest: seq<Hier>, paths: seq<Path>, f: Hier -> seq<T>)
    requires forall p :: p in paths ==> p != [] && p[0] != b.topic
    ensures Gather([b] + rest, paths, f) == Gather(rest, paths, f)
  {
    if paths != [] {
      assert paths[0] in paths;
      ChildCons(b, rest, paths[0][0]);
      assert forall q :: q in paths[1..] ==> q in paths;
      GatherSkip(b, rest, paths[1..], f);
    }
  }

  lemma GatherOwn<T>(b: Hier, rest: seq<Hier>, f: Hier -> seq<T>)
    ensures Gather([b] + rest, [[b.topic]], f) == f(b)
  {
    ChildCons(b, rest, b.topic);
    var ps: seq<Path> := [[b.topic]];
    assert ps[1..] == [] && ps[0][1..] == [];
    assert Gather([b] + rest, ps[1..], f) == [];
  }

  lemma {:induction false} LeavesReachedGather(cs: seq<Hier>, tokens: Path)
    requires ForestWellFormed(cs) && WildFree(tokens)
    ensures LeavesReached(cs, tokens) == Gather(cs, Reached(cs, tokens), OwnSubs)
    decreases |tokens|, |cs|
  {
    if cs != [] {
      var b, rest := cs[0], cs[1..];
      assert cs == [b] + rest;
      DistinctCons(b, rest);
      LeavesBranchGather(b, rest, tokens);
      LeavesReachedGather(rest, tokens);
      forall p | p in Reached(rest, tokens) ensures p != [] && p[0] != b.topic {
        ReachedIff(rest, tokens, p);
      }
      GatherSkip(b, rest, Reached(rest, tokens), OwnSubs);
      GatherConcat(cs, ReachedBranch(b, tokens), Reached(rest, tokens), OwnSubs);
    }
  }

  lemma {:induction false} LeavesBranchGather(b: Hier, rest: seq<Hier>, tokens: Path)
    requires WellFormed(b) && WildFree(tokens)
    ensures LeavesBranch(b, tokens) == Gather([b] + rest, ReachedBranch(b, tokens), OwnSubs)
    decreases |tokens|, 0
  {
    GatherOwn(b, rest, OwnSubs);
    if tokens != [] && (b.topic == tokens[0] || b.topic == "+") {
      var below := Reached(b.children, tokens[1..]);
      LeavesReachedGather(b.children, tokens[1..]);
      forall p | p in below ensures p != [] { ReachedIff(b.children, tokens[1..], p); }
      GatherUnder(b, rest, below, OwnSubs);
      GatherConcat([b] + rest, Under(b.topic, below), if |tokens| == 1 then [[b.topic]] else [], OwnSubs);
    }
  }

  lemma {:induction false} MsgsOfferedGather(cs: seq<Hier>, tokens: Path, level: nat)
    requires ForestWellFormed(cs) && tokens != []
    ensures MsgsOffered(cs, tokens, level) == Gather(cs, Offered(cs, tokens, level), OwnMsg)
    decreases cs
  {
    if cs != [] {
      var b, rest := cs[0], cs[1..];
      assert cs == [b] + rest;
      DistinctCons(b, rest);
      MsgsBranchGather(b, rest, tokens, level, |cs| == 1);
      MsgsOfferedGather(rest, tokens, level);
      var later := Offered(rest, tokens, level);
      forall p | p in later ensures p != [] && p[0] != b.topic {
        OfferedBelow(rest, tokens, level, p);
      }
      GatherSkip(b, rest, later, OwnMsg);
      GatherConcat(cs, OfferedBranch(b, tokens, level, |cs| == 1), later, OwnMsg);
    }
  }

  lemma {:induction false} MsgsBranchGather(b: Hier, rest: seq<Hier>, tokens: Path, level: nat, last: bool)
    requires WellFormed(b) && tokens != []
    ensures MsgsBranch(b, tokens, level, last) == Gather([b] + rest, OfferedBranch(b, tokens, level, last), OwnMsg)
    decreases b
  {
    GatherOwn(b, rest, OwnMsg);
    var ts := if tokens == ["#"] || |tokens| == 1 then tokens else tokens[1..];
    var below := Offered(b.children, ts, level + 1);
    MsgsOfferedGather(b.children, ts, level + 1);
    forall p | p in below ensures p != [] { OfferedBelow(b.children, ts, level + 1, p); }
    GatherUnder(b, rest, below, OwnMsg);
    var own: seq<Path> := [[b.topic]];
    GatherConcat([b] + rest, own, Under(b.topic, below), OwnMsg);
    GatherConcat([b] + rest, Under(b.topic, below), own, OwnMsg);
    assert Under(b.topic, below) + [] == Under(b.topic, below);
  }
}
