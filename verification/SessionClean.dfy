/** Cleaning a session: leaves go, and bare nodes above them. */
module SessionClean {
  import opened Common
  import opened SubTree

  /** The node at the path loses the client's leaf. */
  function DropLeafAt(h: Hier, path: Path, client: ClientId): (r: Hier)
    ensures r.topic == h.topic
    decreases |path|
  {
    if path == [] then h.(subs := DropLeaf(h.subs, client))
    else
      var i := IndexOf(h.children, path[0]);
      if i == |h.children| then h
      else h.(children := h.children[i := DropLeafAt(h.children[i], path[1..], client)])
  }

  /** The node at the path is unlinked from its parent. */
  function Unlink(h: Hier, path: Path): (r: Hier)
    requires path != []
    ensures r.topic == h.topic && r.subs == h.subs && r.retained == h.retained
    decreases |path|
  {
    var i := IndexOf(h.children, path[0]);
    if i == |h.children| then h
    else if |path| == 1 then h.(children := DropAt(h.children, i))
    else h.(children := h.children[i := Unlink(h.children[i], path[1..])])
  }

  /** The two top-level nodes made when the database is opened have no parent
      and so are never unlinked. */
  predicate Pinned(path: Path) {
    path == [] || path == [""] || path == ["$SYS"]
  }

  /** Remove a bare node, then its parent if that is now bare, and so on. */
  function Climb(root: Hier, path: Path): Hier
    decreases |path|
  {
    var n := NodeAt(root, path);
    if Pinned(path) || n == None || !Bare(n.value) then root
    else Climb(Unlink(root, path), path[..|path| - 1])
  }

  function CleanNode(root: Hier, path: Path, client: ClientId): Hier {
    Climb(DropLeafAt(root, path, client), path)
  }

  /** The loop over the client's list; emptied slots are skipped. */
  function CleanAll(root: Hier, nodes: seq<Option<Path>>, client: ClientId): Hier
    decreases |nodes|
  {
    if nodes == [] then root
    else CleanAll(if nodes[0] == None then root else CleanNode(root, nodes[0].value, client), nodes[1..], client)
  }

  // ------------------------------------------- the same from the root down

  /** Remove the bare nodes of a path from its end upwards, met on the way back. */
  function Pruned(h: Hier, path: Path): Hier
    decreases |path|
  {
    if path == [] then h
    else
      var i := IndexOf(h.children, path[0]);
      if i == |h.children| then h
      else
        var c := Pruned(h.children[i], path[1..]);
        h.(children := if Bare(c) then DropAt(h.children, i) else h.children[i := c])
  }

  /** The root with this child after an edit below it, which goes if it is bare
      and not one of the two. */
  function Settled(root: Hier, i: nat, c: Hier): Hier
    requires i < |root.children|
  {
    root.(children := if Bare(c) && !Pinned([c.topic]) then DropAt(root.children, i) else root.children[i := c])
  }

  lemma SettledTwice(root: Hier, i: nat, c: Hier, d: Hier)
    requires i < |root.children|
    ensures Settled(root.(children := root.children[i := c]), i, d) == Settled(root, i, d)
  {
    assert DropAt(root.children[i := c], i) == DropAt(root.children, i);
    assert root.children[i := c][i := d] == root.children[i := d];
  }

  /** Pruning goes on below the first node of the path. */
  lemma PruneStep(h: Hier, path: Path)
    requires path != [] && IndexOf(h.children, path[0]) < |h.children|
    ensures var i := IndexOf(h.children, path[0]);
            var d := Pruned(h.children[i], path[1..]);
            Pruned(h, path) == h.(children := if Bare(d) then DropAt(h.children, i) else h.children[i := d])
  {
  }

  /** And so it does in the tree with the last node of the path unlinked. */
  lemma UnlinkedStep(h: Hier, path: Path)
    requires |path| > 1 && IndexOf(h.children, path[0]) < |h.children|
    ensures var i := IndexOf(h.children, path[0]);
            var d := Pruned(Unlink(h.children[i], path[1..]), path[1..][..|path| - 2]);
            Pruned(Unlink(h, path), path[..|path| - 1]) ==
            h.(children := if Bare(d) then DropAt(h.children, i) else h.children[i := d])
  {
    hide *;
    var i, q := IndexOf(h.children, path[0]), path[..|path| - 1];
    var c' := Unlink(h.children[i], path[1..]);
    var h' := h.(children := h.children[i := c']);
    UnlinkStep(h, path);
    SameIndex(h.children, i, c', path[0]);
    PruneStep(h', q);
    assert q[1..] == path[1..][..|path| - 2] && q[0] == path[0];
    var d := Pruned(c', q[1..]);
    assert h'.children[i] == c' && h.children[i := c'][i := d] == h.children[i := d];
    assert DropAt(h'.children, i) == DropAt(h.children, i);
  }

  lemma UnlinkStep(h: Hier, path: Path)
    requires |path| > 1 && IndexOf(h.children, path[0]) < |h.children|
    ensures var i := IndexOf(h.children, path[0]);
            Unlink(h, path) == h.(children := h.children[i := Unlink(h.children[i], path[1..])]) &&
            Unlink(h.children[i], path[1..]).topic == path[0]
  {
  }

  lemma {:induction false} PruneUnlinks(h: Hier, path: Path)
    requires path != [] && NodeAt(h, path).Some? && Bare(NodeAt(h, path).value)
    ensures Pruned(h, path) == Pruned(Unlink(h, path), path[..|path| - 1])
    decreases |path|
  {
    if |path| == 1 {
      assert path[1..] == [] && path[..0] == [];
    } else {
      PruneUnlinks(h.children[IndexOf(h.children, path[0])], path[1..]);
      PruneStep(h, path);
      UnlinkedStep(h, path);
    }
  }

  lemma SameIndex(cs: seq<Hier>, i: nat, c: Hier, topic: string)
    requires i < |cs| && i == IndexOf(cs, topic) && c.topic == topic
    ensures IndexOf(cs[i := c], topic) == i
  {
    var j := IndexOf(cs[i := c], topic);
    assert cs[i := c][i].topic == topic && forall k :: 0 <= k < i ==> cs[i := c][k] == cs[k];
  }

  lemma {:induction false} PruneStays(h: Hier, path: Path)
    requires NodeAt(h, path).Some? && !Bare(NodeAt(h, path).value)
    ensures Pruned(h, path) == h
    decreases |path|
  {
    if path != [] {
      var i := IndexOf(h.children, path[0]);
      var c := h.children[i];
      PruneStays(c, path[1..]);
      assert h.children[i := c] == h.children;
      assert !Bare(c) by { if path[1..] == [] { assert NodeAt(c, path[1..]) == Some(c); } }
    }
  }

  lemma {:induction false} UnlinkKeepsParent(h: Hier, path: Path)
    requires path != [] && NodeAt(h, path).Some?
    ensures NodeAt(Unlink(h, path), path[..|path| - 1]).Some?
    decreases |path|
  {
    if |path| > 1 {
      var i := IndexOf(h.children, path[0]);
      var c' := Unlink(h.children[i], path[1..]);
      UnlinkKeepsParent(h.children[i], path[1..]);
      SameIndex(h.children, i, c', path[0]);
      assert path[..|path| - 1][1..] == path[1..][..|path| - 2];
    }
  }

  /** Climbing from the node up is removing from the root down. */
  lemma {:induction false} ClimbIs(root: Hier, path: Path)
    requires path != [] && NodeAt(root, path).Some?
    ensures var i := IndexOf(root.children, path[0]);
            Climb(root, path) == Settled(root, i, Pruned(root.children[i], path[1..]))
    decreases |path|, 1
  {
    var i, n := IndexOf(root.children, path[0]), NodeAt(root, path).value;
    var c := root.children[i];
    if |path| == 1 {
      assert root.children[i := c] == root.children;
      assert path == [c.topic] && path[1..] == [] && path[..0] == [];
    } else if !Bare(n) {
      assert root.children[i := c] == root.children;
      PruneStays(c, path[1..]);
      if path[1..] != [] { assert c.children != []; }
    } else {
      ClimbUp(root, path);
    }
  }

  lemma {:induction false} ClimbUp(root: Hier, path: Path)
    requires |path| > 1 && NodeAt(root, path).Some? && Bare(NodeAt(root, path).value)
    ensures var i := IndexOf(root.children, path[0]);
            Climb(root, path) == Settled(root, i, Pruned(root.children[i], path[1..]))
    decreases |path|, 0
  {
    hide Pruned, Settled, Bare;
    var i, q := IndexOf(root.children, path[0]), path[..|path| - 1];
    var c := root.children[i];
    var c', d := Unlink(c, path[1..]), Pruned(c, path[1..]);
    UnlinkKeepsParent(root, path);
    PruneUnlinks(c, path[1..]);
    SameIndex(root.children, i, c', path[0]);
    assert q[1..] == path[1..][..|path| - 2] && q[0] == path[0];
    ClimbIs(Unlink(root, path), q);
    SettledTwice(root, i, c', d);
  }

  /** Taking a leaf and removing upwards is what unsubscribing does. */
  lemma {:induction false} RemoveIsPrune(h: Hier, path: Path, client: ClientId)
    ensures Remove(h, path, client) == Pruned(DropLeafAt(h, path, client), path)
    ensures NodeAt(DropLeafAt(h, path, client), path).Some? <==> NodeAt(h, path).Some?
    decreases |path|
  {
    if path != [] {
      var i := IndexOf(h.children, path[0]);
      if i < |h.children| {
        var c := DropLeafAt(h.children[i], path[1..], client);
        RemoveIsPrune(h.children[i], path[1..], client);
        SameIndex(h.children, i, c, path[0]);
        var d := Remove(h.children[i], path[1..], client);
        assert DropAt(h.children[i := c], i) == DropAt(h.children, i);
        assert h.children[i := c][i := d] == h.children[i := d];
      }
    }
  }

  lemma {:induction false} NothingThere(h: Hier, path: Path, client: ClientId)
    requires NodeAt(h, path) == None
    ensures DropLeafAt(h, path, client) == h
    decreases |path|
  {
    var i := IndexOf(h.children, path[0]);
    if i < |h.children| {
      NothingThere(h.children[i], path[1..], client);
      assert h.children[i := h.children[i]] == h.children;
    }
  }

  /** Cleaning at one node, from the root down. */
  lemma CleanNodeIs(root: Hier, path: Path, client: ClientId)
    ensures CleanNode(root, path, client) ==
            if NodeAt(root, path) == None then root
            else if path == [] then root.(subs := DropLeaf(root.subs, client))
            else
              var i := IndexOf(root.children, path[0]);
              Settled(root, i, Remove(root.children[i], path[1..], client))
  {
    if NodeAt(root, path) == None {
      NothingThere(root, path, client);
    } else if path != [] {
      var i := IndexOf(root.children, path[0]);
      var c := DropLeafAt(root.children[i], path[1..], client);
      RemoveIsPrune(root.children[i], path[1..], client);
      SameIndex(root.children, i, c, path[0]);
      ClimbIs(root.(children := root.children[i := c]), path);
      SettledTwice(root, i, c, Remove(root.children[i], path[1..], client));
    }
  }

  // ------------------------------------------------------- what cleaning does

  lemma {:induction false} DropLeafAtEffect(h: Hier, path: Path, client: ClientId, p: Path, other: ClientId)
    requires WellFormed(h)
    ensures SubAt(DropLeafAt(h, path, client), p, other) ==
            if p == path && other == client then None else SubAt(h, p, other)
    ensures RetainedAt(DropLeafAt(h, path, client), p) == RetainedAt(h, p)
    ensures NodeAt(DropLeafAt(h, path, client), p).Some? <==> NodeAt(h, p).Some?
    decreases |path|
  {
    if path == [] {
      DropLeafEffect(h.subs, client, other);
    } else if p != [] {
      var i := IndexOf(h.children, path[0]);
      Stepwise(p, path);
      if i < |h.children| {
        ChildUpdated(h.children, i, DropLeafAt(h.children[i], path[1..], client), p[0]);
        if p[0] == path[0] {
          DropLeafAtEffect(h.children[i], path[1..], client, p[1..], other);
        }
      } else if p[0] == path[0] {
        assert Child(h.children, p[0]) == None;
      }
    }
  }

  lemma Stepwise(p: Path, q: Path)
    requires p != [] && q != []
    ensures p == q <==> p[0] == q[0] && p[1..] == q[1..]
  {
    assert p == [p[0]] + p[1..] && q == [q[0]] + q[1..];
  }

  lemma {:induction false} DropLeafAtWellFormed(h: Hier, path: Path, client: ClientId)
    requires WellFormed(h)
    ensures WellFormed(DropLeafAt(h, path, client))
    decreases |path|
  {
    if path == [] {
      DropLeafEffect(h.subs, client, client);
    } else {
      var i := IndexOf(h.children, path[0]);
      if i < |h.children| {
        DropLeafAtWellFormed(h.children[i], path[1..], client);
        ChildUpdated(h.children, i, DropLeafAt(h.children[i], path[1..], client), path[0]);
      }
    }
  }

  /** Unlinking a bare node changes no answer, and removes that node only. */
  lemma {:induction false} UnlinkEffect(h: Hier, path: Path, p: Path, client: ClientId)
    requires WellFormed(h) && path != [] && NodeAt(h, path).Some? && Bare(NodeAt(h, path).value)
    ensures SubAt(Unlink(h, path), p, client) == SubAt(h, p, client)
    ensures RetainedAt(Unlink(h, path), p) == RetainedAt(h, p)
    ensures NodeAt(Unlink(h, path), p).Some? <==> NodeAt(h, p).Some? && p != path
    decreases |path|
  {
    var i := IndexOf(h.children, path[0]);
    if p != [] {
      Stepwise(p, path);
      if |path| == 1 {
        ChildDropped(h.children, i, p[0]);
        if p[0] == path[0] {
          BareHasNothing(h.children[i], p[1..], client);
          assert path[1..] == [] && NodeAt(h, path) == Some(h.children[i]);
        }
      } else {
        ChildUpdated(h.children, i, Unlink(h.children[i], path[1..]), p[0]);
        if p[0] == path[0] {
          UnlinkEffect(h.children[i], path[1..], p[1..], client);
        }
      }
    }
  }

  lemma {:induction false} UnlinkWellFormed(h: Hier, path: Path)
    requires WellFormed(h) && path != []
    ensures WellFormed(Unlink(h, path))
    decreases |path|
  {
    var i := IndexOf(h.children, path[0]);
    if i < |h.children| {
      if |path| == 1 {
        ChildDropped(h.children, i, path[0]);
      } else {
        UnlinkWellFormed(h.children[i], path[1..]);
        ChildUpdated(h.children, i, Unlink(h.children[i], path[1..]), path[0]);
      }
    }
  }

  /** Climbing loses no leaf, no retained message and no pinned node. */
  lemma {:induction false} ClimbEffect(root: Hier, path: Path, p: Path, client: ClientId)
    requires WellFormed(root)
    ensures WellFormed(Climb(root, path))
    ensures Climb(root, path).topic == root.topic
    ensures SubAt(Climb(root, path), p, client) == SubAt(root, p, client)
    ensures RetainedAt(Climb(root, path), p) == RetainedAt(root, p)
    ensures Pinned(p) && NodeAt(root, p).Some? ==> NodeAt(Climb(root, path), p).Some?
    decreases |path|
  {
    var n := NodeAt(root, path);
    if !Pinned(path) && n.Some? && Bare(n.value) {
      UnlinkEffect(root, path, p, client);
      UnlinkWellFormed(root, path);
      ClimbEffect(Unlink(root, path), path[..|path| - 1], p, client);
    }
  }

  /** The walk takes away the client's leaves at the listed nodes and nothing
      else: other clients, other nodes and retained messages stay. */
  lemma {:induction false} CleanAllEffect(root: Hier, nodes: seq<Option<Path>>, client: ClientId,
                                          p: Path, other: ClientId)
    requires WellFormed(root)
    ensures WellFormed(CleanAll(root, nodes, client))
    ensures CleanAll(root, nodes, client).topic == root.topic
    ensures SubAt(CleanAll(root, nodes, client), p, other) ==
            if other == client && Some(p) in nodes then None else SubAt(root, p, other)
    ensures RetainedAt(CleanAll(root, nodes, client), p) == RetainedAt(root, p)
    ensures Pinned(p) && NodeAt(root, p).Some? ==> NodeAt(CleanAll(root, nodes, client), p).Some?
    decreases |nodes|
  {
    if nodes != [] {
      var next := if nodes[0] == None then root else CleanNode(root, nodes[0].value, client);
      if nodes[0].Some? {
        DropLeafAtEffect(root, nodes[0].value, client, p, other);
        DropLeafAtWellFormed(root, nodes[0].value, client);
        ClimbEffect(DropLeafAt(root, nodes[0].value, client), nodes[0].value, p, other);
      }
      CleanAllEffect(next, nodes[1..], client, p, other);
      assert nodes == [nodes[0]] + nodes[1..];
      if Some(p) in nodes[1..] || nodes[0] != Some(p) {
        assert Some(p) in nodes <==> Some(p) in nodes[1..];
      }
    }
  }
}
