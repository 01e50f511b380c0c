/** The subscription tree as the broker holds it: nodes that are edited in
    place, each method proved to do what the value-level edit says. */
module SubHierarchy {
  import opened Common
  import opened Topics
  import opened SubTree
  import opened Retained
  import opened SubGather

  class SubHier {
    const topic: string
    var children: seq<SubHier>
    var subs: seq<Leaf>
    var retained: Option<StoreId>

    ghost var Model: Hier          // the tree below this node, as a value
    ghost var Repr: set<SubHier>   // the nodes it is made of

    ghost predicate Valid()
      reads this, Repr
      decreases Repr
      ensures Valid() ==> this in Repr
    {
      this in Repr && (forall c :: c in children ==> c in Repr) && Owns() && Mirrors() &&
      (forall c :: c in children ==> c.Valid()) && Model.topic == topic
    }

    /** Every child has nodes of its own. */
    ghost predicate Owns()
      reads this, children
    {
      (forall c :: c in children ==> c in Repr && c.Repr <= Repr && this !in c.Repr) &&
      (forall i, j :: 0 <= i < j < |children| ==> children[i].Repr !! children[j].Repr)
    }

    ghost predicate Mirrors()
      reads this, children
    {
      Model.topic == topic && Model.subs == subs && Model.retained == retained &&
      |Model.children| == |children| &&
      forall i :: 0 <= i < |children| ==> Model.children[i] == children[i].Model
    }

    constructor (topic: string)
      ensures Valid() && fresh(Repr) && this.topic == topic && Model == NewHier(topic)
    {
      this.topic := topic;
      children, subs, retained := [], [], None;
      Model, Repr := NewHier(topic), {this};
    }

    /** Valid, except that child `i` has been edited below. */
    ghost predicate Loose(i: nat)
      reads this, children, set c, o | c in children && o in c.Repr :: o
    {
      i < |children| && this in Repr &&
      (forall c :: c in children ==> this !in c.Repr && c.Valid()) &&
      (forall k, l :: 0 <= k < l < |children| ==> children[k].Repr !! children[l].Repr) &&
      (forall k :: 0 <= k < |children| && k != i ==> children[k] in Repr && children[k].Repr <= Repr) &&
      Model.topic == topic && Model.subs == subs && Model.retained == retained &&
      |Model.children| == |children| && children[i].topic == Model.children[i].topic &&
      forall k :: 0 <= k < |children| && k != i ==> Model.children[k] == children[k].Model
    }

    ghost method Refresh(i: nat)
      requires Loose(i)
      modifies this`Model, this`Repr
      ensures Valid() && Repr == old(Repr) + children[i].Repr
      ensures Model == old(Model).(children := old(Model).children[i := children[i].Model])
    {
      Model := Model.(children := Model.children[i := children[i].Model]);
      Repr := Repr + children[i].Repr;
    }

    /** Editing below child `i` disturbs nothing else. */
    twostate lemma OnlyBelow(i: nat)
      requires old(Valid()) && unchanged(this) && i < |children|
      requires children[i].Valid() && fresh(children[i].Repr - old(children[i].Repr))
      requires forall k :: 0 <= k < |children| && k != i ==> unchanged(old(children[k].Repr))
      ensures Loose(i)
    {
      forall c | c in children ensures this !in c.Repr && c.Valid() {
        var k :| 0 <= k < |children| && children[k] == c;
        if k != i { Untouched(c); }
      }
      forall k | 0 <= k < |children| && k != i
        ensures children[k].Repr == old(children[k].Repr) && children[k].Model == old(children[k].Model)
      {
        Untouched(children[k]);
      }
      forall k, l | 0 <= k < l < |children| ensures children[k].Repr !! children[l].Repr {
        assert old(children[k].Repr !! children[l].Repr);
      }
    }

    static twostate lemma Untouched(c: SubHier)
      requires old(c.Valid()) && unchanged(old(c.Repr))
      ensures c.Valid() && c.Repr == old(c.Repr) && c.Model == old(c.Model)
    {
    }

    /** The index of the first child with this topic, by the sibling loop. */
    method FindChild(name: string) returns (i: nat)
      requires Valid()
      ensures i == IndexOf(Model.children, name)
    {
      i := 0;
      while i < |children| && children[i].topic != name
        invariant i <= |children|
        invariant forall k :: 0 <= k < i ==> children[k].topic != name
      {
        i := i + 1;
      }
      assert forall k :: 0 <= k < |children| ==>
                children[k] in children && Model.children[k].topic == children[k].topic;
      FirstIndex(Model.children, name, i);
    }

    static lemma FirstIndex(cs: seq<Hier>, name: string, i: nat)
      requires i <= |cs| && (i < |cs| ==> cs[i].topic == name)
      requires forall k :: 0 <= k < i ==> cs[k].topic != name
      ensures i == IndexOf(cs, name)
    {
    }

    // ------------------------------------------------------ subscribing

    method AddLeafHere(client: ClientId, qos: nat) returns (had: bool)
      requires Valid()
      modifies this`subs, this`Model
      ensures Valid() && Model == old(Model).(subs := AddLeaf(old(subs), client, qos))
      ensures had <==> LeafOf(old(subs), client).Some?
    {
      var i := 0;
      while i < |subs|
        invariant i <= |subs| && subs == old(subs) && Model == old(Model)
        invariant forall k :: 0 <= k < i ==> subs[k].client != client
      {
        if subs[i].client == client {
          FirstLeaf(subs, client, i);
          subs := subs[i := Leaf(client, qos)];
          Model := Model.(subs := subs);
          return true;
        }
        i := i + 1;
      }
      FirstLeaf(subs, client, i);
      subs := subs + [Leaf(client, qos)];
      Model := Model.(subs := subs);
      had := false;
    }

    static lemma FirstLeaf(ls: seq<Leaf>, client: ClientId, i: nat)
      requires i <= |ls| && (i < |ls| ==> ls[i].client == client)
      requires forall k :: 0 <= k < i ==> ls[k].client != client
      ensures i == LeafIndex(ls, client) && (i < |ls| <==> LeafOf(ls, client).Some?)
    {
      LeafOfIndex(ls, client);
    }

    /** Tells whether the client had a leaf there already, which keeps its place
        and changes its QoS only. */
    method Subscribe(tokens: Path, who: Option<ClientId>, qos: nat) returns (had: bool)
      requires Valid()
      modifies Repr
      ensures Valid() && fresh(Repr - old(Repr))
      ensures Model == Add(old(Model), tokens, who, qos)
      ensures had <==> who.Some? && SubAt(old(Model), tokens, who.value).Some?
      decreases |tokens|, 1
    {
      if tokens == [] {
        had := false;
        if who.Some? {
          had := AddLeafHere(who.value, qos);
        }
        return;
      }
      var i := FindChild(tokens[0]);
      AddSteps(Model, tokens, who, qos);
      if i == |children| {
        AppendChild(tokens[0]);
      }
      had := SubscribeBelow(i, tokens, who, qos);
    }

    /** Go on with the remaining tokens at child `i`. */
    method SubscribeBelow(i: nat, tokens: Path, who: Option<ClientId>, qos: nat) returns (had: bool)
      requires Valid() && i < |children| && tokens != []
      modifies Repr
      ensures Valid() && fresh(Repr - old(Repr))
      ensures Model == old(Model).(children := old(Model).children[i :=
                Add(old(Model).children[i], tokens[1..], who, qos)])
      ensures had <==> who.Some? && SubAt(old(Model).children[i], tokens[1..], who.value).Some?
      decreases |tokens|, 0
    {
      var branch := children[i];
      assert branch in children;
      label before:
      had := branch.Subscribe(tokens[1..], who, qos);
      OnlyBelow@before(i);
      Refresh(i);
    }

    static lemma AddSteps(h: Hier, tokens: Path, who: Option<ClientId>, qos: nat)
      requires tokens != []
      ensures var i := IndexOf(h.children, tokens[0]);
              var h' := if i < |h.children| then h else h.(children := h.children + [NewHier(tokens[0])]);
              Add(h, tokens, who, qos) ==
              h'.(children := h'.children[i := Add(h'.children[i], tokens[1..], who, qos)])
    {
      var i := IndexOf(h.children, tokens[0]);
      if i == |h.children| {
        var cs := h.children + [NewHier(tokens[0])];
        var sub := Add(NewHier(tokens[0]), tokens[1..], who, qos);
        assert cs[i := sub] == h.children + [sub];
      }
    }

    method AppendChild(name: string)
      requires Valid()
      modifies this`children, this`Model, this`Repr
      ensures Valid() && fresh(Repr - old(Repr))
      ensures |children| == |old(children)| + 1 && children[..|old(children)|] == old(children)
      ensures Model == old(Model).(children := old(Model).children + [NewHier(name)])
    {
      var branch := new SubHier(name);
      children := children + [branch];
      assert forall c :: c in children ==> c == branch || c in old(children);
      Model := Model.(children := Model.children + [NewHier(name)]);
      Repr := Repr + branch.Repr;
    }

    /** A subtree of its own becomes the first child. */
    method PrependChild(branch: SubHier)
      requires Valid() && branch.Valid() && branch.Repr !! Repr
      modifies this`children, this`Model, this`Repr
      ensures Valid() && Repr == old(Repr) + branch.Repr
      ensures Model == old(Model).(children := [branch.Model] + old(Model).children)
    {
      children := [branch] + children;
      Model := Model.(children := [branch.Model] + Model.children);
      Repr := Repr + branch.Repr;
      assert forall k :: 0 < k < |children| ==> children[k] == old(children)[k - 1];
      assert forall c :: c in children <==> c == branch || c in old(children);
      forall i, j | 0 <= i < j < |children| ensures children[i].Repr !! children[j].Repr {
        if i == 0 { assert children[j].Repr <= old(Repr); }
      }
    }

    // ---------------------------------------------------- unsubscribing

    method DropLeafHere(client: ClientId) returns (had: bool)
      requires Valid()
      modifies this`subs, this`Model
      ensures Valid() && Model == old(Model).(subs := DropLeaf(old(subs), client))
      ensures had <==> LeafOf(old(subs), client).Some?
    {
      var i := 0;
      while i < |subs|
        invariant i <= |subs| && subs == old(subs) && Model == old(Model)
        invariant forall k :: 0 <= k < i ==> subs[k].client != client
      {
        if subs[i].client == client {
          FirstLeaf(subs, client, i);
          subs := DropAt(subs, i);
          Model := Model.(subs := subs);
          return true;
        }
        i := i + 1;
      }
      FirstLeaf(subs, client, i);
      had := false;
    }

    /** Tells whether the client had a leaf there. */
    method Unsubscribe(tokens: Path, client: ClientId) returns (had: bool)
      requires Valid()
      modifies Repr
      ensures Valid() && fresh(Repr - old(Repr))
      ensures Model == Remove(old(Model), tokens, client)
      ensures had <==> SubAt(old(Model), tokens, client).Some?
      decreases |tokens|, 1
    {
      if tokens == [] {
        had := DropLeafHere(client);
        return;
      }
      had := false;
      var i := FindChild(tokens[0]);
      if i < |children| {
        had := UnsubscribeBelow(i, tokens, client);
        var branch := children[i];
        assert branch in children;
        if branch.children == [] && branch.subs == [] && branch.retained == None {
          UnlinkChild(i);
        }
      }
    }

    method UnsubscribeBelow(i: nat, tokens: Path, client: ClientId) returns (had: bool)
      requires Valid() && i < |children| && tokens != []
      modifies Repr
      ensures Valid() && fresh(Repr - old(Repr)) && |children| == |old(children)|
      ensures Model == old(Model).(children := old(Model).children[i :=
                Remove(old(Model).children[i], tokens[1..], client)])
      ensures had <==> SubAt(old(Model).children[i], tokens[1..], client).Some?
      decreases |tokens|, 0
    {
      var branch := children[i];
      assert branch in children;
      label before:
      had := branch.Unsubscribe(tokens[1..], client);
      OnlyBelow@before(i);
      Refresh(i);
    }

    method UnlinkChild(i: nat)
      requires Valid() && i < |children|
      modifies this`children, this`Model
      ensures Valid() && Model == old(Model).(children := DropAt(old(Model).children, i))
    {
      children := DropAt(children, i);
      Model := Model.(children := DropAt(Model.children, i));
      assert forall c :: c in children ==> c in old(children);
    }

    // ------------------------------------------------- cleaning a session

    /** A node of the client's list loses its leaf; bare nodes are unlinked from
        there upwards. */
    method Clean(path: Path, client: ClientId) returns (found: bool)
      requires Valid()
      modifies Repr
      ensures Valid() && fresh(Repr - old(Repr))
      ensures found <==> NodeAt(old(Model), path).Some?
      ensures Model == if found then Remove(old(Model), path, client) else old(Model)
      decreases |path|, 1
    {
      if path == [] {
        var _ := DropLeafHere(client);
        return true;
      }
      found := false;
      var i := FindChild(path[0]);
      if i < |children| {
        found := CleanBelow(i, path[1..], client);
        if found {
          var branch := children[i];
          assert branch in children;
          if branch.children == [] && branch.subs == [] && branch.retained == None {
            UnlinkChild(i);
          }
        }
      }
    }

    method CleanBelow(i: nat, path: Path, client: ClientId) returns (found: bool)
      requires Valid() && i < |children|
      modifies Repr
      ensures Valid() && fresh(Repr - old(Repr)) && |children| == |old(children)|
      ensures found <==> NodeAt(old(Model).children[i], path).Some?
      ensures Model == if found then old(Model).(children := old(Model).children[i :=
                                  Remove(old(Model).children[i], path, client)]) else old(Model)
      decreases |path|, 2
    {
      var branch := children[i];
      assert branch in children;
      label before:
      found := branch.Clean(path, client);
      OnlyBelow@before(i);
      Refresh(i);
      assert old(Model).children[i := old(Model).children[i]] == old(Model).children;
    }

    // ---------------------------------------------------- the publish search

    /** The leaves of this node are handed the message; a retained message
        also takes the slot. */
    method Process(setRetain: bool, v: Option<StoreId>) returns (leaves: seq<Leaf>)
      requires Valid()
      modifies this`retained, this`Model
      ensures Valid() && leaves == subs
      ensures Model == if setRetain then old(Model).(retained := v) else old(Model)
    {
      if setRetain {
        retained := v;
        Model := Model.(retained := v);
      }
      leaves := [];
      var i := 0;
      while i < |subs|
        invariant i <= |subs| && leaves == subs[..i]
      {
        leaves := leaves + [subs[i]];
        i := i + 1;
      }
      assert subs[..i] == subs;
    }

    /** The tree after the search: only the branches walked so far differ. */
    static function Searched(cs: seq<Hier>, tokens: Path, sets: bool, v: Option<StoreId>, i: nat): (r: seq<Hier>)
      requires i <= |cs|
      ensures |r| == |cs|
    {
      if sets then SetRetained(cs[..i], tokens, v) + cs[i..] else cs
    }

    method Search(tokens: Path, setRetain: bool, v: Option<StoreId>) returns (leaves: seq<Leaf>)
      requires Valid() && WildFree(tokens)
      modifies Repr
      ensures Valid() && fresh(Repr - old(Repr))
      ensures leaves == LeavesReached(old(Model).children, tokens)
      ensures Model == if setRetain then old(Model).(children := SetRetained(old(Model).children, tokens, v))
                       else old(Model)
      decreases |tokens|, 1
    {
      leaves := [];
      var i := 0;
      ghost var was := Model;
      ghost var cs := Model.children;
      SearchedEnds(cs, tokens, setRetain, v);
      while i < |children|
        invariant Valid() && fresh(Repr - old(Repr)) && i <= |children| == |cs|
        invariant Model == was.(children := Searched(cs, tokens, setRetain, v, i))
        invariant LeavesSoFar(cs, tokens, i, leaves)
      {
        SearchedNext(cs, tokens, setRetain, v, i);
        var found := SearchBranch(i, tokens, setRetain, v);
        LeavesNext(cs, tokens, i, leaves);
        leaves := leaves + found;
        i := i + 1;
      }
    }

    static ghost predicate LeavesSoFar(cs: seq<Hier>, tokens: Path, i: nat, leaves: seq<Leaf>) {
      i <= |cs| && leaves + LeavesReached(cs[i..], tokens) == LeavesReached(cs, tokens)
    }

    static lemma LeavesNext(cs: seq<Hier>, tokens: Path, i: nat, leaves: seq<Leaf>)
      requires i < |cs| && LeavesSoFar(cs, tokens, i, leaves)
      ensures LeavesSoFar(cs, tokens, i + 1, leaves + LeavesBranch(cs[i], tokens))
    {
      assert cs[i..][1..] == cs[i + 1..];
    }

    static lemma SearchedEnds(cs: seq<Hier>, tokens: Path, sets: bool, v: Option<StoreId>)
      ensures Searched(cs, tokens, sets, v, 0) == cs
      ensures Searched(cs, tokens, sets, v, |cs|) == if sets then SetRetained(cs, tokens, v) else cs
      ensures LeavesSoFar(cs, tokens, 0, [])
      ensures forall ls :: LeavesSoFar(cs, tokens, |cs|, ls) ==> ls == LeavesReached(cs, tokens)
    {
      assert cs[..0] == [] && cs[0..] == cs && cs[..|cs|] == cs && cs[|cs|..] == [];
    }

    static function BranchAfter(b: Hier, tokens: Path, sets: bool, v: Option<StoreId>): Hier {
      if sets then SetBranch(b, tokens, v) else b
    }

    static lemma SearchedNext(cs: seq<Hier>, tokens: Path, sets: bool, v: Option<StoreId>, i: nat)
      requires i < |cs|
      ensures Searched(cs, tokens, sets, v, i)[i] == cs[i]
      ensures Searched(cs, tokens, sets, v, i + 1) ==
              Searched(cs, tokens, sets, v, i)[i := BranchAfter(cs[i], tokens, sets, v)]
    {
    }

    /** What the loop does with one branch. */
    method SearchBranch(i: nat, tokens: Path, setRetain: bool, v: Option<StoreId>) returns (leaves: seq<Leaf>)
      requires Valid() && i < |children| && WildFree(tokens)
      modifies Repr
      ensures Valid() && fresh(Repr - old(Repr)) && |children| == |old(children)|
      ensures leaves == LeavesBranch(old(Model).children[i], tokens)
      ensures Model == old(Model).(children := old(Model).children[i :=
                BranchAfter(old(Model).children[i], tokens, setRetain, v)])
      decreases |tokens|, 0
    {
      hide LeavesReached, SetRetained;
      var branch := children[i];
      assert branch in children;
      leaves := [];
      label before:
      if tokens != [] && (branch.topic == tokens[0] || branch.topic == "+") {
        var sr := setRetain;
        if branch.topic == "+" {
          sr := false;
        }
        leaves := branch.Search(tokens[1..], sr, v);
        if |tokens| == 1 {
          var here := branch.Process(sr, v);
          leaves := leaves + here;
        }
      } else if branch.topic == "#" && branch.children == [] {
        leaves := branch.Process(false, v);
      }
      OnlyBelow@before(i);
      Refresh(i);
    }

    // ---------------------------------------------------- the retained search

    method RetainSearch(tokens: Path, level: nat) returns (flag: int, msgs: seq<StoreId>)
      requires Valid() && tokens != []
      ensures flag == OfferFlag(Model.children, tokens)
      ensures msgs == MsgsOffered(Model.children, tokens, level)
      decreases Repr, 1
    {
      flag, msgs := 0, [];
      var i := 0;
      MsgsEnds(Model.children, tokens, level);
      while i < |children|
        invariant i <= |children|
        invariant flag == if i == 0 then 0 else OfferFlag(Model.children, tokens)
        invariant MsgsSoFar(Model.children, tokens, level, i, msgs)
      {
        if tokens[0] == "#" && |tokens| == 1 {
          flag := -1;
        }
        HashAlone(tokens);
        MsgsNext(Model.children, tokens, level, i, msgs);
        var found := RetainBranch(i, tokens, level);
        msgs := msgs + found;
        i := i + 1;
      }
    }

    static lemma HashAlone(tokens: Path)
      ensures tokens == ["#"] <==> |tokens| == 1 && tokens[0] == "#"
    {
    }

    static ghost predicate MsgsSoFar(cs: seq<Hier>, tokens: Path, level: nat, i: nat, msgs: seq<StoreId>)
      requires tokens != []
    {
      i <= |cs| && msgs + MsgsOffered(cs[i..], tokens, level) == MsgsOffered(cs, tokens, level)
    }

    static lemma MsgsNext(cs: seq<Hier>, tokens: Path, level: nat, i: nat, msgs: seq<StoreId>)
      requires tokens != [] && i < |cs| && MsgsSoFar(cs, tokens, level, i, msgs)
      ensures MsgsSoFar(cs, tokens, level, i + 1, msgs + MsgsBranch(cs[i], tokens, level, i + 1 == |cs|))
    {
      assert cs[i..][1..] == cs[i + 1..];
    }

    static lemma MsgsEnds(cs: seq<Hier>, tokens: Path, level: nat)
      requires tokens != []
      ensures MsgsSoFar(cs, tokens, level, 0, [])
      ensures forall ms :: MsgsSoFar(cs, tokens, level, |cs|, ms) ==> ms == MsgsOffered(cs, tokens, level)
    {
      assert cs[0..] == cs && cs[|cs|..] == [];
    }

    /** What the loop does with one branch. */
    method RetainBranch(i: nat, tokens: Path, level: nat) returns (found: seq<StoreId>)
      requires Valid() && tokens != [] && i < |children|
      ensures found == MsgsBranch(Model.children[i], tokens, level, i + 1 == |children|)
      decreases Repr, 0
    {
      var branch := children[i];
      assert branch in children;
      HashAlone(tokens);
      found := [];
      if tokens[0] == "#" && |tokens| == 1 {
        if branch.retained.Some? {
          found := found + [branch.retained.value];
        }
        if branch.children != [] {
          var f, below := branch.RetainSearch(tokens, level + 1);
          found := found + below;
        }
      } else if branch.topic != "+" && (branch.topic == tokens[0] || tokens[0] == "+") {
        if |tokens| > 1 {
          var f, below := branch.RetainSearch(tokens[1..], level + 1);
          found := found + below;
          if f == -1 || (i + 1 == |children| && tokens[1] == "#" && level > 0) {
            if branch.retained.Some? {
              found := found + [branch.retained.value];
            }
          }
        } else {
          if branch.retained.Some? {
            found := found + [branch.retained.value];
          }
        }
      }
    }
  }
}
