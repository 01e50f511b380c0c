/** The entry points of the subscription tree: they cut the string into
    tokens, pick the top-level node and start the walk below it. */
module SubRoot {
  import opened Common
  import opened Topics
  import opened SubTree
  import opened SubGather
  import opened Retained
  import opened SessionClean
  import opened Subscriptions
  import opened SubHierarchy
  import BrokerRuns

  /** A client with the list of the nodes it has leaves at, by their paths. */
  class Subscriber {
    const id: ClientId
    var nodes: seq<Option<Path>>

    constructor (id: ClientId)
      ensures this.id == id && nodes == []
    {
      this.id, nodes := id, [];
    }

    /** A new leaf is noted in the first empty slot. */
    method Note(p: Path)
      modifies this
      ensures nodes == BrokerRuns.Note(old(nodes), p)
    {
      var i := 0;
      while i < |nodes| && nodes[i].Some?
        invariant i <= |nodes| && nodes == old(nodes)
        invariant forall k :: 0 <= k < i ==> nodes[k].Some?
      {
        i := i + 1;
      }
      NoteSlot(nodes, p, i);
      nodes := if i < |nodes| then nodes[i := Some(p)] else nodes + [Some(p)];
    }

    static lemma {:induction false} NoteSlot(nodes: seq<Option<Path>>, p: Path, i: nat)
      requires i <= |nodes| && (i < |nodes| ==> nodes[i] == None) && forall k :: 0 <= k < i ==> nodes[k].Some?
      ensures BrokerRuns.Note(nodes, p) == if i < |nodes| then nodes[i := Some(p)] else nodes + [Some(p)]
    {
      if i > 0 { NoteSlot(nodes[1..], p, i - 1); }
    }

    /** A leaf that is gone leaves an empty slot. */
    method Forget(p: Path)
      modifies this
      ensures nodes == BrokerRuns.Forget(old(nodes), p)
    {
      var i := 0;
      while i < |nodes| && nodes[i] != Some(p)
        invariant i <= |nodes| && nodes == old(nodes)
        invariant forall k :: 0 <= k < i ==> nodes[k] != Some(p)
      {
        i := i + 1;
      }
      ForgetSlot(nodes, p, i);
      if i < |nodes| {
        nodes := nodes[i := None];
      }
    }

    static lemma {:induction false} ForgetSlot(nodes: seq<Option<Path>>, p: Path, i: nat)
      requires i <= |nodes| && (i < |nodes| ==> nodes[i] == Some(p)) && forall k :: 0 <= k < i ==> nodes[k] != Some(p)
      ensures BrokerRuns.Forget(nodes, p) == if i < |nodes| then nodes[i := None] else nodes
    {
      if i > 0 { ForgetSlot(nodes[1..], p, i - 1); }
    }
  }

  /** Continue at the top-level node `i` with all the tokens. */
  method SubscribeTop(root: SubHier, i: nat, tokens: Path, who: Option<ClientId>, qos: nat) returns (had: bool)
    requires root.Valid() && i < |root.children|
    modifies root.Repr
    ensures root.Valid() && fresh(root.Repr - old(root.Repr)) && |root.children| == |old(root.children)|
    ensures root.Model == old(root.Model).(children := old(root.Model).children[i :=
              Add(old(root.Model).children[i], tokens, who, qos)])
    ensures had <==> who.Some? && SubAt(old(root.Model).children[i], tokens, who.value).Some?
  {
    var top := root.children[i];
    assert top in root.children;
    label before:
    had := top.Subscribe(tokens, who, qos);
    root.OnlyBelow@before(i);
    root.Refresh(i);
  }

  /** The walk from the root: go on below the top-level node of the filter, or
      make one. */
  method AddPath(root: SubHier, client: ClientId, sub: string, qos: nat) returns (had: bool)
    requires root.Valid()
    modifies root.Repr
    ensures root.Valid() && fresh(root.Repr - old(root.Repr))
    ensures root.Model == AddTop(old(root.Model), Tokens(sub), Some(client), qos)
    ensures had <==> SubAt(old(root.Model), FullPath(sub), client).Some?
  {
    var tokens := Tokenise(sub);
    AtChild(root.Model, FullPath(sub), client);
    var i := root.FindChild(tokens[0]);
    hide AddLeaf, SubAt, Add;
    if i < |root.children| {
      had := SubscribeTop(root, i, tokens, Some(client), qos);
    } else {
      var child := new SubHier(tokens[0]);
      NothingBelow(tokens, client);
      had := child.Subscribe(tokens, Some(client), qos);
      root.PrependChild(child);
    }
  }

  lemma NothingBelow(tokens: Path, client: ClientId)
    requires tokens != []
    ensures SubAt(NewHier(tokens[0]), tokens, client) == None
  {
  }

  /** The tree and the client's list after a SUBSCRIBE; being subscribed
      already is no error. */
  method SubAdd(root: SubHier, client: Subscriber, sub: string, qos: nat)
    requires root.Valid()
    modifies root.Repr, client
    ensures root.Valid() && fresh(root.Repr - old(root.Repr))
    ensures root.Model == AddTop(old(root.Model), Tokens(sub), Some(client.id), qos)
    ensures client.nodes == if SubAt(old(root.Model), FullPath(sub), client.id).Some? then old(client.nodes)
                            else BrokerRuns.Note(old(client.nodes), FullPath(sub))
  {
    hide AddTop, SubAt, FullPath;
    var had := AddPath(root, client.id, sub, qos);
    if !had {
      client.Note(FullPath(sub));
    }
  }

  method RemovePath(root: SubHier, client: ClientId, sub: string) returns (had: bool)
    requires root.Valid()
    modifies root.Repr
    ensures root.Valid() && fresh(root.Repr - old(root.Repr))
    ensures root.Model == RemoveTop(old(root.Model), Tokens(sub), client)
    ensures had <==> SubAt(old(root.Model), FullPath(sub), client).Some?
  {
    var tokens := Tokenise(sub);
    AtChild(root.Model, FullPath(sub), client);
    had := false;
    var i := root.FindChild(tokens[0]);
    if i < |root.children| {
      var top := root.children[i];
      assert top in root.children;
      label before:
      had := top.Unsubscribe(tokens, client);
      root.OnlyBelow@before(i);
      root.Refresh(i);
    }
  }

  method SubRemove(root: SubHier, client: Subscriber, sub: string)
    requires root.Valid()
    modifies root.Repr, client
    ensures root.Valid() && fresh(root.Repr - old(root.Repr))
    ensures root.Model == RemoveTop(old(root.Model), Tokens(sub), client.id)
    ensures client.nodes == if SubAt(old(root.Model), FullPath(sub), client.id).Some?
                            then BrokerRuns.Forget(old(client.nodes), FullPath(sub)) else old(client.nodes)
  {
    hide RemoveTop, SubAt, FullPath;
    var had := RemovePath(root, client.id, sub);
    if had {
      client.Forget(FullPath(sub));
    }
  }

  /** One node of a client's list, found from the root: the two nodes that were
      there first are never unlinked. */
  method CleanAt(root: SubHier, path: Path, client: ClientId)
    requires root.Valid()
    modifies root.Repr
    ensures root.Valid() && fresh(root.Repr - old(root.Repr))
    ensures root.Model == CleanNode(old(root.Model), path, client)
  {
    CleanNodeIs(root.Model, path, client);
    hide CleanNode, Remove;
    if path == [] {
      var _ := root.DropLeafHere(client);
      return;
    }
    var i := root.FindChild(path[0]);
    if i < |root.children| {
      var found := root.CleanBelow(i, path[1..], client);
      if found && path[0] != "" && path[0] != "$SYS" {
        var top := root.children[i];
        assert top in root.children;
        if top.children == [] && top.subs == [] && top.retained == None {
          root.UnlinkChild(i);
        }
      }
    }
  }

  /** The end of a session: the client's leaves go, with what they leave bare,
      and its list is emptied. */
  method CleanSession(root: SubHier, client: Subscriber)
    requires root.Valid()
    modifies root.Repr, client
    ensures root.Valid() && fresh(root.Repr - old(root.Repr))
    ensures root.Model == CleanAll(old(root.Model), old(client.nodes), client.id) && client.nodes == []
  {
    hide CleanNode;
    var i, nodes := 0, client.nodes;
    while i < |nodes|
      invariant i <= |nodes| && root.Valid() && fresh(root.Repr - old(root.Repr))
      invariant CleanAll(root.Model, nodes[i..], client.id) == CleanAll(old(root.Model), nodes, client.id)
    {
      assert nodes[i..][1..] == nodes[i + 1..];
      if nodes[i].Some? {
        CleanAt(root, nodes[i].value, client.id);
      }
      i := i + 1;
    }
    client.nodes := [];
  }

  /** A publish searches below every top-level node named like its first
      token; a retained one makes sure its own path exists first. */
  method MessagesQueue(root: SubHier, topic: string, retain: bool, v: Option<StoreId>) returns (leaves: seq<Leaf>)
    requires root.Valid() && WellFormed(root.Model) && NoWild(topic)
    modifies root.Repr
    ensures root.Valid() && fresh(root.Repr - old(root.Repr))
    ensures root.Model == if retain then RetainTop(old(root.Model), Tokens(topic), v) else old(root.Model)
    ensures leaves == LeavesQueued(old(root.Model), Tokens(topic), retain)
  {
    var tokens := Tokenise(topic);
    FullPathWildFree(topic);
    leaves := [];
    var i := 0;
    ghost var was := root.Model;
    ghost var at := IndexOf(was.children, tokens[0]);
    while i < |root.children|
      invariant root.Valid() && fresh(root.Repr - old(root.Repr)) && i <= |root.children| == |was.children|
      invariant root.Model == if i > at && retain then RetainTop(was, tokens, v) else was
      invariant leaves == if i > at then LeavesQueued(was, tokens, retain) else []
    {
      OtherTops(was, tokens, v, i);
      TopTopic(root, i);
      if root.children[i].topic == tokens[0] {
        leaves := QueueTop(root, i, tokens, retain, v);
      }
      i := i + 1;
    }
  }

  lemma TopTopic(root: SubHier, i: nat)
    requires root.Valid() && i < |root.children|
    ensures root.children[i].topic == root.Model.children[i].topic
  {
    assert root.children[i] in root.children;
  }

  /** With distinct siblings only one top-level node is named like the token. */
  lemma OtherTops(h: Hier, tokens: Path, v: Option<StoreId>, i: nat)
    requires DistinctTopics(h.children) && tokens != [] && i < |h.children|
    ensures h.children[i].topic == tokens[0] <==> i == IndexOf(h.children, tokens[0])
    ensures |RetainTop(h, tokens, v).children| == |h.children|
    ensures RetainTop(h, tokens, v).children[i].topic == h.children[i].topic
    ensures i == IndexOf(h.children, tokens[0]) ==>
              RetainTop(h, tokens, v) == h.(children := h.children[i := Retaining(h.children[i], tokens, v)])
  {
    assert RetainTop(h, tokens, v).children[i].topic == h.children[i].topic;
  }

  method QueueTop(root: SubHier, i: nat, tokens: Path, retain: bool, v: Option<StoreId>) returns (leaves: seq<Leaf>)
    requires root.Valid() && i < |root.children| && WildFree(tokens) && tokens != []
    modifies root.Repr
    ensures root.Valid() && fresh(root.Repr - old(root.Repr)) && |root.children| == |old(root.children)|
    ensures leaves == LeavesReached((if retain then Add(old(root.Model).children[i], tokens, None, 0)
                                     else old(root.Model).children[i]).children, tokens)
    ensures root.Model == if retain then old(root.Model).(children := old(root.Model).children[i :=
                                           Retaining(old(root.Model).children[i], tokens, v)])
                          else old(root.Model)
  {
    ghost var cs := root.Model.children;
    if retain {
      var _ := SubscribeTop(root, i, tokens, None, 0);
    }
    leaves := SearchTop(root, i, tokens, retain, v, []);
    assert cs[i := cs[i]] == cs;
  }

  /** The leaves a publish meets below the root. */
  function LeavesQueued(root: Hier, tokens: Path, retain: bool): seq<Leaf>
    requires tokens != []
  {
    var top := Child(root.children, tokens[0]);
    if top == None then []
    else LeavesReached((if retain then Add(top.value, tokens, None, 0) else top.value).children, tokens)
  }

  method SearchTop(root: SubHier, i: nat, tokens: Path, retain: bool, v: Option<StoreId>, before: seq<Leaf>)
    returns (leaves: seq<Leaf>)
    requires root.Valid() && i < |root.children| && WildFree(tokens)
    modifies root.Repr
    ensures root.Valid() && fresh(root.Repr - old(root.Repr)) && |root.children| == |old(root.children)|
    ensures leaves == before + LeavesReached(old(root.Model).children[i].children, tokens)
    ensures root.Model == old(root.Model).(children := old(root.Model).children[i :=
              var top := old(root.Model).children[i];
              if retain then top.(children := SetRetained(top.children, tokens, v)) else top])
  {
    var top := root.children[i];
    assert top in root.children;
    label start:
    var found := top.Search(tokens, retain, v);
    root.OnlyBelow@start(i);
    root.Refresh(i);
    leaves := before + found;
  }

  method RetainQueue(root: SubHier, sub: string) returns (msgs: seq<StoreId>)
    requires root.Valid()
    ensures msgs == MsgsQueued(root.Model, Tokens(sub))
  {
    var tokens := Tokenise(sub);
    msgs := [];
    var i := root.FindChild(tokens[0]);
    if i < |root.children| {
      var top := root.children[i];
      assert top in root.children;
      var flag;
      flag, msgs := top.RetainSearch(tokens, 0);
    }
  }

  function MsgsQueued(root: Hier, tokens: Path): seq<StoreId>
    requires tokens != []
  {
    var top := Child(root.children, tokens[0]);
    if top == None then [] else MsgsOffered(top.value.children, tokens, 0)
  }
}
