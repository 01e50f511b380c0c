/** States that do not come back from their backup as they were saved, with the
    exact chunks. */
module PersistExamples {
  import opened Common
  import opened Topics
  import opened SubTree
  import opened Subscriptions
  import BrokerExamples
  import BrokerLaws
  import BrokerRuns
  import opened Persist
  import opened PersistLaws
  import opened PersistLoad

  function Node(topic: string, children: seq<Hier>): Hier {
    Hier(topic, children, [], None)
  }

  function Leafy(topic: string, client: ClientId, qos: nat): Hier {
    Hier(topic, [], [Leaf(client, qos)], None)
  }

  /** The tree after one client has subscribed to "a" and to "/a". */
  function Clashing(c: ClientId): Hier {
    Node("", [Node("", [Node("", [Leafy("a", c, 0), Node("", [Leafy("a", c, 2)])])]), NewHier("$SYS")])
  }

  lemma Paths()
    ensures Tokens("a") == ["", "a"] && Tokens("/a") == ["", "", "a"]
    ensures FullPath("a") == ["", "", "a"] && FullPath("/a") == ["", "", "", "a"]
  {
    SplitNoSlash("a");
    BrokerExamples.SplitTwo("", "a");
    assert "" + "/" + "a" == "/a" && [""] + ["a"] == ["", "a"] && [""] + ["", "a"] == ["", "", "a"];
    assert [""] + ["", "", "a"] == ["", "", "", "a"];
  }

  /** "/a" is saved as "a". */
  lemma SlashLost()
    ensures NameOf(FullPath("/a")) == "a" == NameOf(FullPath("a"))
  {
    Paths();
    NameIs(FullPath("/a"));
    NameIs(FullPath("a"));
    var p, q := FullPath("/a"), FullPath("a");
    assert p[1..] == q && q[1..] == ["", "a"] && ["", "a"][1..] == ["a"];
    assert StripLead(["a"]) == ["a"] && StripLead(["", "a"]) == ["a"];
  }

  lemma AddCons(h: Hier, t: string, ts: Path, who: Option<ClientId>, qos: nat, i: nat)
    requires i <= |h.children| && forall k :: 0 <= k < i ==> h.children[k].topic != t
    requires i < |h.children| ==> h.children[i].topic == t
    ensures Add(h, [t] + ts, who, qos) ==
            if i < |h.children| then h.(children := h.children[i := Add(h.children[i], ts, who, qos)])
            else h.(children := h.children + [Add(NewHier(t), ts, who, qos)])
  {
    assert ([t] + ts)[1..] == ts;
    assert IndexOf(h.children, t) == i;
  }

  lemma AddHere(t: string, c: ClientId, qos: nat)
    ensures Add(NewHier(t), [], Some(c), qos) == Leafy(t, c, qos)
  {
    assert [] + [Leaf(c, qos)] == [Leaf(c, qos)];
  }

  lemma FirstAdded(c: ClientId)
    ensures Add(NewHier(""), ["", "a"], Some(c), 0) == Node("", [Node("", [Leafy("a", c, 0)])])
  {
    AddCons(NewHier(""), "", ["a"], Some(c), 0, 0);
    AddCons(NewHier(""), "a", [], Some(c), 0, 0);
    AddHere("a", c, 0);
    assert [""] + ["a"] == ["", "a"] && ["a"] + [] == ["a"];
    assert forall h: Hier :: [] + [h] == [h];
  }

  lemma SecondAdded(c: ClientId)
    ensures Add(Node("", [Node("", [Leafy("a", c, 0)])]), ["", "", "a"], Some(c), 2) ==
            Node("", [Node("", [Leafy("a", c, 0), Node("", [Leafy("a", c, 2)])])])
  {
    var inner := Node("", [Leafy("a", c, 0)]);
    AddCons(Node("", [inner]), "", ["", "a"], Some(c), 2, 0);
    AddCons(inner, "", ["a"], Some(c), 2, 1);
    AddCons(NewHier(""), "a", [], Some(c), 2, 0);
    AddHere("a", c, 2);
    assert [""] + ["", "a"] == ["", "", "a"] && [""] + ["a"] == ["", "a"] && ["a"] + [] == ["a"];
    assert [] + [Leafy("a", c, 2)] == [Leafy("a", c, 2)];
    assert [Leafy("a", c, 0)] + [Node("", [Leafy("a", c, 2)])] == [Leafy("a", c, 0), Node("", [Leafy("a", c, 2)])];
  }

  /** It is the tree of a run. */
  lemma ClashingRun(c: ClientId)
    ensures BrokerRuns.Run([BrokerRuns.Subscribe(c, "a", 0), BrokerRuns.Subscribe(c, "/a", 2)]).root == Clashing(c)
  {
    var none: seq<BrokerRuns.Op> := [];
    var first := none + [BrokerRuns.Subscribe(c, "a", 0)];
    assert first +
           [BrokerRuns.Subscribe(c, "/a", 2)] == [BrokerRuns.Subscribe(c, "a", 0), BrokerRuns.Subscribe(c, "/a", 2)];
    BrokerExamples.RunNext(none, BrokerRuns.Subscribe(c, "a", 0));
    BrokerExamples.RunNext(first, BrokerRuns.Subscribe(c, "/a", 2));
    FiltersOk();
    FirstTop(c);
    SecondTop(c);
  }

  lemma FiltersOk()
    ensures SubTopicOk("a") && SubTopicOk("/a")
  {
    SplitNoSlash("a");
    BrokerExamples.SplitTwo("", "a");
    assert "" + "/" + "a" == "/a";
  }

  lemma FirstTop(c: ClientId)
    ensures AddTop(BrokerRuns.OPENED.root, Tokens("a"), Some(c), 0) ==
            Node("", [Node("", [Node("", [Leafy("a", c, 0)])]), NewHier("$SYS")])
  {
    Paths();
    FirstAdded(c);
  }

  lemma SecondTop(c: ClientId)
    ensures AddTop(Node("", [Node("", [Node("", [Leafy("a", c, 0)])]), NewHier("$SYS")]), Tokens("/a"), Some(c), 2) ==
            Clashing(c)
  {
    Paths();
    SecondAdded(c);
  }

  /** The database of one lasting client with these two subscriptions. */
  function ClashDb(c: ClientId): Db {
    Db(0, [], [Session(c, 0, false, 0, [])], Clashing(c))
  }

  lemma ClashChunks(c: ClientId)
    ensures TreeChunks(ClashDb(c)) == [Sub(c, "a", 0), Sub(c, "a", 2)]
  {
    var db := ClashDb(c);
    assert db.clients[0] in db.clients;
    assert Lasting(db.clients, c);
    var a, e := Leafy("a", c, 0), Node("", [Leafy("a", c, 2)]);
    var d := Node("", [a, e]);
    LeafyChunks(db, c, 0);
    LeafyChunks(db, c, 2);
    ChunksOf(db, [Leafy("a", c, 2)]);
    ChunksOf(db, [a, e]);
    ChunksOf(db, [d]);
    ChunksOf(db, []);
    Forest(db, Leafy("a", c, 2), []);
    Forest(db, a, [e]);
    Forest(db, e, []);
    Forest(db, d, []);
    Forest(db, Node("", [d]), [NewHier("$SYS")]);
    Forest(db, NewHier("$SYS"), []);
    SysChunks(db);
    hide NodeChunks, ForestChunks, Lasting;
    assert [a, e] == [a] + [e];
  }

  /** What is saved for a bare node with these children, and for a list. */
  lemma ChunksOf(db: Db, cs: seq<Hier>)
    ensures NodeChunks(db, "", Node("", cs)) == ForestChunks(db, "", cs)
  {
    assert LeafChunks(db, "", []) == [] && RetainChunks(db, None) == [];
    assert [] + [] + ForestChunks(db, "", cs) == ForestChunks(db, "", cs);
  }

  lemma Forest(db: Db, h: Hier, cs: seq<Hier>)
    ensures ForestChunks(db, "", [h] + cs) == NodeChunks(db, "", h) + ForestChunks(db, "", cs)
    ensures ForestChunks(db, "", []) == []
  {
    assert ([h] + cs)[1..] == cs;
  }

  lemma SysChunks(db: Db)
    ensures NodeChunks(db, "", NewHier("$SYS")) == []
  {
  }

  lemma LeafyChunks(db: Db, c: ClientId, qos: nat)
    requires Lasting(db.clients, c)
    ensures NodeChunks(db, "", Leafy("a", c, qos)) == [Sub(c, "a", qos)]
  {
    var subs := [Leaf(c, qos)];
    assert subs[1..] == [] && LeafChunks(db, "a", []) == [] && RetainChunks(db, None) == [];
    assert LeafChunks(db, "a", subs) == [Sub(c, "a", qos)];
    assert ForestChunks(db, "a", []) == [];
  }

  lemma ClashSubs(c: ClientId)
    ensures SubAt(Clashing(c), FullPath("a"), c) == Some(0) && SubAt(Clashing(c), FullPath("/a"), c) == Some(2)
    ensures forall p :: RetainedAt(Clashing(c), p) == None
  {
    var r0, r1 := BrokerRuns.OPENED.root, AddTop(BrokerRuns.OPENED.root, Tokens("a"), Some(c), 0);
    Paths();
    FirstTop(c);
    SecondTop(c);
    BrokerRuns.OpenedAgrees();
    FiltersOk();
    FullPathValid("a");
    AddTopWellFormed(r0, Tokens("a"), Some(c), 0);
    hide AddTop, WellFormed, SubAt, RetainedAt;
    AddTopEffect(r0, Tokens("a"), Some(c), 0, FullPath("a"), c);
    AddTopEffect(r1, Tokens("/a"), Some(c), 2, FullPath("a"), c);
    AddTopEffect(r1, Tokens("/a"), Some(c), 2, FullPath("/a"), c);
    forall p ensures RetainedAt(Clashing(c), p) == None {
      AddTopEffect(r0, Tokens("a"), Some(c), 0, p, c);
      AddTopEffect(r1, Tokens("/a"), Some(c), 2, p, c);
      BrokerRuns.OpenedEmpty(p, c);
    }
  }

  lemma ClashConsistent(c: ClientId)
    requires c != ""
    ensures Consistent(ClashDb(c))
  {
    ClashSubs(c);
    ClashingRun(c);
    hide BrokerRuns.Run, Clashing, RetainedAt;
    RunConsistent([BrokerRuns.Subscribe(c, "a", 0), BrokerRuns.Subscribe(c, "/a", 2)], ClashDb(c));
  }

  /** Two filters of one client saved under one name: the later chunk decides,
      and the other subscription is gone. */
  lemma LaterFilterWins(c: ClientId, shutdown: bool)
    requires c != ""
    ensures SubAt(Clashing(c), FullPath("a"), c) == Some(0) && SubAt(Clashing(c), FullPath("/a"), c) == Some(2)
    ensures var r := Restore(BLANK, Backup(ClashDb(c), shutdown));
            r.Some? && SubAt(r.value.db.root, FullPath("a"), c) == Some(2) &&
            SubAt(r.value.db.root, FullPath("/a"), c) == None
  {
    ClashConsistent(c);
    ClashSubs(c);
    ClashChunks(c);
    LastOfTwo(c);
    OneSlotEachLoads(ClashDb(c));
    Regrown(ClashDb(c), shutdown);
    var r := Restore(BLANK, Backup(ClashDb(c), shutdown)).value;
    GrownSub(ClashDb(c), r, FullPath("a"), c);
    GrownSub(ClashDb(c), r, FullPath("/a"), c);
    hide *;
  }

  lemma GrownSub(db: Db, r: Loading, p: Path, c: ClientId)
    requires Grown(Flat(db), TreeChunks(db), r)
    ensures SubAt(r.db.root, p, c) == LastSub(TreeChunks(db), p, c)
  {
  }

  lemma LastOfTwo(c: ClientId)
    ensures LastSub([Sub(c, "a", 0), Sub(c, "a", 2)], FullPath("a"), c) == Some(2)
    ensures LastSub([Sub(c, "a", 0), Sub(c, "a", 2)], FullPath("/a"), c) == None
  {
    Paths();
    var chunks, one := [Sub(c, "a", 0), Sub(c, "a", 2)], [Sub(c, "a", 2)];
    var first := [Sub(c, "a", 0)];
    assert chunks[..1] == first && one[..0] == [] && first[..0] == [];
    assert |FullPath("a")| == 3 && |FullPath("/a")| == 4;
    assert LastSub(first, FullPath("/a"), c) == None;
  }

  /** A database whose slot of "a" holds a message of another topic, as it does
      when a retained QoS 1 PUBLISH to "a" used the id of a QoS 2 PUBLISH to "b"
      that still waits for its PUBREL. */
  function ReusedDb(retain: bool): Db {
    Db(1, [Store(1, "c", 1, 0, "b", 2, retain, "x")], [], BrokerRuns.Run([BrokerRuns.Publish("a", true, 1, true)]).root)
  }

  lemma ReusedSlot(p: Path)
    ensures RetainedAt(ReusedDb(true).root, p) == if p == FullPath("a") then Some(1) else None
  {
    var none: seq<BrokerRuns.Op> := [];
    var op := BrokerRuns.Publish("a", true, 1, true);
    assert none + [op] == [op];
    BrokerExamples.RunNext(none, op);
    BrokerLaws.RetainedStep(none, op, p);
    BrokerRuns.OpenedEmpty(p, "");
    BrokerRuns.OpenedTops("");
    Paths();
  }

  lemma ReusedConsistent(retain: bool)
    ensures Consistent(ReusedDb(retain))
  {
    var db := ReusedDb(retain);
    forall p | RetainedAt(db.root, p).Some? ensures RetainedFine(db.stores, RetainedAt(db.root, p).value) {
      ReusedSlot(p);
    }
    hide BrokerRuns.Run, RetainedAt;
    RunConsistent([BrokerRuns.Publish("a", true, 1, true)], db);
  }

  lemma ReusedOnly(retain: bool)
    ensures Consistent(ReusedDb(retain)) && Loadable(ReusedDb(retain)) && Waiting(ReusedDb(retain), 1) == 0
    ensures forall q :: RetainedAt(ReusedDb(retain).root, q) == if q == FullPath("a") then Some(1) else None
    ensures StoreOf(ReusedDb(retain).stores, 1) == Some(ReusedDb(retain).stores[0])
  {
    var db := ReusedDb(retain);
    ReusedConsistent(retain);
    forall q ensures RetainedAt(db.root, q) == if q == FullPath("a") then Some(1) else None { ReusedSlot(q); }
    OneSlotEachLoads(db);
  }

  /** The slot of "a" comes back empty, and that of "b" gets the message if the
      waiting one was to be retained; otherwise the message itself is freed. */
  lemma SlotMoves(retain: bool, shutdown: bool)
    ensures RetainedAt(ReusedDb(retain).root, FullPath("a")) == Some(1)
    ensures var r := Restore(BLANK, Backup(ReusedDb(retain), shutdown));
            r.Some? && RetainedAt(r.value.db.root, FullPath("a")) == None &&
            RetainedAt(r.value.db.root, FullPath("b")) == (if retain then Some(1) else None) &&
            (StoreOf(r.value.db.stores, 1).Some? <==> retain)
  {
    hide Restore, Backup, Consistent, RetainedAt, FullPath, TreeChunks, BrokerRuns.Run, Loadable, Lost, Exact, SubBack,
         PlainBack, Waiting;
    var db := ReusedDb(retain);
    ReusedOnly(retain);
    Restored(db, shutdown);
    StoreBackIff(db, shutdown, 1);
    forall p { SlotsOwn(db, shutdown, p, 1); }
    assert HoldsTopic(db, FullPath("a"), "b") <==> retain;
    var r := Restore(BLANK, Backup(db, shutdown)).value.db;
    assert TopicBack(db, r, "a") && TopicBack(db, r, "b");
    AtPath(db);
  }

  lemma AtPath(db: Db)
    requires StoreOf(db.stores, 1).Some? && !Sys(StoreOf(db.stores, 1).value.topic)
    requires RetainedAt(db.root, FullPath("a")) == Some(1)
    ensures Kept(db, 1)
  {
    assert FullPath("a") != [];
  }

  /** A retained message below a node that only a clean session's subscription
      made: it is freed when it is restored. */
  function DollarDb(c: ClientId): Db {
    Db(1, [Store(1, c, 0, 0, "$x/y", 0, true, "m")], [Session(c, 0, true, 0, [])],
       BrokerRuns.Run([BrokerRuns.Subscribe(c, "$x/y", 0), BrokerRuns.Publish("$x/y", true, 1, true)]).root)
  }

  lemma DollarPaths()
    ensures Tokens("$x/y") == ["$x", "y"] && SubTopicOk("$x/y")
  {
    BrokerExamples.SplitTwo("$x", "y");
    assert "$x" + "/" + "y" == "$x/y";
  }

  lemma DollarSlot(c: ClientId, p: Path)
    ensures RetainedAt(DollarDb(c).root, p) == if p == FullPath("$x/y") then Some(1) else None
  {
    var none: seq<BrokerRuns.Op> := [];
    var sub, pub := BrokerRuns.Subscribe(c, "$x/y", 0), BrokerRuns.Publish("$x/y", true, 1, true);
    assert none + [sub] == [sub] && [sub] + [pub] == [sub, pub];
    DollarPaths();
    BrokerRuns.RunAgrees(none);
    hide BrokerRuns.OPENED, AddTop, RetainedAt, Tokens;
    BrokerExamples.RunNext(none, sub);
    BrokerExamples.RunNext([sub], pub);
    BrokerLaws.RetainedStep(none, sub, p);
    BrokerLaws.RetainedStep([sub], pub, p);
    BrokerRuns.OpenedEmpty(p, "");
    AddTopChild(BrokerRuns.Run(none).root, Tokens("$x/y"), Some(c), 0, "$x");
  }

  lemma DollarConsistent(c: ClientId)
    requires c != ""
    ensures Consistent(DollarDb(c))
  {
    var db := DollarDb(c);
    forall p | RetainedAt(db.root, p).Some? ensures RetainedFine(db.stores, RetainedAt(db.root, p).value) {
      DollarSlot(c, p);
    }
    hide BrokerRuns.Run, RetainedAt;
    RunConsistent([BrokerRuns.Subscribe(c, "$x/y", 0), BrokerRuns.Publish("$x/y", true, 1, true)], db);
  }

  lemma DollarOnly(c: ClientId)
    requires c != ""
    ensures Consistent(DollarDb(c)) && Loadable(DollarDb(c)) && Waiting(DollarDb(c), 1) == 0 && Kept(DollarDb(c), 1)
    ensures forall q :: RetainedAt(DollarDb(c).root, q) == if q == FullPath("$x/y") then Some(1) else None
    ensures StoreOf(DollarDb(c).stores, 1) == Some(DollarDb(c).stores[0])
    ensures forall k :: !Lasting(DollarDb(c).clients, k)
  {
    var db := DollarDb(c);
    DollarConsistent(c);
    forall q ensures RetainedAt(db.root, q) == if q == FullPath("$x/y") then Some(1) else None { DollarSlot(c, q); }
    OneSlotEachLoads(db);
    hide Consistent, RetainedAt, FullPath, Loadable;
    assert RetainedAt(db.root, FullPath("$x/y")) == Some(1) && "$x/y"[1] != "$SYS"[1];
    assert Survivors(db.clients[1..]) == [];
  }

  lemma DollarFreed(c: ClientId, shutdown: bool)
    requires c != ""
    ensures RetainedAt(DollarDb(c).root, FullPath("$x/y")) == Some(1)
    ensures var r := Restore(BLANK, Backup(DollarDb(c), shutdown));
            r.Some? && RetainedAt(r.value.db.root, FullPath("$x/y")) == None && StoreOf(r.value.db.stores, 1) == None
  {
    hide Restore, Backup, Consistent, RetainedAt, FullPath, TreeChunks, BrokerRuns.Run, Loadable, Waiting, Kept,
         Lasting,
         SubAt;
    var db := DollarDb(c);
    DollarOnly(c);
    DollarPaths();
    DollarLost(db, shutdown, "$x/y");
    StoreBackIff(db, shutdown, 1);
    forall p { SlotsOwn(db, shutdown, p, 1); }
  }

  /** A message of topic "b" that two slots hold and no queue, as after two
      retained PUBLISH with its id and the PUBREL that lets it go. */
  const HELD_TWICE := [BrokerRuns.Publish("a", true, 1, true), BrokerRuns.Publish("d", true, 1, true)]

  function TwiceDb(): Db {
    Db(1, [Store(1, "c", 1, 0, "b", 2, false, "x")], [], BrokerRuns.Run(HELD_TWICE).root)
  }

  lemma TwiceSlots(p: Path)
    ensures RetainedAt(TwiceDb().root, p) ==
            if p == FullPath("a") || p == FullPath("d") then Some(1) else None
  {
    var none: seq<BrokerRuns.Op> := [];
    var one, two := HELD_TWICE[0], HELD_TWICE[1];
    assert none + [one] == [one] && [one] + [two] == HELD_TWICE;
    BrokerExamples.RunNext(none, one);
    BrokerExamples.RunNext([one], two);
    BrokerLaws.RetainedStep(none, one, p);
    BrokerLaws.RetainedStep([one], two, p);
    BrokerRuns.OpenedEmpty(p, "");
    TopStays(one);
    TokensFirst("a");
    TokensFirst("d");
  }

  lemma TopStays(op: BrokerRuns.Op)
    requires op.Publish?
    ensures Child(BrokerRuns.Run([]).root.children, "").Some? && Child(BrokerRuns.Run([op]).root.children, "").Some?
  {
    var none: seq<BrokerRuns.Op> := [];
    assert none + [op] == [op];
    BrokerExamples.RunNext(none, op);
    BrokerRuns.OpenedTops("");
    BrokerRuns.RunAgrees(none);
    hide BrokerRuns.OPENED;
    RetainTopChild(BrokerRuns.Run(none).root, Tokens(op.topic), if op.hasPayload then Some(op.stored) else None, "");
  }

  /** Its backup cannot be restored: the second chunk reads the freed message. */
  lemma TwiceFails(shutdown: bool)
    ensures Consistent(TwiceDb()) && Restore(BLANK, Backup(TwiceDb(), shutdown)) == None
  {
    var db := TwiceDb();
    forall p | RetainedAt(db.root, p).Some? ensures RetainedFine(db.stores, RetainedAt(db.root, p).value) {
      TwiceSlots(p);
    }
    TwiceSlots(FullPath("a"));
    TwiceSlots(FullPath("d"));
    SpelledFullPath("a");
    SpelledFullPath("d");
    hide BrokerRuns.Run, RetainedAt, FullPath;
    RunConsistent(HELD_TWICE, db);
    HeldTwiceFails(db, shutdown, FullPath("a"), FullPath("d"), 1);
  }
}
