/** A client's context in the broker: its message queue as a linked list with
    a tail pointer and two counters, and the store of messages the entries
    point into, with reference counts. */
module ClientContext {
  import opened Common
  import opened SubTree
  import opened ClientQueue
  import opened MsgStore
  import B = BrokerStore
  import W = ReleaseWalk

  class MsgNode {
    var next: MsgNode?
    var m: ClientMsg

    constructor (m: ClientMsg)
      ensures this.m == m && next == null
    {
      this.m := m;
      next := null;
    }
  }

  class Context {
    const id: ClientId
    const lim: Limits
    var connected: bool
    var isDropping: bool
    var msgs: MsgNode?
    var lastMsg: MsgNode?
    var msgCount: int
    var msgCount12: int
    var lastMid: Mid

    ghost var nodes: seq<MsgNode>
    ghost var list: seq<ClientMsg>     // the queue, as a value

    /** `nodes` is the chain of nodes from `msgs`, each in it once. */
    ghost predicate Chained()
      reads this`nodes, this`msgs, nodes`next
    {
      (forall i, j :: 0 <= i < j < |nodes| ==> nodes[i] != nodes[j]) &&
      msgs == NodeOr(0) &&
      forall i {:trigger nodes[i].next} :: 0 <= i < |nodes| ==> nodes[i].next == NodeOr(i + 1)
    }

    ghost predicate Spells()
      reads this`nodes, this`list, nodes`m
    {
      |list| == |nodes| &&
      forall i {:trigger list[i]} {:trigger nodes[i].m} :: 0 <= i < |nodes| ==> nodes[i].m == list[i]
    }

    ghost predicate Linked()
      reads this, nodes
    {
      Chained() && Spells()
    }

    ghost predicate TailKnown()
      reads this`nodes, this`lastMsg
    {
      lastMsg == if nodes == [] then null else nodes[|nodes| - 1]
    }

    ghost function NodeOr(i: nat): MsgNode?
      reads this`nodes
    {
      if i < |nodes| then nodes[i] else null
    }

    ghost predicate Valid()
      reads this, nodes
    {
      Linked() && TailKnown() && msgCount == |list| && msgCount12 == Count12(list)
    }

    ghost function Footprint(): set<object>
      reads this
    {
      {this as object} + set n: MsgNode | n in nodes :: n as object
    }

    constructor (id: ClientId, lim: Limits)
      ensures Valid() && fresh(Footprint()) && list == [] && this.id == id && this.lim == lim && !connected
    {
      this.id, this.lim, connected, isDropping := id, lim, false, false;
      msgs, lastMsg, msgCount, msgCount12, lastMid := null, null, 0, 0, 0;
      nodes, list := [], [];
    }

    // -------------------------------------------------------- list surgery

    /** A new entry goes behind the tail. */
    method Append(m: ClientMsg)
      requires Valid()
      modifies this, nodes
      ensures Valid() && list == old(list) + [m]
      ensures |nodes| == |old(nodes)| + 1 && nodes[..|old(nodes)|] == old(nodes) && fresh(nodes[|old(nodes)|])
      ensures connected == old(connected) && isDropping == old(isDropping) && lastMid == old(lastMid)
    {
      hide Chained, Count12;
      var node := new MsgNode(m);
      LinkTail(node);
      msgCount := msgCount + 1;
      if m.qos > 0 {
        msgCount12 := msgCount12 + 1;
      }
      Count12Append(list, m);
      list := list + [m];
    }

    method LinkTail(node: MsgNode)
      requires Chained() && TailKnown() && node !in nodes && node.next == null
      modifies this`msgs, this`lastMsg, this`nodes, nodes`next
      ensures Chained() && TailKnown() && nodes == old(nodes) + [node]
    {
      if lastMsg != null {
        lastMsg.next := node;
        lastMsg := node;
      } else {
        msgs := node;
        lastMsg := node;
      }
      nodes := nodes + [node];
    }

    /** Let the `i`-th entry make progress; its QoS stays. */
    method Rewrite(node: MsgNode, m: ClientMsg, ghost i: nat)
      requires Valid() && i < |nodes| && node == nodes[i] && m.qos == list[i].qos
      modifies node`m, this`list
      ensures Valid() && list == old(list)[i := m]
    {
      Count12Update(list, i, m);
      node.m := m;
      list := list[i := m];
    }

    lemma NodeFacts(node: MsgNode, i: nat)
      requires Valid() && i < |nodes| && node == nodes[i]
      ensures node.m == list[i] && node.next == NodeOr(i + 1) && |list| == |nodes|
    {
    }

    /** Unlink the `i`-th node, `last` being the one in front of it. */
    method Unlink(node: MsgNode, last: MsgNode?, ghost i: nat)
      requires Valid() && i < |nodes| && node == nodes[i]
      requires last == if i == 0 then null else nodes[i - 1]
      modifies this, nodes
      ensures Valid() && list == DropAt(old(list), i) && nodes == DropAt(old(nodes), i)
      ensures connected == old(connected) && isDropping == old(isDropping) && lastMid == old(lastMid)
    {
      hide Chained, Count12;
      UnlinkNode(node, last, i);
      msgCount := msgCount - 1;
      if node.m.qos > 0 {
        msgCount12 := msgCount12 - 1;
      }
      Count12Drop(list, i);
      list := DropAt(list, i);
    }

    method UnlinkNode(node: MsgNode, last: MsgNode?, ghost i: nat)
      requires Chained() && TailKnown() && i < |nodes| && node == nodes[i]
      requires last == if i == 0 then null else nodes[i - 1]
      modifies this`msgs, this`lastMsg, this`nodes, nodes`next
      ensures Chained() && TailKnown() && nodes == DropAt(old(nodes), i)
      ensures node.m == old(node.m)
    {
      if last != null {
        last.next := node.next;
        if last.next == null {
          lastMsg := last;
        }
      } else {
        msgs := node.next;
        if msgs == null {
          lastMsg := null;
        }
      }
      nodes := DropAt(nodes, i);
    }

    // ------------------------------------------------------------- removal

    /** Start the waiting entries at the head of the list. */
    method StartHead()
      requires Valid()
      modifies this, nodes
      ensures Valid() && list == PromoteHead(old(list), lim) && nodes == old(nodes)
      ensures connected == old(connected) && isDropping == old(isDropping) && lastMid == old(lastMid)
    {
      var tail := msgs;
      ghost var k := 0;
      ghost var target := PromoteHead(list, lim);
      HeadStart(list, lim);
      while tail != null && tail.m.state == Queued && lim.inflight > 0
        invariant Valid() && nodes == old(nodes) && k <= |nodes| && tail == NodeOr(k)
        invariant connected == old(connected) && isDropping == old(isDropping) && lastMid == old(lastMid)
        invariant HeadSoFar(list, lim, k, target)
        decreases |nodes| - k
      {
        assert tail == nodes[k] && tail.m == list[k];
        HeadStep(list, lim, k, target);
        Rewrite(tail, Started(tail.m, SendPubrec), k);
        tail := tail.next;
        k := k + 1;
      }
      assert tail != null ==> tail == nodes[k] && tail.m == list[k];
      HeadDone(list, lim, k, target);
    }

    static ghost predicate HeadSoFar(msgs: seq<ClientMsg>, lim: Limits, k: nat, target: seq<ClientMsg>) {
      k <= |msgs| && msgs[..k] + PromoteHead(msgs[k..], lim) == target
    }

    static lemma HeadStart(msgs: seq<ClientMsg>, lim: Limits)
      ensures HeadSoFar(msgs, lim, 0, PromoteHead(msgs, lim))
    {
      assert msgs[0..] == msgs;
    }

    static lemma HeadStep(msgs: seq<ClientMsg>, lim: Limits, k: nat, target: seq<ClientMsg>)
      requires k < |msgs| && msgs[k].state == Queued && lim.inflight > 0 && HeadSoFar(msgs, lim, k, target)
      ensures HeadSoFar(msgs[k := Started(msgs[k], SendPubrec)], lim, k + 1, target)
    {
      var after := msgs[k := Started(msgs[k], SendPubrec)];
      assert after[k + 1..] == msgs[k..][1..];
      assert after[..k + 1] == msgs[..k] + [after[k]];
    }

    static lemma HeadDone(msgs: seq<ClientMsg>, lim: Limits, k: nat, target: seq<ClientMsg>)
      requires HeadSoFar(msgs, lim, k, target)
      requires k == |msgs| || msgs[k].state != Queued || lim.inflight == 0
      ensures msgs == target
    {
      assert msgs[..k] + msgs[k..] == msgs;
    }

    /** Take the `i`-th entry out: its reference goes back, the links close
        around it, and waiting entries at the head are started. */
    method MessageRemove(db: StoreTable, node: MsgNode, last: MsgNode?, ghost i: nat) returns (next: MsgNode?)
      requires Valid() && i < |nodes| && node == nodes[i] && node.m.store in db.stores
      requires last == if i == 0 then null else nodes[i - 1]
      modifies this, nodes, db`stores
      ensures Valid() && nodes == DropAt(old(nodes), i) && list == PromoteHead(DropAt(old(list), i), lim)
      ensures next == NodeOr(i) && db.stores == Deref(old(db.stores), old(list)[i].store)
      ensures connected == old(connected) && isDropping == old(isDropping) && lastMid == old(lastMid)
    {
      db.Release(node.m.store);
      Unlink(node, last, i);
      if last != null {
        assert last == nodes[i - 1];
        next := last.next;
      } else {
        next := msgs;
      }
      StartHead();
    }

    // -------------------------------------------------------------- delete

    /** Where the pointers of a list walk stand. */
    ghost predicate At(i: nat, tail: MsgNode?, last: MsgNode?)
      reads this`nodes
    {
      i <= |nodes| && tail == NodeOr(i) && last == if i == 0 then null else nodes[i - 1]
    }

    method MessageDelete(db: StoreTable, mid: Mid, dir: Direction)
      requires Valid() && Backed(list, db.stores)
      modifies this, nodes, db`stores
      ensures Valid() && Backed(list, db.stores)
      ensures list == Delete(old(list), mid, dir, lim).msgs
      ensures db.stores == DerefAll(old(db.stores), StoresOf(Delete(old(list), mid, dir, lim).removed))
      ensures connected == old(connected)
    {
      hide OnTheWay, Backed;
      var tail := msgs;
      var last: MsgNode? := null;
      var msgIndex: nat := 0;
      var deleted := false;
      ghost var i := 0;
      ghost var goal := Goal(Delete(list, mid, dir, lim).msgs,
                             DerefAll(db.stores, StoresOf(Delete(list, mid, dir, lim).removed)));
      WayStart(list, mid, dir, lim, db.stores);
      while tail != null
        invariant Valid() && At(i, tail, last) && Within(old(nodes))
        invariant Backed(list, db.stores) && connected == old(connected)
        invariant OnTheWay(list, i, msgIndex, mid, dir, lim, deleted, db.stores, goal)
        decreases |nodes| - i
      {
        tail, last, msgIndex, deleted, i := DeleteStep(db, tail, last, msgIndex, mid, dir, deleted, i, goal);
        if msgIndex > lim.inflight && deleted {
          return;
        }
      }
      WayEnd(list, i, msgIndex, mid, dir, lim, deleted, db.stores, goal);
    }

    /** The body of the loop. */
    method DeleteStep(db: StoreTable, node: MsgNode, prev: MsgNode?, count: nat, mid: Mid, dir: Direction,
                      before: bool, ghost k: nat, ghost goal: Goal)
      returns (tail: MsgNode?, last: MsgNode?, msgIndex: nat, deleted: bool, ghost i: nat)
      requires Valid() && At(k, node, prev) && Backed(list, db.stores)
      requires OnTheWay(list, k, count, mid, dir, lim, before, db.stores, goal)
      modifies this, nodes, db`stores
      ensures Valid() && At(i, tail, last) && Backed(list, db.stores) && connected == old(connected)
      ensures if i == k then nodes == DropAt(old(nodes), k) else i == k + 1 && nodes == old(nodes)
      ensures if msgIndex > lim.inflight && deleted then list == goal.msgs && db.stores == goal.stores
              else OnTheWay(list, i, msgIndex, mid, dir, lim, deleted, db.stores, goal)
    {
      hide OnTheWay, Backed;
      tail, last, deleted, i := node, prev, before, k;
      msgIndex := count + 1;
      LookAt(db, tail, last, count, mid, dir, deleted, i, goal);
      if tail.m.mid == mid && tail.m.direction == dir {
        msgIndex := msgIndex - 1;
        tail := TakeEntry(db, tail, last, i, msgIndex, mid, dir, deleted, goal);
        deleted := true;
      } else {
        WayPass(list, i, count, mid, dir, lim, deleted, db.stores, goal);
        last := tail;
        tail := tail.next;
        i := i + 1;
      }
    }

    /** The entry the loop stands at, started if it is within the limit. */
    method LookAt(db: StoreTable, node: MsgNode, ghost prev: MsgNode?, count: nat, ghost mid: Mid,
                  ghost dir: Direction, ghost before: bool, ghost k: nat, ghost goal: Goal)
      requires Valid() && At(k, node, prev) && Backed(list, db.stores)
      requires OnTheWay(list, k, count, mid, dir, lim, before, db.stores, goal)
      modifies node`m, this`list
      ensures Valid() && Backed(list, db.stores) && list[k] == node.m == Touched(list[k], count + 1, lim)
      ensures OnTheWay(list, k, count, mid, dir, lim, before, db.stores, goal)
    {
      WayTouch(list, k, count, mid, dir, lim, before, db.stores, goal);
      TouchEntry(node, count + 1, k);
      assert node.m == list[k];
    }

    /** What the write loop has left: the entries from `i` on, and whether the
        one it stands at still waits. */
    ghost function Left(i: nat): int
      reads this`nodes, this`list
    {
      2 * (|nodes| - i) + if i < |list| && list[i].state == Queued then 1 else 0
    }

    lemma StillWithin(mid: seq<MsgNode>, was: seq<MsgNode>)
      requires Within(mid) && |mid| <= |was| && forall k :: 0 <= k < |mid| ==> mid[k] in was
      ensures Within(was)
    {
    }

    /** Only nodes that were there before are in the chain. */
    ghost predicate Within(was: seq<MsgNode>)
      reads this`nodes
    {
      |nodes| <= |was| && forall k :: 0 <= k < |nodes| ==> nodes[k] in was
    }

    /** One match of the delete loop is taken out. */
    method TakeEntry(db: StoreTable, node: MsgNode, last: MsgNode?, ghost i: nat, ghost index: nat,
                     ghost mid: Mid, ghost dir: Direction, ghost deleted: bool, ghost goal: Goal)
      returns (next: MsgNode?)
      requires Valid() && At(i, node, last) && Backed(list, db.stores)
      requires OnTheWay(list, i, index, mid, dir, lim, deleted, db.stores, goal)
      requires list[i] == Touched(list[i], index + 1, lim) && IsEntry(list[i], mid, dir)
      modifies this, nodes, db`stores
      ensures Valid() && At(i, next, last) && nodes == DropAt(old(nodes), i) && Backed(list, db.stores)
      ensures if index > lim.inflight then list == goal.msgs && db.stores == goal.stores
              else OnTheWay(list, i, index, mid, dir, lim, true, db.stores, goal)
      ensures connected == old(connected) && isDropping == old(isDropping) && lastMid == old(lastMid)
    {
      WayTake(list, i, index, mid, dir, lim, deleted, db.stores, goal);
      W.RemovedBacked(list, i, lim, db.stores);
      assert node.m == list[i];
      next := MessageRemove(db, node, last, i);
    }

    // ------------------------------------------------- walks that only look

    /** Find the incoming entry of a message by the id its sender gave it. */
    method StoreFind(db: StoreTable, mid: Mid) returns (stored: Option<StoreId>)
      requires Valid() && Backed(list, db.stores)
      ensures stored == FindIncoming(list, db.stores, mid)
    {
      var tail := msgs;
      ghost var i := 0;
      assert list[0..] == list;
      while tail != null
        invariant i <= |nodes| && tail == NodeOr(i)
        invariant FindIncoming(list[i..], db.stores, mid) == FindIncoming(list, db.stores, mid)
        decreases |nodes| - i
      {
        assert tail.m == list[i] && list[i..][0] == list[i] && list[i..][1..] == list[i + 1..];
        BackedDrop(list, i, db.stores);
        if db.stores[tail.m.store].sourceMid == mid && tail.m.direction == In {
          return Some(tail.m.store);
        }
        tail := tail.next;
        i := i + 1;
      }
      return None;
    }

    // ------------------------------------------------ walks that rewrite

    method MessageUpdate(mid: Mid, dir: Direction, state: MsgState) returns (found: bool)
      requires Valid()
      modifies this, nodes
      ensures Valid() && nodes == old(nodes) && connected == old(connected)
      ensures list == Update(old(list), mid, dir, state)
      ensures found <==> IndexOfEntry(old(list), mid, dir) < |old(list)|
    {
      var tail := msgs;
      ghost var i := 0;
      while tail != null
        invariant i <= |nodes| && tail == NodeOr(i)
        invariant forall k :: 0 <= k < i ==> !IsEntry(list[k], mid, dir)
        decreases |nodes| - i
      {
        assert tail.m == list[i];
        if tail.m.mid == mid && tail.m.direction == dir {
          FirstEntry(list, mid, dir, i);
          Rewrite(tail, tail.m.(state := state), i);
          return true;
        }
        tail := tail.next;
        i := i + 1;
      }
      FirstEntry(list, mid, dir, i);
      return false;
    }

    static lemma FirstEntry(ms: seq<ClientMsg>, mid: Mid, dir: Direction, i: nat)
      requires i <= |ms| && (i < |ms| ==> IsEntry(ms[i], mid, dir))
      requires forall k :: 0 <= k < i ==> !IsEntry(ms[k], mid, dir)
      ensures i == IndexOfEntry(ms, mid, dir)
    {
    }

    /** One client's part of the retry check; the clock is an argument. */
    method TimeoutCheck(expired: seq<bool>)
      requires Valid() && |expired| == |list|
      modifies this, nodes
      ensures Valid() && nodes == old(nodes) && list == Timeout(old(list), expired) && connected == old(connected)
    {
      var tail := msgs;
      var i := 0;
      ghost var was := list;
      while tail != null
        invariant Valid() && nodes == old(nodes) && i <= |nodes| && tail == NodeOr(i) && connected == old(connected)
        invariant |list| == |was| && forall k :: 0 <= k < |was| ==>
                    list[k] == if k < i then Retried(was[k], expired[k]) else was[k]
        decreases |nodes| - i
      {
        assert tail.m == list[i];
        if expired[i] && tail.m.state != Queued {
          var newState := RetryState(tail.m.state);
          if newState.Some? {
            Rewrite(tail, tail.m.(state := newState.value, dup := true), i);
          }
        }
        tail := tail.next;
        i := i + 1;
      }
      assert list == Timeout(was, expired);
    }

    /** On reconnect the queue has just been moved here: tail and counters are
        found again in the first pass, waiting entries started in the second. */
    method ReconnectReset()
      requires Linked() && forall k :: 0 <= k < |list| && list[k].direction == In ==> list[k].qos == 2
      modifies this, nodes
      ensures list != [] ==> Valid()
      ensures list == Reset(old(list), lim) && nodes == old(nodes)
    {
      hide Spells;
      ghost var was := list;
      var tail := msgs;
      var i := 0;
      msgCount := 0;
      msgCount12 := 0;
      ListSizes();
      while tail != null
        invariant Linked() && nodes == old(nodes) && i <= |nodes| == |list| && tail == NodeOr(i)
        invariant i > 0 ==> lastMsg == nodes[i - 1]
        invariant msgCount == i && msgCount12 == Count12(list[..i])
        invariant ResetUpTo(was, list, i)
        decreases |nodes| - i
      {
        lastMsg := tail;
        msgCount := msgCount + 1;
        var counts := ResetOne(tail, i);
        if counts {
          msgCount12 := msgCount12 + 1;
        }
        tail := tail.next;
        i := i + 1;
      }
      assert list[..i] == list;
      StartWithin(was);
    }

    lemma ListSizes()
      requires Spells()
      ensures |list| == |nodes| && list[..0] == []
    {
    }

    static ghost predicate ResetUpTo(was: seq<ClientMsg>, now: seq<ClientMsg>, i: nat) {
      |now| == |was| && forall k :: 0 <= k < |was| ==> now[k] == if k < i then ResetState(was[k]) else was[k]
    }

    /** One entry of the first pass; an incoming entry has QoS 2 and matches
        what the client has got, so its state stays. */
    method ResetOne(tail: MsgNode, ghost i: nat) returns (counts: bool)
      requires Linked() && i < |nodes| && tail == nodes[i]
      modifies tail`m, this`list
      ensures Linked() && |list| == |old(list)| && i < |list|
      ensures forall was :: ResetUpTo(was, old(list), i) ==> ResetUpTo(was, list, i + 1)
      ensures Count12(list[..i + 1]) == Count12(old(list)[..i]) + if counts then 1 else 0
    {
      assert tail.m == list[i];
      counts := tail.m.qos > 0;
      if tail.m.direction == Out {
        if tail.m.state != Queued {
          tail.m := ResetState(tail.m);
        }
      }
      Count12Append(list[..i], ResetState(list[i]));
      list := list[i := ResetState(list[i])];
      assert list[..i + 1] == old(list)[..i] + [list[i]];
    }

    /** The second pass: start waiting entries within the limit. */
    method StartWithin(ghost was: seq<ClientMsg>)
      requires Linked() && (list != [] ==> Valid()) && |was| == |list|
      requires ResetUpTo(was, list, |list|)
      modifies this`list, nodes`m
      ensures Linked() && (list != [] ==> Valid()) && nodes == old(nodes) && list == Reset(was, lim)
    {
      var tail := msgs;
      var count := 0;
      while tail != null && (lim.inflight == 0 || count < lim.inflight)
        invariant Linked() && (list != [] ==> Valid()) && count <= |nodes| && tail == NodeOr(count)
        invariant |list| == |was| && forall k :: 0 <= k < |was| ==>
                    list[k] == if k < count then ResetEntry(was[k], k, lim) else ResetState(was[k])
        invariant lim.inflight == 0 || count <= lim.inflight
        decreases |nodes| - count
      {
        assert tail.m == list[count];
        if tail.m.state == Queued {
          Rewrite(tail, tail.m.(state := StartState(tail.m.qos)), count);
        }
        tail := tail.next;
        count := count + 1;
      }
      assert list == Reset(was, lim);
    }

    // -------------------------------------------------------------- insert

    function VerdictOn(cfg: Config, s: Store, dir: Direction, qos: Qos, retain: bool): Verdict
      reads this
    {
      if AlreadySent(cfg, s, id, dir, retain) then Refuse(0)
      else Admit(lim, cfg, connected, msgCount12, dir, qos)
    }

    method MessageInsert(db: StoreTable, cfg: Config, mid: Mid, dir: Direction, qos: Qos, retain: bool, stored: StoreId)
      returns (rc: int)
      requires Valid() && stored in db.stores
      modifies this, nodes, db`stores
      ensures Valid() && connected == old(connected) && lastMid == old(lastMid)
      ensures forall k :: |old(nodes)| <= k < |nodes| ==> fresh(nodes[k])
      ensures var v := old(VerdictOn(cfg, db.stores[stored], dir, qos, retain));
              rc == v.rc &&
              if v.Refuse? then list == old(list) && nodes == old(nodes) && db.stores == old(db.stores)
              else list == old(list) + [ClientMsg(stored, mid, qos, retain, dir, v.state, false)] &&
                   |nodes| == |old(nodes)| + 1 && nodes[..|old(nodes)|] == old(nodes) &&
                   db.stores == Taken(cfg, old(db.stores), stored, id, dir, retain)
    {
      hide Chained, Spells, Taken, Count12;
      if !cfg.allowDuplicates && dir == Out && !retain {
        if id in db.stores[stored].destIds {
          return 0;
        }
      }
      if !connected {
        if qos == 0 && !cfg.queueQos0 {
          return 2;
        }
      }
      var state: MsgState;
      rc := 0;
      if connected {
        if qos == 0 || lim.inflight == 0 || msgCount12 < lim.inflight {
          if dir == Out {
            state := StartState(qos);
          } else {
            if qos == 2 {
              state := WaitForPubrel;
            } else {
              return 1;
            }
          }
        } else if lim.queued == 0 || msgCount12 - lim.inflight < lim.queued {
          state := Queued;
          rc := 2;
        } else {
          isDropping := true;
          return 2;
        }
      } else {
        if lim.queued > 0 && msgCount12 >= lim.queued {
          isDropping := true;
          return 2;
        } else {
          state := Queued;
        }
      }
      db.stores := Taken(cfg, db.stores, stored, id, dir, retain);
      Append(ClientMsg(stored, mid, qos, retain, dir, state, false));
    }

    /** Empty the queue, giving every reference back. */
    method MessagesDelete(db: StoreTable)
      requires Valid() && Backed(list, db.stores)
      modifies this, nodes, db`stores
      ensures Valid() && list == [] && db.stores == DerefAll(old(db.stores), StoresOf(old(list)))
      ensures connected == old(connected)
    {
      hide Backed, DerefAll, StoresOf, Deref;
      DerefWalk(db);
      msgs, lastMsg, msgCount, msgCount12 := null, null, 0, 0;
      nodes, list := [], [];
    }

    method DerefWalk(db: StoreTable)
      requires Valid() && Backed(list, db.stores)
      modifies db`stores
      ensures db.stores == DerefAll(old(db.stores), StoresOf(list))
    {
      hide Backed;
      var tail := msgs;
      ghost var i := 0;
      assert list[0..] == list;
      while tail != null
        invariant i <= |nodes| && tail == NodeOr(i)
        invariant Backed(list[i..], db.stores)
        invariant DerefAll(db.stores, StoresOf(list[i..])) == DerefAll(old(db.stores), StoresOf(list))
        decreases |nodes| - i
      {
        assert tail.m == list[i];
        DerefNext(list, i, db.stores);
        db.Release(tail.m.store);
        tail := tail.next;
        i := i + 1;
      }
      assert list[i..] == [];
    }

    static lemma DerefNext(ms: seq<ClientMsg>, i: nat, stores: Stores)
      requires i < |ms| && Backed(ms[i..], stores)
      ensures ms[i].store in stores && Backed(ms[i + 1..], Deref(stores, ms[i].store))
      ensures DerefAll(stores, StoresOf(ms[i..])) == DerefAll(Deref(stores, ms[i].store), StoresOf(ms[i + 1..]))
    {
      BackedDrop(ms[i..], 0, stores);
      assert DropAt(ms[i..], 0) == ms[i + 1..] && ms[i..][0] == ms[i];
      assert StoresOf(ms[i..])[1..] == StoresOf(ms[i + 1..]);
    }

    // --------------------------------------------------------------- write

    /** Offer every entry whose turn it is to the transport, which takes
        `budget` packets and then fails. */
    method MessageWrite(db: StoreTable, budget: nat) returns (sent: seq<Packet>, ok: bool)
      requires Valid() && Backed(list, db.stores)
      requires IncomingQos2(list)
      modifies this, nodes, db`stores
      ensures Valid() && Backed(list, db.stores) && connected == old(connected)
      ensures if !connected then !ok && sent == [] && list == old(list) && db.stores == old(db.stores)
              else var w := WriteFrom([], old(list), lim, budget, 0);
                   list == w.msgs && sent == w.sent && ok == w.ok &&
                   db.stores == DerefAll(old(db.stores), StoresOf(w.gone))
    {
      sent, ok := [], true;
      if !connected {
        return [], false;
      }
      hide Writing, Backed, Valid, WriteFrom, IncomingQos2, DerefAll, StoresOf;
      Heads();
      var tail := msgs;
      var last: MsgNode? := null;
      var msgCountIn: nat := 0;
      var left := budget;
      ghost var i: nat := 0;
      ghost var goal := WriteFrom([], list, lim, budget, 0);
      ghost var goalStores := DerefAll(db.stores, StoresOf(goal.gone));
      WritingStart(list, lim, budget, db.stores);
      while tail != null
        invariant Valid() && At(i, tail, last) && Within(old(nodes)) && connected && ok
        invariant Backed(list, db.stores)
        invariant Writing(list, i, lim, left, msgCountIn, sent, db.stores, goal, goalStores)
        decreases Left(i)
      {
        ghost var chain := nodes;
        tail, last, msgCountIn, left, sent, ok, i :=
          WriteStep(db, tail, last, msgCountIn, left, sent, i, goal, goalStores);
        StillWithin(chain, old(nodes));
        if !ok {
          return;
        }
      }
      AtTail(i, last);
      WritingEnd(list, i, lim, left, msgCountIn, sent, db.stores, goal, goalStores);
    }

    /** The body of the loop. */
    method WriteStep(db: StoreTable, node: MsgNode, prev: MsgNode?, countIn: nat, budget: nat, before: seq<Packet>,
                     ghost k: nat, ghost goal: Written, ghost goalStores: Stores)
      returns (tail: MsgNode?, last: MsgNode?, seen: nat, left: nat, sent: seq<Packet>, ok: bool, ghost i: nat)
      requires Valid() && At(k, node, prev) && Backed(list, db.stores)
      requires Writing(list, k, lim, budget, countIn, before, db.stores, goal, goalStores)
      modifies this, nodes, db`stores
      ensures Valid() && At(i, tail, last) && Backed(list, db.stores) && connected == old(connected)
      ensures Within(old(nodes)) && (ok ==> Left(i) < old(Left(k)))
      ensures if ok then Writing(list, i, lim, left, seen, sent, db.stores, goal, goalStores)
              else list == goal.msgs && sent == goal.sent && !goal.ok && db.stores == goalStores
    {
      hide Writing, Backed, PromoteHead, DropAt, WriteFrom, Deref, IncomingQos2, Count12, PacketFor, DerefAll,
           Valid;
      tail, last, left, sent, ok, i := node, prev, budget, before, true, k;
      NodeFacts(tail, k);
      seen := countIn + if tail.m.direction == In then 1 else 0;
      if tail.m.state == Queued {
        WritingQueued(list, k, lim, budget, countIn, before, db.stores, goal, goalStores);
        if tail.m.direction == In && (lim.inflight == 0 || seen < lim.inflight) {
          Rewrite(tail, tail.m.(state := SendPubrec), k);
          return;
        }
      } else if PacketFor(tail.m).Some? {
        WritingSend(list, k, lim, budget, countIn, before, db.stores, goal, goalStores);
        if budget == 0 {
          ok := false;
          return;
        }
        left := budget - 1;
        sent := sent + [PacketFor(tail.m).value];
        if tail.m.state == PublishQos0 {
          W.RemovedBacked(list, k, lim, db.stores);
          tail := MessageRemove(db, tail, last, k);
          return;
        }
        Rewrite(tail, AfterSend(tail.m), k);
      } else {
        WritingSkip(list, k, lim, budget, countIn, before, db.stores, goal, goalStores);
      }
      NodeFacts(tail, k);
      last := tail;
      tail := tail.next;
      i := k + 1;
    }

    // ------------------------------------------------------------- release

    method MidGenerate() returns (mid: Mid)
      modifies this`lastMid
      ensures mid == lastMid == NextMid(old(lastMid)) && 1 <= mid <= 0xffff
    {
      lastMid := (lastMid + 1) % 0x10000;
      if lastMid == 0 {
        lastMid := lastMid + 1;
      }
      mid := lastMid;
    }

    /** The client and the store, seen as a broker of one client. */
    ghost function AsBroker(stores: Stores): B.Broker
      reads this
    {
      B.Broker(stores, 0, [B.Session(id, connected, lastMid, list)], [], {}, [])
    }

    ghost predicate Shown(b: B.Broker, stores: Stores)
      reads this
    {
      b.clients == [B.Session(id, connected, lastMid, list)] && b.stores == stores
    }

    /** Hand a message on, as far as this client is its own subscriber: `own`
        are the granted QoS of its matching subscriptions. The message is
        protected while its subscribers are served. */
    method QueueOwn(db: StoreTable, cfg: Config, stored: StoreId, own: seq<Qos>, ghost b: B.Broker)
      requires Valid() && Shown(b, db.stores) && Backed(list, db.stores) && stored in RefsIn(list) &&
               stored in db.stores
      modifies this, nodes, db`stores
      ensures Valid() && Longer(nodes, old(nodes))
      ensures forall k :: |old(nodes)| <= k < |nodes| ==> fresh(nodes[k])
      ensures Shown(B.MessagesQueue(B.Setup(lim, cfg), b, stored, old(db.stores[stored].qos), W.OwnWork(own)),
                    db.stores)
    {
      hide Valid, Backed, B.DoWorks, W.OwnWork, W.Protected;
      var qos := db.stores[stored].qos;
      W.ProtectedStarts(list, db.stores, stored);
      db.stores := Ref(db.stores, stored);
      QueueEach(db, cfg, stored, qos, own, B.Protect(b, stored));
      db.Release(stored);
    }

    method QueueEach(db: StoreTable, cfg: Config, stored: StoreId, qos: Qos, own: seq<Qos>, ghost b: B.Broker)
      requires Valid() && Shown(b, db.stores) && W.Protected(list, db.stores, stored)
      modifies this, nodes, db`stores
      ensures Valid() && Longer(nodes, old(nodes)) && stored in db.stores
      ensures forall k :: |old(nodes)| <= k < |nodes| ==> fresh(nodes[k])
      ensures Shown(B.DoWorks(B.Setup(lim, cfg), b, stored, qos, W.OwnWork(own)), db.stores)
    {
      hide Valid, W.Protected, B.DoWork;
      ghost var chain, u, now := nodes, B.Setup(lim, cfg), b;
      LongerSelf(nodes);
      var i := 0;
      assert own[0..] == own;
      while i < |own|
        invariant i <= |own| && Valid() && Shown(now, db.stores) && W.Protected(list, db.stores, stored)
        invariant Longer(nodes, chain) && forall k :: |chain| <= k < |nodes| ==> fresh(nodes[k])
        invariant B.DoWorks(u, now, stored, qos, W.OwnWork(own[i..])) == B.DoWorks(u, b, stored, qos, W.OwnWork(own))
      {
        ghost var earlier := nodes;
        ghost var added := W.CopyAdds(u, now, stored, qos, own[i]);
        assert own[i..][1..] == own[i + 1..];
        W.WorkNext(u, now, stored, qos, own[i..]);
        QueueOne(db, cfg, stored, qos, own[i], now);
        LongerStill(nodes, earlier, chain);
        FrameKept(nodes, earlier, chain);
        now := B.DoWork(u, now, stored, qos, B.Copy(0, own[i]));
        i := i + 1;
      }
      W.InStores(list, db.stores, stored);
    }

    static lemma FrameKept(now: seq<MsgNode>, mid: seq<MsgNode>, was: seq<MsgNode>)
      requires Longer(now, mid) && Longer(mid, was)
      ensures |was| <= |mid| <= |now| && forall k :: |was| <= k < |mid| ==> now[k] == mid[k]
    {
    }

    static ghost predicate Longer(now: seq<MsgNode>, was: seq<MsgNode>) {
      |now| >= |was| && forall k :: 0 <= k < |was| ==> now[k] == was[k]
    }

    static lemma LongerStill(now: seq<MsgNode>, mid: seq<MsgNode>, was: seq<MsgNode>)
      requires Longer(now, mid) && Longer(mid, was)
      ensures Longer(now, was)
    {
    }

    static lemma LongerSelf(s: seq<MsgNode>)
      ensures Longer(s, s)
    {
    }

    /** One matching subscription of this client is served. */
    method QueueOne(db: StoreTable, cfg: Config, stored: StoreId, qos: Qos, granted: Qos, ghost b: B.Broker)
      requires Valid() && Shown(b, db.stores) && W.Protected(list, db.stores, stored)
      modifies this, nodes, db`stores
      ensures Valid() && Longer(nodes, old(nodes))
      ensures forall k :: |old(nodes)| <= k < |nodes| ==> fresh(nodes[k])
      ensures Shown(B.DoWork(B.Setup(lim, cfg), b, stored, qos, B.Copy(0, granted)), db.stores)
    {
      hide Chained, Spells, Count12, Taken, GrantedQos, W.Protected, B.DoWork, Admit, AlreadySent;
      W.InStores(list, db.stores, stored);
      W.CopyIs(B.Setup(lim, cfg), b, stored, qos, granted);
      var msgQos := GrantedQos(cfg, qos, granted);
      var mid := 0;
      if msgQos > 0 {
        mid := MidGenerate();
      }
      var rc := MessageInsert(db, cfg, mid, Out, msgQos, false, stored);
    }

    /** A PUBREL: every incoming entry with this id is handed on and taken
        out; entries that wait within the limit are started on the way, the
        incoming ones with a PUBREC. */
    method MessageRelease(db: StoreTable, cfg: Config, mid: Mid, own: seq<Qos>)
      returns (ok: bool, sent: seq<Packet>, handed: seq<StoreId>, ghost later: seq<seq<ClientMsg>>)
      requires Valid() && Backed(list, db.stores)
      modifies this, nodes, db`stores
      ensures Valid() && Backed(list, db.stores)
      ensures var begin := W.Begin(old(AsBroker(db.stores)), W.OwnWorks(own, |old(list)|));
              var end := W.Finish(B.Setup(lim, cfg), mid, begin);
              Shown(end.b, db.stores) && ok == end.deleted && sent == end.sent && handed == end.handed
      ensures var r := Sweep([], old(list), 0, mid, In, lim, true, false, later);
              list == r.msgs && sent == r.sent && (ok <==> r.removed != []) &&
              handed == HandedOn(old(db.stores), r.removed)
    {
      hide Valid, Backed, W.Finish, W.Good, W.Turn, Sweep, HandedOn;
      ghost var u, w := B.Setup(lim, cfg), W.Begin(AsBroker(db.stores), W.OwnWorks(own, |list|));
      W.BeginGood(own, w);
      ghost var r;
      later, r := W.FinishIsSweep(u, own, mid, w);
      W.BeginSweeps(u, mid, w, later, r);
      ghost var end := W.Finish(u, mid, w);
      var tail := msgs;
      var last: MsgNode? := null;
      var msgIndex: nat := 0;
      ok, sent, handed := false, [], [];
      assert At(0, tail, last) by { Heads(); }
      while tail != null
        invariant Valid() && Shown(w.b, db.stores) && W.Good(own, w) && At(w.i, tail, last)
        invariant forall k :: 0 <= k < |nodes| ==> nodes[k] in old(nodes) || fresh(nodes[k])
        invariant msgIndex == w.index && ok == w.deleted && sent == w.sent && handed == w.handed
        invariant |w.b.clients| == 1 && W.Finish(u, mid, w) == end && !(w.index > lim.inflight && w.deleted)
        decreases |w.works|, |nodes| - w.i
      {
        Whole(w, own);
        W.TurnShrinks(u, mid, w);
        W.FinishStep(u, mid, w);
        W.TurnGood(u, own, mid, w);
        W.TurnIndex(u, mid, w);
        var taken, pubrec, more;
        tail, last, taken, pubrec, more := ReleaseStep(db, cfg, own, mid, tail, last, msgIndex, w);
        w := W.Turn(u, mid, w);
        Sizes();
        msgIndex := msgIndex + 1;
        ok, sent, handed := ok || taken, sent + pubrec, handed + more;
        if msgIndex > lim.inflight && ok {
          return;
        }
      }
      AtEnd(w, last);
      W.FinishEnds(u, mid, w);
    }

    lemma Heads()
      requires Valid()
      ensures At(0, msgs, null)
    {
    }

    lemma Sizes()
      requires Valid()
      ensures |list| == |nodes|
    {
    }

    lemma Whole(w: W.Walk, own: seq<Qos>)
      requires Valid() && |w.b.clients| == 1 && w.b.clients[0].msgs == list && w.i <= |nodes| && NodeOr(w.i) != null
      ensures W.InQueue(w) && |list| == |nodes|
    {
    }

    lemma AtTail(i: nat, last: MsgNode?)
      requires Valid() && At(i, null, last)
      ensures i == |list|
    {
    }

    lemma AtEnd(w: W.Walk, last: MsgNode?)
      requires Valid() && |w.b.clients| == 1 && w.b.clients[0].msgs == list && At(w.i, null, last)
      ensures !W.InQueue(w)
    {
    }

    /** The body of the loop: one turn of the walk `w`. */
    method ReleaseStep(db: StoreTable, cfg: Config, own: seq<Qos>, mid: Mid, node: MsgNode, prev: MsgNode?, count: nat,
                       ghost w: W.Walk)
      returns (tail: MsgNode?, last: MsgNode?, taken: bool, pubrec: seq<Packet>, more: seq<StoreId>)
      requires Valid() && Shown(w.b, db.stores) && W.Good(own, w) && W.InQueue(w)
      requires At(w.i, node, prev) && count == w.index
      modifies this, nodes, db`stores
      ensures Valid() && forall j :: 0 <= j < |nodes| ==> nodes[j] in old(nodes) || fresh(nodes[j])
      ensures var next := W.Turn(B.Setup(lim, cfg), mid, w);
              Shown(next.b, db.stores) && At(next.i, tail, last) && next.deleted == (w.deleted || taken) &&
              next.sent == w.sent + pubrec && next.handed == w.handed + more
    {
      hide Valid, Backed, W.Handing, W.Turn, B.RemoveAt, Touched, TouchSends, PromoteHead, DropAt, W.OnlyOut, W.Good;
      ghost var u, s := B.Setup(lim, cfg), w.b.clients[0];
      W.TurnShape(u, mid, w);
      W.TouchedEntry(list[w.i], count + 1, lim);
      AtNode(w.i, node, prev);
      tail, last, taken, more := node, prev, false, [];
      pubrec := TouchSends(node.m, count + 1, lim, true);
      ghost var t := Touched(list[w.i], count + 1, lim);
      ghost var b1 := w.b.(clients := [s.(msgs := s.msgs[w.i := t])]);
      W.TouchGood(own, w, t);
      TouchEntry(node, count + 1, w.i);
      AtNode(w.i, node, prev);
      if tail.m.mid == mid && tail.m.direction == In {
        taken := true;
        ghost var added := W.HandingGood(u, own, b1, w.i, w.works);
        more := HandOn(db, cfg, own, tail, w.i, b1, w.works);
        ghost var b2 := W.Handing(u, b1, t, w.works);
        W.RemovedBacked(list, w.i, lim, b2.stores);
        W.RemovedIs(u, b2, w.i);
        StillAt(w.i, node);
        tail := MessageRemove(db, tail, last, w.i);
      } else {
        last := tail;
        NextOf(w.i, tail, prev);
        tail := tail.next;
        assert w.handed + [] == w.handed;
      }
    }

    lemma StillAt(k: nat, node: MsgNode)
      requires Valid() && k < |nodes| && nodes[k] == node
      ensures node.m == list[k]
    {
    }

    lemma AtNode(k: nat, node: MsgNode, prev: MsgNode?)
      requires Valid() && At(k, node, prev)
      ensures k < |nodes| == |list| && nodes[k] == node && node.m == list[k]
    {
    }

    lemma NextOf(k: nat, node: MsgNode, prev: MsgNode?)
      requires Valid() && At(k, node, prev)
      ensures At(k + 1, node.next, node)
    {
      assert nodes[k].next == NodeOr(k + 1);
    }

    /** Hand the message of the `k`-th entry on, if it has a topic. */
    method HandOn(db: StoreTable, cfg: Config, own: seq<Qos>, node: MsgNode, ghost k: nat, ghost b: B.Broker,
                  ghost works: seq<seq<B.Work>>)
      returns (more: seq<StoreId>)
      requires Valid() && Shown(b, db.stores) && k < |nodes| == |list| && node == nodes[k] && Backed(list, db.stores)
      requires works != [] && works[0] == W.OwnWork(own)
      modifies this, nodes, db`stores
      ensures Valid() && Longer(nodes, old(nodes))
      ensures forall j :: |old(nodes)| <= j < |nodes| ==> fresh(nodes[j])
      ensures Shown(W.Handing(B.Setup(lim, cfg), b, old(list)[k], works), db.stores)
      ensures more == (if old(list)[k].store in old(db.stores) && old(db.stores)[old(list)[k].store].topic.Some?
                       then [old(list)[k].store] else [])
    {
      hide Backed, Chained, Count12, B.MessagesQueue;
      StillAt(k, node);
      W.EntryIn(list, k, db.stores);
      LongerSelf(nodes);
      var stored := node.m.store;
      more := [];
      if db.stores[stored].topic.Some? {
        QueueOwn(db, cfg, stored, own, b);
        more := [stored];
      }
    }

    // -------------------------------------------------------- small steps

    /** Start the entry if it waits within the limit. */
    method TouchEntry(tail: MsgNode, msgIndex: nat, ghost i: nat)
      requires Valid() && i < |nodes| && tail == nodes[i]
      modifies tail`m, this`list
      ensures Valid() && list == old(list)[i := Touched(old(list)[i], msgIndex, lim)]
    {
      assert tail.m == list[i];
      if tail.m.state == Queued && msgIndex <= lim.inflight {
        if tail.m.direction == Out {
          Rewrite(tail, tail.m.(state := StartState(tail.m.qos)), i);
        } else {
          if tail.m.qos == 2 {
            Rewrite(tail, tail.m.(state := WaitForPubrel), i);
          }
        }
      }
      assert list[i := list[i]] == list;
    }
  }

  // ----------------------------------------------- the walk of the write loop

  /** From position `i` on, with these packets sent, the loop will arrive at
      the goal. */
  ghost predicate Writing(list: seq<ClientMsg>, i: nat, lim: Limits, budget: nat, seen: nat, sent: seq<Packet>,
                          stores: Stores, goal: Written, goalStores: Stores)
  {
    i <= |list| && IncomingQos2(list) &&
    (forall m :: m in list[i..] ==> m in list) &&
    var w := WriteFrom(list[..i], list[i..], lim, budget, seen);
    goal.msgs == w.msgs && goal.ok == w.ok && goal.sent == sent + w.sent &&
    goalStores == DerefAll(stores, StoresOf(w.gone))
  }

  lemma WritingStart(list: seq<ClientMsg>, lim: Limits, budget: nat, stores: Stores)
    requires IncomingQos2(list)
    ensures var w := WriteFrom([], list, lim, budget, 0);
            Writing(list, 0, lim, budget, 0, [], stores, w, DerefAll(stores, StoresOf(w.gone)))
  {
    assert list[..0] == [] && list[0..] == list;
  }

  lemma WritingEnd(list: seq<ClientMsg>, i: nat, lim: Limits, budget: nat, seen: nat, sent: seq<Packet>,
                   stores: Stores, goal: Written, goalStores: Stores)
    requires Writing(list, i, lim, budget, seen, sent, stores, goal, goalStores) && i == |list|
    ensures list == goal.msgs && sent == goal.sent && goal.ok && stores == goalStores
  {
    assert list[..i] == list && list[i..] == [];
  }

  lemma Next(list: seq<ClientMsg>, i: nat, m: ClientMsg)
    requires i < |list|
    ensures list[i := m][..i + 1] == list[..i] + [m]
    ensures list[i := m][i + 1..] == list[i..][1..] && list[i..][0] == list[i]
    ensures list[i := m][..i] == list[..i] && list[i := m][i..] == [m] + list[i..][1..]
    ensures list[..i] + list[i..] == list && list[i := list[i]] == list
  {
  }

  lemma WritingQueued(list: seq<ClientMsg>, i: nat, lim: Limits, budget: nat, seen: nat, sent: seq<Packet>,
                      stores: Stores, goal: Written, goalStores: Stores)
    requires Writing(list, i, lim, budget, seen, sent, stores, goal, goalStores)
    requires i < |list| && list[i].state == Queued
    ensures var t := list[i];
            var seen' := seen + if t.direction == In then 1 else 0;
            var t' := t.(state := SendPubrec);
            if t.direction == In && (lim.inflight == 0 || seen' < lim.inflight)
            then Writing(list[i := t'], i, lim, budget, seen', sent, stores, goal, goalStores) && t'.qos == t.qos &&
                 forall ss :: Backed(list, ss) ==> Backed(list[i := t'], ss)
            else Writing(list, i + 1, lim, budget, seen', sent, stores, goal, goalStores)
  {
    hide DerefAll, StoresOf, Backed, PromoteHead;
    Next(list, i, list[i]);
    Next(list, i, list[i].(state := SendPubrec));
    SameStores(list, list[i := list[i].(state := SendPubrec)]);
  }

  lemma SameStores(a: seq<ClientMsg>, b: seq<ClientMsg>)
    requires |a| == |b| && forall i :: 0 <= i < |a| ==> a[i].store == b[i].store
    ensures forall ss :: Backed(a, ss) ==> Backed(b, ss)
  {
    forall ss | Backed(a, ss) ensures Backed(b, ss) { SameStoresBacked(a, b, ss); }
  }

  lemma WritingSkip(list: seq<ClientMsg>, i: nat, lim: Limits, budget: nat, seen: nat, sent: seq<Packet>,
                    stores: Stores, goal: Written, goalStores: Stores)
    requires Writing(list, i, lim, budget, seen, sent, stores, goal, goalStores)
    requires i < |list| && list[i].state != Queued && PacketFor(list[i]) == None
    ensures Writing(list, i + 1, lim, budget, seen + (if list[i].direction == In then 1 else 0), sent,
                    stores, goal, goalStores)
  {
    Next(list, i, list[i]);
  }

  lemma WritingSend(list: seq<ClientMsg>, i: nat, lim: Limits, budget: nat, seen: nat, sent: seq<Packet>,
                    stores: Stores, goal: Written, goalStores: Stores)
    requires Writing(list, i, lim, budget, seen, sent, stores, goal, goalStores)
    requires i < |list| && list[i].state != Queued && PacketFor(list[i]).Some?
    ensures var t := list[i];
            var seen' := seen + if t.direction == In then 1 else 0;
            var sent' := sent + [PacketFor(t).value];
            if budget == 0 then list == goal.msgs && sent == goal.sent && !goal.ok && stores == goalStores
            else if t.state == PublishQos0 then
              Writing(PromoteHead(DropAt(list, i), lim), i, lim, budget - 1, seen', sent',
                      Deref(stores, t.store), goal, goalStores)
            else
              Writing(list[i := AfterSend(t)], i + 1, lim, budget - 1, seen', sent', stores, goal, goalStores) &&
              forall ss :: Backed(list, ss) ==> Backed(list[i := AfterSend(t)], ss)
  {
    var t := list[i];
    Next(list, i, t);
    if budget > 0 {
      if t.state == PublishQos0 {
        WritingGone(list, i, lim, budget, seen, sent, stores, goal, goalStores);
      } else {
        WritingKept(list, i, lim, budget, seen, sent, stores, goal, goalStores);
        SameStores(list, list[i := AfterSend(t)]);
      }
    }
  }

  lemma WritingKept(list: seq<ClientMsg>, i: nat, lim: Limits, budget: nat, seen: nat, sent: seq<Packet>,
                    stores: Stores, goal: Written, goalStores: Stores)
    requires Writing(list, i, lim, budget, seen, sent, stores, goal, goalStores) && budget > 0
    requires i < |list| && list[i].state != Queued && PacketFor(list[i]).Some? && list[i].state != PublishQos0
    ensures Writing(list[i := AfterSend(list[i])], i + 1, lim, budget - 1,
                    seen + (if list[i].direction == In then 1 else 0), sent + [PacketFor(list[i]).value],
                    stores, goal, goalStores)
  {
    Next(list, i, AfterSend(list[i]));
    var after := list[i := AfterSend(list[i])];
    forall m | m in after && m.direction == In ensures m.qos == 2 {
      var k :| 0 <= k < |after| && after[k] == m;
      assert list[k] in list;
    }
    forall m | m in after[i + 1..] ensures m in after {
    }
    var p := PacketFor(list[i]).value;
    var w := WriteFrom(after[..i + 1], after[i + 1..], lim, budget - 1, seen + if list[i].direction == In then 1
                       else 0);
    assert sent + ([p] + w.sent) == sent + [p] + w.sent && [] + w.gone == w.gone;
  }

  lemma WritingGone(list: seq<ClientMsg>, i: nat, lim: Limits, budget: nat, seen: nat, sent: seq<Packet>,
                    stores: Stores, goal: Written, goalStores: Stores)
    requires Writing(list, i, lim, budget, seen, sent, stores, goal, goalStores) && budget > 0
    requires i < |list| && list[i].state == PublishQos0
    ensures Writing(PromoteHead(DropAt(list, i), lim), i, lim, budget - 1,
                    seen + (if list[i].direction == In then 1 else 0), sent + [PacketFor(list[i]).value],
                    Deref(stores, list[i].store), goal, goalStores)
  {
    var rest := DropAt(list, i);
    var all := PromoteHead(rest, lim);
    assert list[..i] + list[i..][1..] == rest && list[i..][0] == list[i];
    PromoteKeeps(rest, lim);
    forall m | m in all && m.direction == In ensures m.qos == 2 {
      var k :| 0 <= k < |all| && all[k] == m;
      assert rest[k] in list;
    }
    var w := WriteFrom(all[..i], all[i..], lim, budget - 1, seen + if list[i].direction == In then 1 else 0);
    assert StoresOf([list[i]] + w.gone)[1..] == StoresOf(w.gone);
  }

  // ---------------------------------------------- the walk of the delete loop

  datatype Goal = Goal(msgs: seq<ClientMsg>, stores: Stores)

  /** From position `i` on, the loop will arrive at the goal. */
  ghost predicate OnTheWay(list: seq<ClientMsg>, i: nat, index: nat, mid: Mid, dir: Direction, lim: Limits,
                           deleted: bool, stores: Stores, goal: Goal)
  {
    i <= |list| && !(index > lim.inflight && deleted) &&
    var r := Sweep(list[..i], list[i..], index, mid, dir, lim, false, deleted, []);
    r.msgs == goal.msgs && DerefAll(stores, StoresOf(r.removed)) == goal.stores
  }

  lemma WayStart(list: seq<ClientMsg>, mid: Mid, dir: Direction, lim: Limits, stores: Stores)
    ensures var r := Delete(list, mid, dir, lim);
            OnTheWay(list, 0, 0, mid, dir, lim, false, stores, Goal(r.msgs, DerefAll(stores, StoresOf(r.removed))))
  {
    assert list[..0] == [] && list[0..] == list;
  }

  lemma WayEnd(list: seq<ClientMsg>, i: nat, index: nat, mid: Mid, dir: Direction, lim: Limits,
               deleted: bool, stores: Stores, goal: Goal)
    requires OnTheWay(list, i, index, mid, dir, lim, deleted, stores, goal) && i == |list|
    ensures list == goal.msgs && stores == goal.stores
  {
    assert list[..i] == list && list[i..] == [];
  }

  lemma WayTouch(list: seq<ClientMsg>, i: nat, index: nat, mid: Mid, dir: Direction, lim: Limits,
                 deleted: bool, stores: Stores, goal: Goal)
    requires OnTheWay(list, i, index, mid, dir, lim, deleted, stores, goal) && i < |list|
    ensures var after := list[i := Touched(list[i], index + 1, lim)];
            OnTheWay(after, i, index, mid, dir, lim, deleted, stores, goal) &&
            after[i] == Touched(after[i], index + 1, lim)
    ensures Backed(list, stores) ==> Backed(list[i := Touched(list[i], index + 1, lim)], stores)
  {
    var after := list[i := Touched(list[i], index + 1, lim)];
    TouchedTwice(list[i], index + 1, lim);
    assert after[..i] == list[..i] && after[i..][1..] == list[i..][1..];
    SameHead(list[..i], list[i..], after[i..], index, mid, dir, lim, deleted);
    SameStoresBacked(list, after, stores);
  }

  lemma SameHead(pre: seq<ClientMsg>, a: seq<ClientMsg>, b: seq<ClientMsg>, index: nat, mid: Mid, dir: Direction,
                 lim: Limits, deleted: bool)
    requires a != [] && b != [] && a[1..] == b[1..] && Touched(a[0], index + 1, lim) == Touched(b[0], index + 1, lim)
    ensures var x := Sweep(pre, a, index, mid, dir, lim, false, deleted, []);
            var y := Sweep(pre, b, index, mid, dir, lim, false, deleted, []);
            x.msgs == y.msgs && x.removed == y.removed
  {
  }

  lemma TouchedTwice(m: ClientMsg, index: nat, lim: Limits)
    ensures Touched(Touched(m, index, lim), index, lim) == Touched(m, index, lim)
    ensures Touched(m, index, lim).store == m.store
  {
  }

  lemma WayPass(list: seq<ClientMsg>, i: nat, index: nat, mid: Mid, dir: Direction, lim: Limits,
                deleted: bool, stores: Stores, goal: Goal)
    requires OnTheWay(list, i, index, mid, dir, lim, deleted, stores, goal) && i < |list|
    requires list[i] == Touched(list[i], index + 1, lim) && !IsEntry(list[i], mid, dir)
    ensures if index + 1 > lim.inflight && deleted then list == goal.msgs && stores == goal.stores
            else OnTheWay(list, i + 1, index + 1, mid, dir, lim, deleted, stores, goal)
  {
    assert list[i..][1..] == list[i + 1..] && list[..i] + [list[i]] == list[..i + 1];
    assert list[..i + 1] + list[i + 1..] == list;
  }

  lemma WayTake(list: seq<ClientMsg>, i: nat, index: nat, mid: Mid, dir: Direction, lim: Limits,
                deleted: bool, stores: Stores, goal: Goal)
    requires OnTheWay(list, i, index, mid, dir, lim, deleted, stores, goal) && i < |list|
    requires list[i] == Touched(list[i], index + 1, lim) && IsEntry(list[i], mid, dir)
    ensures var after := PromoteHead(DropAt(list, i), lim);
            if index > lim.inflight then after == goal.msgs && Deref(stores, list[i].store) == goal.stores
            else OnTheWay(after, i, index, mid, dir, lim, true, Deref(stores, list[i].store), goal)
  {
    var after := PromoteHead(DropAt(list, i), lim);
    assert list[..i] + list[i..][1..] + [] == DropAt(list, i) && list[i..][0] == list[i];
    if index <= lim.inflight {
      var r := Sweep(after[..i], after[i..], index, mid, dir, lim, false, true, []);
      var gone := [list[i]] + r.removed;
      assert StoresOf(gone)[1..] == StoresOf(r.removed);
    } else {
      var gone := [list[i]];
      assert StoresOf(gone) == [list[i].store] && StoresOf(gone)[1..] == [];
      assert DerefAll(Deref(stores, list[i].store), []) == Deref(stores, list[i].store);
    }
  }
}
