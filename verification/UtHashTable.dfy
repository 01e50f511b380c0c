/** The hash table in memory: an array of bucket heads, a doubly linked chain
    for each bucket, and a doubly linked list through all elements in order of
    insertion. */
module UtHashTable {
  import opened Common
  import opened UtHash

  datatype Slot = Slot(hhHead: Handle?, count: nat, expandMult: nat)

  ghost function At(s: seq<Handle>, i: int): Handle? {
    if 0 <= i < |s| then s[i] else null
  }

  /** Neighbours in the list of all elements point at each other. */
  ghost predicate OrderLinked(s: seq<Handle>)
    reads s`next, s`prev
  {
    forall i {:trigger s[i].next} {:trigger s[i].prev} :: 0 <= i < |s| ==>
      s[i].next == At(s, i + 1) && s[i].prev == At(s, i - 1)
  }

  /** A bucket counts its chain, and neighbours in it point at each other. */
  ghost predicate InChain(s: seq<Handle>, slot: Slot, all: seq<Handle>)
    reads all`hhNext, all`hhPrev
  {
    slot.hhHead == At(s, 0) && slot.count == |s| && (forall i :: 0 <= i < |s| ==> s[i] in all) &&
    forall i {:trigger s[i].hhNext} {:trigger s[i].hhPrev} :: 0 <= i < |s| ==>
      s[i].hhNext == At(s, i + 1) && s[i].hhPrev == At(s, i - 1)
  }

  class HashTable {
    var head: Handle?
    var tail: Handle?
    var buckets: array<Slot>
    var log2: nat
    var numItems: nat
    var idealChainMaxlen: nat
    var nonidealItems: nat
    var ineffExpands: nat
    var noexpand: bool

    ghost var order: seq<Handle>
    ghost var chains: seq<seq<Handle>>
    ghost var mults: seq<nat>

    ghost predicate InOrder()
      reads this`head, this`tail, this`order, order`next, order`prev
    {
      head == At(order, 0) && (order != [] ==> tail == order[|order| - 1]) && OrderLinked(order)
    }

    /** `all` are elements that the chains are made of. */
    ghost predicate InBuckets(all: seq<Handle>)
      reads this`chains, this`mults, this`buckets, buckets, all`hhNext, all`hhPrev
    {
      buckets.Length == |chains| == |mults| &&
      (forall b {:trigger chains[b]} :: 0 <= b < |chains| ==> InChain(chains[b], buckets[b], all)) &&
      forall b :: 0 <= b < |mults| ==> mults[b] == buckets[b].expandMult
    }

    ghost function Model(): Table
      reads this
    {
      Table(order, chains, mults, log2, ineffExpands, noexpand)
    }

    ghost predicate Valid()
      reads this, buckets, order
    {
      InOrder() && InBuckets(order) && Sound(Model()) && numItems == |order|
    }

    constructor ()
      ensures Valid() && Model() == Fresh()
    {
      head, tail := null, null;
      buckets := new Slot[32](i => Slot(null, 0, 0));
      log2, numItems, idealChainMaxlen, nonidealItems, ineffExpands, noexpand := INITIAL_LOG2, 0, 0, 0, 0, false;
      order := [];
      chains, mults := Fresh().chains, Fresh().mults;
      new;
      InitialSize();
      FreshSound();
      assert Model() == Fresh();
    }

    // ------------------------------------------------------------- finding

    /** Walk along the chain of the bucket of the hash. */
    method FindKey(key: string, hashv: nat) returns (out: Handle?)
      requires Valid()
      ensures Find(Model(), key, hashv) == if out == null then None else Some(out)
    {
      var b := Bucket(hashv, buckets.Length);
      out := buckets[b].hhHead;
      ghost var i := 0;
      ghost var chain := chains[b];
      while out != null
        invariant 0 <= i <= |chain| && out == At(chain, i)
        invariant forall k :: 0 <= k < i ==> chain[k].key != key
        decreases |chain| - i
      {
        assert chain[i].hhNext == At(chain, i + 1);
        if out.key == key {
          break;
        }
        out := out.hhNext;
        i := i + 1;
      }
      IndexIs(chain, key, i);
    }

    // -------------------------------------------------------------- adding

    /** A new element goes behind the tail of the order. */
    method LinkTail(h: Handle)
      requires InOrder() && NoDup(order) && h !in order
      modifies this`head, this`tail, this`order, order`next, h`next, h`prev
      ensures InOrder() && order == old(order) + [h]
    {
      h.next := null;
      if head == null {
        head := h;
        h.prev := null;
        tail := h;
      } else {
        tail.next := h;
        h.prev := tail;
        tail := h;
      }
      order := order + [h];
    }

    /** A new element goes to the head of its bucket. */
    method PushChain(b: nat, h: Handle, ghost all: seq<Handle>)
      requires InBuckets(all) && b < |chains| && h in all && Apart(chains)
      requires forall c :: 0 <= c < |chains| ==> h !in chains[c]
      modifies this`chains, buckets, h`hhNext, h`hhPrev, all`hhPrev
      ensures InBuckets(all) && chains == old(chains)[b := [h] + old(chains)[b]] && buckets == old(buckets)
    {
      PushSlot(buckets, b, h, buckets[b].expandMult, chains, all);
      chains := chains[b := [h] + chains[b]];
    }

    /** Add an element under a new key. */
    method HashAdd(h: Handle)
      requires Valid() && h !in order && Lookup(order, h.key) == None
      modifies this, buckets, order, h
      ensures Valid() && Model() == UtHash.Add(old(Model()), h)
      ensures buckets == old(buckets) || fresh(buckets)
    {
      ghost var was := Model();
      AddSound(was, h);
      AddedPlaced(was, h);
      SoundSizes(was);
      hide *;
      Enter(h);
      Settle(was, h);
      NowValid(UtHash.Add(was, h));
    }

    method Settle(ghost was: Table, h: Handle)
      requires |was.chains| == |was.mults| > 0 && InOrder() && InBuckets(order) && Model() == Entered(was, h)
      requires Placed(order, chains) && NoDup(order) && numItems == |order| > 0
      modifies this`buckets, this`chains, this`mults, this`log2, this`idealChainMaxlen, this`nonidealItems,
               this`ineffExpands, this`noexpand, order`hhNext, order`hhPrev
      ensures InOrder() && InBuckets(order) && Model() == UtHash.Add(was, h) &&
              (buckets == old(buckets) || fresh(buckets))
    {
      hide *;
      var full := IsFull(was, h);
      if full {
        ExpandBuckets();
      }
    }

    /** Whether the bucket of the new element got too full. */
    method IsFull(ghost was: Table, h: Handle) returns (full: bool)
      requires |was.chains| == |was.mults| > 0 && InBuckets(order) && Model() == Entered(was, h)
      ensures UtHash.Add(was, h) == if full then Expand(Model()) else Model()
    {
      var b := Bucket(h.hashv, buckets.Length);
      CountOf(b);
      hide InBuckets, Expand, Bucket;
      full := buckets[b].count >= (buckets[b].expandMult + 1) * CAPACITY_THRESH && !noexpand;
    }

    lemma NowValid(t: Table)
      requires InOrder() && InBuckets(order) && numItems == |order| && Model() == t && Sound(t)
      ensures Valid()
    {
    }

    /** The element joins the order and its bucket. */
    method Enter(h: Handle)
      requires Valid() && h !in order && Lookup(order, h.key) == None
      modifies this, buckets, order, h
      ensures InOrder() && InBuckets(order) && numItems == |order| && buckets == old(buckets)
      ensures |old(Model()).chains| > 0 && Model() == Entered(old(Model()), h)
    {
      BeforeEnter(h);
      hide *;
      LinkBoth(h);
      numItems := numItems + 1;
    }

    lemma BeforeEnter(h: Handle)
      requires Valid() && h !in order
      ensures NoDup(order) && Apart(chains) && |chains| > 0 && InOrder() && InBuckets(order + [h]) &&
              numItems == |order|
      ensures forall c :: 0 <= c < |chains| ==> h !in chains[c]
    {
      KeysNoDup(order);
      SoundApart(Model());
      Longer(order, h);
      hide Sound, InOrder, InBuckets, Apart, NoDup;
    }

    method LinkBoth(h: Handle)
      requires InOrder() && InBuckets(order + [h]) && h !in order && NoDup(order) && Apart(chains) && |chains| > 0
      requires forall c :: 0 <= c < |chains| ==> h !in chains[c]
      modifies this`head, this`tail, this`order, this`chains, buckets, order`next, order`hhPrev, h
      ensures InOrder() && InBuckets(order) && order == old(order) + [h]
      ensures Model() == Entered(old(Model()), h)
    {
      hide InOrder, Apart, NoDup, InChain;
      LinkTail(h);
      assert buckets.Length == |chains|;
      var b := Bucket(h.hashv, buckets.Length);
      PushChain(b, h, order);
    }

    lemma CountOf(b: nat)
      requires InBuckets(order) && b < |chains|
      ensures buckets.Length == |chains| == |mults| && buckets[b].count == |chains[b]| &&
              buckets[b].expandMult == mults[b]
    {
      assert InChain(chains[b], buckets[b], order);
    }

    /** With a longer list of all elements the chains are the same. */
    lemma Longer(all: seq<Handle>, h: Handle)
      requires InBuckets(all)
      ensures InBuckets(all + [h])
    {
      forall b | 0 <= b < |chains| ensures InChain(chains[b], buckets[b], all + [h]) {
        assert InChain(chains[b], buckets[b], all);
      }
    }

    // ------------------------------------------------------------ deleting

    /** The `k`-th element leaves the list of all elements. */
    method UnlinkOrder(h: Handle, ghost k: nat)
      requires InOrder() && NoDup(order) && k < |order| && h == order[k] && |order| > 1
      modifies this`head, this`tail, this`order, order`next, order`prev
      ensures InOrder() && order == DropAt(old(order), k)
    {
      if h == tail {
        tail := h.prev;
      }
      if h.prev != null {
        h.prev.next := h.next;
      } else {
        head := h.next;
      }
      if h.next != null {
        h.next.prev := h.prev;
      }
      order := DropAt(order, k);
    }

    /** The `k`-th element of bucket `b` leaves its chain. */
    method UnlinkChain(b: nat, h: Handle, ghost k: nat, ghost all: seq<Handle>)
      requires InBuckets(all) && b < |chains| && k < |chains[b]| && h == chains[b][k]
      requires Apart(chains)
      modifies this`chains, buckets, all`hhNext, all`hhPrev
      ensures InBuckets(all) && chains == old(chains)[b := DropAt(old(chains)[b], k)] && buckets == old(buckets)
    {
      ghost var was := chains[b];
      var slot := buckets[b].(count := buckets[b].count - 1);
      if slot.hhHead == h {
        slot := slot.(hhHead := h.hhNext);
      }
      buckets[b] := slot;
      if h.hhPrev != null {
        assert h.hhPrev in was;
        h.hhPrev.hhNext := h.hhNext;
      }
      if h.hhNext != null {
        assert h.hhNext in was;
        h.hhNext.hhPrev := h.hhPrev;
      }
      chains := chains[b := DropAt(was, k)];
      assert forall i :: 0 <= i < |was| ==> was[i] in all;
      assert InChain(DropAt(was, k), buckets[b], all);
      forall c | 0 <= c < |chains| ensures InChain(chains[c], buckets[c], all) {
        if c != b { assert chains[c] == old(chains)[c]; }
      }
    }

    /** Delete an element; the last one takes the buckets with it. */
    method HashDelete(h: Handle)
      requires Valid() && h in order
      modifies this, buckets, order
      ensures Valid() && Model() == Delete(old(Model()), h)
      ensures buckets == old(buckets) || fresh(buckets)
    {
      ghost var was := Model();
      DeleteSound(was, h);
      ghost var k :| 0 <= k < |order| && order[k] == h;
      LastAlone(k);
      if h.prev == null && h.next == null {
        Clear();
      } else {
        hide Sound, Placed, InOrder, InBuckets, NoDup, Fresh;
        Leave(h, k);
      }
    }

    lemma LastAlone(k: nat)
      requires Valid() && k < |order|
      ensures order[k].prev == null && order[k].next == null <==> |order| == 1
    {
      KeysNoDup(order);
    }

    method Clear()
      modifies this
      ensures Valid() && Model() == Fresh() && fresh(buckets)
    {
      head, tail := null, null;
      buckets := new Slot[32](i => Slot(null, 0, 0));
      log2, numItems, idealChainMaxlen, nonidealItems, ineffExpands, noexpand := INITIAL_LOG2, 0, 0, 0, 0, false;
      order := [];
      chains, mults := Fresh().chains, Fresh().mults;
      InitialSize();
      FreshSound();
      assert Model() == Fresh();
    }

    /** The `k`-th element leaves the order and its bucket. */
    method Leave(h: Handle, ghost k: nat)
      requires Valid() && k < |order| && h == order[k] && |order| > 1
      modifies this, buckets, order
      ensures Valid() && Model() == Delete(old(Model()), h) && buckets == old(buckets)
    {
      ghost var was, all := Model(), order;
      ghost var c := BeforeLeave(h, k);
      hide *;
      UnlinkBoth(h, k, c);
      numItems := numItems - 1;
      Shorter(all);
      NowValid(Delete(was, h));
    }

    method UnlinkBoth(h: Handle, ghost k: nat, ghost c: nat)
      requires InOrder() && InBuckets(order) && k < |order| && h == order[k] && |order| > 1 && |chains| > 0
      requires NoDup(order) && Apart(chains)
      requires c < |chains[Bucket(h.hashv, |chains|)]| && h == chains[Bucket(h.hashv, |chains|)][c]
      modifies this`head, this`tail, this`order, this`chains, buckets, order`next, order`prev, order`hhNext,
               order`hhPrev
      ensures InOrder() && InBuckets(old(order)) && Model() == Left(old(Model()), h, k, c)
    {
      ghost var all := order;
      hide InOrder, Apart, NoDup, InChain, DropAt;
      UnlinkOrder(h, k);
      assert buckets.Length == |chains|;
      var b := Bucket(h.hashv, buckets.Length);
      UnlinkChain(b, h, c, all);
    }

    lemma BeforeLeave(h: Handle, k: nat) returns (c: nat)
      requires Valid() && k < |order| && h == order[k] && |order| > 1
      ensures NoDup(order) && Apart(chains) && |chains| > 0 && InOrder() && InBuckets(order)
      ensures c < |chains[Bucket(h.hashv, |chains|)]| && h == chains[Bucket(h.hashv, |chains|)][c]
      ensures Left(Model(), h, k, c) == Delete(Model(), h) && Sound(Delete(Model(), h))
      ensures var t := Delete(Model(), h); Placed(t.order, t.chains) && |t.order| == |order| - 1 == numItems - 1
    {
      var was := Model();
      DeleteSound(was, h);
      KeysNoDup(order);
      SoundApart(was);
      WithoutAt(order, h, k);
      c := InBucket(was, h);
      WithoutAt(chains[Bucket(h.hashv, |chains|)], h, c);
      KeptIn(was, h);
      hide Sound, NoDup, InOrder, InBuckets, Apart, Placed, Without, DropAt;
    }

    static function Left(t: Table, h: Handle, k: nat, c: nat): Table
      requires |t.chains| > 0 && k < |t.order| && c < |t.chains[Bucket(h.hashv, |t.chains|)]|
    {
      var b := Bucket(h.hashv, |t.chains|);
      t.(order := DropAt(t.order, k), chains := t.chains[b := DropAt(t.chains[b], c)])
    }

    static lemma InBucket(t: Table, h: Handle) returns (c: nat)
      requires Sound(t) && h in t.order
      ensures var chain := t.chains[Bucket(h.hashv, |t.chains|)]; c < |chain| && chain[c] == h && NoDup(chain)
    {
      var chain := t.chains[Bucket(h.hashv, |t.chains|)];
      assert h in chain;
      c :| 0 <= c < |chain| && chain[c] == h;
    }

    static lemma KeptIn(t: Table, h: Handle)
      requires Sound(t) && h in t.order && |t.order| > 1
      ensures Placed(Delete(t, h).order, Delete(t, h).chains) && |Delete(t, h).order| == |t.order| - 1
    {
      DeleteSound(t, h);
      KeysNoDup(t.order);
      WithoutHolds(t.order, h);
    }

    static lemma SoundSizes(t: Table)
      requires Sound(t)
      ensures |t.chains| == |t.mults| > 0
    {
    }

    /** The chains of a sound table are made of its elements. */
    lemma Shorter(all: seq<Handle>)
      requires InBuckets(all) && Placed(order, chains)
      ensures InBuckets(order)
    {
      forall b | 0 <= b < |chains| ensures InChain(chains[b], buckets[b], order) {
        assert InChain(chains[b], buckets[b], all);
        assert forall i :: 0 <= i < |chains[b]| ==> chains[b][i] in chains[b];
      }
    }

    // ------------------------------------------------------------ expanding

    /** One element goes to the head of its new bucket. */
    method MoveOne(newBuckets: array<Slot>, h: Handle, ghost visit: seq<Handle>, ghost done: nat,
                   ghost all: seq<Handle>)
      requires newBuckets.Length > 0 && idealChainMaxlen > 0 && done < |visit| && NoDup(visit) && h == visit[done] &&
               h in all
      requires New(newBuckets, Spread(visit[..done], newBuckets.Length), all, idealChainMaxlen)
      requires nonidealItems == Nonideal(Spread(visit[..done], newBuckets.Length), idealChainMaxlen)
      modifies newBuckets, this`nonidealItems, h`hhNext, h`hhPrev, all`hhPrev
      ensures New(newBuckets, Spread(visit[..done + 1], newBuckets.Length), all, idealChainMaxlen)
      ensures nonidealItems == Nonideal(Spread(visit[..done + 1], newBuckets.Length), idealChainMaxlen)
    {
      var b := Bucket(h.hashv, newBuckets.Length);
      ghost var before := Spread(visit[..done], newBuckets.Length);
      SpreadStep(visit, done, newBuckets.Length);
      SpreadApart(visit, done, newBuckets.Length);
      NonidealPush(before, b, h, idealChainMaxlen);
      hide Spread, Nonideal, InChain, Apart;
      var count, mult := newBuckets[b].count + 1, newBuckets[b].expandMult;
      Counts(before[b], newBuckets[b], all);
      if count > idealChainMaxlen {
        nonidealItems := nonidealItems + 1;
        mult := count / idealChainMaxlen;
      }
      PushSlot(newBuckets, b, h, mult, before, all);
    }

    /** The first `done` elements of `visit` are in the new buckets; the chains
        through the others are as they were. */
    ghost predicate Moving(nb: array<Slot>, visit: seq<Handle>, done: nat, nexts: seq<Handle?>)
      reads this`idealChainMaxlen, this`nonidealItems, this`order, nb, order`hhNext, order`hhPrev
    {
      idealChainMaxlen > 0 && nb.Length > 0 && done <= |visit| == |nexts| &&
      New(nb, Spread(visit[..done], nb.Length), order, idealChainMaxlen) &&
      nonidealItems == Nonideal(Spread(visit[..done], nb.Length), idealChainMaxlen) &&
      forall m {:trigger visit[m]} :: done <= m < |visit| ==> visit[m] in order && visit[m].hhNext == nexts[m]
    }

    method MoveStep(nb: array<Slot>, h: Handle, ghost visit: seq<Handle>, ghost done: nat, ghost nexts: seq<Handle?>)
      returns (next: Handle?)
      requires Moving(nb, visit, done, nexts) && NoDup(visit) && done < |visit| == |nexts| && h == visit[done]
      modifies nb, this`nonidealItems, order`hhNext, order`hhPrev
      ensures Moving(nb, visit, done + 1, nexts) && next == nexts[done]
    {
      hide New, Spread, Nonideal;
      assert visit[done] in order;
      next := h.hhNext;
      MoveOne(nb, h, visit, done, order);
    }

    /** The elements of one old bucket, along their chain. */
    method MoveChain(nb: array<Slot>, first: Handle?, ghost chain: seq<Handle>, ghost visit: seq<Handle>,
                     ghost from: nat,
                     ghost nexts: seq<Handle?>)
      requires Moving(nb, visit, from, nexts) && NoDup(visit) && first == At(chain, 0) &&
               ChainAt(visit, nexts, from, chain)
      modifies nb, this`nonidealItems, order`hhNext, order`hhPrev
      ensures Moving(nb, visit, from + |chain|, nexts)
    {
      var thh := first;
      ghost var k: nat := 0;
      hide Moving, NoDup, ChainAt;
      while thh != null
        invariant k <= |chain| && thh == At(chain, k) && Moving(nb, visit, from + k, nexts)
        decreases |chain| - k
      {
        AtChain(visit, nexts, from, chain, k);
        thh := MoveStep(nb, thh, visit, from + k, nexts);
        k := k + 1;
      }
    }

    /** Twice as many buckets, and every element moved to its new one. */
    method ExpandBuckets()
      requires InBuckets(order) && Placed(order, chains) && NoDup(order) && numItems == |order| > 0
      modifies this`buckets, this`chains, this`mults, this`log2, this`idealChainMaxlen, this`nonidealItems,
               this`ineffExpands,
               this`noexpand, order`hhNext, order`hhPrev
      ensures InBuckets(order) && Model() == Expand(old(Model())) && fresh(buckets)
    {
      hide Spread, Flatten, Nonideal, NoDup, Placed, New, Visits, Moving, Mults;
      ghost var was, n := Model(), 2 * |chains|;
      var newBuckets, visit, nexts := StartMove();
      MoveBuckets(newBuckets, visit, nexts);
      TakeNew(newBuckets, visit);
    }

    method StartMove() returns (newBuckets: array<Slot>, ghost visit: seq<Handle>, ghost nexts: seq<Handle?>)
      requires InBuckets(order) && Placed(order, chains) && numItems == |order| > 0
      modifies this`idealChainMaxlen, this`nonidealItems
      ensures fresh(newBuckets) && newBuckets.Length == 2 * buckets.Length && visit == Flatten(chains) && NoDup(visit)
      ensures idealChainMaxlen == Ideal(numItems, newBuckets.Length) && Moving(newBuckets, visit, 0, nexts)
      ensures forall b, k :: 0 <= b < |chains| && 0 <= k < |chains[b]| ==> Visits(chains, visit, nexts, b, k)
    {
      var n := 2 * buckets.Length;
      visit, nexts := OldLinks();
      newBuckets := new Slot[n](i => Slot(null, 0, 0));
      idealChainMaxlen := numItems / n + if numItems % n != 0 then 1 else 0;
      nonidealItems := 0;
      IdealPositive(numItems, n);
      StartNew(newBuckets, order, idealChainMaxlen);
      assert visit[..0] == [];
      hide New, Spread, Nonideal, Flatten, Placed, Visits, NoDup;
    }

    ghost method OldLinks() returns (visit: seq<Handle>, nexts: seq<Handle?>)
      requires InBuckets(order) && Placed(order, chains)
      ensures visit == Flatten(chains) && NoDup(visit) && |nexts| == |visit|
      ensures forall m {:trigger visit[m]} :: 0 <= m < |visit| ==> visit[m] in order && visit[m].hhNext == nexts[m]
      ensures forall b, k :: 0 <= b < |chains| && 0 <= k < |chains[b]| ==> Visits(chains, visit, nexts, b, k)
    {
      visit := Flatten(chains);
      VisitAll(order, chains);
      ghost var xs := visit;
      nexts := seq(|xs|, m requires 0 <= m < |xs| reads xs => xs[m].hhNext);
      hide Flatten, Placed, NoDup;
      assert forall m :: 0 <= m < |visit| ==> visit[m] in visit;
      forall b, k | 0 <= b < |chains| && 0 <= k < |chains[b]| ensures Visits(chains, visit, nexts, b, k) {
        FlattenAt(chains, b, k);
        NextInChain(chains[b], buckets[b], order, k);
      }
    }

    /** The new buckets take the place of the old ones. */
    method TakeNew(newBuckets: array<Slot>, ghost visit: seq<Handle>)
      requires idealChainMaxlen > 0 && newBuckets.Length > 0 && order != [] && numItems == |order|
      requires newBuckets.Length == 2 * buckets.Length == 2 * |chains| && visit == Flatten(chains)
      requires idealChainMaxlen == Ideal(numItems, newBuckets.Length)
      requires New(newBuckets, Spread(visit, newBuckets.Length), order, idealChainMaxlen)
      requires nonidealItems == Nonideal(Spread(visit, newBuckets.Length), idealChainMaxlen)
      modifies this`buckets, this`chains, this`mults, this`log2, this`ineffExpands, this`noexpand
      ensures InBuckets(order) && Model() == Expand(old(Model())) && buckets == newBuckets
    {
      hide *;
      ghost var was := Table(order, chains, mults, log2, ineffExpands, noexpand);
      ModelIs(was);
      ExpandIs(was, visit, idealChainMaxlen);
      log2 := log2 + 1;
      if nonidealItems > numItems / 2 {
        ineffExpands := ineffExpands + 1;
      } else {
        ineffExpands := 0;
      }
      if ineffExpands > 1 {
        noexpand := true;
      }
      buckets := newBuckets;
      chains := Spread(visit, newBuckets.Length);
      mults := Mults(chains, idealChainMaxlen);
      SameMults(newBuckets, chains, idealChainMaxlen);
      ModelIs(was.(chains := chains, mults := mults, log2 := log2, ineffective := ineffExpands, noexpand := noexpand));
    }

    lemma ModelIs(t: Table)
      requires t == Table(order, chains, mults, log2, ineffExpands, noexpand)
      ensures Model() == t
    {
    }

    static lemma ExpandIs(t: Table, visit: seq<Handle>, ideal: nat)
      requires |t.chains| > 0 && t.order != [] && visit == Flatten(t.chains) &&
               ideal == Ideal(|t.order|, 2 * |t.chains|) > 0
      ensures var chains := Spread(visit, 2 * |t.chains|);
              var ineffective := if Nonideal(chains, ideal) > |t.order| / 2 then t.ineffective + 1 else 0;
              Expand(t) == Table(t.order, chains, Mults(chains, ideal), t.log2 + 1, ineffective, t.noexpand ||
                                 ineffective > 1)
    {
    }

    lemma SameMults(nb: array<Slot>, now: seq<seq<Handle>>, ideal: nat)
      requires ideal > 0 && New(nb, now, order, ideal)
      ensures buckets == nb && chains == now && mults == Mults(now, ideal) ==> InBuckets(order)
    {
    }

    method MoveBuckets(nb: array<Slot>, ghost visit: seq<Handle>, ghost nexts: seq<Handle?>)
      requires InBuckets(order) && nb != buckets && visit == Flatten(chains) && NoDup(visit) &&
               Moving(nb, visit, 0, nexts)
      requires forall b, k :: 0 <= b < |chains| && 0 <= k < |chains[b]| ==> Visits(chains, visit, nexts, b, k)
      modifies nb, this`nonidealItems, order`hhNext, order`hhPrev
      ensures idealChainMaxlen > 0 && nb.Length > 0 && New(nb, Spread(visit, nb.Length), order, idealChainMaxlen)
      ensures nonidealItems == Nonideal(Spread(visit, nb.Length), idealChainMaxlen)
    {
      var i := 0;
      ghost var done: nat := 0;
      Heads();
      assert chains[..0] == [] && Flatten([]) == [];
      hide New, Spread, Nonideal, Moving, InChain, NoDup, Flatten, Visits, ChainAt;
      while i < buckets.Length
        invariant 0 <= i <= buckets.Length == |chains| && done == |Flatten(chains[..i])| <= |visit|
        invariant Moving(nb, visit, done, nexts)
        invariant forall b :: 0 <= b < |chains| ==> buckets[b].hhHead == At(chains[b], 0)
      {
        OneMore(chains, i);
        VisitsChain(chains, visit, nexts, i);
        SameLength(nb, visit, done, nexts);
        MoveChain(nb, buckets[i].hhHead, chains[i], visit, done, nexts);
        done := done + |chains[i]|;
        i := i + 1;
      }
      assert chains[..i] == chains && visit[..done] == visit;
      MovingDone(nb, visit, done, nexts);
    }

    lemma Heads()
      requires InBuckets(order)
      ensures buckets.Length == |chains| && forall b :: 0 <= b < |chains| ==> buckets[b].hhHead == At(chains[b], 0)
    {
    }

    lemma SameLength(nb: array<Slot>, visit: seq<Handle>, done: nat, nexts: seq<Handle?>)
      requires Moving(nb, visit, done, nexts)
      ensures |visit| == |nexts|
    {
    }

    lemma MovingDone(nb: array<Slot>, visit: seq<Handle>, done: nat, nexts: seq<Handle?>)
      requires Moving(nb, visit, done, nexts) && visit[..done] == visit
      ensures idealChainMaxlen > 0 && nb.Length > 0 && New(nb, Spread(visit, nb.Length), order, idealChainMaxlen)
      ensures nonidealItems == Nonideal(Spread(visit, nb.Length), idealChainMaxlen)
    {
    }
  }

  lemma NextInChain(s: seq<Handle>, slot: Slot, all: seq<Handle>, k: nat)
    requires InChain(s, slot, all) && k < |s|
    ensures s[k].hhNext == At(s, k + 1)
  {
  }

  /** Where the `k`-th element of bucket `b` is visited, and what came behind it. */
  ghost predicate Visits(chains: seq<seq<Handle>>, visit: seq<Handle>, nexts: seq<Handle?>, b: nat, k: nat)
    requires b < |chains| && k < |chains[b]|
  {
    var m := |Flatten(chains[..b])| + k;
    m < |visit| == |nexts| && visit[m] == chains[b][k] && nexts[m] == At(chains[b], k + 1)
  }

  lemma AtChain(visit: seq<Handle>, nexts: seq<Handle?>, from: nat, chain: seq<Handle>, k: nat)
    requires ChainAt(visit, nexts, from, chain) && k < |chain|
    ensures from + k < |visit| == |nexts| && visit[from + k] == chain[k] && nexts[from + k] == At(chain, k + 1)
  {
    assert LinkAt(visit, nexts, from, chain, k);
  }

  /** A chain is visited from `from` on. */
  ghost predicate ChainAt(visit: seq<Handle>, nexts: seq<Handle?>, from: nat, chain: seq<Handle>) {
    from + |chain| <= |visit| == |nexts| && forall k :: 0 <= k < |chain| ==> LinkAt(visit, nexts, from, chain, k)
  }

  ghost predicate LinkAt(visit: seq<Handle>, nexts: seq<Handle?>, from: nat, chain: seq<Handle>, k: nat)
    requires k < |chain|
  {
    from + k < |visit| == |nexts| && visit[from + k] == chain[k] && nexts[from + k] == At(chain, k + 1)
  }

  lemma VisitsChain(chains: seq<seq<Handle>>, visit: seq<Handle>, nexts: seq<Handle?>, b: nat)
    requires b < |chains| && |nexts| == |visit| && visit == Flatten(chains) &&
             forall k :: 0 <= k < |chains[b]| ==> Visits(chains, visit, nexts, b, k)
    ensures ChainAt(visit, nexts, |Flatten(chains[..b])|, chains[b])
  {
    OneMore(chains, b);
    var from := |Flatten(chains[..b])|;
    hide Flatten, LinkAt;
    forall k | 0 <= k < |chains[b]| ensures LinkAt(visit, nexts, from, chains[b], k) {
      VisitAt(chains, visit, nexts, b, k);
    }
  }

  lemma VisitAt(chains: seq<seq<Handle>>, visit: seq<Handle>, nexts: seq<Handle?>, b: nat, k: nat)
    requires b < |chains| && k < |chains[b]| && Visits(chains, visit, nexts, b, k)
    ensures LinkAt(visit, nexts, |Flatten(chains[..b])|, chains[b], k)
  {
  }

  lemma {:induction false} FlattenMember(chains: seq<seq<Handle>>, h: Handle) returns (b: nat)
    requires h in Flatten(chains)
    ensures b < |chains| && h in chains[b]
  {
    if h in chains[0] {
      b := 0;
    } else {
      b := FlattenMember(chains[1..], h);
      b := b + 1;
    }
  }

  lemma {:induction false} FlattenConcat(a: seq<seq<Handle>>, b: seq<seq<Handle>>)
    ensures Flatten(a + b) == Flatten(a) + Flatten(b)
  {
    if a == [] {
      assert a + b == b;
    } else {
      assert (a + b)[1..] == a[1..] + b;
      FlattenConcat(a[1..], b);
    }
  }

  lemma FlattenAt(chains: seq<seq<Handle>>, b: nat, k: nat)
    requires b < |chains| && k < |chains[b]|
    ensures var m := |Flatten(chains[..b])| + k; m < |Flatten(chains)| && Flatten(chains)[m] == chains[b][k]
  {
    assert chains == chains[..b] + chains[b..];
    FlattenConcat(chains[..b], chains[b..]);
  }

  lemma OneMore(chains: seq<seq<Handle>>, i: nat)
    requires i < |chains|
    ensures |Flatten(chains[..i + 1])| == |Flatten(chains[..i])| + |chains[i]| <= |Flatten(chains)|
  {
    assert chains[..i + 1] == chains[..i] + [chains[i]];
    assert Flatten([chains[i]]) == chains[i] + Flatten([chains[i]][1..]);
    FlattenConcat(chains[..i], [chains[i]]);
    assert chains == chains[..i + 1] + chains[i + 1..];
    FlattenConcat(chains[..i + 1], chains[i + 1..]);
  }

  lemma VisitAll(order: seq<Handle>, chains: seq<seq<Handle>>)
    requires Placed(order, chains)
    ensures NoDup(Flatten(chains)) && forall h: Handle :: h in Flatten(chains) ==> h in order
  {
    FlattenHolds(chains);
    forall h: Handle | h in Flatten(chains) ensures h in order {
      var b := FlattenMember(chains, h);
    }
    forall a, b, h: Handle | 0 <= a < b < |chains| && h in chains[a] ensures h !in chains[b] {
      assert Bucket(h.hashv, |chains|) == a;
    }
    FlattenNoDup(chains);
  }

  lemma IdealPositive(items: nat, n: nat)
    requires items > 0 && n > 0
    ensures items / n + (if items % n != 0 then 1 else 0) > 0
  {
    assert items / n == 0 ==> items % n == items;
  }

  lemma StartNew(nb: array<Slot>, all: seq<Handle>, ideal: nat)
    requires nb.Length > 0 && ideal > 0 && forall b :: 0 <= b < nb.Length ==> nb[b] == Slot(null, 0, 0)
    ensures New(nb, Spread([], nb.Length), all, ideal) && Nonideal(Spread([], nb.Length), ideal) == 0
  {
    NoneNonideal(Spread([], nb.Length), ideal);
  }

  lemma {:induction false} NoneNonideal(chains: seq<seq<Handle>>, ideal: nat)
    requires forall b :: 0 <= b < |chains| ==> chains[b] == []
    ensures Nonideal(chains, ideal) == 0
  {
    if chains != [] { NoneNonideal(chains[1..], ideal); }
  }

  lemma Counts(s: seq<Handle>, slot: Slot, all: seq<Handle>)
    requires InChain(s, slot, all)
    ensures slot.count == |s|
  {
  }

  /** Link an element in front of the first one of a bucket. */
  method PushSlot(nb: array<Slot>, b: nat, h: Handle, mult: nat, ghost chains: seq<seq<Handle>>, ghost all: seq<Handle>)
    requires b < |chains| == nb.Length && h in all && Apart(chains)
    requires forall c :: 0 <= c < |chains| ==> InChain(chains[c], nb[c], all) && h !in chains[c]
    modifies nb, h`hhNext, h`hhPrev, all`hhPrev
    ensures var now := chains[b := [h] + chains[b]]; forall c :: 0 <= c < |now| ==> InChain(now[c], nb[c], all)
    ensures nb[b].expandMult == mult && forall c :: 0 <= c < nb.Length && c != b ==> nb[c] == old(nb[c])
  {
    ghost var was := chains[b];
    var first := nb[b].hhHead;
    h.hhNext := first;
    h.hhPrev := null;
    if first != null {
      assert first == was[0] && first in was;
      first.hhPrev := h;
    }
    nb[b] := Slot(h, nb[b].count + 1, mult);
    ghost var now := chains[b := [h] + was];
    assert forall i :: 1 <= i < |now[b]| ==> now[b][i] == was[i - 1];
    assert InChain(now[b], nb[b], all);
    forall c | 0 <= c < |now| ensures InChain(now[c], nb[c], all) {
      if c != b {
        assert now[c] == chains[c];
        assert first == null || first !in chains[c];
      }
    }
  }

  /** No element is in two chains, or twice in one. */
  ghost predicate Apart(chains: seq<seq<Handle>>) {
    (forall c :: 0 <= c < |chains| ==> NoDup(chains[c])) &&
    forall c, d, g: Handle :: 0 <= c < |chains| && 0 <= d < |chains| && g in chains[c] && g in chains[d] ==> c == d
  }

  /** The new buckets, as far as they are filled. */
  ghost predicate New(nb: array<Slot>, chains: seq<seq<Handle>>, all: seq<Handle>, ideal: nat)
    requires ideal > 0
    reads nb, all`hhNext, all`hhPrev
  {
    nb.Length == |chains| &&
    (forall b {:trigger chains[b]} :: 0 <= b < |chains| ==> InChain(chains[b], nb[b], all)) &&
    forall b :: 0 <= b < |chains| ==> nb[b].expandMult == if |chains[b]| > ideal then |chains[b]| / ideal else 0
  }

  lemma SpreadStep(visit: seq<Handle>, done: nat, n: nat)
    requires n > 0 && done < |visit|
    ensures var b, before := Bucket(visit[done].hashv, n), Spread(visit[..done], n);
            Spread(visit[..done + 1], n) == before[b := [visit[done]] + before[b]]
  {
    assert visit[..done + 1][..done] == visit[..done];
  }

  lemma SpreadApart(visit: seq<Handle>, done: nat, n: nat)
    requires n > 0 && done < |visit| && NoDup(visit)
    ensures Apart(Spread(visit[..done], n))
    ensures forall c :: 0 <= c < n ==> visit[done] !in Spread(visit[..done], n)[c]
  {
    SpreadHolds(visit[..done], n);
    var before := Spread(visit[..done], n);
    assert visit[done] !in visit[..done];
    hide Spread;
    forall c, d, g: Handle | 0 <= c < n && 0 <= d < n && g in before[c] && g in before[d] ensures c == d {
      assert Bucket(g.hashv, n) == c && Bucket(g.hashv, n) == d;
    }
  }

  lemma {:induction false} NonidealPush(chains: seq<seq<Handle>>, b: nat, h: Handle, ideal: nat)
    requires b < |chains|
    ensures Nonideal(chains[b := [h] + chains[b]], ideal) ==
            Nonideal(chains, ideal) + if |chains[b]| + 1 > ideal then 1 else 0
  {
    var now := chains[b := [h] + chains[b]];
    if b == 0 {
      assert now[1..] == chains[1..];
    } else {
      assert now[1..] == chains[1..][b - 1 := [h] + chains[b]];
      NonidealPush(chains[1..], b - 1, h, ideal);
    }
  }

  function Entered(t: Table, h: Handle): Table
    requires |t.chains| > 0
  {
    var b := Bucket(h.hashv, |t.chains|);
    t.(order := t.order + [h], chains := t.chains[b := [h] + t.chains[b]])
  }

  lemma SoundApart(t: Table)
    requires Sound(t)
    ensures Apart(t.chains) && forall c, h: Handle :: 0 <= c < |t.chains| && h in t.chains[c] ==> h in t.order
  {
    forall c, d, g: Handle | 0 <= c < |t.chains| && 0 <= d < |t.chains| && g in t.chains[c] && g in t.chains[d]
      ensures c == d
    {
      assert Bucket(g.hashv, |t.chains|) == c && Bucket(g.hashv, |t.chains|) == d;
    }
  }

  lemma AddedPlaced(t: Table, h: Handle)
    requires Sound(t) && Lookup(t.order, h.key) == None
    ensures |t.chains| > 0 && |Entered(t, h).order| > 0
    ensures Placed(Entered(t, h).order, Entered(t, h).chains) && NoDup(Entered(t, h).order)
  {
    KeysNoDup(t.order);
    assert h !in t.order;
  }

  lemma {:induction false} WithoutAt(s: seq<Handle>, h: Handle, k: nat)
    requires k < |s| && s[k] == h && NoDup(s)
    ensures Without(s, h) == DropAt(s, k)
  {
    if k > 0 {
      WithoutAt(s[1..], h, k - 1);
      assert DropAt(s, k) == [s[0]] + DropAt(s[1..], k - 1);
    }
  }

  lemma {:induction false} IndexIs(chain: seq<Handle>, key: string, i: nat)
    requires i <= |chain| && (i < |chain| ==> chain[i].key == key) && forall k :: 0 <= k < i ==> chain[k].key != key
    ensures IndexOfKey(chain, key) == i
  {
  }

  lemma InitialSize()
    ensures Pow2(INITIAL_LOG2) == 32
  {
    assert Pow2(1) == 2 * Pow2(0);
    assert Pow2(2) == 2 * Pow2(1);
    assert Pow2(3) == 2 * Pow2(2);
    assert Pow2(4) == 2 * Pow2(3);
    assert Pow2(5) == 2 * Pow2(4);
  }
}
