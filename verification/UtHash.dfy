/** The hash table as a value: buckets of elements, and the order of insertion. */
module UtHash {
  import opened Common

  const INITIAL_LOG2 := 5
  const CAPACITY_THRESH := 10

  /** An element with the handle that links it into a table. */
  class Handle {
    const key: string
    const hashv: nat
    var prev: Handle?
    var next: Handle?
    var hhPrev: Handle?
    var hhNext: Handle?

    constructor (key: string, hashv: nat)
      ensures this.key == key && this.hashv == hashv
    {
      this.key, this.hashv := key, hashv;
      prev, next, hhPrev, hhNext := null, null, null, null;
    }
  }

  function Pow2(n: nat): (r: nat)
    ensures r > 0
  {
    if n == 0 then 1 else 2 * Pow2(n - 1)
  }

  /** `mults` are the multipliers that put off the next expansion. */
  datatype Table = Table(order: seq<Handle>, chains: seq<seq<Handle>>, mults: seq<nat>, log2: nat, ineffective: nat,
                         noexpand: bool)

  function Fresh(): Table {
    Table([], seq(Pow2(INITIAL_LOG2), i => []), seq(Pow2(INITIAL_LOG2), i => 0), INITIAL_LOG2, 0, false)
  }

  /** The number of buckets is a power of two, so that masking is a remainder. */
  function Bucket(hashv: nat, n: nat): (b: nat)
    requires n > 0
    ensures b < n
  {
    hashv % n
  }

  function IndexOfKey(chain: seq<Handle>, key: string): (i: nat)
    ensures i <= |chain| && (i < |chain| ==> chain[i].key == key)
    ensures forall k :: 0 <= k < i ==> chain[k].key != key
  {
    if chain == [] || chain[0].key == key then 0 else 1 + IndexOfKey(chain[1..], key)
  }

  function Lookup(chain: seq<Handle>, key: string): Option<Handle> {
    var i := IndexOfKey(chain, key);
    if i < |chain| then Some(chain[i]) else None
  }

  function Find(t: Table, key: string, hashv: nat): Option<Handle>
    requires |t.chains| > 0
  {
    Lookup(t.chains[Bucket(hashv, |t.chains|)], key)
  }

  // -------------------------------------------------------------- expansion

  /** The elements of the old buckets, moved one by one to the heads of their
      new ones. */
  function Spread(visit: seq<Handle>, n: nat): (chains: seq<seq<Handle>>)
    requires n > 0
    ensures |chains| == n
  {
    if visit == [] then seq(n, i => [])
    else
      var h, before := visit[|visit| - 1], Spread(visit[..|visit| - 1], n);
      var b := Bucket(h.hashv, n);
      before[b := [h] + before[b]]
  }

  function Flatten(chains: seq<seq<Handle>>): seq<Handle> {
    if chains == [] then [] else chains[0] + Flatten(chains[1..])
  }

  function Ideal(items: nat, n: nat): nat
    requires n > 0
  {
    items / n + if items % n != 0 then 1 else 0
  }

  /** How many elements came to a bucket that had its ideal length already. */
  function Nonideal(chains: seq<seq<Handle>>, ideal: nat): nat {
    if chains == [] then 0
    else (if |chains[0]| > ideal then |chains[0]| - ideal else 0) + Nonideal(chains[1..], ideal)
  }

  function Mults(chains: seq<seq<Handle>>, ideal: nat): (r: seq<nat>)
    requires ideal > 0
    ensures |r| == |chains|
    ensures forall b :: 0 <= b < |r| ==> r[b] == if |chains[b]| > ideal then |chains[b]| / ideal else 0
  {
    if chains == [] then []
    else [if |chains[0]| > ideal then |chains[0]| / ideal else 0] + Mults(chains[1..], ideal)
  }

  function Expand(t: Table): Table
    requires |t.chains| > 0 && t.order != []
  {
    var n := 2 * |t.chains|;
    var chains := Spread(Flatten(t.chains), n);
    var ideal := Ideal(|t.order|, n);
    assert ideal > 0 by { if |t.order| / n == 0 { assert |t.order| % n == |t.order|; } }
    var ineffective := if Nonideal(chains, ideal) > |t.order| / 2 then t.ineffective + 1 else 0;
    Table(t.order, chains, Mults(chains, ideal), t.log2 + 1, ineffective, t.noexpand || ineffective > 1)
  }

  // --------------------------------------------------------- add and delete

  /** The element goes to the end of the order and to the head of its bucket;
      a bucket that got too full makes the table grow. */
  function Add(t: Table, h: Handle): Table
    requires |t.chains| > 0 && |t.mults| == |t.chains|
  {
    var b := Bucket(h.hashv, |t.chains|);
    var t' := t.(order := t.order + [h], chains := t.chains[b := [h] + t.chains[b]]);
    if |t'.chains[b]| >= (t.mults[b] + 1) * CAPACITY_THRESH && !t.noexpand then Expand(t') else t'
  }

  function Without(s: seq<Handle>, h: Handle): seq<Handle> {
    if s == [] then [] else if s[0] == h then s[1..] else [s[0]] + Without(s[1..], h)
  }

  /** The last element takes the table with it. */
  function Delete(t: Table, h: Handle): Table
    requires |t.chains| > 0
  {
    if |t.order| <= 1 then Fresh()
    else
      var b := Bucket(h.hashv, |t.chains|);
      t.(order := Without(t.order, h), chains := t.chains[b := Without(t.chains[b], h)])
  }

  // ------------------------------------------------------------- invariants

  predicate DistinctKeys(s: seq<Handle>) {
    forall i, j :: 0 <= i < j < |s| ==> s[i].key != s[j].key
  }

  /** Every element is in the bucket of its hash, once, and in no other. */
  ghost predicate Sound(t: Table) {
    |t.chains| == Pow2(t.log2) && |t.mults| == |t.chains| && DistinctKeys(t.order) && Placed(t.order, t.chains)
  }

  ghost predicate Placed(order: seq<Handle>, chains: seq<seq<Handle>>) {
    |chains| > 0 &&
    (forall b, h: Handle :: 0 <= b < |chains| && h in chains[b] ==> h in order && Bucket(h.hashv, |chains|) == b) &&
    (forall h: Handle :: h in order ==> h in chains[Bucket(h.hashv, |chains|)]) &&
    forall b :: 0 <= b < |chains| ==> NoDup(chains[b])
  }

  /** The hash is a function of the key. */
  ghost predicate Hashed(s: seq<Handle>, hash: string -> nat) {
    forall h: Handle :: h in s ==> h.hashv == hash(h.key)
  }

  /** A chain of a sound table finds what the order finds. */
  lemma FindIsLookup(t: Table, hash: string -> nat, key: string)
    requires Sound(t) && Hashed(t.order, hash)
    ensures Find(t, key, hash(key)) == Lookup(t.order, key)
  {
    var b := Bucket(hash(key), |t.chains|);
    var chain := t.chains[b];
    var i, j := IndexOfKey(chain, key), IndexOfKey(t.order, key);
    if i < |chain| {
      assert chain[i] in chain && chain[i] in t.order;
      var k :| 0 <= k < |t.order| && t.order[k] == chain[i];
      assert j == k;
    } else {
      assert forall h: Handle :: h in chain ==> h.key != key;
      assert forall h: Handle :: h in t.order && h.key == key ==> h in chain;
      assert forall k :: 0 <= k < |t.order| ==> t.order[k] in t.order;
    }
  }

  lemma FreshSound()
    ensures Sound(Fresh())
  {
  }

  // ---------------------------------------------------------------- growing

  lemma {:induction false} SpreadHolds(visit: seq<Handle>, n: nat)
    requires n > 0 && NoDup(visit)
    ensures var chains := Spread(visit, n);
            (forall b, h: Handle :: 0 <= b < n && h in chains[b] ==> h in visit && Bucket(h.hashv, n) == b) &&
            (forall h: Handle :: h in visit ==> h in chains[Bucket(h.hashv, n)]) &&
            forall b :: 0 <= b < n ==> NoDup(chains[b])
  {
    if visit != [] {
      var head, h := visit[..|visit| - 1], visit[|visit| - 1];
      SpreadHolds(head, n);
      assert forall g: Handle :: g in visit <==> g in head || g == h;
      var before, chains := Spread(head, n), Spread(visit, n);
      var b := Bucket(h.hashv, n);
      assert h !in head;
      assert chains[b] == [h] + before[b];
      assert NoDup(chains[b]);
    }
  }

  lemma {:induction false} FlattenHolds(chains: seq<seq<Handle>>)
    ensures forall h: Handle :: h in Flatten(chains) <==> exists b :: 0 <= b < |chains| && h in chains[b]
  {
    if chains != [] {
      FlattenHolds(chains[1..]);
      assert forall h: Handle :: h in Flatten(chains) <==> h in chains[0] || h in Flatten(chains[1..]);
      forall h ensures h in Flatten(chains) <==> exists b :: 0 <= b < |chains| && h in chains[b] {
        if h in Flatten(chains[1..]) {
          var b :| 0 <= b < |chains| - 1 && h in chains[1..][b];
          assert h in chains[b + 1];
        }
        if b :| 0 <= b < |chains| && h in chains[b] {
          if b > 0 { assert h in chains[1..][b - 1]; }
        }
      }
    }
  }

  lemma {:induction false} FlattenNoDup(chains: seq<seq<Handle>>)
    requires forall b :: 0 <= b < |chains| ==> NoDup(chains[b])
    requires forall a, b, h: Handle :: 0 <= a < b < |chains| && h in chains[a] ==> h !in chains[b]
    ensures NoDup(Flatten(chains))
  {
    if chains != [] {
      var rest := Flatten(chains[1..]);
      assert forall b :: 0 <= b < |chains| - 1 ==> chains[1..][b] == chains[b + 1];
      FlattenNoDup(chains[1..]);
      FlattenHolds(chains[1..]);
      forall h: Handle | h in chains[0] ensures h !in rest {
        assert forall b :: 0 <= b < |chains| - 1 ==> h !in chains[1..][b];
      }
      NoDupConcat(chains[0], rest);
    }
  }

  /** Doubling the buckets keeps every element, where its hash says. */
  lemma ExpandSound(t: Table)
    requires Sound(t) && t.order != []
    ensures Sound(Expand(t)) && Expand(t).order == t.order
  {
    FlattenHolds(t.chains);
    forall a, b, h: Handle | 0 <= a < b < |t.chains| && h in t.chains[a] ensures h !in t.chains[b] {
      assert Bucket(h.hashv, |t.chains|) == a;
    }
    FlattenNoDup(t.chains);
    var visit, n := Flatten(t.chains), 2 * |t.chains|;
    SpreadHolds(visit, n);
    SamePlaces(t, visit);
    hide Flatten, Spread, Placed, Mults, Nonideal, Ideal;
    SpreadPlaced(t.order, visit, n);
  }

  lemma SamePlaces(t: Table, visit: seq<Handle>)
    requires Sound(t) && forall h: Handle :: h in visit <==> exists b :: 0 <= b < |t.chains| && h in t.chains[b]
    ensures forall h: Handle :: h in visit <==> h in t.order
  {
  }

  lemma SpreadPlaced(order: seq<Handle>, visit: seq<Handle>, n: nat)
    requires n > 0 && NoDup(visit) && forall h: Handle :: h in visit <==> h in order
    ensures Placed(order, Spread(visit, n))
  {
    SpreadHolds(visit, n);
    hide Spread;
  }

  lemma AddSound(t: Table, h: Handle)
    requires Sound(t) && Lookup(t.order, h.key) == None
    ensures Sound(Add(t, h)) && Add(t, h).order == t.order + [h]
  {
    var b := Bucket(h.hashv, |t.chains|);
    var t' := t.(order := t.order + [h], chains := t.chains[b := [h] + t.chains[b]]);
    assert h !in t.order;
    assert DistinctKeys(t'.order);
    assert Placed(t'.order, t'.chains);
    hide Placed, DistinctKeys, Expand;
    ExpandSound(t');
  }

  /** The table doubles exactly when the bucket of the new element reaches ten times
      one more than its multiplier, and growing has not been given up. */
  lemma GrowsWhen(t: Table, h: Handle)
    requires |t.chains| > 0 && |t.mults| == |t.chains|
    ensures var b, r := h.hashv % |t.chains|, Add(t, h);
            if |t.chains[b]| + 1 >= 10 * (t.mults[b] + 1) && !t.noexpand
            then |r.chains| == 2 * |t.chains| && r.log2 == t.log2 + 1
            else r == t.(order := t.order + [h], chains := t.chains[b := [h] + t.chains[b]])
  {
    hide Spread, Flatten, Mults, Nonideal, Ideal;
  }

  /** After doubling, a bucket longer than its fair share, the number of elements
      over the number of buckets rounded up, is given more time before it makes the
      table grow again; the table gives up growing when twice in a row more than
      half of its elements lie beyond the fair share of their bucket. */
  lemma GrownCounts(t: Table)
    requires |t.chains| > 0 && t.order != []
    ensures var e, fair := Expand(t), Ideal(|t.order|, 2 * |t.chains|);
            fair > 0 && (fair - 1) * (2 * |t.chains|) < |t.order| <= fair * (2 * |t.chains|) &&
            |e.mults| == |e.chains| == 2 * |t.chains| &&
            (forall b :: 0 <= b < |e.chains| ==>
               e.mults[b] == if |e.chains[b]| > fair then |e.chains[b]| / fair else 0) &&
            (e.ineffective == if Nonideal(e.chains, fair) > |t.order| / 2 then t.ineffective + 1 else 0) &&
            (e.noexpand <==> t.noexpand || e.ineffective >= 2)
  {
    hide Spread, Flatten, Nonideal;
    FairShare(|t.order|, 2 * |t.chains|);
  }

  lemma Factor(q: nat, n: nat)
    ensures q * n > 0 ==> q > 0
  {
  }

  lemma FairShare(items: nat, n: nat)
    requires n > 0 && items > 0
    ensures var fair := Ideal(items, n); fair > 0 && (fair - 1) * n < items <= fair * n
  {
    assert items == items / n * n + items % n;
    if items % n == 0 {
      Factor(items / n, n);
      assert (items / n - 1) * n == items - n;
    } else {
      assert (items / n + 1) * n == items / n * n + n;
    }
  }

  lemma {:induction false} WithoutHolds(s: seq<Handle>, h: Handle)
    requires NoDup(s)
    ensures forall g: Handle :: g in Without(s, h) <==> g in s && g != h
    ensures NoDup(Without(s, h))
    ensures h in s ==> |Without(s, h)| == |s| - 1
  {
    if s != [] {
      WithoutHolds(s[1..], h);
      assert s[0] !in s[1..];
      if s[0] != h { NoDupConcat([s[0]], Without(s[1..], h)); }
    }
  }

  lemma {:induction false} WithoutKeys(s: seq<Handle>, h: Handle)
    requires DistinctKeys(s)
    ensures DistinctKeys(Without(s, h)) && forall g: Handle :: g in Without(s, h) ==> g in s
  {
    if s != [] {
      WithoutKeys(s[1..], h);
      var r := Without(s[1..], h);
      forall k | 0 <= k < |r| ensures r[k].key != s[0].key {
        assert r[k] in s[1..];
      }
    }
  }

  lemma KeysNoDup(s: seq<Handle>)
    requires DistinctKeys(s)
    ensures NoDup(s)
  {
  }

  lemma DeleteSound(t: Table, h: Handle)
    requires Sound(t) && h in t.order
    ensures Sound(Delete(t, h)) && Delete(t, h).order == Without(t.order, h)
  {
    KeysNoDup(t.order);
    WithoutHolds(t.order, h);
    if |t.order| <= 1 {
      assert t.order == [h];
    } else {
      var b := Bucket(h.hashv, |t.chains|);
      WithoutHolds(t.chains[b], h);
      WithoutKeys(t.order, h);
      var t' := Delete(t, h);
      hide Without, DistinctKeys;
      assert Placed(t'.order, t'.chains);
    }
  }

  // --------------------------------------------------------------- all runs

  datatype Op = Insert(h: Handle) | Remove(key: string)

  /** As the table: an element is looked up before it is added or removed, so
      that keys stay distinct. */
  function Step(t: Table, hash: string -> nat, op: Op): Table
    requires |t.chains| > 0 && |t.mults| == |t.chains|
  {
    match op
    case Insert(h) => if Find(t, h.key, hash(h.key)).Some? || h.hashv != hash(h.key) then t else Add(t, h)
    case Remove(key) => var h := Find(t, key, hash(key)); if h == None then t else Delete(t, h.value)
  }

  /** As an association list in order of insertion. */
  function FlatStep(order: seq<Handle>, hash: string -> nat, op: Op): seq<Handle> {
    match op
    case Insert(h) => if Lookup(order, h.key).Some? || h.hashv != hash(h.key) then order else order + [h]
    case Remove(key) => var h := Lookup(order, key); if h == None then order else Without(order, h.value)
  }

  function Run(hash: string -> nat, ops: seq<Op>): (t: Table)
    ensures |t.chains| > 0 && |t.mults| == |t.chains|
  {
    if ops == [] then Fresh() else Step(Run(hash, ops[..|ops| - 1]), hash, ops[|ops| - 1])
  }

  function FlatRun(hash: string -> nat, ops: seq<Op>): seq<Handle> {
    if ops == [] then [] else FlatStep(FlatRun(hash, ops[..|ops| - 1]), hash, ops[|ops| - 1])
  }

  lemma StepRefines(t: Table, hash: string -> nat, op: Op)
    requires Sound(t) && Hashed(t.order, hash)
    ensures var t' := Step(t, hash, op);
            Sound(t') && Hashed(t'.order, hash) && t'.order == FlatStep(t.order, hash, op)
  {
    match op
    case Insert(h) =>
      FindIsLookup(t, hash, h.key);
      if Lookup(t.order, h.key) == None { AddSound(t, h); }
    case Remove(key) =>
      FindIsLookup(t, hash, key);
      var h := Lookup(t.order, key);
      if h.Some? {
        DeleteSound(t, h.value);
        WithoutKeys(t.order, h.value);
      }
  }

  /** Refinement over all runs: whatever the hash function, the table holds the
      elements of the association list, in its order, and finds what it finds;
      expansion shows in neither. */
  lemma {:induction false} TableRefines(hash: string -> nat, ops: seq<Op>)
    ensures var t := Run(hash, ops);
            Sound(t) && Hashed(t.order, hash) && t.order == FlatRun(hash, ops) &&
            forall key :: Find(t, key, hash(key)) == Lookup(FlatRun(hash, ops), key)
  {
    if ops != [] {
      TableRefines(hash, ops[..|ops| - 1]);
      StepRefines(Run(hash, ops[..|ops| - 1]), hash, ops[|ops| - 1]);
    }
    var t := Run(hash, ops);
    assert Sound(t) && Hashed(t.order, hash);
    hide Run, Sound, Hashed;
    forall key ensures Find(t, key, hash(key)) == Lookup(t.order, key) {
      FindIsLookup(t, hash, key);
    }
  }
}
