/** What removing and writing do to a queue as a whole: nothing gets lost, and
    the order of what stays is the old one. */
module QueueLaws {
  import opened Common
  import opened ClientQueue
  import opened MsgStore

  /** The queue without its progress. */
  function Cores(msgs: seq<ClientMsg>): (r: seq<ClientMsg>)
    ensures |r| == |msgs| && forall i :: 0 <= i < |r| ==> r[i] == Core(msgs[i])
  {
    if msgs == [] then [] else [Core(msgs[0])] + Cores(msgs[1..])
  }

  lemma CoresConcat(a: seq<ClientMsg>, b: seq<ClientMsg>)
    ensures Cores(a + b) == Cores(a) + Cores(b)
  {
  }

  lemma PromoteCores(msgs: seq<ClientMsg>, lim: Limits)
    ensures Cores(PromoteHead(msgs, lim)) == Cores(msgs)
  {
    PromoteKeeps(msgs, lim);
  }

  // ---------------------------------------------------------- conservation

  /** What the queue lost is what was taken out of it. */
  ghost predicate Splits(a: seq<ClientMsg>, b: seq<ClientMsg>, gone: seq<ClientMsg>) {
    RefsIn(a) == RefsIn(b) + RefsIn(gone) && Count12(a) == Count12(b) + Count12(gone) &&
    (IncomingQos2(a) ==> IncomingQos2(b)) && CoresIn(a) == CoresIn(b) + CoresIn(gone)
  }

  /** The entries of a queue, each without its progress, in no order. */
  function CoresIn(msgs: seq<ClientMsg>): multiset<ClientMsg> {
    multiset(Cores(msgs))
  }

  lemma CoresInDrop(msgs: seq<ClientMsg>, i: nat)
    requires i < |msgs|
    ensures CoresIn(msgs) == CoresIn(DropAt(msgs, i)) + multiset{Core(msgs[i])}
  {
    var cores := Cores(msgs);
    assert Cores(DropAt(msgs, i)) == DropAt(cores, i) == cores[..i] + cores[i + 1..];
    assert cores == cores[..i] + [cores[i]] + cores[i + 1..];
  }

  lemma CoresInConcat(a: seq<ClientMsg>, b: seq<ClientMsg>)
    ensures CoresIn(a + b) == CoresIn(a) + CoresIn(b)
  {
    CoresConcat(a, b);
  }

  lemma SplitsNone(a: seq<ClientMsg>)
    ensures Splits(a, a, [])
  {
    assert RefsIn(a) + multiset{} == RefsIn(a) && CoresIn(a) + multiset{} == CoresIn(a);
  }

  lemma {:induction false} SameCount12(a: seq<ClientMsg>, b: seq<ClientMsg>)
    requires Cores(a) == Cores(b)
    ensures Count12(a) == Count12(b)
  {
    assert |a| == |Cores(a)| == |b|;
    if a != [] {
      assert Core(a[0]) == Cores(a)[0] == Core(b[0]);
      assert Cores(a[1..]) == Cores(a)[1..] == Cores(b)[1..] == Cores(b[1..]);
      SameCount12(a[1..], b[1..]);
    }
  }

  lemma SplitsSame(a: seq<ClientMsg>, a': seq<ClientMsg>, b: seq<ClientMsg>, gone: seq<ClientMsg>)
    requires Cores(a) == Cores(a') && Splits(a', b, gone)
    ensures Splits(a, b, gone)
  {
    SameCores(a, a');
    SameCount12(a, a');
    hide RefsIn, Count12, IncomingQos2, Cores;
  }

  lemma SameCores(a: seq<ClientMsg>, b: seq<ClientMsg>)
    requires Cores(a) == Cores(b)
    ensures RefsIn(a) == RefsIn(b) && (IncomingQos2(a) ==> IncomingQos2(b))
  {
    assert |a| == |Cores(a)| == |b|;
    assert forall i :: 0 <= i < |a| ==> Core(a[i]) == Cores(a)[i] == Core(b[i]);
    SameStoresBacked(a, b, map[]);
  }

  lemma SplitsDrop(a: seq<ClientMsg>, i: nat, b: seq<ClientMsg>, gone: seq<ClientMsg>)
    requires i < |a| && Splits(DropAt(a, i), b, gone)
    ensures Splits(a, b, [a[i]] + gone)
  {
    hide RefsIn, CoresIn, Core, Cores, Count12, IncomingQos2, DropAt;
    StoresOfAt(a, i);
    Count12Drop(a, i);
    CoresInDrop(a, i);
    if IncomingQos2(a) { IncomingDrop(a, i); }
    OneMoreGone(a[i], gone);
    Regroup(RefsIn(b), RefsIn(gone), multiset{a[i].store});
    Regroup(CoresIn(b), CoresIn(gone), multiset{Core(a[i])});
  }

  lemma IncomingDrop(a: seq<ClientMsg>, i: nat)
    requires i < |a| && IncomingQos2(a)
    ensures IncomingQos2(DropAt(a, i))
  {
  }

  lemma OneMoreGone(m: ClientMsg, gone: seq<ClientMsg>)
    ensures RefsIn([m] + gone) == multiset{m.store} + RefsIn(gone)
    ensures CoresIn([m] + gone) == multiset{Core(m)} + CoresIn(gone)
    ensures Count12([m] + gone) == Count12(gone) + if m.qos > 0 then 1 else 0
  {
    StoresOfConcat([m], gone);
    CoresInConcat([m], gone);
    assert StoresOf([m]) == [m.store] && CoresIn([m]) == multiset{Core(m)};
    assert ([m] + gone)[1..] == gone;
  }

  lemma Regroup<T>(b: multiset<T>, gone: multiset<T>, x: multiset<T>)
    ensures b + (x + gone) == (b + gone) + x
  {
  }

  lemma KeepSplits(pre: seq<ClientMsg>, rest: seq<ClientMsg>, t: ClientMsg, b: seq<ClientMsg>, gone: seq<ClientMsg>)
    requires rest != [] && Core(t) == Core(rest[0]) && Splits(pre + [t] + rest[1..], b, gone)
    ensures Splits(pre + rest, b, gone)
  {
    hide Splits, Cores, Core;
    OneCore(pre, rest[0], t, rest[1..]);
    assert pre + [rest[0]] + rest[1..] == pre + rest;
    SplitsSame(pre + rest, pre + [t] + rest[1..], b, gone);
  }

  lemma TakeSplits(pre: seq<ClientMsg>, rest: seq<ClientMsg>, t: ClientMsg, lim: Limits, b: seq<ClientMsg>,
                   gone: seq<ClientMsg>)
    requires rest != [] && Core(t) == Core(rest[0]) && Splits(PromoteHead(pre + rest[1..], lim), b, gone)
    ensures Splits(pre + rest, b, [t] + gone)
  {
    hide Splits, PromoteHead, Cores, Core;
    var touched := pre + [t] + rest[1..];
    PromoteCores(pre + rest[1..], lim);
    SplitsSame(pre + rest[1..], PromoteHead(pre + rest[1..], lim), b, gone);
    assert DropAt(touched, |pre|) == pre + rest[1..];
    SplitsDrop(touched, |pre|, b, gone);
    KeepSplits(pre, rest, t, b, [t] + gone);
  }

  lemma TouchedCore(m: ClientMsg, index: nat, lim: Limits)
    ensures Core(Touched(m, index, lim)) == Core(m)
  {
  }

  lemma Halves(s: seq<ClientMsg>, i: nat)
    requires i <= |s|
    ensures s[..i] + s[i..] == s
  {
  }

  /** Nothing gets lost in the loop of delete and release. */
  lemma {:induction false} SweepSplits(pre: seq<ClientMsg>, rest: seq<ClientMsg>, index: nat, mid: Mid, dir: Direction,
                                       lim: Limits, release: bool, deleted: bool)
    ensures var r := Sweep(pre, rest, index, mid, dir, lim, release, deleted, []);
            Splits(pre + rest, r.msgs, r.removed)
    decreases |rest|
  {
    hide Splits, Touched, TouchSends, PromoteHead, Core, IsEntry;
    if rest == [] {
      assert pre + rest == pre;
      SplitsNone(pre);
    } else {
      var t := Touched(rest[0], index + 1, lim);
      TouchedCore(rest[0], index + 1, lim);
      if IsEntry(t, mid, dir) {
        assert pre + rest[1..] + [] == pre + rest[1..];
        var less := PromoteHead(pre + rest[1..], lim);
        var index' := if release then index + 1 else index;
        if index' > lim.inflight {
          SplitsNone(less);
          TakeSplits(pre, rest, t, lim, less, []);
          assert [t] + [] == [t];
        } else {
          SweepSplits(less[..|pre|], less[|pre|..], index', mid, dir, lim, release, true);
          Halves(less, |pre|);
          var r := Sweep(less[..|pre|], less[|pre|..], index', mid, dir, lim, release, true, []);
          TakeSplits(pre, rest, t, lim, r.msgs, r.removed);
        }
      } else if index + 1 > lim.inflight && deleted {
        SplitsNone(pre + [t] + rest[1..]);
        KeepSplits(pre, rest, t, pre + [t] + rest[1..], []);
      } else {
        SweepSplits(pre + [t], rest[1..], index + 1, mid, dir, lim, release, deleted);
        var r := Sweep(pre + [t], rest[1..], index + 1, mid, dir, lim, release, deleted, []);
        KeepSplits(pre, rest, t, r.msgs, r.removed);
      }
    }
  }

  lemma PromotedIncoming(pre: seq<ClientMsg>, rest: seq<ClientMsg>, lim: Limits)
    requires rest != [] && IncomingQos2(rest)
    ensures var all := PromoteHead(pre + rest[1..], lim);
            IncomingQos2(all[|pre|..])
  {
    var all := PromoteHead(pre + rest[1..], lim);
    PromoteKeeps(pre + rest[1..], lim);
    assert forall k :: |pre| <= k < |all| ==> (pre + rest[1..])[k] == rest[k - |pre| + 1];
  }

  /** Nothing gets lost in writing. */
  lemma {:induction false} WriteSplits(pre: seq<ClientMsg>, rest: seq<ClientMsg>, lim: Limits, budget: nat, seen: nat)
    requires IncomingQos2(rest)
    ensures var w := WriteFrom(pre, rest, lim, budget, seen);
            Splits(pre + rest, w.msgs, w.gone)
    decreases |rest|, if rest != [] && rest[0].state == Queued then 1 else 0
  {
    hide Splits, PromoteHead;
    if rest == [] {
      assert pre + rest == pre;
      SplitsNone(pre);
    } else {
      var t, tail := rest[0], rest[1..];
      var seen' := seen + if t.direction == In then 1 else 0;
      if t.state == Queued && t.direction == In && (lim.inflight == 0 || seen' < lim.inflight) {
        var u := t.(state := SendPubrec);
        WriteSplits(pre, [u] + tail, lim, budget, seen');
        assert pre + ([u] + tail) == pre + [u] + tail;
        var w := WriteFrom(pre, [u] + tail, lim, budget, seen');
        KeepSplits(pre, rest, u, w.msgs, w.gone);
      } else if t.state == Queued || PacketFor(t) == None {
        WriteSplits(pre + [t], tail, lim, budget, seen');
        assert pre + [t] + tail == pre + rest;
      } else if budget == 0 {
        SplitsNone(pre + rest);
      } else if t.state == PublishQos0 {
        var all := PromoteHead(pre + tail, lim);
        PromotedIncoming(pre, rest, lim);
        WriteSplits(all[..|pre|], all[|pre|..], lim, budget - 1, seen');
        Halves(all, |pre|);
        var w := WriteFrom(all[..|pre|], all[|pre|..], lim, budget - 1, seen');
        TakeSplits(pre, rest, t, lim, w.msgs, w.gone);
      } else {
        var u := AfterSend(t);
        WriteSplits(pre + [u], tail, lim, budget - 1, seen');
        var w := WriteFrom(pre + [u], tail, lim, budget - 1, seen');
        KeepSplits(pre, rest, u, w.msgs, w.gone);
        assert [] + w.gone == w.gone;
      }
    }
  }

  lemma OneCore(pre: seq<ClientMsg>, t: ClientMsg, u: ClientMsg, tail: seq<ClientMsg>)
    requires Core(t) == Core(u)
    ensures Cores(pre + [t] + tail) == Cores(pre + [u] + tail)
  {
    var a, b := pre + [t] + tail, pre + [u] + tail;
    assert forall i :: 0 <= i < |a| ==> Core(a[i]) == Core(b[i]);
  }

  // ---------------------------------------------------- one entry goes out

  /** At most one entry has the id and the direction. */
  predicate Alone(msgs: seq<ClientMsg>, mid: Mid, dir: Direction) {
    forall i, j :: 0 <= i < j < |msgs| ==> !(IsEntry(msgs[i], mid, dir) && IsEntry(msgs[j], mid, dir))
  }

  /** The queue lost its only entry of that id and direction, gained `own`
      behind it, and is otherwise in its old order. */
  ghost predicate OneOut(pre: seq<ClientMsg>, rest: seq<ClientMsg>, mid: Mid, dir: Direction, own: seq<ClientMsg>,
                         r: Swept) {
    var k := IndexOfEntry(rest, mid, dir);
    if k == |rest| then r.removed == [] && Cores(r.msgs) == Cores(pre) + Cores(rest)
    else |r.removed| == 1 && Core(r.removed[0]) == Core(rest[k]) &&
         Cores(r.msgs) == Cores(pre) + DropAt(Cores(rest), k) + Cores(own)
  }

  lemma NoEntry(msgs: seq<ClientMsg>, mid: Mid, dir: Direction)
    ensures (forall i :: 0 <= i < |msgs| ==> !IsEntry(msgs[i], mid, dir)) <==> IndexOfEntry(msgs, mid, dir) == |msgs|
  {
  }

  /** Whatever the limits, deleting and releasing take out exactly the entry
      asked for and keep the order of all others. */
  lemma {:induction false} SweepTakesOne(pre: seq<ClientMsg>, rest: seq<ClientMsg>, index: nat, mid: Mid,
                                         dir: Direction,
                                         lim: Limits, release: bool, deleted: bool, own: seq<ClientMsg>)
    requires Alone(rest, mid, dir) && forall m :: m in own ==> m.direction != dir
    requires deleted ==> IndexOfEntry(rest, mid, dir) == |rest|
    ensures OneOut(pre, rest, mid, dir, own, Sweep(pre, rest, index, mid, dir, lim, release, deleted, [own]))
    decreases |rest|
  {
    if rest == [] {
    } else {
      var t := Touched(rest[0], index + 1, lim);
      assert Core(t) == Core(rest[0]) && (IsEntry(t, mid, dir) <==> IsEntry(rest[0], mid, dir));
      assert rest == [rest[0]] + rest[1..];
      if IsEntry(t, mid, dir) {
        TakeHere(pre, rest, index, mid, dir, lim, release, deleted, own);
      } else if !(index + 1 > lim.inflight && deleted) {
        SweepTakesOne(pre + [t], rest[1..], index + 1, mid, dir, lim, release, deleted, own);
        PassOn(pre, rest, t, mid, dir, own,
               Sweep(pre + [t], rest[1..], index + 1, mid, dir, lim, release, deleted, [own]),
               Sweep(pre, rest, index, mid, dir, lim, release, deleted, [own]));
      } else {
        StopHere(pre, rest, t);
      }
    }
  }

  lemma StopHere(pre: seq<ClientMsg>, rest: seq<ClientMsg>, t: ClientMsg)
    requires rest != [] && Core(t) == Core(rest[0])
    ensures Cores(pre + [t] + rest[1..]) == Cores(pre) + Cores(rest)
  {
    hide Cores, Core;
    OneCore(pre, rest[0], t, rest[1..]);
    assert pre + [rest[0]] + rest[1..] == pre + rest;
    CoresConcat(pre, rest);
  }

  lemma PassOn(pre: seq<ClientMsg>, rest: seq<ClientMsg>, t: ClientMsg, mid: Mid, dir: Direction, own: seq<ClientMsg>,
               r: Swept, r': Swept)
    requires r'.msgs == r.msgs && r'.removed == r.removed
    requires rest != [] && Core(t) == Core(rest[0]) && !IsEntry(rest[0], mid, dir)
    requires OneOut(pre + [t], rest[1..], mid, dir, own, r)
    ensures OneOut(pre, rest, mid, dir, own, r')
  {
    PassIndex(rest, mid, dir);
    CoresShift(pre, t, rest);
    hide Cores, Core, IndexOfEntry, IsEntry;
    ShiftCores(Cores(pre), Core(rest[0]), Cores(rest[1..]), IndexOfEntry(rest, mid, dir));
  }

  lemma PassIndex(rest: seq<ClientMsg>, mid: Mid, dir: Direction)
    requires rest != [] && !IsEntry(rest[0], mid, dir)
    ensures var k := IndexOfEntry(rest, mid, dir);
            k == 1 + IndexOfEntry(rest[1..], mid, dir) && (k < |rest| ==> rest[k] == rest[1..][k - 1])
  {
  }

  lemma CoresShift(pre: seq<ClientMsg>, t: ClientMsg, rest: seq<ClientMsg>)
    requires rest != [] && Core(t) == Core(rest[0])
    ensures Cores(pre + [t]) == Cores(pre) + [Core(rest[0])] && Cores(rest) == [Core(rest[0])] + Cores(rest[1..])
  {
  }

  lemma ShiftCores(pre: seq<ClientMsg>, head: ClientMsg, more: seq<ClientMsg>, k: nat)
    requires 0 < k <= |more| + 1
    ensures (pre + [head]) + more == pre + ([head] + more)
    ensures k <= |more| ==> (pre + [head]) + DropAt(more, k - 1) == pre + DropAt([head] + more, k)
  {
  }

  lemma TakeHere(pre: seq<ClientMsg>, rest: seq<ClientMsg>, index: nat, mid: Mid, dir: Direction, lim: Limits,
                 release: bool, deleted: bool, own: seq<ClientMsg>)
    requires rest != [] && IsEntry(rest[0], mid, dir) && Alone(rest, mid, dir) &&
             forall m :: m in own ==> m.direction != dir
    ensures OneOut(pre, rest, mid, dir, own, Sweep(pre, rest, index, mid, dir, lim, release, deleted, [own]))
  {
    var less := pre + rest[1..] + own;
    var all, t := PromoteHead(less, lim), Touched(rest[0], index + 1, lim);
    PromoteCores(less, lim);
    LessCores(pre, rest, own);
    TouchedCore(rest[0], index + 1, lim);
    assert IsEntry(t, mid, dir) && IndexOfEntry(rest, mid, dir) == 0;
    var index' := if release then index + 1 else index;
    if index' <= lim.inflight {
      NoneBehind(pre, rest, own, mid, dir, all);
      hide PromoteHead, Touched, Cores, Core, IsEntry, Alone;
      SweepPasses(all[..|pre|], all[|pre|..], index', mid, dir, lim, release);
      Halves(all, |pre|);
      assert [own][1..] == [];
    }
  }

  lemma LessCores(pre: seq<ClientMsg>, rest: seq<ClientMsg>, own: seq<ClientMsg>)
    requires rest != []
    ensures Cores(pre + rest[1..] + own) == Cores(pre) + DropAt(Cores(rest), 0) + Cores(own)
  {
    CoresConcat(pre, rest[1..]);
    CoresConcat(pre + rest[1..], own);
    assert DropAt(Cores(rest), 0) == Cores(rest[1..]);
  }

  lemma NoneBehind(pre: seq<ClientMsg>, rest: seq<ClientMsg>, own: seq<ClientMsg>, mid: Mid, dir: Direction,
                   all: seq<ClientMsg>)
    requires rest != [] && IsEntry(rest[0], mid, dir) && Alone(rest, mid, dir) &&
             forall m :: m in own ==> m.direction != dir
    requires Cores(all) == Cores(pre + rest[1..] + own)
    ensures |pre| <= |all| && IndexOfEntry(all[|pre|..], mid, dir) == |all| - |pre|
  {
    var less := pre + rest[1..] + own;
    assert |all| == |Cores(all)| == |less|;
    forall i | |pre| <= i < |all| ensures !IsEntry(all[i], mid, dir) {
      assert Core(all[i]) == Cores(all)[i] == Cores(less)[i] == Core(less[i]);
      if i < |pre| + |rest| - 1 {
        assert less[i] == rest[1..][i - |pre|] == rest[i - |pre| + 1];
      } else {
        assert less[i] == own[i - |pre| - |rest| + 1] && less[i] in own;
      }
    }
    var tail := all[|pre|..];
    assert forall i :: 0 <= i < |tail| ==> tail[i] == all[|pre| + i];
    NoEntry(tail, mid, dir);
  }

  lemma {:induction false} SweepPasses(pre: seq<ClientMsg>, rest: seq<ClientMsg>, index: nat, mid: Mid, dir: Direction,
                                       lim: Limits, release: bool)
    requires IndexOfEntry(rest, mid, dir) == |rest|
    ensures var r := Sweep(pre, rest, index, mid, dir, lim, release, true, []);
            r.removed == [] && Cores(r.msgs) == Cores(pre + rest)
    decreases |rest|
  {
    hide Cores, PromoteHead, TouchSends;
    if rest == [] {
      assert pre + rest == pre;
    } else {
      var t := Touched(rest[0], index + 1, lim);
      OneCore(pre, rest[0], t, rest[1..]);
      assert pre + [rest[0]] + rest[1..] == pre + rest;
      if index + 1 <= lim.inflight { SweepPasses(pre + [t], rest[1..], index + 1, mid, dir, lim, release); }
    }
  }

  // ------------------------------------------------- started after a removal

  /** The entries that do not wait. */
  function Active(msgs: seq<ClientMsg>): nat {
    if msgs == [] then 0 else (if msgs[0].state != Queued then 1 else 0) + Active(msgs[1..])
  }

  /** The waiting entries at the head that can be started: all but incoming ones
      of another QoS than 2. */
  function Ready(msgs: seq<ClientMsg>): nat {
    if msgs == [] || msgs[0].state != Queued then 0
    else (if msgs[0].direction == Out || msgs[0].qos == 2 then 1 else 0) + Ready(msgs[1..])
  }

  lemma {:induction false} PromoteStarts(msgs: seq<ClientMsg>, lim: Limits)
    requires lim.inflight > 0
    ensures Active(PromoteHead(msgs, lim)) == Active(msgs) + Ready(msgs)
  {
    if msgs != [] && msgs[0].state == Queued {
      PromoteStarts(msgs[1..], lim);
      assert PromoteHead(msgs, lim)[1..] == PromoteHead(msgs[1..], lim);
    }
  }

  /** A removal leaves more in flight than the limit allows exactly when what is
      in flight without the entry and what waits at the head are more together:
      all that waits there is started. */
  lemma StartsTooMany(msgs: seq<ClientMsg>, i: nat, lim: Limits)
    requires i < |msgs| && lim.inflight > 0
    ensures var rest := DropAt(msgs, i);
            Active(PromoteHead(rest, lim)) == Active(rest) + Ready(rest) &&
            (Active(PromoteHead(rest, lim)) > lim.inflight <==> Active(rest) + Ready(rest) > lim.inflight)
  {
    PromoteStarts(DropAt(msgs, i), lim);
  }
}
