/** Retained messages in a new subscriber's queue. */
module OfferLaws {
  import opened Common
  import opened SubTree
  import opened ClientQueue
  import opened MsgStore
  import opened BrokerStore
  import opened CopyLaws
  import ArrivalLaws
  import PublishLaws

  /** Every slot that holds a message holds a stored one. */
  predicate SlotsStored(b: Broker) {
    forall i :: 0 <= i < |b.slots| && b.slots[i].Some? ==> b.slots[i].value in b.stores
  }

  predicate Holds(b: Broker, slot: nat) {
    slot < |b.slots| && b.slots[slot].Some?
  }

  /** The slots in the order of the list: for each that holds a message a retained
      copy of it is queued, of the lower QoS, by what the queue holds by then. */
  ghost predicate OffersTo(u: Setup, b: Broker, s: Session, from: seq<nat>, granted: Qos, qs: seq<Qos>,
                           pieces: seq<seq<ClientMsg>>)
    requires SlotsStored(b)
  {
    |qs| == |from| == |pieces| &&
    forall i :: 0 <= i < |from| ==>
      if Holds(b, from[i]) then
        var id := b.slots[from[i]].value;
        RightQos(false, qs[i], b.stores[id].qos, granted) &&
        Queues(u, s.connected, false, Held(s.msgs + Flat(pieces[..i])), id, qs[i], true, pieces[i])
      else pieces[i] == []
  }

  /** Alike for what is offered. */
  predicate SameOffer(b: Broker, b': Broker) {
    b'.slots == b.slots && forall id :: id in b.stores ==> id in b'.stores && b'.stores[id].qos == b.stores[id].qos
  }

  lemma OffersNext(u: Setup, b: Broker, b': Broker, s: Session, s': Session, slot: nat, from: seq<nat>, granted: Qos,
                   q: Qos, piece: seq<ClientMsg>, qs: seq<Qos>, pieces: seq<seq<ClientMsg>>)
    requires SlotsStored(b) && SlotsStored(b') && SameOffer(b, b') && PublishLaws.Grows(s, s', piece)
    requires if Holds(b, slot) then
               var id := b.slots[slot].value;
               RightQos(false, q, b.stores[id].qos, granted) &&
               Queues(u, s.connected, false, Held(s.msgs), id, q, true, piece)
             else piece == []
    requires OffersTo(u, b', s', from, granted, qs, pieces)
    ensures OffersTo(u, b, s, [slot] + from, granted, [q] + qs, [piece] + pieces)
  {
    hide RightQos, Queues, Held, Flat;
    var from', qs', pieces' := [slot] + from, [q] + qs, [piece] + pieces;
    forall i | 0 <= i < |from'|
      ensures if Holds(b, from'[i]) then
                var id := b.slots[from'[i]].value;
                RightQos(false, qs'[i], b.stores[id].qos, granted) &&
                Queues(u, s.connected, false, Held(s.msgs + Flat(pieces'[..i])), id, qs'[i], true, pieces'[i])
              else pieces'[i] == []
    {
      if i == 0 {
        PublishLaws.FlatNone(s.msgs, pieces');
      } else {
        PublishLaws.FlatLater(s.msgs, piece, pieces, i - 1);
        assert from'[i] == from[i - 1] && qs'[i] == qs[i - 1] && pieces'[i] == pieces[i - 1];
      }
    }
  }

  /** One slot. */
  lemma OffersOne(u: Setup, b: Broker, c: nat, slot: nat, granted: Qos)
    returns (b': Broker, q: Qos, piece: seq<ClientMsg>)
    requires c < |b.clients| && SlotsStored(b)
    ensures DoOffer(u, b, c, [slot], granted) == b' && SlotsStored(b') && SameOffer(b, b')
    ensures b'.clients == b.clients[c := b'.clients[c]]
    ensures PublishLaws.Grows(b.clients[c], b'.clients[c], piece)
    ensures if Holds(b, slot) then
              var id := b.slots[slot].value;
              RightQos(false, q, b.stores[id].qos, granted) &&
              Queues(u, b.clients[c].connected, false, Held(b.clients[c].msgs), id, q, true, piece)
            else piece == []
  {
    hide Queues, Held, InsertOut;
    q, piece := 0, [];
    b' := b;
    assert [slot][1..] == [];
    PublishLaws.GrowsMore(b.clients[c], b.clients[c], b.clients[c], [], []);
    if Holds(b, slot) {
      var id := b.slots[slot].value;
      q := if b.stores[id].qos > granted then granted else b.stores[id].qos;
      b' := InsertOut(u, b, c, q, true, id);
      var mid;
      mid, piece := CopyQueues(u, b, c, q, true, id);
    }
    assert b.clients[c := b'.clients[c]] == b'.clients;
  }

  lemma OfferFirst(u: Setup, b: Broker, c: nat, from: seq<nat>, granted: Qos)
    requires c < |b.clients| && from != []
    ensures DoOffer(u, b, c, from, granted) == DoOffer(u, DoOffer(u, b, c, [from[0]], granted), c, from[1..], granted)
  {
    assert [from[0]][1..] == [];
    hide InsertOut;
  }

  /** Offering changes the queue of the one client, and no slot. */
  lemma {:induction false} OfferQueues(u: Setup, b: Broker, c: nat, from: seq<nat>, granted: Qos)
    returns (qs: seq<Qos>, pieces: seq<seq<ClientMsg>>)
    requires c < |b.clients| && SlotsStored(b)
    ensures var b' := DoOffer(u, b, c, from, granted);
            b'.slots == b.slots && b'.clients == b.clients[c := b'.clients[c]] &&
            PublishLaws.Grows(b.clients[c], b'.clients[c], Flat(pieces))
    ensures OffersTo(u, b, b.clients[c], from, granted, qs, pieces)
    decreases |from|
  {
    var s := b.clients[c];
    if from == [] {
      qs, pieces := [], [];
      PublishLaws.GrowsMore(s, s, s, [], []);
      assert b.clients[c := s] == b.clients;
    } else {
      hide DoOffer, PublishLaws.Grows, Flat, OffersTo, SlotsStored, Holds;
      OfferFirst(u, b, c, from, granted);
      var b1, q, piece := OffersOne(u, b, c, from[0], granted);
      qs, pieces := OfferQueues(u, b1, c, from[1..], granted);
      OffersNext(u, b, b1, s, b1.clients[c], from[0], from[1..], granted, q, piece, qs, pieces);
      FlatNext(piece, pieces, 0);
      PublishLaws.GrowsMore(s, b1.clients[c], DoOffer(u, b1, c, from[1..], granted).clients[c], piece, Flat(pieces));
      qs, pieces := [q] + qs, [piece] + pieces;
      assert [from[0]] + from[1..] == from;
    }
  }

  // ------------------------------------------------------------ over every run

  lemma RunSlotsStored(u: Setup, ops: seq<Op>)
    ensures SlotsStored(Run(u, ops))
  {
    hide Run, Step;
    forall i | 0 <= i < |Run(u, ops).slots| && Run(u, ops).slots[i].Some?
      ensures Run(u, ops).slots[i].value in Run(u, ops).stores
    {
      ArrivalLaws.SlotsThere(u, ops, i);
    }
  }

  /** After any run a connected client that has subscribed gets, of the slots
      listed, a retained copy of each message that is there, in that order, as
      long as there is room: for each of them if there is no in-flight limit. No
      other queue and no slot changes. */
  lemma OfferReaches(u: Setup, ops: seq<Op>, c: nat, from: seq<nat>, granted: Qos)
    returns (qs: seq<Qos>, pieces: seq<seq<ClientMsg>>)
    requires c < |Run(u, ops).clients| && Run(u, ops).clients[c].connected
    ensures SlotsStored(Run(u, ops))
    ensures var b, b' := Run(u, ops), Step(u, Run(u, ops), Offer(c, from, granted));
            b'.slots == b.slots && |b'.clients| == |b.clients| && b'.clients == b.clients[c := b'.clients[c]] &&
            b'.clients[c].id == b.clients[c].id && b'.clients[c].connected &&
            b'.clients[c].msgs == b.clients[c].msgs + Flat(pieces)
    ensures OffersTo(u, Run(u, ops), Run(u, ops).clients[c], from, granted, qs, pieces)
    ensures u.lim.inflight == 0 ==>
              forall i :: 0 <= i < |from| ==>
                if Holds(Run(u, ops), from[i]) then
                  |pieces[i]| == 1 && pieces[i][0].store == Run(u, ops).slots[from[i]].value && pieces[i][0].retain &&
                  pieces[i][0].direction == Out && pieces[i][0].qos == qs[i] && pieces[i][0].state != Queued
                else pieces[i] == []
  {
    hide Run, Held, Flat, DoOffer;
    RunSlotsStored(u, ops);
    qs, pieces := OfferQueues(u, Run(u, ops), c, from, granted);
  }
}
