/** What one run of the delivery stage does with the shipments that are due. */
module Delivery {
  import opened Rows
  import opened Sums
  import opened Storage
  import opened Logistics
  import opened Accounting
  import opened StorageTheory

  // The query's result: every row once, each in transit and due.
  ghost predicate DueList(w: World, due: seq<Id>, tick: int) {
    && (forall k :: 0 <= k < |due| ==> Due(w, due[k], tick) && w.shipments[due[k]].quantity > 0)
    && (forall i, j :: 0 <= i < j < |due| ==> due[i] != due[j])
  }

  // Where each due shipment ends up.
  ghost function Fates(w: World, due: seq<Id>, tick: int): (fates: seq<Arrival>)
    requires forall k :: 0 <= k < |due| ==> due[k] in w.shipments
    ensures |fates| == |due|
    decreases |due|
  {
    if due == [] then []
    else [ArrivalOf(w, w.shipments[due[0]])] + Fates(DeliverOne(w, due[0], tick), due[1..], tick)
  }

  function Tally(fates: seq<Arrival>, a: Arrival): nat {
    if fates == [] then 0 else (if fates[0] == a then 1 else 0) + Tally(fates[1..], a)
  }

  // Nothing else happens to a store, and the row says what happened.
  ghost predicate LeftAsIs(w: World, next: World, id: Id) {
    id in w.shipments && id in next.shipments && next.shipments[id] == w.shipments[id]
  }

  ghost predicate Closed(w: World, next: World, id: Id, tick: int) {
    && id in w.shipments && id in next.shipments
    && next.shipments[id] == w.shipments[id].(status := Delivered, closed := Some(tick))
  }

  lemma OneMoves(w: World, id: Id, tick: int)
    ensures forall j :: j != id ==> (j in DeliverOne(w, id, tick).shipments <==> j in w.shipments)
    ensures forall j :: j != id && j in w.shipments ==> LeftAsIs(w, DeliverOne(w, id, tick), j)
    ensures Due(w, id, tick) ==>
              if ArrivalOf(w, w.shipments[id]).StillInTransit? then LeftAsIs(w, DeliverOne(w, id, tick), id)
              else Closed(w, DeliverOne(w, id, tick), id, tick)
  {
    hide ArrivalOf, ArrivalRegion, Credit;
    if Due(w, id, tick) {
      if ArrivalOf(w, w.shipments[id]).StillInTransit? {
        assert DeliverOne(w, id, tick) == w;
      } else {
        assert Closed(w, DeliverOne(w, id, tick), id, tick);
      }
    } else {
      assert DeliverOne(w, id, tick) == w;
    }
  }

  lemma RestStillDue(w: World, due: seq<Id>, tick: int)
    requires due != [] && DueList(w, due, tick)
    ensures DueList(DeliverOne(w, due[0], tick), due[1..], tick)
  {
    OneMoves(w, due[0], tick);
    hide DeliverOne;
    var next := DeliverOne(w, due[0], tick);
    forall k | 0 <= k < |due[1..]| ensures Due(next, due[1..][k], tick) && next.shipments[due[1..][k]].quantity > 0 {
      assert LeftAsIs(w, next, due[k + 1]);
    }
  }

  // Rows outside the list are not touched.
  lemma {:induction false} OthersUntouched(w: World, due: seq<Id>, tick: int, id: Id)
    requires id !in due
    ensures id in DeliverAll(w, due, tick).shipments <==> id in w.shipments
    ensures id in w.shipments ==> LeftAsIs(w, DeliverAll(w, due, tick), id)
    decreases |due|
  {
    hide DeliverOne;
    if due != [] { OneMoves(w, due[0], tick); OthersUntouched(DeliverOne(w, due[0], tick), due[1..], tick, id); }
  }

  // The list splits exactly: a shipment is closed if it arrived somewhere and left as it was otherwise.
  lemma {:induction false} EachMeetsItsFate(w: World, due: seq<Id>, tick: int, k: nat)
    requires DueList(w, due, tick) && k < |due|
    ensures if Fates(w, due, tick)[k].StillInTransit? then LeftAsIs(w, DeliverAll(w, due, tick), due[k])
            else Closed(w, DeliverAll(w, due, tick), due[k], tick)
    decreases |due|
  {
    OneMoves(w, due[0], tick);
    hide DeliverOne, ArrivalOf;
    var mid := DeliverOne(w, due[0], tick);
    RestStillDue(w, due, tick);
    if k == 0 {
      OthersUntouched(mid, due[1..], tick, due[0]);
    } else {
      EachMeetsItsFate(mid, due[1..], tick, k - 1);
      assert due[1..][k - 1] == due[k];
      assert LeftAsIs(w, mid, due[k]);
    }
  }

  lemma {:induction false} CountsMatchFates(w: World, due: seq<Id>, tick: int, n: DeliveryCount)
    requires DueList(w, due, tick)
    ensures CountAll(w, due, tick, n).delivered == n.delivered + Tally(Fates(w, due, tick), AtDestination)
    ensures CountAll(w, due, tick, n).returned == n.returned + Tally(Fates(w, due, tick), BackAtOrigin)
    decreases |due|
  {
    if due != [] {
      RestStillDue(w, due, tick);
      CountsMatchFates(DeliverOne(w, due[0], tick), due[1..], tick, CountOne(w, due[0], tick, n));
    }
  }

  lemma {:induction false} TalliesAddUp(fates: seq<Arrival>)
    ensures Tally(fates, AtDestination) + Tally(fates, BackAtOrigin) + Tally(fates, StillInTransit) == |fates|
  {
    if fates != [] { TalliesAddUp(fates[1..]); }
  }

  // What a list of fates brings into one company's store in one region.
  ghost function Landed(w: World, due: seq<Id>, fates: seq<Arrival>, c: Id, r: Id): int
    requires |fates| == |due| && forall k :: 0 <= k < |due| ==> due[k] in w.shipments
  {
    if due == [] then 0
    else LandedOne(w.shipments[due[0]], fates[0], c, r) + Landed(w, due[1..], fates[1..], c, r)
  }

  function LandedOne(s: Shipment, a: Arrival, c: Id, r: Id): int {
    if s.company == c && ((a.AtDestination? && s.to == r) || (a.BackAtOrigin? && s.from == r)) then s.quantity else 0
  }

  lemma {:induction false} LandedSame(w: World, mid: World, due: seq<Id>, fates: seq<Arrival>, c: Id, r: Id)
    requires |fates| == |due|
    requires forall k :: 0 <= k < |due| ==> due[k] in w.shipments && due[k] in mid.shipments && LeftAsIs(w, mid, due[k])
    ensures Landed(w, due, fates, c, r) == Landed(mid, due, fates, c, r)
  {
    if due != [] {
      LandedSame(w, mid, due[1..], fates[1..], c, r);
    }
  }

  lemma DeliverOneHeld(w: World, id: Id, tick: int, c: Id, r: Id)
    requires Due(w, id, tick)
    ensures Stored(DeliverOne(w, id, tick), c, r)
         == Stored(w, c, r) + LandedOne(w.shipments[id], ArrivalOf(w, w.shipments[id]), c, r)
  {
    hide Credit, Fits, Sum;
    var s := w.shipments[id];
    if !ArrivalOf(w, s).StillInTransit? {
      var key := ArrivalKey(s, ArrivalRegion(w, s));
      HeldCredit(w.stock, key, s.quantity, c, r);
      assert DeliverOne(w, id, tick).stock == Credit(w.stock, key, s.quantity);
    } else {
      assert DeliverOne(w, id, tick) == w;
    }
  }

  // Every store ends with what it held plus what landed there: each closed shipment is credited once, in full.
  lemma {:induction false} DeliveredStock(w: World, due: seq<Id>, tick: int, c: Id, r: Id)
    requires DueList(w, due, tick)
    ensures Stored(DeliverAll(w, due, tick), c, r)
         == Stored(w, c, r) + Landed(w, due, Fates(w, due, tick), c, r)
    decreases |due|
  {
    if due != [] {
      var mid := DeliverOne(w, due[0], tick);
      RestStillDue(w, due, tick);
      DeliverOneHeld(w, due[0], tick, c, r);
      DeliveredStock(mid, due[1..], tick, c, r);
      OneMoves(w, due[0], tick);
      LandedSame(w, mid, due[1..], Fates(mid, due[1..], tick), c, r);
    }
  }

  // Stores only grow, and what they may hold does not change.
  lemma {:induction false} StoresOnlyGrow(w: World, due: seq<Id>, tick: int, c: Id, r: Id)
    requires DueList(w, due, tick)
    ensures Stored(w, c, r) <= Stored(DeliverAll(w, due, tick), c, r)
    ensures DeliverAll(w, due, tick).buildings == w.buildings
    decreases |due|
  {
    if due != [] {
      RestStillDue(w, due, tick);
      DeliverOneHeld(w, due[0], tick, c, r);
      StoresOnlyGrow(DeliverOne(w, due[0], tick), due[1..], tick, c, r);
    }
  }

  // A shipment is left in transit only if neither its destination nor its origin has room, even at the end.
  lemma {:induction false} LeftOnlyWhenFull(w: World, due: seq<Id>, tick: int, k: nat)
    requires DueList(w, due, tick) && k < |due| && Fates(w, due, tick)[k].StillInTransit?
    ensures var next, s := DeliverAll(w, due, tick), w.shipments[due[k]];
            !Fits(next, s.company, s.to, s.quantity) && !Fits(next, s.company, s.from, s.quantity)
    decreases |due|
  {
    OneMoves(w, due[0], tick);
    var mid, s := DeliverOne(w, due[0], tick), w.shipments[due[k]];
    RestStillDue(w, due, tick);
    if k == 0 {
      StoresOnlyGrow(w, due, tick, s.company, s.to);
      StoresOnlyGrow(w, due, tick, s.company, s.from);
    } else {
      assert due[1..][k - 1] == due[k];
      assert LeftAsIs(w, mid, due[k]);
      LeftOnlyWhenFull(mid, due[1..], tick, k - 1);
    }
  }

  // ---------------------------------------------------------------- whether it completes

  lemma DeliveredKeepsRows(w: World, id: Id, tick: int)
    ensures forall j :: Undeliverable(DeliverOne(w, id, tick), j, tick) ==> Undeliverable(w, j, tick)
    ensures forall j :: j != id && Undeliverable(w, j, tick) ==> Undeliverable(DeliverOne(w, id, tick), j, tick)
  {
    OneMoves(w, id, tick);
    assert !Due(w, id, tick) ==> DeliverOne(w, id, tick) == w;
    hide DeliverOne;
    var next := DeliverOne(w, id, tick);
    forall j | Undeliverable(next, j, tick) ensures Undeliverable(w, j, tick) {
      if j == id && Due(w, id, tick) { assert LeftAsIs(w, next, id) || Closed(w, next, id, tick); }
    }
  }

  lemma {:induction false} EachCompletesIff(w: World, due: seq<Id>, tick: int)
    ensures DeliverEach(w, due, tick).Done? <==> forall k :: 0 <= k < |due| ==> !Undeliverable(w, due[k], tick)
    ensures DeliverEach(w, due, tick).Done? ==> DeliverEach(w, due, tick).world == DeliverAll(w, due, tick)
    decreases |due|
  {
    hide DeliverOne, Undeliverable;
    if due != [] && !Undeliverable(w, due[0], tick) {
      var mid := DeliverOne(w, due[0], tick);
      DeliveredKeepsRows(w, due[0], tick);
      EachCompletesIff(mid, due[1..], tick);
      if forall k :: 0 <= k < |due| ==> !Undeliverable(w, due[k], tick) {
        forall k | 0 <= k < |due[1..]| ensures !Undeliverable(mid, due[1..][k], tick) {
          assert due[1..][k] == due[k + 1];
        }
      } else {
        var k :| 0 <= k < |due| && Undeliverable(w, due[k], tick);
        assert due[1..][k - 1] == due[k] && due[k] != due[0];
      }
    }
  }

  // Delivery completes exactly when no due row has a negative quantity: a full store never stops it.
  lemma DeliveryCompletesIff(w: World, due: seq<Id>, tick: nat)
    ensures DeliverDue(w, due, tick).Done? <==> forall k :: 0 <= k < |due| ==> !Undeliverable(w, due[k], tick)
    ensures DeliverDue(w, due, tick).Done? ==> DeliverDue(w, due, tick).world == DeliverAll(w, due, tick)
  {
    EachCompletesIff(w, due, tick);
  }

  // Where every shipment is of something, it always completes.
  lemma ShipmentsDeliver(w: World, due: seq<Id>, tick: nat)
    requires Books(w)
    ensures DeliverDue(w, due, tick) == Done(DeliverAll(w, due, tick))
  {
    assert ShipmentsOk(w.shipments, w.companies);
    hide Books, ShipmentsOk;
    forall k | 0 <= k < |due| ensures !Undeliverable(w, due[k], tick) { PositiveDelivers(w, due[k], tick); }
    DeliveryCompletesIff(w, due, tick);
  }

  lemma PositiveDelivers(w: World, id: Id, tick: int)
    requires ShipmentsOk(w.shipments, w.companies)
    ensures !Undeliverable(w, id, tick)
  {
  }

  // One run of the delivery stage over shipments of something: it completes, its counts and the shipments still in
  // transit make up the list, and no store ends above the larger of what it held and what it may hold.
  lemma DeliverySplitsTheList(w: World, due: seq<Id>, tick: nat)
    requires DueList(w, due, tick)
    ensures DeliverDue(w, due, tick) == Done(DeliverAll(w, due, tick))
    ensures var n, fates := CountAll(w, due, tick, DeliveryCount(0, 0)), Fates(w, due, tick);
            && n.delivered == Tally(fates, AtDestination) && n.returned == Tally(fates, BackAtOrigin)
            && n.delivered + n.returned + Tally(fates, StillInTransit) == |due|
    ensures Within(w, DeliverAll(w, due, tick))
  {
    DeliveryCompletesIff(w, due, tick);
    CountsMatchFates(w, due, tick, DeliveryCount(0, 0));
    TalliesAddUp(Fates(w, due, tick));
    DeliverAllWithin(w, due, tick);
  }

  // ---------------------------------------------------------------- each shipment at its turn

  // The tables when the loop reaches the shipment at k.
  ghost function AtTurn(w: World, due: seq<Id>, tick: int, k: nat): World
    requires k <= |due|
  {
    DeliverAll(w, due[..k], tick)
  }

  lemma {:induction false} FateOfTurn(w: World, due: seq<Id>, tick: int, k: nat)
    requires DueList(w, due, tick) && k < |due|
    ensures var at, s, fate := AtTurn(w, due, tick, k), w.shipments[due[k]], Fates(w, due, tick)[k];
            && (fate.StillInTransit? <==>
                  !Fits(at, s.company, s.to, s.quantity) && !Fits(at, s.company, s.from, s.quantity))
            && (fate.BackAtOrigin? <==>
                  !Fits(at, s.company, s.to, s.quantity) && Fits(at, s.company, s.from, s.quantity))
    decreases |due|
  {
    hide Fits;
    if k == 0 {
      assert due[..0] == [];
    } else {
      OneMoves(w, due[0], tick);
      RestStillDue(w, due, tick);
      var mid := DeliverOne(w, due[0], tick);
      assert due[1..][k - 1] == due[k] && due[..k][1..] == due[1..][..k - 1] && due[..k][0] == due[0];
      hide DeliverOne;
      assert LeftAsIs(w, mid, due[k]);
      FateOfTurn(mid, due[1..], tick, k - 1);
    }
  }

  // A shipment is left in transit exactly when, at its turn, neither its destination nor its origin has room; it goes
  // back exactly when the origin has and the destination has not. One that was left has no room at the end either.
  lemma FateAtItsTurn(w: World, due: seq<Id>, tick: int, k: nat)
    requires DueList(w, due, tick) && k < |due|
    ensures var at, s, fate := AtTurn(w, due, tick, k), w.shipments[due[k]], Fates(w, due, tick)[k];
            && (fate.StillInTransit? <==>
                  !Fits(at, s.company, s.to, s.quantity) && !Fits(at, s.company, s.from, s.quantity))
            && (fate.BackAtOrigin? <==>
                  !Fits(at, s.company, s.to, s.quantity) && Fits(at, s.company, s.from, s.quantity))
    ensures Fates(w, due, tick)[k].StillInTransit? ==>
              var next, s := DeliverAll(w, due, tick), w.shipments[due[k]];
              !Fits(next, s.company, s.to, s.quantity) && !Fits(next, s.company, s.from, s.quantity)
  {
    hide Fits;
    FateOfTurn(w, due, tick, k);
    if Fates(w, due, tick)[k].StillInTransit? { LeftOnlyWhenFull(w, due, tick, k); }
  }
}
