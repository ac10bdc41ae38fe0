/** The two commands that credit stock without asking for room, and the one that refuses a seller with twin rows. */
module Overflow {
  import opened Rows
  import opened Sums
  import opened Storage
  import opened Accounting
  import opened CompanyBooks
  import opened StorageTheory
  import opened TickTheory
  import Logistics
  import Contracts

  // ---------------------------------------------------------------- recalled shipments

  lemma RecallHeld(w: World, id: Id, tick: nat, c: Id, r: Id)
    requires id in w.shipments && w.shipments[id].status.InTransit?
    ensures Stored(Logistics.CancelShipment(w, id, tick).world, c, r)
         == Stored(w, c, r) + (if w.shipments[id].company == c &&
             w.shipments[id].from == r then w.shipments[id].quantity else 0)
  {
    var s := w.shipments[id];
    HeldCredit(w.stock, Logistics.ArrivalKey(s, s.from), s.quantity, c, r);
  }

  // A cancel keeps every store within bounds exactly when the shipment was no longer on its way, or its origin has
  // room for it.
  lemma RecallBoundedIff(w: World, id: Id, tick: nat)
    requires Books(w) && id in w.shipments
    ensures StoresBounded(w, Logistics.CancelShipment(w, id, tick).world)
       <==> !w.shipments[id].status.InTransit?
            || Fits(w, w.shipments[id].company, w.shipments[id].from, w.shipments[id].quantity)
  {
    var s, next := w.shipments[id], Logistics.CancelShipment(w, id, tick).world;
    assert s.quantity > 0;
    assert next.buildings == w.buildings;
    if s.status.InTransit? {
      hide Books, Credit, Held;
      RecallHeld(w, id, tick, s.company, s.from);
      forall c, r ensures Stored(next, c, r)
                       == Stored(w, c, r) + (if s.company == c && s.from == r then s.quantity else 0) {
        RecallHeld(w, id, tick, c, r);
      }
    } else {
      assert next == w;
    }
  }

  // ---------------------------------------------------------------- fulfilled contracts

  lemma SoldHeld(w: World, id: Id, seller: Id, quantity: int, tick: int, locked: bool, c: Id, r: Id)
    requires Sells(w, id, seller, quantity, tick, locked)
    ensures var k, next := w.contracts[id], Contracts.FulfilContract(w, id, seller, quantity, tick, locked).world;
            Stored(next, c, r) == Stored(w, c, r)
              + (if k.buyer == c && w.companies[k.buyer].region == r then quantity else 0)
              - (if seller == c && w.companies[seller].region == r then quantity else 0)
  {
    var from, to := Contracts.SellerRow(w, id), Contracts.BuyerRow(w, id);
    var left := w.stock[from].(quantity := w.stock[from].quantity - quantity);
    HeldPut(w.stock, from, left, c, r);
    HeldCredit(w.stock[from := left], to, quantity, c, r);
  }

  lemma SaleFacts(w: World, id: Id, seller: Id, quantity: int, tick: int, locked: bool)
    requires Sells(w, id, seller, quantity, tick, locked)
    ensures id in w.contracts && w.contracts[id].buyer in w.companies && seller in w.companies && quantity > 0
    ensures Contracts.FulfilContract(w, id, seller, quantity, tick, locked).world.buildings == w.buildings
  {
  }

  // A fulfilment keeps every store within bounds exactly when a company delivers to itself, or the buyer's store has
  // room for the delivery.
  lemma FulfilmentBoundedIff(w: World, id: Id, seller: Id, quantity: int, tick: int, locked: bool)
    requires Sells(w, id, seller, quantity, tick, locked)
    ensures StoresBounded(w, Contracts.FulfilContract(w, id, seller, quantity, tick, locked).world)
       <==> w.contracts[id].buyer == seller
            || Fits(w, w.contracts[id].buyer, w.companies[w.contracts[id].buyer].region, quantity)
  {
    SaleFacts(w, id, seller, quantity, tick, locked);
    var k, next := w.contracts[id], Contracts.FulfilContract(w, id, seller, quantity, tick, locked).world;
    var region := w.companies[k.buyer].region;
    forall c, r ensures Stored(next, c, r) == Stored(w, c, r)
                          + (if k.buyer == c && region == r then quantity else 0)
                          - (if seller == c && w.companies[seller].region == r then quantity else 0) {
      SoldHeld(w, id, seller, quantity, tick, locked, c, r);
    }
    hide Sells, Contracts.FulfilContract, Held;
    if k.buyer != seller && !Fits(w, k.buyer, region, quantity) {
      assert Stored(next, k.buyer, region) == Stored(w, k.buyer, region) + quantity;
      assert Stored(next, k.buyer, region) > Max(Stored(w, k.buyer, region), Capacity(next, k.buyer, region));
    }
  }

  // ---------------------------------------------------------------- twin rows

  // Another row of the company and item, in whatever region, that reads the same.
  ghost predicate HasTwin(stock: map<RowKey, Stock>, row: RowKey)
    requires row in stock
  {
    exists k :: k in stock && k != row && k.company == row.company && k.item == row.item && stock[k] == stock[row]
  }

  // The conditional update of a row's company, item and contents selects that row alone exactly when it has no twin.
  lemma SelectsOneIff(stock: map<RowKey, Stock>, row: RowKey)
    requires row in stock
    ensures Sum(stock, Contracts.RowsLike(row.company, row.item, stock[row])) == 1 <==> !HasTwin(stock, row)
  {
    var like := Contracts.RowsLike(row.company, row.item, stock[row]);
    var rest := stock - {row};
    SumWithout(stock, like, row);
    if k :| k in stock && k != row && k.company == row.company && k.item == row.item && stock[k] == stock[row] {
      SumAtLeast(rest, like, k);
    } else {
      SumOfNothing(rest, like);
    }
  }

  // Everything a fulfilment checks before it writes.
  predicate Deliverable(w: World, id: Id, seller: Id, quantity: int, tick: int, locked: bool) {
    && quantity > 0 && tick >= 0 && id in w.contracts
    && var k := w.contracts[id];
       && (k.status.Accepted? || k.status.PartlyFulfilled?) && k.seller == Some(seller)
       && tick < k.expires && quantity <= k.remaining
       && k.buyer in w.companies && Contracts.NpcBuyer(w.companies[k.buyer]) && seller in w.companies && !locked
       && var row := RowKey(seller, k.item, w.companies[seller].region);
          && row in w.stock && quantity <= w.stock[row].quantity - w.stock[row].reserved
          && k.price * quantity <= w.companies[k.buyer].cash
  }

  // A delivery that passes every check is refused exactly when the seller holds an identical row in another region.
  lemma TwinRowRefusesIff(w: World, id: Id, seller: Id, quantity: int, tick: int, locked: bool)
    requires Deliverable(w, id, seller, quantity, tick, locked)
    ensures Contracts.FulfilContract(w, id, seller, quantity, tick, locked) == Thrown(Conflict, w)
       <==> HasTwin(w.stock, RowKey(seller, w.contracts[id].item, w.companies[seller].region))
    ensures Contracts.FulfilContract(w, id, seller, quantity, tick, locked).Done?
       <==> !HasTwin(w.stock, RowKey(seller, w.contracts[id].item, w.companies[seller].region))
  {
    var row := RowKey(seller, w.contracts[id].item, w.companies[seller].region);
    SelectsOneIff(w.stock, row);
    hide HasTwin, Sum;
  }

  // So a delivery goes through exactly when it passes every check and the row has no twin.
  lemma FulfilledIff(w: World, id: Id, seller: Id, quantity: int, tick: int, locked: bool)
    ensures Contracts.FulfilContract(w, id, seller, quantity, tick, locked).Done?
       <==> Deliverable(w, id, seller, quantity, tick, locked)
            && !HasTwin(w.stock, RowKey(seller, w.contracts[id].item, w.companies[seller].region))
  {
    if Deliverable(w, id, seller, quantity, tick, locked) { TwinRowRefusesIff(w, id, seller, quantity, tick, locked); }
  }
}
