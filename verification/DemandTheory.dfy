/** The demand sink takes exactly what it is asked for, as far as unreserved stock goes. */
module DemandTheory {
  import opened Rows
  import opened DemandSink
  import opened Conservation
  import opened Effects

  function Free(w: World, key: RowKey): int {
    if key in w.stock then Max(0, w.stock[key].quantity - w.stock[key].reserved) else 0
  }

  // The unreserved stock of one item over a list of regions.
  function FreeIn(w: World, company: Id, item: Id, regions: seq<Id>): int {
    if regions == [] then 0 else Free(w, RowKey(company, item, regions[0])) + FreeIn(w, company, item, regions[1..])
  }

  predicate Distinct(regions: seq<Id>) { forall i, j :: 0 <= i < j < |regions| ==> regions[i] != regions[j] }

  lemma {:induction false} FreeElsewhere(w: World, next: World, company: Id, item: Id, regions: seq<Id>)
    requires forall i :: 0 <= i < |regions| ==>
               Free(next, RowKey(company, item, regions[i])) == Free(w, RowKey(company, item, regions[i]))
    ensures FreeIn(next, company, item, regions) == FreeIn(w, company, item, regions)
  {
    if regions != [] { FreeElsewhere(w, next, company, item, regions[1..]); }
  }

  lemma {:induction false} FreeNonNegative(w: World, company: Id, item: Id, regions: seq<Id>)
    ensures FreeIn(w, company, item, regions) >= 0
  {
    if regions != [] { FreeNonNegative(w, company, item, regions[1..]); }
  }

  lemma TakesTheSmaller(w: World, key: RowKey, demand: int)
    requires demand > 0
    ensures TakenFrom(w, key, demand) == Min(demand, Free(w, key)) >= 0
    ensures forall k :: k != key ==> Free(TakeRow(w, key, demand), k) == Free(w, k)
  {
    if key in w.stock && TakenFrom(w, key, demand) > 0 {
      assert TakeRow(w, key, demand) == Take(w, key, TakenFrom(w, key, demand));
    } else {
      assert TakeRow(w, key, demand) == w;
    }
  }

  lemma RecordsWhatItTakes(w: World, key: RowKey, demand: int, item: Id)
    requires demand > 0
    ensures EatenOf(TakeRow(w, key, demand).consumed, item)
         == EatenOf(w.consumed, item) + (if key.item == item then TakenFrom(w, key, demand) else 0)
  {
    if key in w.stock && TakenFrom(w, key, demand) > 0 {
      EatenAppend(w.consumed, Consumption(key, TakenFrom(w, key, demand)));
    } else {
      assert TakeRow(w, key, demand) == w;
    }
  }

  // Row by row, the loop takes the smaller of the demand and the unreserved stock of the listed regions.
  lemma {:induction false} SinkTakesWhatItCan(w: World, company: Id, item: Id, regions: seq<Id>, demand: nat)
    requires Distinct(regions)
    ensures TakenTotal(w, company, item, regions, demand) == Min(demand, FreeIn(w, company, item, regions))
    decreases |regions|
  {
    FreeNonNegative(w, company, item, regions);
    if regions != [] && demand > 0 {
      var key := RowKey(company, item, regions[0]);
      TakesTheSmaller(w, key, demand);
      hide TakeRow, TakenFrom, Free;
      var mid, taken := TakeRow(w, key, demand), TakenFrom(w, key, demand);
      FreeNonNegative(w, company, item, regions[1..]);
      FreeElsewhere(w, mid, company, item, regions[1..]);
      SinkTakesWhatItCan(mid, company, item, regions[1..], demand - taken);
    }
  }

  // Every unit it takes is recorded as eaten.
  lemma {:induction false} SinkRecordsAll(w: World, company: Id, item: Id, regions: seq<Id>, demand: int)
    ensures EatenOf(TakeRows(w, company, item, regions, demand).consumed, item)
         == EatenOf(w.consumed, item) + TakenTotal(w, company, item, regions, demand)
    decreases |regions|
  {
    hide TakeRow, TakenFrom, EatenOf;
    if regions != [] && demand > 0 {
      var key := RowKey(company, item, regions[0]);
      var mid, taken := TakeRow(w, key, demand), TakenFrom(w, key, demand);
      RecordsWhatItTakes(w, key, demand, item);
      SinkRecordsAll(mid, company, item, regions[1..], demand - taken);
      assert TakeRows(w, company, item, regions, demand) == TakeRows(mid, company, item, regions[1..], demand - taken);
      assert TakenTotal(w, company, item, regions, demand) ==
          taken + TakenTotal(mid, company, item, regions[1..], demand - taken);
    }
  }

  // ---------------------------------------------------------------- row by row

  // The units eaten from the rows that count.
  function Eaten(consumed: seq<Consumption>, counts: RowKey -> bool): int {
    if consumed == [] then 0
    else
      Eaten(consumed[..|consumed| - 1], counts)
      + (if counts(consumed[|consumed| - 1].key) then consumed[|consumed| - 1].quantity else 0)
  }

  function At(key: RowKey): RowKey -> bool { (k: RowKey) => k == key }

  function Of(company: Id, item: Id): RowKey -> bool { (k: RowKey) => k.company == company && k.item == item }

  // A row with what it holds, what it has free and what was eaten from it.
  ghost predicate SameRow(w: World, next: World, key: RowKey) {
    && HeldAt(next, key) == HeldAt(w, key) && Free(next, key) == Free(w, key)
    && Eaten(next.consumed, At(key)) == Eaten(w.consumed, At(key))
  }

  lemma EatenOneMore(consumed: seq<Consumption>, added: Consumption, counts: RowKey -> bool)
    ensures Eaten(consumed + [added], counts)
         == Eaten(consumed, counts) + (if counts(added.key) then added.quantity else 0)
  {
    assert (consumed + [added])[..|consumed|] == consumed;
  }

  lemma TakeRowHeld(w: World, key: RowKey, demand: int)
    requires demand > 0
    ensures HeldAt(TakeRow(w, key, demand), key) == HeldAt(w, key) - Min(demand, Free(w, key))
    ensures forall k :: k != key ==> HeldAt(TakeRow(w, key, demand), k) == HeldAt(w, k)
  {
    TakesTheSmaller(w, key, demand);
    var taken := TakenFrom(w, key, demand);
    assert key !in w.stock ==> taken == 0;
    hide TakenFrom, Free;
    if key in w.stock && taken > 0 {
      assert TakeRow(w, key, demand) == Take(w, key, taken);
      hide TakeRow;
    } else {
      assert TakeRow(w, key, demand) == w;
      hide TakeRow;
    }
  }

  lemma TakeRowEaten(w: World, key: RowKey, demand: int, counts: RowKey -> bool)
    requires demand > 0
    ensures Eaten(TakeRow(w, key, demand).consumed, counts)
         == Eaten(w.consumed, counts) + (if counts(key) then Min(demand, Free(w, key)) else 0)
  {
    TakesTheSmaller(w, key, demand);
    var taken := TakenFrom(w, key, demand);
    hide Eaten, TakenFrom, Free;
    if key in w.stock && taken > 0 {
      assert TakeRow(w, key, demand).consumed == w.consumed + [Consumption(key, taken)];
      hide TakeRow;
      EatenOneMore(w.consumed, Consumption(key, taken), counts);
    } else {
      assert TakeRow(w, key, demand) == w;
    }
  }

  lemma TakeRowEffect(w: World, key: RowKey, demand: int, counts: RowKey -> bool)
    requires demand > 0
    ensures var next, taken := TakeRow(w, key, demand), Min(demand, Free(w, key));
            && HeldAt(next, key) == HeldAt(w, key) - taken
            && Eaten(next.consumed, counts) == Eaten(w.consumed, counts) + (if counts(key) then taken else 0)
    ensures TakenFrom(w, key, demand) == Min(demand, Free(w, key)) >= 0
    ensures forall k :: k != key ==>
              HeldAt(TakeRow(w, key, demand), k) == HeldAt(w, k) && Free(TakeRow(w, key, demand), k) == Free(w, k)
  {
    hide TakeRow, TakenFrom, Free, HeldAt, Eaten;
    TakesTheSmaller(w, key, demand);
    TakeRowHeld(w, key, demand);
    TakeRowEaten(w, key, demand, counts);
  }

  lemma {:induction false} OtherRowsSame(w: World, company: Id, item: Id, regions: seq<Id>, demand: int, key: RowKey)
    requires key.company != company || key.item != item || key.region !in regions
    ensures SameRow(w, TakeRows(w, company, item, regions, demand), key)
    decreases |regions|
  {
    if regions != [] && demand > 0 {
      var first := RowKey(company, item, regions[0]);
      TakeRowEffect(w, first, demand, At(key));
      hide TakeRow, TakenFrom, Free, HeldAt, Eaten;
      OtherRowsSame(TakeRow(w, first, demand), company, item, regions[1..], demand - TakenFrom(w, first, demand), key);
    }
  }

  lemma FreeBefore(w: World, mid: World, company: Id, item: Id, regions: seq<Id>, j: nat)
    requires Distinct(regions) && 0 < j < |regions|
    requires forall k :: k != RowKey(company, item, regions[0]) ==> Free(mid, k) == Free(w, k)
    ensures FreeIn(w, company, item, regions[..j])
         == Free(w, RowKey(company, item, regions[0])) + FreeIn(mid, company, item, regions[1..][..j - 1])
    ensures FreeIn(mid, company, item, regions[1..][..j - 1]) >= 0
    ensures RowKey(company, item, regions[j]) != RowKey(company, item, regions[0])
  {
    hide Free;
    assert regions[1..][..j - 1] == regions[..j][1..];
    FreeElsewhere(w, mid, company, item, regions[..j][1..]);
    FreeNonNegative(mid, company, item, regions[..j][1..]);
  }

  // Each region gives what it has free, as far as the regions before it left something to ask for.
  function Share(w: World, company: Id, item: Id, regions: seq<Id>, demand: int, j: nat): int
    requires j < |regions|
  {
    Min(Free(w, RowKey(company, item, regions[j])), Max(0, demand - FreeIn(w, company, item, regions[..j])))
  }

  lemma ShareLeft(w: World, mid: World, company: Id, item: Id, regions: seq<Id>, demand: nat, taken: nat, j: nat)
    requires Distinct(regions) && 0 < j < |regions|
    requires forall k :: k != RowKey(company, item, regions[0]) ==> Free(mid, k) == Free(w, k)
    requires taken == Min(demand, Free(w, RowKey(company, item, regions[0])))
    ensures Share(mid, company, item, regions[1..], demand - taken, j - 1)
         == Share(w, company, item, regions, demand, j)
  {
    FreeBefore(w, mid, company, item, regions, j);
    hide Free, FreeIn;
    assert regions[1..][j - 1] == regions[j];
  }

  lemma NoShare(w: World, company: Id, item: Id, regions: seq<Id>, demand: int, j: nat)
    requires j < |regions|
    ensures demand <= 0 ==> Share(w, company, item, regions, demand, j) == 0
    ensures j == 0 && demand >= 0 ==>
              Share(w, company, item, regions, demand, j) == Min(demand, Free(w, RowKey(company, item, regions[0])))
  {
    FreeNonNegative(w, company, item, regions[..j]);
  }

  ghost predicate Gives(w: World, next: World, key: RowKey, share: int) {
    && HeldAt(next, key) == HeldAt(w, key) - share
    && Eaten(next.consumed, At(key)) == Eaten(w.consumed, At(key)) + share
  }

  lemma FirstGives(w: World, company: Id, item: Id, regions: seq<Id>, demand: nat)
    requires Distinct(regions) && regions != [] && demand > 0
    ensures Gives(w, TakeRows(w, company, item, regions, demand), RowKey(company, item, regions[0]),
                  Share(w, company, item, regions, demand, 0))
  {
    var first := RowKey(company, item, regions[0]);
    NoShare(w, company, item, regions, demand, 0);
    TakeRowEffect(w, first, demand, At(first));
    hide TakeRow, TakenFrom, Free, FreeIn, HeldAt, Eaten, Share, At;
    assert regions[0] !in regions[1..];
    OtherRowsSame(TakeRow(w, first, demand), company, item, regions[1..], demand - TakenFrom(w, first, demand), first);
  }

  lemma {:induction false} TakesInOrder(w: World, company: Id, item: Id, regions: seq<Id>, demand: nat, j: nat)
    requires Distinct(regions) && j < |regions|
    ensures Gives(w, TakeRows(w, company, item, regions, demand), RowKey(company, item, regions[j]),
                  Share(w, company, item, regions, demand, j))
    decreases |regions|
  {
    NoShare(w, company, item, regions, demand, j);
    if demand > 0 {
      if j == 0 {
        FirstGives(w, company, item, regions, demand);
      } else {
        var first, key := RowKey(company, item, regions[0]), RowKey(company, item, regions[j]);
        TakeRowEffect(w, first, demand, At(key));
        hide TakeRow, TakenFrom, Free, FreeIn, HeldAt, Eaten, Share, Distinct;
        var mid, taken := TakeRow(w, first, demand), TakenFrom(w, first, demand);
        DistinctRest(regions, j);
        TakesInOrder(mid, company, item, regions[1..], demand - taken, j - 1);
        ShareLeft(w, mid, company, item, regions, demand, taken, j);
      }
    }
  }

  lemma DistinctRest(regions: seq<Id>, j: nat)
    requires Distinct(regions) && 0 < j < |regions|
    ensures Distinct(regions[1..]) && regions[1..][j - 1] == regions[j] && regions[j] != regions[0]
  {
  }

  lemma {:induction false} PairEaten(
    w: World, company: Id, item: Id, regions: seq<Id>, demand: int, counts: RowKey -> bool, own: bool)
    requires forall r: Id :: counts(RowKey(company, item, r)) == own
    ensures Eaten(TakeRows(w, company, item, regions, demand).consumed, counts)
         == Eaten(w.consumed, counts) + (if own then TakenTotal(w, company, item, regions, demand) else 0)
    decreases |regions|
  {
    if regions != [] && demand > 0 {
      var key := RowKey(company, item, regions[0]);
      TakeRowEffect(w, key, demand, counts);
      hide TakeRow, TakenFrom, Free, HeldAt, Eaten;
      PairEaten(TakeRow(w, key, demand), company, item, regions[1..], demand - TakenFrom(w, key, demand), counts, own);
    }
  }

  // ---------------------------------------------------------------- the whole sink

  // Each pair of a company and an item once, and each of its regions once.
  ghost predicate DistinctDemands(demands: seq<Demand>) {
    && (forall k :: 0 <= k < |demands| ==> Distinct(demands[k].regions))
    && (forall i, j :: 0 <= i < j < |demands| ==>
          demands[i].company != demands[j].company || demands[i].item != demands[j].item)
  }

  // The row in its j-th region gave its share.
  ghost predicate MetAt(w: World, next: World, d: Demand, j: nat)
    requires j < |d.regions|
  {
    Gives(w, next, RowKey(d.company, d.item, d.regions[j]), Share(w, d.company, d.item, d.regions, d.quantity, j))
  }

  // The pair gave the smaller of what was asked for and what it had free, first region first.
  ghost predicate Met(w: World, next: World, d: Demand) {
    && Eaten(next.consumed, Of(d.company, d.item)) - Eaten(w.consumed, Of(d.company, d.item))
       == Min(Max(0, d.quantity), FreeIn(w, d.company, d.item, d.regions))
    && forall j :: 0 <= j < |d.regions| ==> MetAt(w, next, d, j)
  }

  lemma OneMet(w: World, d: Demand)
    requires Distinct(d.regions)
    ensures Met(w, TakeRows(w, d.company, d.item, d.regions, d.quantity), d)
  {
    hide Free, HeldAt, Eaten;
    FreeNonNegative(w, d.company, d.item, d.regions);
    PairEaten(w, d.company, d.item, d.regions, d.quantity, Of(d.company, d.item), true);
    if d.quantity >= 0 { SinkTakesWhatItCan(w, d.company, d.item, d.regions, d.quantity); }
    forall j | 0 <= j < |d.regions| ensures MetAt(w, TakeRows(w, d.company, d.item, d.regions, d.quantity), d, j) {
      NoShare(w, d.company, d.item, d.regions, d.quantity, j);
      if d.quantity >= 0 { TakesInOrder(w, d.company, d.item, d.regions, d.quantity, j); }
    }
  }

  // The rows of one pair, and what was eaten from them in all.
  ghost predicate SamePair(w: World, next: World, company: Id, item: Id) {
    && Eaten(next.consumed, Of(company, item)) == Eaten(w.consumed, Of(company, item))
    && forall r :: SameRow(w, next, RowKey(company, item, r))
  }

  lemma OtherPairSame(w: World, d: Demand, company: Id, item: Id)
    requires d.company != company || d.item != item
    ensures SamePair(w, TakeRows(w, d.company, d.item, d.regions, d.quantity), company, item)
  {
    hide SameRow;
    PairEaten(w, d.company, d.item, d.regions, d.quantity, Of(company, item), false);
    forall r ensures SameRow(w, TakeRows(w, d.company, d.item, d.regions, d.quantity), RowKey(company, item, r)) {
      OtherRowsSame(w, d.company, d.item, d.regions, d.quantity, RowKey(company, item, r));
    }
  }

  lemma {:induction false} OtherPairsSame(w: World, demands: seq<Demand>, company: Id, item: Id)
    requires forall k :: 0 <= k < |demands| ==> demands[k].company != company || demands[k].item != item
    ensures SamePair(w, Drain(w, demands), company, item)
    decreases |demands|
  {
    if demands != [] {
      var d := demands[0];
      OtherPairSame(w, d, company, item);
      hide TakeRows, Eaten, Free, HeldAt;
      OtherPairsSame(TakeRows(w, d.company, d.item, d.regions, d.quantity), demands[1..], company, item);
    }
  }

  lemma {:induction false} FreeSamePair(w: World, next: World, company: Id, item: Id, regions: seq<Id>)
    requires SamePair(w, next, company, item)
    ensures FreeIn(next, company, item, regions) == FreeIn(w, company, item, regions)
  {
    if regions != [] {
      assert SameRow(w, next, RowKey(company, item, regions[0]));
      FreeSamePair(w, next, company, item, regions[1..]);
    }
  }

  lemma MetBefore(w: World, mid: World, next: World, d: Demand)
    requires Met(w, mid, d) && SamePair(mid, next, d.company, d.item)
    ensures Met(w, next, d)
  {
    hide Eaten, Free, HeldAt, FreeIn, Share;
    forall j | 0 <= j < |d.regions| ensures MetAt(w, next, d, j) {
      assert MetAt(w, mid, d, j) && SameRow(mid, next, RowKey(d.company, d.item, d.regions[j]));
    }
  }

  lemma MetAfter(w: World, mid: World, next: World, d: Demand)
    requires SamePair(w, mid, d.company, d.item) && Met(mid, next, d)
    ensures Met(w, next, d)
  {
    hide Eaten, Free, HeldAt, FreeIn;
    FreeSamePair(w, mid, d.company, d.item, d.regions);
    forall j | 0 <= j < |d.regions| ensures MetAt(w, next, d, j) {
      FreeSamePair(w, mid, d.company, d.item, d.regions[..j]);
      assert MetAt(mid, next, d, j) && SameRow(w, mid, RowKey(d.company, d.item, d.regions[j]));
    }
  }

  // One run of the sink: every demand on the list is met as far as the unreserved stock of its regions goes.
  lemma {:induction false} EachDemandMet(w: World, demands: seq<Demand>, k: nat)
    requires DistinctDemands(demands) && k < |demands|
    ensures Met(w, Drain(w, demands), demands[k])
    decreases |demands|
  {
    var d := demands[0];
    var mid := TakeRows(w, d.company, d.item, d.regions, d.quantity);
    assert forall i :: 0 <= i < |demands[1..]| ==> demands[1..][i] == demands[i + 1];
    hide TakeRows, Met, SamePair;
    if k == 0 {
      OneMet(w, d);
      OtherPairsSame(mid, demands[1..], d.company, d.item);
      MetBefore(w, mid, Drain(w, demands), d);
    } else {
      OtherPairSame(w, d, demands[k].company, demands[k].item);
      EachDemandMet(mid, demands[1..], k - 1);
      MetAfter(w, mid, Drain(w, demands), demands[k]);
    }
  }
}
