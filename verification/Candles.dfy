/** Candles of one tick's trades, and the window summary built from stored candles. */
module Candles {
  import opened Rows
  import opened Contracts

  datatype Deal = Deal(id: Id, item: Id, region: Id, price: int, quantity: int, createdAt: int)

  datatype Slot = Slot(region: Id, item: Id)

  datatype Candle = Candle(
    slot: Slot, tick: int, open: int, high: int, low: int, close: int, volume: int, count: nat, vwap: int)

  datatype Computed = Candles(candles: seq<Candle>) | Invalid

  predicate DealOk(d: Deal) { d.price > 0 && d.quantity > 0 }

  predicate DealsOk(ds: seq<Deal>) { forall i :: 0 <= i < |ds| ==> DealOk(ds[i]) }

  function SlotOf(d: Deal): Slot { Slot(d.region, d.item) }

  // ---------------------------------------------------------------- what a candle is

  function Volume(ds: seq<Deal>): int { if ds == [] then 0 else Volume(ds[..|ds| - 1]) + ds[|ds| - 1].quantity }

  function Notional(ds: seq<Deal>): int {
    if ds == [] then 0 else Notional(ds[..|ds| - 1]) + ds[|ds| - 1].price * ds[|ds| - 1].quantity
  }

  // compareTradesByTime(left, right) <= 0
  predicate NotAfter(left: Deal, right: Deal) {
    left.createdAt < right.createdAt || (left.createdAt == right.createdAt && left.id <= right.id)
  }

  function InsertDeal(d: Deal, ds: seq<Deal>): seq<Deal> {
    if ds == [] || NotAfter(d, ds[0]) then [d] + ds else [ds[0]] + InsertDeal(d, ds[1..])
  }

  function ByTime(ds: seq<Deal>): seq<Deal> { if ds == [] then [] else InsertDeal(ds[0], ByTime(ds[1..])) }

  // Rounded to the nearest cent, a half upwards.
  function Rounded(notional: int, volume: int): int
    requires volume > 0
  {
    (notional + volume / 2) / volume
  }

  // A candle of the deals `ds` of one slot: what its fields mean.
  ghost predicate IsCandleOf(c: Candle, ds: seq<Deal>, tick: int) {
    && ds != [] && c.tick == tick
    && (exists i :: 0 <= i < |ds| && c.open == ds[i].price && forall k :: 0 <= k < |ds| ==> NotAfter(ds[i], ds[k]))
    && (exists i :: 0 <= i < |ds| && c.close == ds[i].price && forall k :: 0 <= k < |ds| ==> NotAfter(ds[k], ds[i]))
    && (forall k :: 0 <= k < |ds| ==> c.low <= ds[k].price <= c.high)
    && (exists k :: 0 <= k < |ds| && ds[k].price == c.low) && (exists k :: 0 <= k < |ds| && ds[k].price == c.high)
    && c.volume == Volume(ds) > 0 && c.count == |ds| && c.vwap == Rounded(Notional(ds), Volume(ds))
  }

  lemma {:induction false} InsertDealPermutes(d: Deal, ds: seq<Deal>)
    ensures multiset(InsertDeal(d, ds)) == multiset{d} + multiset(ds) && |InsertDeal(d, ds)| == |ds| + 1
    ensures forall x :: x in InsertDeal(d, ds) <==> x == d || x in ds
  {
    if ds != [] {
      InsertDealPermutes(d, ds[1..]);
      assert ds == [ds[0]] + ds[1..];
    }
  }

  ghost predicate InTime(ds: seq<Deal>) { forall i, k :: 0 <= i < k < |ds| ==> NotAfter(ds[i], ds[k]) }

  lemma {:induction false} InsertDealSorts(d: Deal, ds: seq<Deal>)
    requires InTime(ds)
    ensures InTime(InsertDeal(d, ds))
  {
    if ds != [] && !NotAfter(d, ds[0]) {
      InsertDealSorts(d, ds[1..]);
      InsertDealPermutes(d, ds[1..]);
      hide InsertDeal;
      var rest := InsertDeal(d, ds[1..]);
      forall k | 0 <= k < |rest| ensures NotAfter(ds[0], rest[k]) {
        assert rest[k] in rest;
      }
    }
  }

  lemma {:induction false} ByTimeSorts(ds: seq<Deal>)
    ensures multiset(ByTime(ds)) == multiset(ds) && |ByTime(ds)| == |ds|
    ensures InTime(ByTime(ds))
  {
    if ds != [] {
      ByTimeSorts(ds[1..]);
      InsertDealPermutes(ds[0], ByTime(ds[1..]));
      InsertDealSorts(ds[0], ByTime(ds[1..]));
      assert ds == [ds[0]] + ds[1..];
    }
  }

  // ---------------------------------------------------------------- totals do not depend on the order

  lemma {:induction false} TotalsTake(ds: seq<Deal>, i: nat)
    requires i < |ds|
    ensures Volume(ds) == Volume(ds[..i] + ds[i + 1..]) + ds[i].quantity
    ensures Notional(ds) == Notional(ds[..i] + ds[i + 1..]) + ds[i].price * ds[i].quantity
  {
    var n := |ds| - 1;
    if i < n {
      TotalsTake(ds[..n], i);
      assert (ds[..i] + ds[i + 1..])[..n - 1] == ds[..n][..i] + ds[..n][i + 1..];
    } else {
      assert ds[..i] + ds[i + 1..] == ds[..n];
    }
  }

  lemma Without(ds: seq<Deal>, i: nat)
    requires i < |ds|
    ensures multiset(ds[..i] + ds[i + 1..]) == multiset(ds) - multiset{ds[i]}
  {
    assert ds == ds[..i] + ([ds[i]] + ds[i + 1..]);
  }

  lemma {:induction false} TotalsPermute(ds: seq<Deal>, es: seq<Deal>)
    requires multiset(ds) == multiset(es)
    ensures Volume(ds) == Volume(es) && Notional(ds) == Notional(es)
    decreases |ds|
  {
    if ds == [] {
      assert es == [] by { assert |multiset(es)| == 0; }
    } else {
      var n := |ds| - 1;
      assert ds[n] in multiset(es);
      var i :| 0 <= i < |es| && es[i] == ds[n];
      TotalsTake(es, i);
      assert ds[..n] == ds[..n] + ds[n + 1..];
      Without(ds, n);
      Without(es, i);
      TotalsPermute(ds[..n], es[..i] + es[i + 1..]);
    }
  }

  // ---------------------------------------------------------------- bounds on a candle

  lemma {:induction false} NotionalBounds(ds: seq<Deal>, low: int, high: int)
    requires DealsOk(ds) && forall k :: 0 <= k < |ds| ==> low <= ds[k].price <= high
    ensures Volume(ds) >= |ds|
    ensures low * Volume(ds) <= Notional(ds) <= high * Volume(ds)
  {
    if ds != [] {
      var n := |ds| - 1;
      NotionalBounds(ds[..n], low, high);
      Weighted(low, ds[n].price, ds[n].quantity);
      Weighted(ds[n].price, high, ds[n].quantity);
      assert low * (Volume(ds[..n]) + ds[n].quantity) == low * Volume(ds[..n]) + low * ds[n].quantity;
      assert high * (Volume(ds[..n]) + ds[n].quantity) == high * Volume(ds[..n]) + high * ds[n].quantity;
    }
  }

  lemma Weighted(a: int, b: int, q: int)
    requires a <= b && q >= 0
    ensures a * q <= b * q
  {
  }

  // Rounding is off by at most half a unit of volume.
  lemma RoundedError(notional: int, volume: int)
    requires volume > 0
    ensures -volume <= 2 * (Rounded(notional, volume) * volume - notional) <= volume
  {
  }

  lemma RoundedBetween(notional: int, volume: int, low: int, high: int)
    requires volume > 0 && low * volume <= notional <= high * volume
    ensures low <= Rounded(notional, volume) <= high
  {
    var n := notional + volume / 2;
    assert low * volume <= n < high * volume + volume;
    QuotientBetween(n, volume, low, high);
  }

  lemma QuotientBetween(n: int, volume: int, low: int, high: int)
    requires volume > 0 && low * volume <= n < high * volume + volume
    ensures low <= n / volume <= high
  {
    var q := n / volume;
    assert q * volume <= n < q * volume + volume;
    if q > high { Weighted(high + 1, q, volume); }
    if q < low { Weighted(q + 1, low, volume); }
  }

  // Every price a candle shows lies between its low and its high.
  lemma CandleInRange(c: Candle, ds: seq<Deal>, tick: int)
    requires IsCandleOf(c, ds, tick) && DealsOk(ds)
    ensures 0 < c.low <= c.open <= c.high && c.low <= c.close <= c.high && c.low <= c.vwap <= c.high
    ensures -c.volume <= 2 * (c.vwap * c.volume - Notional(ds)) <= c.volume
  {
    NotionalBounds(ds, c.low, c.high);
    RoundedBetween(Notional(ds), Volume(ds), c.low, c.high);
    RoundedError(Notional(ds), Volume(ds));
  }

  // ---------------------------------------------------------------- computing them

  // The inner loop over one bucket, already in time order.
  method BuildCandle(slot: Slot, tick: int, bucket: seq<Deal>) returns (c: Candle)
    requires bucket != [] && DealsOk(bucket)
    ensures IsCandleOf(c, bucket, tick) && c.slot == slot
  {
    var deals := ByTime(bucket);
    ByTimeSorts(bucket);
    SameMembers(deals, bucket);
    hide IsCandleOf, ByTime, InTime, DealsOk;
    var first, last := deals[0], deals[|deals| - 1];
    var high, low, volume, notional := first.price, first.price, 0, 0;
    ghost var lowest, highest := 0, 0;
    for i := 0 to |deals|
      invariant low <= first.price <= high
      invariant forall k :: 0 <= k < i ==> low <= deals[k].price <= high
      invariant 0 <= lowest < |deals| && 0 <= highest < |deals| && deals[lowest].price == low &&
              deals[highest].price == high
      invariant volume == Volume(deals[..i]) && notional == Notional(deals[..i])
    {
      var deal := deals[i];
      if deal.price > high { high, highest := deal.price, i; }
      if deal.price < low { low, lowest := deal.price, i; }
      assert deals[..i + 1][..i] == deals[..i];
      volume := volume + deal.quantity;
      notional := notional + deal.price * deal.quantity;
    }
    assert deals[..|deals|] == deals;
    TotalsPermute(deals, bucket);
    NotionalBounds(deals, low, high);
    c := Candle(slot, tick, first.price, high, low, last.price, volume, |deals|, Rounded(notional, volume));
    CandleFields(c, deals, bucket, tick);
  }

  lemma SameMembers(deals: seq<Deal>, bucket: seq<Deal>)
    requires multiset(deals) == multiset(bucket)
    ensures forall d :: d in deals <==> d in bucket
    ensures DealsOk(bucket) ==> DealsOk(deals)
  {
    forall d ensures d in deals <==> d in bucket {
      assert d in deals <==> d in multiset(deals);
      assert d in bucket <==> d in multiset(bucket);
    }
    if DealsOk(bucket) {
      forall i | 0 <= i < |deals| ensures DealOk(deals[i]) {
        assert deals[i] in bucket;
      }
    }
  }

  lemma CandleFields(c: Candle, deals: seq<Deal>, bucket: seq<Deal>, tick: int)
    requires multiset(deals) == multiset(bucket) && |deals| == |bucket| > 0 && DealsOk(bucket)
    requires InTime(deals)
    requires c.tick == tick && c.open == deals[0].price && c.close == deals[|deals| - 1].price
    requires forall k :: 0 <= k < |deals| ==> c.low <= deals[k].price <= c.high
    requires (exists k :: 0 <= k < |deals| && deals[k].price == c.low) &&
            (exists k :: 0 <= k < |deals| && deals[k].price == c.high)
    requires c.volume == Volume(bucket) > 0 && c.count == |deals| && c.vwap == Rounded(Notional(bucket), Volume(bucket))
    ensures IsCandleOf(c, bucket, tick)
  {
    SameMembers(deals, bucket);
    var first, last := deals[0], deals[|deals| - 1];
    assert first in bucket && last in bucket;
    forall k | 0 <= k < |bucket| ensures NotAfter(first, bucket[k]) && NotAfter(bucket[k], last)
                                       && c.low <= bucket[k].price <= c.high {
      assert bucket[k] in deals;
    }
    var i :| 0 <= i < |bucket| && bucket[i] == first;
    var j :| 0 <= j < |bucket| && bucket[j] == last;
    var a :| 0 <= a < |deals| && deals[a].price == c.low;
    var b :| 0 <= b < |deals| && deals[b].price == c.high;
    assert deals[a] in bucket && deals[b] in bucket;
    assert bucket[i].price == c.open && bucket[j].price == c.close;
  }

  // The deals of one slot, in the order they were read.
  function Bucket(ds: seq<Deal>, slot: Slot): seq<Deal> {
    if ds == [] then []
    else Bucket(ds[..|ds| - 1], slot) + (if SlotOf(ds[|ds| - 1]) == slot then [ds[|ds| - 1]] else [])
  }

  lemma {:induction false} BucketMembers(ds: seq<Deal>, slot: Slot)
    ensures forall d :: d in Bucket(ds, slot) <==> d in ds && SlotOf(d) == slot
    ensures DealsOk(ds) ==> DealsOk(Bucket(ds, slot))
  {
    if ds != [] {
      var n := |ds| - 1;
      BucketMembers(ds[..n], slot);
      assert ds == ds[..n] + [ds[n]];
      assert DealsOk(ds) ==> DealsOk(ds[..n]) && DealOk(ds[n]);
    }
  }

  predicate Below(a: Slot, b: Slot) { a.region < b.region || (a.region == b.region && a.item < b.item) }

  predicate Ascending(slots: seq<Slot>) { forall i, k :: 0 <= i < k < |slots| ==> Below(slots[i], slots[k]) }

  // The key of the next deal, put in its place among the keys found so far.
  function WithSlot(slots: seq<Slot>, slot: Slot): (r: seq<Slot>)
    requires Ascending(slots)
    ensures Ascending(r) && forall x :: x in r <==> x in slots || x == slot
  {
    if slots == [] then [slot]
    else if slots[0] == slot then slots
    else if Below(slot, slots[0]) then [slot] + slots
    else
      assert forall x :: x in slots <==> x == slots[0] || x in slots[1..];
      var rest := WithSlot(slots[1..], slot);
      assert forall k :: 0 <= k < |rest| ==> rest[k] in rest;
      [slots[0]] + rest
  }

  // The list of candles a tick's deals call for: one per slot that traded, in key order.
  ghost predicate CandlesOf(cs: seq<Candle>, ds: seq<Deal>, tick: int) {
    && (forall i, k :: 0 <= i < k < |cs| ==> Below(cs[i].slot, cs[k].slot))
    && (forall i :: 0 <= i < |cs| ==> IsCandleOf(cs[i], Bucket(ds, cs[i].slot), tick))
    && (forall d :: d in ds ==> exists i :: 0 <= i < |cs| && cs[i].slot == SlotOf(d))
  }

  // The deals read so far, grouped: a bucket and a key for every slot that occurs.
  ghost predicate Grouped(grouped: map<Slot, seq<Deal>>, slots: seq<Slot>, ds: seq<Deal>) {
    && Ascending(slots) && (forall x :: x in slots <==> x in grouped)
    && (forall x :: x in grouped ==> grouped[x] == Bucket(ds, x) != [])
    && (forall x :: x !in grouped ==> Bucket(ds, x) == [])
  }

  lemma GroupStep(grouped: map<Slot, seq<Deal>>, slots: seq<Slot>, ds: seq<Deal>, d: Deal)
    requires Grouped(grouped, slots, ds)
    ensures Grouped(grouped[SlotOf(d) := (if SlotOf(d) in grouped then grouped[SlotOf(d)] else []) + [d]],
                    WithSlot(slots, SlotOf(d)), ds + [d])
  {
    hide Ascending;
    forall x ensures Bucket(ds + [d], x) == Bucket(ds, x) + (if SlotOf(d) == x then [d] else []) {
      BucketAppend(ds, d, x);
    }
    hide Bucket;
  }

  // The grouping loop. It stops at the first row that is out of range.
  method GroupDeals(trades: seq<Deal>) returns (valid: bool, grouped: map<Slot, seq<Deal>>, slots: seq<Slot>)
    ensures valid <==> DealsOk(trades)
    ensures valid ==> Grouped(grouped, slots, trades)
  {
    valid, grouped, slots := true, map[], [];
    for i := 0 to |trades|
      invariant DealsOk(trades[..i]) && Grouped(grouped, slots, trades[..i])
    {
      hide Bucket;
      var trade := trades[i];
      if !DealOk(trade) { return false, grouped, slots; }
      assert trades[..i + 1] == trades[..i] + [trade];
      GroupStep(grouped, slots, trades[..i], trade);
      var key := SlotOf(trade);
      grouped := grouped[key := (if key in grouped then grouped[key] else []) + [trade]];
      slots := WithSlot(slots, key);
    }
    assert trades[..|trades|] == trades;
  }

  lemma EverySlotCovered(grouped: map<Slot, seq<Deal>>, slots: seq<Slot>, ds: seq<Deal>, cs: seq<Candle>)
    requires Grouped(grouped, slots, ds) && |cs| == |slots| && forall k :: 0 <= k < |slots| ==> cs[k].slot == slots[k]
    ensures forall d :: d in ds ==> exists i :: 0 <= i < |cs| && cs[i].slot == SlotOf(d)
    ensures forall i, k :: 0 <= i < k < |cs| ==> Below(cs[i].slot, cs[k].slot)
  {
    forall d | d in ds ensures exists i :: 0 <= i < |cs| && cs[i].slot == SlotOf(d) {
      BucketMembers(ds, SlotOf(d));
      assert d in Bucket(ds, SlotOf(d));
      assert SlotOf(d) in slots;
      var i :| 0 <= i < |slots| && slots[i] == SlotOf(d);
      assert cs[i].slot == SlotOf(d);
    }
  }

  // computeTickCandlesFromTrades
  method ComputeTickCandles(tick: int, trades: seq<Deal>) returns (r: Computed)
    ensures r.Candles? <==> tick >= 0 && DealsOk(trades)
    ensures r.Candles? ==> CandlesOf(r.candles, trades, tick)
  {
    if tick < 0 { return Invalid; }
    var valid, grouped, slots := GroupDeals(trades);
    if !valid { return Invalid; }
    hide IsCandleOf, DealsOk, Bucket;
    var candles: seq<Candle> := [];
    for i := 0 to |slots|
      invariant |candles| == i && forall k :: 0 <= k < i ==> candles[k].slot == slots[k]
      invariant forall k :: 0 <= k < i ==> IsCandleOf(candles[k], Bucket(trades, slots[k]), tick)
    {
      BucketMembers(trades, slots[i]);
      assert slots[i] in grouped;
      var candle := BuildCandle(slots[i], tick, grouped[slots[i]]);
      candles := candles + [candle];
    }
    EverySlotCovered(grouped, slots, trades, candles);
    return Candles(candles);
  }

  // ---------------------------------------------------------------- the candles partition the trades

  function TotalVolume(cs: seq<Candle>): int {
    if cs == [] then 0 else TotalVolume(cs[..|cs| - 1]) + cs[|cs| - 1].volume
  }

  function TotalCount(cs: seq<Candle>): int {
    if cs == [] then 0 else TotalCount(cs[..|cs| - 1]) + cs[|cs| - 1].count
  }

  // Without the deals of one slot.
  function Others(ds: seq<Deal>, slot: Slot): seq<Deal> {
    if ds == [] then []
    else Others(ds[..|ds| - 1], slot) + (if SlotOf(ds[|ds| - 1]) != slot then [ds[|ds| - 1]] else [])
  }

  lemma VolumeAppend(ds: seq<Deal>, d: Deal)
    ensures Volume(ds + [d]) == Volume(ds) + d.quantity
  {
    assert (ds + [d])[..|ds|] == ds;
  }

  lemma BucketAppend(ds: seq<Deal>, d: Deal, slot: Slot)
    ensures Bucket(ds + [d], slot) == Bucket(ds, slot) + (if SlotOf(d) == slot then [d] else [])
  {
    assert (ds + [d])[..|ds|] == ds;
  }

  lemma {:induction false} OthersMembers(ds: seq<Deal>, slot: Slot)
    ensures forall d :: d in Others(ds, slot) ==> d in ds && SlotOf(d) != slot
  {
    if ds != [] { OthersMembers(ds[..|ds| - 1], slot); }
  }

  lemma {:induction false} SplitOff(ds: seq<Deal>, slot: Slot)
    ensures Volume(ds) == Volume(Bucket(ds, slot)) + Volume(Others(ds, slot))
    ensures |ds| == |Bucket(ds, slot)| + |Others(ds, slot)|
  {
    if ds != [] {
      var front, last := ds[..|ds| - 1], ds[|ds| - 1];
      SplitOff(front, slot);
      if SlotOf(last) == slot {
        VolumeAppend(Bucket(front, slot), last);
        assert Bucket(ds, slot) == Bucket(front, slot) + [last] && Others(ds, slot) == Others(front, slot);
      } else {
        VolumeAppend(Others(front, slot), last);
        assert Others(ds, slot) == Others(front, slot) + [last] && Bucket(ds, slot) == Bucket(front, slot);
      }
    }
  }

  lemma {:induction false} BucketOfOthers(ds: seq<Deal>, slot: Slot, x: Slot)
    requires x != slot
    ensures Bucket(Others(ds, slot), x) == Bucket(ds, x)
  {
    if ds != [] {
      var n := |ds| - 1;
      BucketOfOthers(ds[..n], slot, x);
      BucketAppend(Others(ds[..n], slot), ds[n], x);
      assert ds[..n] + [ds[n]] == ds;
      BucketAppend(ds[..n], ds[n], x);
      if SlotOf(ds[n]) == slot { assert Others(ds, slot) == Others(ds[..n], slot); }
    }
  }

  lemma HasMember(ds: seq<Deal>)
    requires ds != []
    ensures exists d :: d in ds
  {
    assert ds[0] in ds;
  }

  lemma CandleTotals(c: Candle, ds: seq<Deal>, tick: int)
    requires IsCandleOf(c, ds, tick)
    ensures c.volume == Volume(ds) && c.count == |ds|
  {
  }

  // Every trade is in exactly one candle: volumes add up to the traded quantity, counts to the number of trades.
  lemma {:induction false} CandlesPartition(cs: seq<Candle>, ds: seq<Deal>, tick: int)
    requires CandlesOf(cs, ds, tick)
    ensures TotalVolume(cs) == Volume(ds) && TotalCount(cs) == |ds|
    decreases |cs|
  {
    hide IsCandleOf, Bucket, Others;
    if cs == [] {
      if ds != [] { HasMember(ds); }
    } else {
      var n := |cs| - 1;
      SplitOff(ds, cs[n].slot);
      CandleTotals(cs[n], Bucket(ds, cs[n].slot), tick);
      CandlesOfOthers(cs, ds, tick);
      CandlesPartition(cs[..n], Others(ds, cs[n].slot), tick);
    }
  }

  lemma CandlesOfOthers(cs: seq<Candle>, ds: seq<Deal>, tick: int)
    requires CandlesOf(cs, ds, tick) && cs != []
    ensures CandlesOf(cs[..|cs| - 1], Others(ds, cs[|cs| - 1].slot), tick)
  {
    hide IsCandleOf, Bucket, Others;
    var n := |cs| - 1;
    var front, slot, rest := cs[..n], cs[n].slot, Others(ds, cs[n].slot);
    OthersMembers(ds, slot);
    forall d | d in rest ensures exists i :: 0 <= i < |front| && front[i].slot == SlotOf(d) {
      var i :| 0 <= i < |cs| && cs[i].slot == SlotOf(d);
      assert front[i] == cs[i];
    }
    forall i | 0 <= i < n ensures IsCandleOf(front[i], Bucket(rest, front[i].slot), tick) {
      assert Below(cs[i].slot, cs[n].slot);
      BucketOfOthers(ds, slot, cs[i].slot);
    }
  }

  // ---------------------------------------------------------------- the window summary

  datatype Summary = Summary(last: int, changeBps: Option<int>, high: int, low: int, averageVolume: int, volume: int,
      vwap: Option<int>)

  function Weight(cs: seq<Candle>): int {
    if cs == [] then 0
    else
      Weight(cs[..|cs| - 1]) + (if cs[|cs| - 1].volume > 0 then cs[|cs| - 1].vwap * cs[|cs| - 1].volume else 0)
  }

  // Rounded to the nearest, halves away from zero: truncating division on either sign.
  function ChangeBps(open: int, close: int): Option<int> {
    if open <= 0 then None
    else
      var numerator := (close - open) * 10000;
      Some(Truncate(if numerator >= 0 then numerator + open / 2 else numerator - open / 2, open))
  }

  lemma ChangeIsNearest(open: int, close: int)
    requires open > 0
    ensures var r := ChangeBps(open, close).value;
            -open <= 2 * (r * open - (close - open) * 10000) <= open
    ensures ChangeBps(open, close).value >= 0 <==> ChangeBps(open, close).value == 0 || close > open
  {
    var numerator := (close - open) * 10000;
    var r := ChangeBps(open, close).value;
    if numerator >= 0 {
      assert r * open <= numerator + open / 2 < (r + 1) * open;
    } else {
      assert (r - 1) * open < numerator - open / 2 <= r * open;
    }
  }

  lemma NearestQuotient(a: int, n: int)
    requires n > 0
    ensures -n < 2 * ((2 * a + n) / (2 * n) * n - a) <= n
  {
    var q := (2 * a + n) / (2 * n);
    assert q * (2 * n) <= 2 * a + n < (q + 1) * (2 * n);
    assert q * (2 * n) == 2 * (q * n);
    assert (q + 1) * (2 * n) == 2 * (q * n) + 2 * n;
  }

  // The loop of getMarketAnalyticsSummary over the candles of its window.
  method Summarise(candles: seq<Candle>) returns (s: Option<Summary>)
    ensures s.None? <==> candles == []
    ensures candles != [] ==>
              && s.value.last == candles[|candles| - 1].close
              && s.value.changeBps == ChangeBps(candles[0].open, candles[|candles| - 1].close)
              && (forall k :: 0 <= k < |candles| ==> candles[k].high <= s.value.high && s.value.low <= candles[k].low)
              && (exists k :: 0 <= k < |candles| && candles[k].high == s.value.high)
              && (exists k :: 0 <= k < |candles| && candles[k].low == s.value.low)
              && s.value.volume == TotalVolume(candles)
              && -|candles| < 2 * (s.value.averageVolume * |candles| - TotalVolume(candles)) <= |candles|
              && s.value.vwap == (if TotalVolume(candles) > 0
                  then Some(Rounded(Weight(candles), TotalVolume(candles))) else None)
  {
    if candles == [] { return None; }
    var first, last := candles[0], candles[|candles| - 1];
    var high, low, volume, weight := first.high, first.low, 0, 0;
    for i := 0 to |candles|
      invariant first.high <= high && low <= first.low
      invariant forall k :: 0 <= k < i ==> candles[k].high <= high && low <= candles[k].low
      invariant (exists k :: 0 <= k < |candles| && candles[k].high == high) &&
              (exists k :: 0 <= k < |candles| && candles[k].low == low)
      invariant volume == TotalVolume(candles[..i]) && weight == Weight(candles[..i])
    {
      var candle := candles[i];
      if candle.high > high { high := candle.high; }
      if candle.low < low { low := candle.low; }
      assert candles[..i + 1][..i] == candles[..i];
      volume := volume + candle.volume;
      if candle.volume > 0 { weight := weight + candle.vwap * candle.volume; }
    }
    assert candles[..|candles|] == candles;
    // Math.round of the quotient: the nearest integer, a half upwards.
    var average := (2 * volume + |candles|) / (2 * |candles|);
    NearestQuotient(volume, |candles|);
    var vwap := if volume > 0 then Some(Rounded(weight, volume)) else None;
    return Some(Summary(last.close, ChangeBps(first.open, last.close), high, low, average, volume, vwap));
  }

  // What the window really traded: the deals behind each of its candles.
  ghost predicate Behind(cs: seq<Candle>, deals: seq<seq<Deal>>, ticks: seq<int>) {
    && |deals| == |cs| == |ticks|
    && forall i :: 0 <= i < |cs| ==> IsCandleOf(cs[i], deals[i], ticks[i]) && DealsOk(deals[i])
  }

  function AllNotional(deals: seq<seq<Deal>>): int {
    if deals == [] then 0 else AllNotional(deals[..|deals| - 1]) + Notional(deals[|deals| - 1])
  }

  lemma {:induction false} WeightError(cs: seq<Candle>, deals: seq<seq<Deal>>, ticks: seq<int>)
    requires Behind(cs, deals, ticks)
    ensures TotalVolume(cs) >= |cs|
    ensures -TotalVolume(cs) <= 2 * (Weight(cs) - AllNotional(deals)) <= TotalVolume(cs)
  {
    if cs != [] {
      var n := |cs| - 1;
      WeightError(cs[..n], deals[..n], ticks[..n]);
      CandleInRange(cs[n], deals[n], ticks[n]);
    }
  }

  // The window price, although built from candle prices that were rounded before, is within one cent of the exact
  // volume-weighted price of the trades.
  lemma WindowWithinACent(cs: seq<Candle>, deals: seq<seq<Deal>>, ticks: seq<int>)
    requires Behind(cs, deals, ticks) && cs != []
    ensures var volume := TotalVolume(cs);
            volume > 0 && -volume <= Rounded(Weight(cs), volume) * volume - AllNotional(deals) <= volume
  {
    WeightError(cs, deals, ticks);
    RoundedError(Weight(cs), TotalVolume(cs));
  }
}
