/** The baseline consumption of unreserved stock held by non-player companies. */
module DemandSink {
  import opened Rows

  datatype DemandConfig = DemandConfig(base: int, variability: int)

  // resolveDemandQuantityForCompanyItem, given the hash of the company and item codes
  function DemandFor(seed: nat, tick: nat, g: DemandConfig): (r: int)
    requires g.base >= 0 && g.variability >= 0
    ensures g.base <= r <= g.base + g.variability
  {
    if g.variability == 0 then g.base else g.base + (tick + seed) % (g.variability + 1)
  }

  // And what it lies above the base goes round the variability with the tick.
  lemma DemandGoesRound(seed: nat, tick: nat, g: DemandConfig) returns (rounds: nat)
    requires g.base >= 0 && g.variability >= 0
    ensures DemandFor(seed, tick, g) - g.base + rounds * (g.variability + 1) == tick + seed
  {
    rounds := (tick + seed) / (g.variability + 1);
  }

  // stableHash: 31-ary polynomial of the character codes, modulo 2^32
  function StableHash(codes: seq<nat>): (h: nat)
    ensures h < 0x1_0000_0000
  {
    if codes == [] then 0 else (StableHash(codes[..|codes| - 1]) * 31 + codes[|codes| - 1]) % 0x1_0000_0000
  }

  function Power(exponent: nat): nat { if exponent == 0 then 1 else 31 * Power(exponent - 1) }

  // The polynomial itself, the first code with the highest power.
  function Polynomial(codes: seq<nat>): nat {
    if codes == [] then 0 else codes[0] * Power(|codes| - 1) + Polynomial(codes[1..])
  }

  lemma {:induction false} PolynomialAppend(codes: seq<nat>, code: nat)
    ensures Polynomial(codes + [code]) == 31 * Polynomial(codes) + code
  {
    if codes == [] {
      assert [code][1..] == [];
    } else {
      assert (codes + [code])[1..] == codes[1..] + [code];
      PolynomialAppend(codes[1..], code);
    }
  }

  lemma SameRemainder(a: nat, b: nat, code: nat)
    requires a % 0x1_0000_0000 == b
    ensures (31 * a + code) % 0x1_0000_0000 == (b * 31 + code) % 0x1_0000_0000
  {
    var q := a / 0x1_0000_0000;
    assert 31 * a + code == b * 31 + code + 0x1_0000_0000 * (31 * q);
  }

  // The hash is its remainder modulo 2^32, although it is reduced at every step.
  lemma {:induction false} HashIsPolynomial(codes: seq<nat>)
    ensures StableHash(codes) == Polynomial(codes) % 0x1_0000_0000
  {
    if codes != [] {
      var front, code := codes[..|codes| - 1], codes[|codes| - 1];
      HashIsPolynomial(front);
      PolynomialAppend(front, code);
      assert front + [code] == codes;
      SameRemainder(Polynomial(front), StableHash(front), code);
    }
  }

  method ComputeStableHash(codes: seq<nat>) returns (hash: nat)
    ensures hash == StableHash(codes)
  {
    hash := 0;
    for index := 0 to |codes|
      invariant hash == StableHash(codes[..index])
    {
      assert codes[..index + 1][..index] == codes[..index];
      hash := (hash * 31 + codes[index]) % 0x1_0000_0000;
    }
    assert codes[..|codes|] == codes;
  }

  // One (company, item) pair of the two outer loops: its demand, and its rows in region order.
  datatype Demand = Demand(company: Id, item: Id, quantity: int, regions: seq<Id>)

  function TakenFrom(w: World, key: RowKey, demand: int): int {
    if key !in w.stock || demand <= 0 then 0
    else Max(0, Min(w.stock[key].quantity - w.stock[key].reserved, demand))
  }

  function Take(w: World, key: RowKey, taken: int): World
    requires key in w.stock
  {
    w.(stock := w.stock[key := w.stock[key].(quantity := w.stock[key].quantity - taken)],
       consumed := w.consumed + [Consumption(key, taken)])
  }

  // The innermost loop body.
  function TakeRow(w: World, key: RowKey, demand: int): World {
    if key !in w.stock || TakenFrom(w, key, demand) <= 0 then w else Take(w, key, TakenFrom(w, key, demand))
  }

  function TakeRows(w: World, company: Id, item: Id, regions: seq<Id>, demand: int): World
    decreases |regions|
  {
    if regions == [] || demand <= 0 then w
    else
      var key := RowKey(company, item, regions[0]);
      TakeRows(TakeRow(w, key, demand), company, item, regions[1..], demand - TakenFrom(w, key, demand))
  }

  // What the loop over the rows takes in all.
  function TakenTotal(w: World, company: Id, item: Id, regions: seq<Id>, demand: int): int
    decreases |regions|
  {
    if regions == [] || demand <= 0 then 0
    else
      var key := RowKey(company, item, regions[0]);
      var taken := TakenFrom(w, key, demand);
      taken + TakenTotal(TakeRow(w, key, demand), company, item, regions[1..], demand - taken)
  }

  function Drain(w: World, demands: seq<Demand>): World
    decreases |demands|
  {
    if demands == [] then w
    else
      var d := demands[0];
      Drain(TakeRows(w, d.company, d.item, d.regions, d.quantity), demands[1..])
  }

  function RunDemandSink(w: World, demands: seq<Demand>, tick: int): Outcome {
    if tick < 0 then Thrown(BadInput, w) else Done(Drain(w, demands))
  }
}
