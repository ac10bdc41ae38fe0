/** Workforce: allocation, hiring, salaries and the duration modifiers they give. */
module Payroll {
  import opened Rows
  import opened Sums

  const MAX_BPS := 10000

  // assertValidWorkforceAllocation
  predicate ValidAllocation(f: Workforce) {
    && 0 <= f.operations <= 100 && 0 <= f.research <= 100 && 0 <= f.logistics <= 100 && 0 <= f.corporate <= 100
    && f.operations + f.research + f.logistics + f.corporate == 100
  }

  // assertValidWorkforceState
  predicate ValidWorkforce(f: Workforce) { f.capacity >= 0 && 0 <= f.efficiency <= MAX_BPS && ValidAllocation(f) }

  datatype Config = Config(
    hiringDelay: int, baseSalary: int, recruitmentCost: int, maxDelta: int, maxRelativeDelta: int,
    layoffPenalty: int, shockDuration: int, shockPerHead: int, lowCorporateThreshold: int,
    lowCorporatePenalty: int, shortfallPenalty: int, recoveryAt100: int)

  // resolveWorkforceRuntimeConfig does not throw.
  predicate ValidConfig(g: Config) {
    && g.hiringDelay > 0 && g.baseSalary > 0 && g.recruitmentCost > 0 && g.maxDelta > 0
    && 1 <= g.maxRelativeDelta <= 100 && g.layoffPenalty >= 0 && g.shockDuration > 0 && g.shockPerHead >= 0
    && 0 <= g.lowCorporateThreshold <= 100 && g.lowCorporatePenalty >= 0 && g.shortfallPenalty >= 0
    && g.recoveryAt100 >= 0
  }

  const PRODUCTION_MAX_BONUS_BPS := 1200
  const RESEARCH_MAX_BONUS_BPS := 1500
  const LOGISTICS_MAX_REDUCTION_BPS := 1100

  function Clamp(value: int, low: int, high: int): int { Max(low, Min(high, value)) }

  // resolveFunctionBonusBps, for a positive maximum bonus
  function Bonus(allocation: int, f: Workforce, maxBonus: int): int
    requires ValidWorkforce(f) && 0 <= allocation <= 100 && maxBonus > 0
  {
    if f.capacity <= 0 then 0
    else Clamp((allocation * f.efficiency * maxBonus) / (100 * MAX_BPS), 0, maxBonus)
  }

  function ProductionMultiplier(f: Workforce): int
    requires ValidWorkforce(f)
  {
    MAX_BPS - Bonus(f.operations, f, PRODUCTION_MAX_BONUS_BPS)
  }

  function ResearchMultiplier(f: Workforce): int
    requires ValidWorkforce(f)
  {
    MAX_BPS - Bonus(f.research, f, RESEARCH_MAX_BONUS_BPS)
  }

  function TravelMultiplier(f: Workforce): int
    requires ValidWorkforce(f)
  {
    MAX_BPS - Bonus(f.logistics, f, LOGISTICS_MAX_REDUCTION_BPS)
  }

  // applyDurationMultiplierTicks: round up, at least one tick for any positive duration.
  function ApplyDuration(duration: int, multiplier: int): (r: int)
    requires duration >= 0 && 1 <= multiplier <= MAX_BPS
    ensures 0 <= r <= duration && (r == 0 <==> duration == 0)
    ensures (r - 1) * MAX_BPS < duration * multiplier <= r * MAX_BPS
  {
    if duration == 0 then 0 else Max(1, (duration * multiplier + (MAX_BPS - 1)) / MAX_BPS)
  }

  // ---------------------------------------------------------------- hiring

  function SetAllocation(
    w: World, company: Id, operations: int, research: int, logistics: int, corporate: int): Outcome
  {
    if !ValidAllocation(Workforce(0, operations, research, logistics, corporate, 0)) then Thrown(BadInput, w)
    else if company !in w.companies then Thrown(NotFound, w)
    else
      var c := w.companies[company];
      var f := c.workforce.(operations := operations, research := research, logistics := logistics,
          corporate := corporate);
      var next := w.(companies := w.companies[company := c.(workforce := f)]);
      // The snapshot returned to the caller re-validates the row it just wrote.
      if !ValidWorkforce(f) then Thrown(Inconsistent, next) else Done(next)
  }

  function Abs(x: int): int { if x < 0 then -x else x }

  function RequestCapacity(w: World, company: Id, delta: int, id: Id, now: int, g: Config): Outcome {
    if delta == 0 || !ValidConfig(g) then Thrown(BadInput, w)
    else if company !in w.companies then Thrown(NotFound, w)
    else
      var c := w.companies[company];
      var f := c.workforce;
      if !ValidWorkforce(f) then Thrown(Inconsistent, w)
      else if Abs(delta) > g.maxDelta then Thrown(BadInput, w)
      else if f.capacity > 0 && Abs(delta) > Max(1, (f.capacity * g.maxRelativeDelta) / 100) then Thrown(BadInput, w)
      else if delta < 0 then LayOff(w, company, -delta, g)
      else Hire(w, company, delta, id, now, g)
  }

  function LayOff(w: World, company: Id, heads: int, g: Config): Outcome
    requires company in w.companies
  {
    var c := w.companies[company];
    var f := c.workforce;
    if heads > f.capacity then Thrown(BadInput, w)
    else
      Done(w.(companies := w.companies[company := c.(workforce :=
        f.(capacity := f.capacity - heads, efficiency := Clamp(f.efficiency - g.layoffPenalty, 0, MAX_BPS)))]))
  }

  function Hire(w: World, company: Id, heads: int, id: Id, now: int, g: Config): Outcome
    requires company in w.companies
  {
    var c, cost := w.companies[company], heads * g.recruitmentCost;
    if c.cash - c.reserved < cost then Thrown(InsufficientFunds, w)
    else if id in w.hirings then Thrown(Conflict, w)
    else
      Done(w.(hirings := w.hirings[id := Hiring(company, heads, now + g.hiringDelay, None)],
              companies := w.companies[company := c.(cash := c.cash - cost)],
              ledger := w.ledger + [Entry(company, now, Recruitment, -cost, 0, c.cash - cost)]))
  }

  // The body of applyDueWorkforceCapacityDeltas for one row; a row that is not due is skipped.
  function ApplyHiring(w: World, id: Id, tick: int): Outcome {
    if id !in w.hirings || w.hirings[id].applied.Some? || tick < w.hirings[id].arrives then Done(w)
    else
      var h := w.hirings[id];
      if h.amount <= 0 then Thrown(Inconsistent, w)
      else
        var claimed := w.(hirings := w.hirings[id := h.(applied := Some(tick))]);
        if h.company !in w.companies then Thrown(NotFound, claimed)
        else
          var c := w.companies[h.company];
          Done(claimed.(companies := w.companies[h.company := c.(workforce :=
            c.workforce.(capacity := c.workforce.capacity + h.amount))]))
  }

  function ApplyHirings(w: World, due: seq<Id>, tick: int): Outcome
    decreases |due|
  {
    if due == [] then Done(w)
    else
      match ApplyHiring(w, due[0], tick)
      case Thrown(e, open) => Thrown(e, open)
      case Done(next) => ApplyHirings(next, due[1..], tick)
  }

  // ---------------------------------------------------------------- salaries and efficiency

  function RecentlyHired(company: Id, from: int, tick: int): (Id, Hiring) -> int {
    (id: Id, h: Hiring) =>
      if h.company == company && h.amount > 0 && h.applied.Some? && from <= h.applied.value <= tick then h.amount else 0
  }

  function SalaryDue(w: World, c: Company, g: Config): int {
    var modifier := if c.region in w.catalogue.salaryModifier then w.catalogue.salaryModifier[c.region] else MAX_BPS;
    (c.workforce.capacity * g.baseSalary * modifier) / MAX_BPS
  }

  ghost function NextEfficiency(w: World, company: Id, paid: int, due: int, tick: int, g: Config): int
    requires company in w.companies
  {
    var f := w.companies[company].workforce;
    var from := Max(0, tick - g.shockDuration + 1);
    var shock := Sum(w.hirings, RecentlyHired(company, from, tick)) * g.shockPerHead;
    var lowCorporate := if f.corporate < g.lowCorporateThreshold then g.lowCorporatePenalty else 0;
    var shortfall := if paid < due then g.shortfallPenalty else 0;
    var recovery := (f.corporate * g.recoveryAt100) / 100;
    Clamp(f.efficiency - shock - lowCorporate - shortfall + recovery, 0, MAX_BPS)
  }

  // The body of runWorkforceForTick for one company: pay what unreserved cash allows, then move efficiency.
  ghost function PaySalary(w: World, company: Id, tick: int, g: Config): Outcome {
    if company !in w.companies then Done(w)
    else
      var c := w.companies[company];
      if !ValidWorkforce(c.workforce) then Thrown(Inconsistent, w)
      else
        var due := SalaryDue(w, c, g);
        var paid := Min(due, Max(0, c.cash - c.reserved));
        var efficiency := NextEfficiency(w, company, paid, due, tick, g);
        Done(w.(companies := w.companies[company :=
                  c.(cash := c.cash - paid, workforce := c.workforce.(efficiency := efficiency))],
                ledger := w.ledger + [Entry(company, tick, Salary, -paid, 0, c.cash - paid)]))
  }

  ghost function PaySalaries(w: World, companies: seq<Id>, tick: int, g: Config): Outcome
    decreases |companies|
  {
    if companies == [] then Done(w)
    else
      match PaySalary(w, companies[0], tick, g)
      case Thrown(e, open) => Thrown(e, open)
      case Done(next) => PaySalaries(next, companies[1..], tick, g)
  }

  ghost function RunWorkforce(w: World, due: seq<Id>, companies: seq<Id>, tick: int, g: Config): Outcome {
    if tick < 0 || !ValidConfig(g) then Thrown(BadInput, w)
    else
      match ApplyHirings(w, due, tick)
      case Thrown(e, open) => Thrown(e, open)
      case Done(next) => PaySalaries(next, companies, tick, g)
  }
}
