/** The invariant scan: which rows it reports, and that a healthy world gives it nothing to report. */
module InvariantScan {
  import opened Rows
  import opened Market
  import opened Payroll
  import opened Accounting

  datatype Code =
    | CashNegative | ReservedCashNegative | ReservedExceedsCash
    | CapacityNegative | AllocationInvalid | EfficiencyInvalid
    | QuantityNegative | ReservedNegative | ReservedExceedsQuantity

  datatype Issue = CompanyIssue(code: Code, company: Id) | StockIssue(code: Code, key: RowKey)

  datatype CompanyRow = CompanyRow(id: Id, row: Company)

  datatype StockRow = StockRow(key: RowKey, row: Stock)

  // What each code is reported for.
  predicate CompanyBreaks(code: Code, c: Company) {
    match code
    case CashNegative => c.cash < 0
    case ReservedCashNegative => c.reserved < 0
    case ReservedExceedsCash => c.reserved > c.cash
    case CapacityNegative => c.workforce.capacity < 0
    case AllocationInvalid => !ValidAllocation(c.workforce)
    case EfficiencyInvalid => !(0 <= c.workforce.efficiency <= MAX_BPS)
    case _ => false
  }

  predicate StockBreaks(code: Code, s: Stock) {
    match code
    case QuantityNegative => s.quantity < 0
    case ReservedNegative => s.reserved < 0
    case ReservedExceedsQuantity => s.reserved > s.quantity
    case _ => false
  }

  // The checks on one company row, each of which may push an issue.
  method CheckCompany(row: CompanyRow, before: seq<Issue>) returns (issues: seq<Issue>)
    ensures forall issue :: issue in issues <==>
              issue in before || (issue.CompanyIssue? && issue.company == row.id && CompanyBreaks(issue.code, row.row))
  {
    var id, c := row.id, row.row;
    issues := before;
    if c.cash < 0 { issues := issues + [CompanyIssue(CashNegative, id)]; }
    if c.reserved < 0 { issues := issues + [CompanyIssue(ReservedCashNegative, id)]; }
    if c.reserved > c.cash { issues := issues + [CompanyIssue(ReservedExceedsCash, id)]; }
    if c.workforce.capacity < 0 { issues := issues + [CompanyIssue(CapacityNegative, id)]; }
    if !ValidAllocation(c.workforce) { issues := issues + [CompanyIssue(AllocationInvalid, id)]; }
    if c.workforce.efficiency < 0 || c.workforce.efficiency > MAX_BPS {
      issues := issues + [CompanyIssue(EfficiencyInvalid, id)];
    }
  }

  // The collectors are exact: an issue is in the list if and only if its row breaks the rule of its code.
  method CollectCompanyInvariantIssues(rows: seq<CompanyRow>) returns (issues: seq<Issue>)
    ensures forall code, id :: CompanyIssue(code, id) in issues <==>
              exists i :: 0 <= i < |rows| && rows[i].id == id && CompanyBreaks(code, rows[i].row)
    ensures forall issue :: issue in issues ==> issue.CompanyIssue?
  {
    issues := [];
    for i := 0 to |rows|
      invariant forall code, id :: CompanyIssue(code, id) in issues <==>
                  exists k :: 0 <= k < i && rows[k].id == id && CompanyBreaks(code, rows[k].row)
      invariant forall issue :: issue in issues ==> issue.CompanyIssue?
    {
      issues := CheckCompany(rows[i], issues);
    }
  }

  method CollectInventoryInvariantIssues(rows: seq<StockRow>) returns (issues: seq<Issue>)
    ensures forall code, key :: StockIssue(code, key) in issues <==>
              exists i :: 0 <= i < |rows| && rows[i].key == key && StockBreaks(code, rows[i].row)
    ensures forall issue :: issue in issues ==> issue.StockIssue?
  {
    issues := [];
    for i := 0 to |rows|
      invariant forall code, key :: StockIssue(code, key) in issues <==>
                  exists k :: 0 <= k < i && rows[k].key == key && StockBreaks(code, rows[k].row)
      invariant forall issue :: issue in issues ==> issue.StockIssue?
    {
      var key, s := rows[i].key, rows[i].row;
      ghost var before := issues;
      if s.quantity < 0 { issues := issues + [StockIssue(QuantityNegative, key)]; }
      if s.reserved < 0 { issues := issues + [StockIssue(ReservedNegative, key)]; }
      if s.reserved > s.quantity { issues := issues + [StockIssue(ReservedExceedsQuantity, key)]; }
      assert forall code, other :: StockIssue(code, other) in issues <==>
               StockIssue(code, other) in before || (other == key && StockBreaks(code, s));
    }
  }

  // No row of the world breaks a rule: what the scan finds when it finds nothing.
  ghost predicate NoIssues(w: World) {
    && (forall c, code :: c in w.companies ==> !CompanyBreaks(code, w.companies[c]))
    && (forall k, code :: k in w.stock ==> !StockBreaks(code, w.stock[k]))
  }

  // The scan asks exactly for the range clauses of the invariant, and for reserved cash to be covered.
  lemma NoIssuesIff(w: World)
    ensures NoIssues(w) <==> CompaniesOk(w.companies) && StockRowsOk(w.stock) && Solvent(w)
  {
    if NoIssues(w) {
      forall c | c in w.companies ensures CompanyOk(w.companies[c]) && w.companies[c].reserved <= w.companies[c].cash {
        var row := w.companies[c];
        assert !CompanyBreaks(CashNegative, row) && !CompanyBreaks(ReservedCashNegative, row);
        assert !CompanyBreaks(ReservedExceedsCash, row) && !CompanyBreaks(CapacityNegative, row);
        assert !CompanyBreaks(AllocationInvalid, row) && !CompanyBreaks(EfficiencyInvalid, row);
      }
      forall k | k in w.stock ensures StockOk(w.stock[k]) {
        var row := w.stock[k];
        assert !StockBreaks(QuantityNegative, row) && !StockBreaks(ReservedNegative, row);
        assert !StockBreaks(ReservedExceedsQuantity, row);
      }
    }
  }
}
