/** Shared budgets over whole histories: what is spent is what was admitted, and it never
    exceeds the limits fixed when the scope was configured. Amounts are reals. */
module ExecutionBudget {
  import opened Values
  import opened Execution

  /** The admitted estimates of one bucket, summed. */
  function Admitted(rows: seq<Admission>, scope: string, b: string): real {
    if rows == [] then 0.0
    else
      var last := rows[|rows| - 1];
      Admitted(rows[..|rows| - 1], scope, b) + if last.scope == scope then Amount(last.estimate, b) else 0.0
  }

  predicate AdmittedOnce(rows: seq<Admission>) {
    forall j, k | 0 <= j < k < |rows| :: !(rows[j].scope == rows[k].scope && rows[j].handoff == rows[k].handoff)
  }

  /** Recorded spend is the sum of admitted estimates and stays within the limits. */
  ghost predicate ScopeOk(budget: Budget, rows: seq<Admission>, scope: string) {
    && (forall b :: Amount(budget.spent, b) == Admitted(rows, scope, b))
    && (forall b | b in budget.spent :: b in budget.limits && 0.0 <= budget.spent[b] <= budget.limits[b])
  }

  ghost predicate BudgetsOk(budgets: map<string, Budget>, rows: seq<Admission>) {
    && AdmittedOnce(rows)
    && (forall k | 0 <= k < |rows| :: rows[k].scope in budgets && NonNegative(rows[k].estimate))
    && (forall scope | scope in budgets :: ScopeOk(budgets[scope], rows, scope))
  }

  ghost predicate LimitsKept(budgets: map<string, Budget>, next: map<string, Budget>) {
    forall scope | scope in budgets :: scope in next && next[scope].limits == budgets[scope].limits
  }

  lemma AdmittedSnoc(rows: seq<Admission>, a: Admission, scope: string, b: string)
    ensures Admitted(rows + [a], scope, b) == Admitted(rows, scope, b) + if a.scope == scope then Amount(a.estimate, b) else 0.0
  {
    assert (rows + [a])[..|rows|] == rows;
  }

  lemma {:induction false} NothingAdmitted(rows: seq<Admission>, scope: string, b: string)
    requires forall k | 0 <= k < |rows| :: rows[k].scope != scope
    ensures Admitted(rows, scope, b) == 0.0
  {
    if rows != [] { NothingAdmitted(rows[..|rows| - 1], scope, b); }
  }

  lemma {:induction false} FindAdmissionSound(rows: seq<Admission>, scope: string, h: Id)
    ensures FindAdmission(rows, scope, h).None? <==> forall k | 0 <= k < |rows| :: !(rows[k].scope == scope && rows[k].handoff == h)
  {
    if rows != [] { FindAdmissionSound(rows[..|rows| - 1], scope, h); }
  }

  lemma SpendAdds(spent: map<string, real>, estimate: map<string, real>, b: string)
    ensures Amount(AddSpend(spent, estimate), b) == Amount(spent, b) + Amount(estimate, b)
  {}

  lemma ScopeGrows(budget: Budget, rows: seq<Admission>, a: Admission)
    requires ScopeOk(budget, rows, a.scope) && Fits(budget, a.estimate) && NonNegative(a.estimate)
    ensures ScopeOk(budget.(spent := AddSpend(budget.spent, a.estimate)), rows + [a], a.scope)
  {
    var spent := AddSpend(budget.spent, a.estimate);
    forall b ensures Amount(spent, b) == Admitted(rows + [a], a.scope, b) {
      SpendAdds(budget.spent, a.estimate, b);
      AdmittedSnoc(rows, a, a.scope, b);
    }
  }

  lemma OtherScopesKeep(budget: Budget, rows: seq<Admission>, a: Admission, scope: string)
    requires ScopeOk(budget, rows, scope) && a.scope != scope
    ensures ScopeOk(budget, rows + [a], scope)
  {
    forall b ensures Amount(budget.spent, b) == Admitted(rows + [a], scope, b) { AdmittedSnoc(rows, a, scope, b); }
  }

  lemma AdmissionKeeps(budgets: map<string, Budget>, rows: seq<Admission>, a: Admission)
    requires BudgetsOk(budgets, rows) && a.scope in budgets && NonNegative(a.estimate)
    requires Fits(budgets[a.scope], a.estimate) && FindAdmission(rows, a.scope, a.handoff).None?
    ensures BudgetsOk(budgets[a.scope := budgets[a.scope].(spent := AddSpend(budgets[a.scope].spent, a.estimate))], rows + [a])
  {
    FindAdmissionSound(rows, a.scope, a.handoff);
    ScopeGrows(budgets[a.scope], rows, a);
    forall scope | scope in budgets && scope != a.scope ensures ScopeOk(budgets[scope], rows + [a], scope) {
      OtherScopesKeep(budgets[scope], rows, a, scope);
    }
  }

  lemma NewScopeKeeps(budgets: map<string, Budget>, rows: seq<Admission>, scope: string, limits: map<string, real>)
    requires BudgetsOk(budgets, rows) && scope !in budgets
    ensures BudgetsOk(budgets[scope := Budget(limits, map[])], rows)
  {
    forall b { NothingAdmitted(rows, scope, b); }
  }

  lemma LeaseCallsSpendNothing(db: Db, op: Op)
    requires LeaseOp(op)
    ensures After(db, op).budgets == db.budgets && After(db, op).admissions == db.admissions
  {}

  lemma OtherCallsSpendNothing(db: Db, op: Op)
    requires !op.OpConfigure? && !op.OpReserve? && !LeaseOp(op)
    ensures After(db, op).budgets == db.budgets && After(db, op).admissions == db.admissions
  {}

  lemma ConfigureKeeps(db: Db, scope: string, limits: map<string, real>)
    requires BudgetsOk(db.budgets, db.admissions)
    ensures var s := ConfigureBudget(db, scope, limits);
            s.Ok? ==> BudgetsOk(s.value.budgets, s.value.admissions) && LimitsKept(db.budgets, s.value.budgets)
  {
    if scope !in db.budgets { NewScopeKeeps(db.budgets, db.admissions, scope, limits); }
  }

  lemma CommitSpends(mid: Db, es: seq<AuditEvent>)
    ensures var s := Commit(mid, es); s.Ok? ==> s.value.budgets == mid.budgets && s.value.admissions == mid.admissions
  {}

  lemma ReserveCaseKeeps(db: Db, scope: string, handoff: Id, estimate: map<string, real>, s: Result<Db, Error>)
    requires BudgetsOk(db.budgets, db.admissions) && ReserveCase(s, db, scope, handoff, estimate)
    ensures s.Ok? ==> BudgetsOk(s.value.budgets, s.value.admissions) && LimitsKept(db.budgets, s.value.budgets)
  {
    if s.Ok? && s != Ok(db) {
      AdmissionKeeps(db.budgets, db.admissions, Admission(scope, handoff, estimate));
      ReservedTables(db, scope, handoff, estimate);
      CommitSpends(Reserved(db, scope, handoff, estimate), [ReservedEvent(scope, handoff, estimate)]);
    }
  }

  lemma ReservedTables(db: Db, scope: string, handoff: Id, estimate: map<string, real>)
    requires scope in db.budgets
    ensures var next := Reserved(db, scope, handoff, estimate);
      && next.admissions == db.admissions + [Admission(scope, handoff, estimate)]
      && next.budgets == db.budgets[scope := db.budgets[scope].(spent := AddSpend(db.budgets[scope].spent, estimate))]
      && LimitsKept(db.budgets, next.budgets)
  {}

  lemma StepKeepsBudgets(db: Db, op: Op)
    requires BudgetsOk(db.budgets, db.admissions)
    ensures BudgetsOk(After(db, op).budgets, After(db, op).admissions) && LimitsKept(db.budgets, After(db, op).budgets)
  {
    if op.OpConfigure? { ConfigureKeeps(db, op.scope, op.limits); }
    else if op.OpReserve? {
      ReserveCases(db, op.scope, op.handoff, op.estimate);
      ReserveCaseKeeps(db, op.scope, op.handoff, op.estimate, Step(db, op));
    }
    else if LeaseOp(op) { LeaseCallsSpendNothing(db, op); }
    else { OtherCallsSpendNothing(db, op); }
  }

  /** Conservation: in every reachable store, for every scope and bucket, the recorded spend
      is the sum of the admitted estimates, each handoff is admitted once, and the spend is
      within the limit. */
  lemma {:induction false} SpendIsConserved(ops: seq<Op>)
    ensures BudgetsOk(Exec(EMPTY_DB, ops).budgets, Exec(EMPTY_DB, ops).admissions)
  {
    if ops != [] {
      SpendIsConserved(ops[..|ops| - 1]);
      StepKeepsBudgets(Exec(EMPTY_DB, ops[..|ops| - 1]), ops[|ops| - 1]);
    }
  }

  lemma LeaseCallsAdmitNothing(db: Db, op: Op)
    requires LeaseOp(op)
    ensures After(db, op).admissions == db.admissions
  {}

  lemma OtherCallsAdmitNothing(db: Db, op: Op)
    requires !LeaseOp(op) && !op.OpReserve?
    ensures After(db, op).admissions == db.admissions
  {}

  lemma ReserveAppends(db: Db, op: Op)
    requires op.OpReserve?
    ensures db.admissions <= After(db, op).admissions
  {
    ReserveCases(db, op.scope, op.handoff, op.estimate);
  }

  /** A call only appends to the admissions. */
  lemma AdmissionsGrow(db: Db, op: Op)
    ensures db.admissions <= After(db, op).admissions
  {
    if op.OpReserve? { ReserveAppends(db, op); }
    else if LeaseOp(op) { LeaseCallsAdmitNothing(db, op); }
    else { OtherCallsAdmitNothing(db, op); }
  }

  /** The limits of a configured scope never change, and an admitted handoff stays admitted. */
  lemma {:induction false} LimitsAreFixed(db: Db, ops: seq<Op>)
    requires BudgetsOk(db.budgets, db.admissions)
    ensures BudgetsOk(Exec(db, ops).budgets, Exec(db, ops).admissions) && LimitsKept(db.budgets, Exec(db, ops).budgets)
    ensures db.admissions <= Exec(db, ops).admissions
  {
    if ops != [] {
      LimitsAreFixed(db, ops[..|ops| - 1]);
      AdmissionsGrow(Exec(db, ops[..|ops| - 1]), ops[|ops| - 1]);
      StepKeepsBudgets(Exec(db, ops[..|ops| - 1]), ops[|ops| - 1]);
    }
  }

  /** Admission is exact: a new handoff is refused exactly when some bucket is undeclared or
      what was admitted before plus this estimate exceeds its limit; a repeated one changes
      nothing or is refused for changing its estimate. */
  lemma AdmissionIsExact(db: Db, scope: string, handoff: Id, estimate: map<string, real>)
    requires BudgetsOk(db.budgets, db.admissions) && scope in db.budgets && scope != "" && NonNegative(estimate)
    ensures var s, prior := ReserveBudget(db, scope, handoff, estimate), FindAdmission(db.admissions, scope, handoff);
            if prior.Some? then s == if prior.value == estimate then Ok(db) else Err(WrongState)
            else s == Err(WrongState) <==>
                 exists b :: b in estimate && (b !in db.budgets[scope].limits ||
                   Admitted(db.admissions, scope, b) + estimate[b] > db.budgets[scope].limits[b])
  {
    var budget := db.budgets[scope];
    assert forall b | b in estimate :: Amount(budget.spent, b) == Admitted(db.admissions, scope, b);
  }
}
