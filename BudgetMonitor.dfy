/**
 * The budget monitor of `lib/inngest/function.js`: for every budget, the
 * expenses booked to the owner's default account since the start of the
 * current month are compared with the budget amount, and an alert email is
 * produced when 80% is reached and no alert went out earlier in the same
 * calendar month. Sending records the time in `lastAlertSent`.
 */
module BudgetMonitor {
  import opened Wrappers
  import opened Dates
  import opened Ledger
  import opened JsNumbers

  const AlertThreshold: real := 80.0

  /** `isNewMonth`: the two dates differ in month or in year. */
  predicate IsNewMonth(lastAlertDate: Date, currentDate: Date) {
    lastAlertDate.month != currentDate.month || lastAlertDate.year != currentDate.year
  }

  /** `startDate.setDate(1)` on the current time: day 1 of this month at the current time of day. */
  function BudgetWindowStart(now: Date): (r: Date)
    requires Valid(now)
    ensures Valid(r) && r == Date(now.year, now.month, 1, now.time)
  {
    assert now.month / 12 == 0 && now.month % 12 == now.month;
    WithDay(now, 1)
  }

  /** The EXPENSE amounts of one user on one account dated at or after `start` (the `_sum`, 0 when none). */
  function ExpensesSince(txs: seq<Transaction>, userId: Id, accountId: Id, start: Date): int
    decreases |txs|
  {
    if txs == [] then 0
    else
      var t := txs[0];
      var own := if t.userId == userId && t.accountId == accountId && t.txType == Expense && AtOrBefore(start, t.date)
        then t.amount else 0;
      own + ExpensesSince(txs[1..], userId, accountId, start)
  }

  /** `(totalExpenses / budgetAmount) * 100`, with JavaScript's division by zero. */
  function PercentageUsed(totalExpenses: int, budgetAmount: int): JsNumber {
    Scale(Divide(totalExpenses as real, budgetAmount as real), 100.0)
  }

  /** The guard of the alert: 80% reached, and no alert yet or the last one in another month. */
  predicate ShouldAlert(percentageUsed: JsNumber, lastAlertSent: Option<Date>, now: Date) {
    AtLeast(percentageUsed, AlertThreshold) &&
    (lastAlertSent.None? || IsNewMonth(lastAlertSent.value, now))
  }

  /**
   * For a positive budget the 80% test is the integer comparison
   * `5 * spent >= 4 * budget`; for a zero budget it holds iff something was spent.
   */
  lemma ThresholdReached(totalExpenses: int, budgetAmount: int)
    requires budgetAmount >= 0
    ensures AtLeast(PercentageUsed(totalExpenses, budgetAmount), AlertThreshold) <==>
      (if budgetAmount > 0 then 5 * totalExpenses >= 4 * budgetAmount else totalExpenses > 0)
  {
    if budgetAmount > 0 {
      var s, c := totalExpenses as real, budgetAmount as real;
      var v := s / c * 100.0;
      assert PercentageUsed(totalExpenses, budgetAmount) == Finite(v);
      ScalePreservesOrder(v, 80.0, c);
      QuotientTimesDivisor(s, c);
      var vc := v * c;
      assert vc == 100.0 * s;
      assert v >= 80.0 <==> vc >= 80.0 * c;
      assert 100.0 * s >= 80.0 * c <==> 5 * totalExpenses >= 4 * budgetAmount;
    }
  }

  lemma QuotientTimesDivisor(s: real, c: real)
    requires c > 0.0
    ensures s / c * 100.0 * c == 100.0 * s
  {
    assert s / c * c == s;
  }

  lemma ScalePreservesOrder(x: real, y: real, c: real)
    requires c > 0.0
    ensures x >= y <==> x * c >= y * c
  {
    if x >= y {
      assert x * c - y * c == (x - y) * c;
    } else {
      assert y * c - x * c == (y - x) * c;
    }
  }

  /**
   * `parseInt(x).toFixed(1)` on an amount: the whole currency units, the
   * fraction truncated toward zero (amounts are in minor units, 100 per unit).
   */
  function WholeUnits(x: int): (r: int)
    ensures r % 100 == 0
    ensures x >= 0 ==> 0 <= x - r < 100
    ensures x < 0 ==> 0 <= r - x < 100
  {
    if x >= 0 then x / 100 * 100 else -((-x) / 100 * 100)
  }

  datatype AlertEmail = AlertEmail(
    to: string, accountName: string, userName: string,
    percentageUsed: JsNumber, budgetAmount: int, totalExpenses: int)

  /** The subject line `Budget Alert for <account name>`. */
  function Subject(e: AlertEmail): string {
    "Budget Alert for " + e.accountName
  }

  /**
   * The `check-budget-<id>` step for budget row `b`. A budget whose owner has
   * no default account is skipped; otherwise an alert is produced and
   * `lastAlertSent` set to now exactly when `ShouldAlert` holds.
   */
  function CheckBudget(db: Db, b: nat, now: Date): (r: (Db, Option<AlertEmail>))
    requires b < |db.budgets| && Valid(now)
    ensures r.0.users == db.users && r.0.accounts == db.accounts &&
      r.0.transactions == db.transactions && r.0.nextId == db.nextId
    ensures |r.0.budgets| == |db.budgets|
    ensures forall j :: 0 <= j < |db.budgets| && j != b ==> r.0.budgets[j] == db.budgets[j]
    ensures r.1.Some? ==> r.0.budgets[b] == db.budgets[b].(lastAlertSent := Some(now))
    ensures r.1.None? ==> r.0 == db
  {
    var budget := db.budgets[b];
    match FindUser(db.users, budget.userId)
    case None => (db, None)
    case Some(u) =>
      match FindDefaultAccount(db.accounts, budget.userId)
      case None => (db, None)
      case Some(a) =>
        var account := db.accounts[a];
        var totalExpenses := ExpensesSince(db.transactions, budget.userId, account.id, BudgetWindowStart(now));
        var pct := PercentageUsed(totalExpenses, budget.amount);
        if ShouldAlert(pct, budget.lastAlertSent, now) then
          var email := AlertEmail(
            db.users[u].email, account.name, db.users[u].name, pct,
            WholeUnits(budget.amount), WholeUnits(totalExpenses));
          (db.(budgets := db.budgets[b := budget.(lastAlertSent := Some(now))]), Some(email))
        else (db, None)
  }

  /**
   * An alert goes out exactly when the owner has a default account and the
   * guard holds on that account's expenses since the window start; a budget
   * without a default account is skipped with no write.
   */
  lemma AlertIff(db: Db, b: nat, now: Date)
    requires b < |db.budgets| && Valid(now)
    requires FindUser(db.users, db.budgets[b].userId).Some?
    ensures var budget := db.budgets[b];
      var a := FindDefaultAccount(db.accounts, budget.userId);
      (a.None? ==> CheckBudget(db, b, now) == (db, None)) &&
      (CheckBudget(db, b, now).1.Some? <==>
        a.Some? &&
        ShouldAlert(PercentageUsed(
          ExpensesSince(db.transactions, budget.userId, db.accounts[a.value].id, BudgetWindowStart(now)),
          budget.amount), budget.lastAlertSent, now))
  {
  }

  /**
   * What an alert says: it goes to the owner's e-mail address, names the
   * default account, and carries the percentage used together with the
   * budget and the expenses in whole units.
   */
  lemma AlertContents(db: Db, b: nat, now: Date)
    requires b < |db.budgets| && Valid(now)
    requires CheckBudget(db, b, now).1.Some?
    ensures var budget := db.budgets[b];
      var u := FindUser(db.users, budget.userId);
      var a := FindDefaultAccount(db.accounts, budget.userId);
      var e := CheckBudget(db, b, now).1.value;
      u.Some? && a.Some? &&
      var spent := ExpensesSince(db.transactions, budget.userId, db.accounts[a.value].id, BudgetWindowStart(now));
      e.to == db.users[u.value].email && e.userName == db.users[u.value].name &&
      e.accountName == db.accounts[a.value].name &&
      Subject(e) == "Budget Alert for " + db.accounts[a.value].name &&
      e.percentageUsed == PercentageUsed(spent, budget.amount) &&
      e.budgetAmount == WholeUnits(budget.amount) && e.totalExpenses == WholeUnits(spent)
  {
  }

  /** The checks of budget rows `i..` in order, with the alerts they produce. */
  function CheckBudgetsFrom(db: Db, i: nat, now: Date): (r: (Db, seq<AlertEmail>))
    requires i <= |db.budgets| && Valid(now)
    ensures |r.0.budgets| == |db.budgets| && r.0.transactions == db.transactions && r.0.accounts == db.accounts
    decreases |db.budgets| - i
  {
    if i == |db.budgets| then (db, [])
    else
      var step := CheckBudget(db, i, now);
      var rest := CheckBudgetsFrom(step.0, i + 1, now);
      (rest.0, (if step.1.Some? then [step.1.value] else []) + rest.1)
  }

  /**
   * The alerts of budget rows `i..` in table order, each row checked
   * against `db` itself rather than against the state its predecessors left.
   */
  function AlertsFrom(db: Db, i: nat, now: Date): seq<AlertEmail>
    requires i <= |db.budgets| && Valid(now)
    decreases |db.budgets| - i
  {
    if i == |db.budgets| then []
    else
      var alert := CheckBudget(db, i, now).1;
      (if alert.Some? then [alert.value] else []) + AlertsFrom(db, i + 1, now)
  }

  /** `db'` may differ from `db` only in budget rows other than `b`. */
  predicate AgreeOn(db: Db, db': Db, b: nat) {
    b < |db.budgets| == |db'.budgets| &&
    db'.users == db.users && db'.accounts == db.accounts && db'.transactions == db.transactions &&
    db'.budgets[b] == db.budgets[b]
  }

  /** The check of row `b` reads only row `b` and the other tables. */
  lemma CheckBudgetLocal(db: Db, db': Db, b: nat, now: Date)
    requires Valid(now) && AgreeOn(db, db', b)
    ensures CheckBudget(db', b, now).1 == CheckBudget(db, b, now).1
    ensures CheckBudget(db', b, now).0.budgets[b] == CheckBudget(db, b, now).0.budgets[b]
  {
  }

  /**
   * Checking rows `i..` of `db`, whose rows from `i` on are those of `db0`,
   * gives the alerts of `db0` from `i` on, leaves the rows before `i` alone
   * and leaves each later row as its own check on `db0` would.
   */
  lemma {:induction false} RunFrom(db0: Db, db: Db, i: nat, now: Date)
    requires i <= |db0.budgets| == |db.budgets| && Valid(now)
    requires db.users == db0.users && db.accounts == db0.accounts && db.transactions == db0.transactions
    requires forall j :: i <= j < |db.budgets| ==> db.budgets[j] == db0.budgets[j]
    ensures var r := CheckBudgetsFrom(db, i, now);
      r.1 == AlertsFrom(db0, i, now) &&
      r.0.users == db.users && r.0.nextId == db.nextId &&
      (forall j :: 0 <= j < i ==> r.0.budgets[j] == db.budgets[j]) &&
      (forall j :: i <= j < |db.budgets| ==> r.0.budgets[j] == CheckBudget(db0, j, now).0.budgets[j])
    decreases |db.budgets| - i
  {
    if i < |db.budgets| {
      var step := CheckBudget(db, i, now);
      CheckBudgetLocal(db0, db, i, now);
      RunFrom(db0, step.0, i + 1, now);
    }
  }

  /**
   * One run of the budget job: the other tables are untouched, every budget
   * row ends as its own check leaves it, and the alerts are those of the
   * rows' own checks, in table order.
   */
  lemma RunSpec(db: Db, now: Date)
    requires Valid(now)
    ensures var r := CheckBudgetsFrom(db, 0, now);
      r.0.users == db.users && r.0.accounts == db.accounts &&
      r.0.transactions == db.transactions && r.0.nextId == db.nextId &&
      |r.0.budgets| == |db.budgets| &&
      (forall b :: 0 <= b < |db.budgets| ==> r.0.budgets[b] == CheckBudget(db, b, now).0.budgets[b]) &&
      r.1 == AlertsFrom(db, 0, now)
  {
    RunFrom(db, db, 0, now);
  }

  /** Every row's alert is among the run's alerts. */
  lemma {:induction false} AlertsFromHolds(db: Db, i: nat, b: nat, now: Date)
    requires i <= b < |db.budgets| && Valid(now)
    requires CheckBudget(db, b, now).1.Some?
    ensures CheckBudget(db, b, now).1.value in AlertsFrom(db, i, now)
    decreases b - i
  {
    var alert := CheckBudget(db, i, now).1;
    var head := if alert.Some? then [alert.value] else [];
    assert AlertsFrom(db, i, now) == head + AlertsFrom(db, i + 1, now);
    if i < b {
      AlertsFromHolds(db, i + 1, b, now);
    } else {
      assert head[0] == alert.value;
    }
  }

  /** `checkBudgetAlerts`: every budget in table order; the alerts are returned instead of sent. */
  method CheckBudgetAlerts(store: Store, now: Date) returns (alerts: seq<AlertEmail>)
    requires Valid(now)
    modifies store
    ensures (store.Snapshot(), alerts) == CheckBudgetsFrom(old(store.Snapshot()), 0, now)
  {
    alerts := [];
    var i := 0;
    assert alerts + CheckBudgetsFrom(store.Snapshot(), 0, now).1 == CheckBudgetsFrom(store.Snapshot(), 0, now).1;
    while i < |store.budgets|
      invariant 0 <= i <= |store.budgets| == |old(store.budgets)|
      invariant CheckBudgetsFrom(old(store.Snapshot()), 0, now) ==
        (CheckBudgetsFrom(store.Snapshot(), i, now).0, alerts + CheckBudgetsFrom(store.Snapshot(), i, now).1)
      decreases |store.budgets| - i
    {
      ghost var before := store.Snapshot();
      ghost var rest := CheckBudgetsFrom(CheckBudget(before, i, now).0, i + 1, now);
      var alert := CheckOneBudget(store, i, now);
      assert CheckBudgetsFrom(before, i, now) ==
        (rest.0, (if alert.Some? then [alert.value] else []) + rest.1);
      if alert.Some? {
        assert (alerts + [alert.value]) + rest.1 == alerts + ([alert.value] + rest.1);
        alerts := alerts + [alert.value];
      } else {
        assert [] + rest.1 == rest.1;
      }
      i := i + 1;
    }
    assert alerts + CheckBudgetsFrom(store.Snapshot(), i, now).1 == alerts;
  }

  /** One `check-budget-<id>` step against the store. */
  method CheckOneBudget(store: Store, b: nat, now: Date) returns (alert: Option<AlertEmail>)
    requires b < |store.budgets| && Valid(now)
    modifies store
    ensures (store.Snapshot(), alert) == CheckBudget(old(store.Snapshot()), b, now)
  {
    var budget := store.budgets[b];
    var u := FindUser(store.users, budget.userId);
    var a := FindDefaultAccount(store.accounts, budget.userId);
    if u.None? || a.None? {
      return None;
    }
    var account := store.accounts[a.value];
    var totalExpenses := ExpensesSince(store.transactions, budget.userId, account.id, BudgetWindowStart(now));
    var pct := PercentageUsed(totalExpenses, budget.amount);
    if !ShouldAlert(pct, budget.lastAlertSent, now) {
      return None;
    }
    var user := store.users[u.value];
    alert := Some(AlertEmail(user.email, account.name, user.name, pct,
      WholeUnits(budget.amount), WholeUnits(totalExpenses)));
    store.SetLastAlertSent(b, now);
  }

  // ---------------------------------------------------------------------
  // At most one alert per calendar month

  /** The same calendar month. */
  predicate SameMonth(a: Date, b: Date) {
    a.year == b.year && a.month == b.month
  }

  /**
   * The budget job run at each of `nows` in turn, each run over the
   * database the previous one left; the count is the number of runs whose
   * alerts include budget row `b`'s (by `RunSpec`, the alert of row `b`'s
   * own check on the run's starting state).
   */
  function JobRuns(db: Db, b: nat, nows: seq<Date>): (r: (Db, nat))
    requires b < |db.budgets|
    requires forall i :: 0 <= i < |nows| ==> Valid(nows[i])
    ensures |r.0.budgets| == |db.budgets|
    ensures r.1 <= |nows|
    decreases |nows|
  {
    if nows == [] then (db, 0)
    else
      var run := CheckBudgetsFrom(db, 0, nows[0]);
      var rest := JobRuns(run.0, b, nows[1..]);
      (rest.0, (if CheckBudget(db, b, nows[0]).1.Some? then 1 else 0) + rest.1)
  }

  /** Once an alert is recorded for a month, further runs of the job in that month send row `b` nothing. */
  lemma {:induction false} QuietAfterAlert(db: Db, b: nat, nows: seq<Date>)
    requires b < |db.budgets|
    requires forall i :: 0 <= i < |nows| ==> Valid(nows[i])
    requires db.budgets[b].lastAlertSent.Some?
    requires forall i :: 0 <= i < |nows| ==> SameMonth(db.budgets[b].lastAlertSent.value, nows[i])
    ensures JobRuns(db, b, nows).1 == 0
    decreases |nows|
  {
    if nows != [] {
      assert CheckBudget(db, b, nows[0]).1.None?;
      RunSpec(db, nows[0]);
      QuietAfterAlert(CheckBudgetsFrom(db, 0, nows[0]).0, b, nows[1..]);
    }
  }

  /**
   * Runs of the job within one calendar month send budget row `b` at most
   * one alert, and exactly one when the first run sends it one.
   */
  lemma {:induction false} AtMostOneAlertPerMonth(db: Db, b: nat, nows: seq<Date>)
    requires b < |db.budgets|
    requires forall i :: 0 <= i < |nows| ==> Valid(nows[i])
    requires forall i, j :: 0 <= i < j < |nows| ==> SameMonth(nows[i], nows[j])
    ensures JobRuns(db, b, nows).1 <= 1
    ensures nows != [] && CheckBudget(db, b, nows[0]).1.Some? ==> JobRuns(db, b, nows).1 == 1
    decreases |nows|
  {
    if nows != [] {
      RunSpec(db, nows[0]);
      var next := CheckBudgetsFrom(db, 0, nows[0]).0;
      if CheckBudget(db, b, nows[0]).1.Some? {
        assert next.budgets[b].lastAlertSent == Some(nows[0]);
        QuietAfterAlert(next, b, nows[1..]);
      } else {
        AtMostOneAlertPerMonth(next, b, nows[1..]);
      }
    }
  }

  /**
   * In a later month the guard opens again: with spending still at the
   * threshold, the next check alerts once more.
   */
  lemma AlertAgainInNewMonth(db: Db, b: nat, now: Date, later: Date)
    requires b < |db.budgets| && Valid(now) && Valid(later)
    requires CheckBudget(db, b, now).1.Some?
    requires !SameMonth(now, later)
    requires var db1 := CheckBudget(db, b, now).0;
      var a := FindDefaultAccount(db1.accounts, db1.budgets[b].userId);
      a.Some? && AtLeast(PercentageUsed(
        ExpensesSince(db1.transactions, db1.budgets[b].userId, db1.accounts[a.value].id, BudgetWindowStart(later)),
        db1.budgets[b].amount), AlertThreshold)
    ensures CheckBudget(CheckBudget(db, b, now).0, b, later).1.Some?
  {
  }

  /**
   * The window starts at the current time of day: an expense on the 1st
   * booked earlier in the day than the check is not counted.
   */
  lemma EarlierOnTheFirstIsNotCounted(t: Transaction, now: Date)
    requires Valid(now) && now.day == 1
    requires t.date == Date(now.year, now.month, 1, now.time - 1)
    ensures !AtOrBefore(BudgetWindowStart(now), t.date)
  {
  }
}
