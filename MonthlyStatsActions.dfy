/**
 * The dashboard's monthly figures (`actions/monthlyStats.js`): sums over the
 * signed-in user's transactions in the current month, optionally restricted
 * to one account. Every failure, whether the caller is not signed in or has
 * no user record, is reported as one fixed message per action.
 */
module MonthlyStatsActions {
  import opened Wrappers
  import opened Dates
  import opened Ledger
  import MonthlyReport

  const SpendingError: string := "Failed to fetch monthly spending"
  const SavingsError: string := "Failed to fetch monthly savings"
  const SavingsCategoryError: string := "Failed to fetch monthly savings from category"

  /** The category `getMonthlySavingsFromCategory` sums. */
  const SavingsCategory: string := "savings"

  /** The signed-in user, "Unauthorized" when there is none. */
  function ResolveUser(users: seq<User>, authUserId: Option<string>): Result<User> {
    SignedInUser(users, authUserId, "Unauthorized")
  }

  /**
   * The `where` clause of the aggregates: the user, a type and a category
   * when given, the account when given (an undefined `accountId` filters
   * nothing), and the month window of (y, m).
   */
  predicate InQuery(t: Transaction, userId: Id, txType: Option<TxType>, category: Option<string>,
                    accountId: Option<Id>, y: int, m: int)
    requires 0 <= m < 12
  {
    t.userId == userId &&
    (txType.None? || t.txType == txType.value) &&
    (category.None? || t.category == category.value) &&
    (accountId.None? || t.accountId == accountId.value) &&
    InMonthWindow(t.date, y, m)
  }

  /** `_sum.amount` of the matching rows, 0 when there are none. */
  function AggregateSum(txs: seq<Transaction>, userId: Id, txType: Option<TxType>, category: Option<string>,
                        accountId: Option<Id>, y: int, m: int): int
    requires 0 <= m < 12
    decreases |txs|
  {
    if txs == [] then 0
    else
      var own := if InQuery(txs[0], userId, txType, category, accountId, y, m) then txs[0].amount else 0;
      own + AggregateSum(txs[1..], userId, txType, category, accountId, y, m)
  }

  /** `getMonthlySpending(accountId)`: the month's EXPENSE total. */
  function GetMonthlySpending(db: Db, authUserId: Option<string>, accountId: Option<Id>, now: Date): (r: Result<int>)
    requires Valid(now)
    ensures r.Err? ==> r == Err(SpendingError)
    ensures r.Ok? <==> ResolveUser(db.users, authUserId).Ok?
  {
    match ResolveUser(db.users, authUserId)
    case Err(_) => Err(SpendingError)
    case Ok(user) => Ok(AggregateSum(db.transactions, user.id, Some(Expense), None, accountId, now.year, now.month))
  }

  /** `Math.max(savings, 0)` */
  function NonNegative(savings: int): (r: int)
    ensures r >= 0 && r >= savings
    ensures savings >= 0 ==> r == savings
    ensures savings < 0 ==> r == 0
  {
    if savings > 0 then savings else 0
  }

  /** `getMonthlySavings(accountId)`: the month's INCOME minus EXPENSE, never below 0. */
  function GetMonthlySavings(db: Db, authUserId: Option<string>, accountId: Option<Id>, now: Date): (r: Result<int>)
    requires Valid(now)
    ensures r.Err? ==> r == Err(SavingsError)
    ensures r.Ok? <==> ResolveUser(db.users, authUserId).Ok?
    ensures r.Ok? ==> r.value >= 0
  {
    match ResolveUser(db.users, authUserId)
    case Err(_) => Err(SavingsError)
    case Ok(user) =>
      var income := AggregateSum(db.transactions, user.id, Some(Income), None, accountId, now.year, now.month);
      var expenses := AggregateSum(db.transactions, user.id, Some(Expense), None, accountId, now.year, now.month);
      Ok(NonNegative(income - expenses))
  }

  /** `getMonthlySavingsFromCategory(accountId)`: rows of any type in category "savings". */
  function GetMonthlySavingsFromCategory(db: Db, authUserId: Option<string>, accountId: Option<Id>, now: Date): (r: Result<int>)
    requires Valid(now)
    ensures r.Err? ==> r == Err(SavingsCategoryError)
    ensures r.Ok? <==> ResolveUser(db.users, authUserId).Ok?
    ensures r.Ok? ==> r.value == CategoryTotal(
      MonthlyReport.MonthRows(db.transactions, ResolveUser(db.users, authUserId).value.id, now.year, now.month),
      SavingsCategory, accountId)
  {
    match ResolveUser(db.users, authUserId)
    case Err(_) => Err(SavingsCategoryError)
    case Ok(user) =>
      CategoryAggregateMatchesRows(db.transactions, user.id, SavingsCategory, accountId, now.year, now.month);
      Ok(AggregateSum(db.transactions, user.id, None, Some(SavingsCategory), accountId, now.year, now.month))
  }

  /**
   * The amounts, whatever their type, of the rows in `category`, counting
   * only rows booked to `accountId` when one is given.
   */
  function CategoryTotal(rows: seq<Transaction>, category: string, accountId: Option<Id>): int
    decreases |rows|
  {
    if rows == [] then 0
    else
      var t := rows[0];
      (if t.category == category && (accountId.None? || t.accountId == accountId.value) then t.amount else 0) +
      CategoryTotal(rows[1..], category, accountId)
  }

  /**
   * A category aggregate over the ledger is the category total of the
   * user's rows in the month's window.
   */
  lemma {:induction false} CategoryAggregateMatchesRows(txs: seq<Transaction>, userId: Id, category: string,
                                                        accountId: Option<Id>, y: int, m: int)
    requires 0 <= m < 12
    ensures AggregateSum(txs, userId, None, Some(category), accountId, y, m) ==
      CategoryTotal(MonthlyReport.MonthRows(txs, userId, y, m), category, accountId)
    decreases |txs|
  {
    if txs != [] {
      CategoryAggregateMatchesRows(txs[1..], userId, category, accountId, y, m);
      var t := txs[0];
      var rest := MonthlyReport.MonthRows(txs[1..], userId, y, m);
      if t.userId == userId && InMonthWindow(t.date, y, m) {
        assert ([t] + rest)[0] == t;
        assert ([t] + rest)[1..] == rest;
      } else {
        assert [] + rest == rest;
      }
    }
  }

  // ---------------------------------------------------------------------
  // Agreement with the monthly report

  lemma {:induction false} SumExpensesAppend(a: seq<Transaction>, b: seq<Transaction>)
    ensures MonthlyReport.SumExpenses(a + b) == MonthlyReport.SumExpenses(a) + MonthlyReport.SumExpenses(b)
    ensures MonthlyReport.SumIncome(a + b) == MonthlyReport.SumIncome(a) + MonthlyReport.SumIncome(b)
    decreases |b|
  {
    if b != [] {
      var b' := b[..|b| - 1];
      assert (a + b)[..|a + b| - 1] == a + b';
      assert (a + b)[|a + b| - 1] == b[|b| - 1];
      SumExpensesAppend(a, b');
    } else {
      assert a + b == a;
    }
  }

  /**
   * Over all accounts, the month's EXPENSE and INCOME aggregates equal the
   * expense and income totals of the monthly statistics for the same month.
   */
  lemma {:induction false} AggregatesMatchMonthlyStats(txs: seq<Transaction>, userId: Id, y: int, m: int)
    requires 0 <= m < 12
    ensures AggregateSum(txs, userId, Some(Expense), None, None, y, m) ==
      MonthlyReport.SumExpenses(MonthlyReport.MonthRows(txs, userId, y, m))
    ensures AggregateSum(txs, userId, Some(Income), None, None, y, m) ==
      MonthlyReport.SumIncome(MonthlyReport.MonthRows(txs, userId, y, m))
    decreases |txs|
  {
    if txs != [] {
      AggregatesMatchMonthlyStats(txs[1..], userId, y, m);
      var t := txs[0];
      var head := if t.userId == userId && InMonthWindow(t.date, y, m) then [t] else [];
      SumExpensesAppend(head, MonthlyReport.MonthRows(txs[1..], userId, y, m));
      if head != [] {
        assert head[..0] == [];
      }
    }
  }

  /**
   * For the signed-in user, spending over all accounts is the monthly
   * report's `totalExpenses` for the current month, and savings are its
   * `netIncome` clamped at 0.
   */
  lemma DashboardMatchesReport(db: Db, authUserId: Option<string>, now: Date)
    requires Valid(now) && ResolveUser(db.users, authUserId).Ok?
    ensures var user := ResolveUser(db.users, authUserId).value;
      var stats := MonthlyReport.MonthlyStatsFor(db, user.id, now);
      GetMonthlySpending(db, authUserId, None, now) == Ok(stats.totalExpenses) &&
      GetMonthlySavings(db, authUserId, None, now) == Ok(NonNegative(stats.netIncome))
  {
    var user := ResolveUser(db.users, authUserId).value;
    AggregatesMatchMonthlyStats(db.transactions, user.id, now.year, now.month);
    MonthlyReport.MonthTotals(db, user.id, now);
  }

  /** Savings equal income minus expenses when income covers expenses, and 0 otherwise. */
  lemma SavingsClamp(db: Db, authUserId: Option<string>, accountId: Option<Id>, now: Date)
    requires Valid(now) && ResolveUser(db.users, authUserId).Ok?
    ensures var user := ResolveUser(db.users, authUserId).value;
      var income := AggregateSum(db.transactions, user.id, Some(Income), None, accountId, now.year, now.month);
      var expenses := AggregateSum(db.transactions, user.id, Some(Expense), None, accountId, now.year, now.month);
      GetMonthlySavings(db, authUserId, accountId, now) ==
        Ok(if income >= expenses then income - expenses else 0)
  {
  }

  /** Restricting to one account keeps only that account's rows. */
  lemma {:induction false} AccountFilterSplits(txs: seq<Transaction>, userId: Id, txType: Option<TxType>,
                                               category: Option<string>, accountId: Id, y: int, m: int)
    requires 0 <= m < 12
    ensures AggregateSum(txs, userId, txType, category, Some(accountId), y, m) ==
      AggregateSum(txs, userId, txType, category, None, y, m) -
      AggregateSum(OtherAccounts(txs, accountId), userId, txType, category, None, y, m)
    decreases |txs|
  {
    if txs != [] {
      AccountFilterSplits(txs[1..], userId, txType, category, accountId, y, m);
      if txs[0].accountId != accountId {
        assert OtherAccounts(txs, accountId) == [txs[0]] + OtherAccounts(txs[1..], accountId);
        assert ([txs[0]] + OtherAccounts(txs[1..], accountId))[1..] == OtherAccounts(txs[1..], accountId);
      } else {
        assert OtherAccounts(txs, accountId) == OtherAccounts(txs[1..], accountId);
      }
    }
  }

  /** The rows booked to any account but `accountId`. */
  function OtherAccounts(txs: seq<Transaction>, accountId: Id): seq<Transaction>
    decreases |txs|
  {
    if txs == [] then []
    else (if txs[0].accountId != accountId then [txs[0]] else []) + OtherAccounts(txs[1..], accountId)
  }
}
