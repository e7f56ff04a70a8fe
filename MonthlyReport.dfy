/**
 * The monthly report of `lib/inngest/function.js`: per-month statistics
 * folded over a user's transactions, the month-over-month comparison, the
 * six-month trend, the chart data and the report each user receives.
 *
 * `byCategory` is a JavaScript object filled by assignment, so its entries
 * are kept here as an association list in insertion order, the order
 * `Object.entries` and `Object.keys` return them in.
 */
module MonthlyReport {
  import opened Wrappers
  import opened Dates
  import opened Ledger
  import opened JsNumbers

  datatype CategoryTotal = CategoryTotal(category: string, amount: int)

  /** The reduce accumulator: totals and the per-category expense map. */
  datatype Acc = Acc(totalExpenses: int, totalIncome: int, byCategory: seq<CategoryTotal>)

  datatype MonthlyStats = MonthlyStats(
    totalExpenses: int, totalIncome: int, byCategory: seq<CategoryTotal>,
    transactionCount: nat, savingsRate: real, netIncome: int,
    topCategory: string, categoryCount: nat)

  // ---------------------------------------------------------------------
  // The category map

  function Keys(m: seq<CategoryTotal>): set<string> {
    set i | 0 <= i < |m| :: m[i].category
  }

  predicate DistinctKeys(m: seq<CategoryTotal>) {
    forall i, j :: 0 <= i < j < |m| ==> m[i].category != m[j].category
  }

  /** The sum of the map's values. */
  function Total(m: seq<CategoryTotal>): int
    decreases |m|
  {
    if m == [] then 0 else m[0].amount + Total(m[1..])
  }

  /** `m[category] || 0` */
  function Lookup(m: seq<CategoryTotal>, category: string): int
    decreases |m|
  {
    if m == [] then 0
    else if m[0].category == category then m[0].amount
    else Lookup(m[1..], category)
  }

  /**
   * `byCategory[category] = (byCategory[category] || 0) + amount`: an
   * existing key is updated in place, a new key goes at the end.
   */
  function AddToCategory(m: seq<CategoryTotal>, category: string, amount: int): (r: seq<CategoryTotal>)
    ensures Keys(r) == Keys(m) + {category}
    ensures Total(r) == Total(m) + amount
    decreases |m|
  {
    if m == [] then
      var x := CategoryTotal(category, amount);
      KeysCons(x, []);
      assert [x] + [] == [x];
      [x]
    else
      assert m == [m[0]] + m[1..];
      KeysCons(m[0], m[1..]);
      if m[0].category == category then
        var head := m[0].(amount := m[0].amount + amount);
        KeysCons(head, m[1..]);
        [head] + m[1..]
      else
        var rest := AddToCategory(m[1..], category, amount);
        KeysCons(m[0], rest);
        [m[0]] + rest
  }

  /**
   * Adding to a category changes that category's value by the amount and
   * no other value, and keeps the keys distinct.
   */
  lemma {:induction false} AddToCategoryUpdates(m: seq<CategoryTotal>, category: string, amount: int)
    ensures DistinctKeys(m) ==> DistinctKeys(AddToCategory(m, category, amount))
    ensures forall c ::
              Lookup(AddToCategory(m, category, amount), c) == Lookup(m, c) + (if c == category then amount else 0)
    decreases |m|
  {
    if m != [] {
      assert m == [m[0]] + m[1..];
      DistinctKeysCons(m[0], m[1..]);
      if m[0].category == category {
        var head := m[0].(amount := m[0].amount + amount);
        DistinctKeysCons(head, m[1..]);
        assert ([head] + m[1..])[1..] == m[1..];
      } else {
        var rest := AddToCategory(m[1..], category, amount);
        AddToCategoryUpdates(m[1..], category, amount);
        DistinctKeysCons(m[0], rest);
        assert ([m[0]] + rest)[1..] == rest;
      }
    }
  }

  /** A map with a first entry has distinct keys iff its tail does and the first key is not among the tail's. */
  lemma DistinctKeysCons(x: CategoryTotal, s: seq<CategoryTotal>)
    ensures DistinctKeys([x] + s) <==> DistinctKeys(s) && x.category !in Keys(s)
  {
    var l := [x] + s;
    assert l[0] == x;
    if DistinctKeys(l) {
      forall i, j | 0 <= i < j < |s|
        ensures s[i].category != s[j].category
      {
        assert l[i + 1] == s[i] && l[j + 1] == s[j];
      }
      forall i | 0 <= i < |s|
        ensures s[i].category != x.category
      {
        assert l[i + 1] == s[i];
      }
    }
    if DistinctKeys(s) && x.category !in Keys(s) {
      forall i, j | 0 <= i < j < |l|
        ensures l[i].category != l[j].category
      {
        assert l[j] == s[j - 1];
        if i == 0 {
          assert s[j - 1].category in Keys(s);
        } else {
          assert l[i] == s[i - 1];
        }
      }
    }
  }

  lemma {:induction false} KeysCons(x: CategoryTotal, s: seq<CategoryTotal>)
    ensures Keys([x] + s) == {x.category} + Keys(s)
  {
    var l := [x] + s;
    forall k | k in Keys(l)
      ensures k in {x.category} + Keys(s)
    {
      var i :| 0 <= i < |l| && l[i].category == k;
      if i > 0 {
        assert s[i - 1].category == k;
      }
    }
    forall k | k in Keys(s)
      ensures k in Keys(l)
    {
      var i :| 0 <= i < |s| && s[i].category == k;
      assert l[i + 1].category == k;
    }
    assert l[0].category == x.category;
  }

  // ---------------------------------------------------------------------
  // The fold

  /** One step of the reduce: EXPENSE goes to the expense total and its category, anything else to income. */
  function Step(acc: Acc, t: Transaction): Acc {
    if t.txType == Expense then
      acc.(totalExpenses := acc.totalExpenses + t.amount,
           byCategory := AddToCategory(acc.byCategory, t.category, t.amount))
    else acc.(totalIncome := acc.totalIncome + t.amount)
  }

  /** The reduce over `rows`, from `{ 0, 0, {} }`. */
  function Fold(rows: seq<Transaction>): Acc
    decreases |rows|
  {
    if rows == [] then Acc(0, 0, [])
    else Step(Fold(rows[..|rows| - 1]), rows[|rows| - 1])
  }

  /** The first entry of largest amount: what a stable descending sort puts first. */
  function FirstMax(m: seq<CategoryTotal>): (r: nat)
    requires |m| > 0
    ensures r < |m|
    ensures forall j :: 0 <= j < |m| ==> m[j].amount <= m[r].amount
    ensures forall j :: 0 <= j < r ==> m[j].amount < m[r].amount
    decreases |m|
  {
    if |m| == 1 then 0
    else
      var k := FirstMax(m[1..]) + 1;
      if m[0].amount >= m[k].amount then 0 else k
  }

  /** `Object.entries(byCategory).sort(desc)[0]?.[0] || 'None'` */
  function TopCategory(m: seq<CategoryTotal>): string {
    if m == [] then "None"
    else
      var key := m[FirstMax(m)].category;
      if key == "" then "None" else key
  }

  /** `totalIncome > 0 ? (totalIncome - totalExpenses) / totalIncome * 100 : 0` */
  function SavingsRate(totalIncome: int, totalExpenses: int): (r: real)
    ensures totalIncome <= 0 ==> r == 0.0
    ensures totalIncome > 0 ==> r * totalIncome as real == (totalIncome - totalExpenses) as real * 100.0
  {
    if totalIncome > 0 then (totalIncome - totalExpenses) as real / totalIncome as real * 100.0 else 0.0
  }

  /** `getMonthlyStats` on the rows its query returns. */
  function StatsOf(rows: seq<Transaction>): MonthlyStats {
    var acc := Fold(rows);
    MonthlyStats(
      acc.totalExpenses, acc.totalIncome, acc.byCategory, |rows|,
      SavingsRate(acc.totalIncome, acc.totalExpenses),
      acc.totalIncome - acc.totalExpenses,
      TopCategory(acc.byCategory), |acc.byCategory|)
  }

  /** The reduce of `getMonthlyStats` as the loop it performs. */
  method ComputeMonthlyStats(rows: seq<Transaction>) returns (stats: MonthlyStats)
    ensures stats == StatsOf(rows)
  {
    var acc := Acc(0, 0, []);
    var i := 0;
    while i < |rows|
      invariant 0 <= i <= |rows|
      invariant acc == Fold(rows[..i])
    {
      var t := rows[i];
      if t.txType == Expense {
        acc := acc.(totalExpenses := acc.totalExpenses + t.amount,
                    byCategory := AddToCategory(acc.byCategory, t.category, t.amount));
      } else {
        acc := acc.(totalIncome := acc.totalIncome + t.amount);
      }
      assert rows[..i + 1][..i] == rows[..i];
      i := i + 1;
    }
    assert rows[..i] == rows;
    var savingsRate := if acc.totalIncome > 0
      then (acc.totalIncome - acc.totalExpenses) as real / acc.totalIncome as real * 100.0
      else 0.0;
    stats := MonthlyStats(
      acc.totalExpenses, acc.totalIncome, acc.byCategory, |rows|,
      savingsRate, acc.totalIncome - acc.totalExpenses,
      TopCategory(acc.byCategory), |acc.byCategory|);
  }

  // ---------------------------------------------------------------------
  // Reference sums and what the fold computes

  function SumExpenses(rows: seq<Transaction>): int
    decreases |rows|
  {
    if rows == [] then 0
    else
      var t := rows[|rows| - 1];
      SumExpenses(rows[..|rows| - 1]) + (if t.txType == Expense then t.amount else 0)
  }

  function SumIncome(rows: seq<Transaction>): int
    decreases |rows|
  {
    if rows == [] then 0
    else
      var t := rows[|rows| - 1];
      SumIncome(rows[..|rows| - 1]) + (if t.txType != Expense then t.amount else 0)
  }

  /** The EXPENSE amounts in one category. */
  function SumExpensesIn(rows: seq<Transaction>, category: string): int
    decreases |rows|
  {
    if rows == [] then 0
    else
      var t := rows[|rows| - 1];
      SumExpensesIn(rows[..|rows| - 1], category) + (if t.txType == Expense && t.category == category then t.amount else 0)
  }

  function ExpenseCategories(rows: seq<Transaction>): set<string> {
    set i | 0 <= i < |rows| && rows[i].txType == Expense :: rows[i].category
  }

  /**
   * The fold's totals are the sums of EXPENSE and of all other rows; its map
   * has one key per expense category, without repeats, holding that
   * category's expense sum, and its values add up to the expense total.
   */
  lemma {:induction false} FoldIsSums(rows: seq<Transaction>)
    ensures Fold(rows).totalExpenses == SumExpenses(rows)
    ensures Fold(rows).totalIncome == SumIncome(rows)
    ensures Total(Fold(rows).byCategory) == Fold(rows).totalExpenses
    ensures DistinctKeys(Fold(rows).byCategory)
    ensures Keys(Fold(rows).byCategory) == ExpenseCategories(rows)
    ensures forall c :: Lookup(Fold(rows).byCategory, c) == SumExpensesIn(rows, c)
    decreases |rows|
  {
    if rows != [] {
      var init := rows[..|rows| - 1];
      var t := rows[|rows| - 1];
      FoldIsSums(init);
      AddToCategoryUpdates(Fold(init).byCategory, t.category, t.amount);
      assert ExpenseCategories(rows) ==
        ExpenseCategories(init) + (if t.txType == Expense then {t.category} else {}) by {
        assert forall i :: 0 <= i < |init| ==> init[i] == rows[i];
      }
    }
  }

  /** A map without repeated keys has as many entries as keys. */
  lemma {:induction false} DistinctKeysCount(m: seq<CategoryTotal>)
    requires DistinctKeys(m)
    ensures |Keys(m)| == |m|
    decreases |m|
  {
    if m != [] {
      DistinctKeysCount(m[1..]);
      assert Keys(m) == {m[0].category} + Keys(m[1..]);
      assert m[0].category !in Keys(m[1..]);
    }
  }

  /** What `getMonthlyStats` promises about its result. */
  lemma {:induction false} StatsProperties(rows: seq<Transaction>)
    ensures var s := StatsOf(rows);
      s.totalExpenses == SumExpenses(rows) && s.totalIncome == SumIncome(rows) &&
      Total(s.byCategory) == s.totalExpenses &&
      s.netIncome == s.totalIncome - s.totalExpenses &&
      s.transactionCount == |rows| &&
      s.categoryCount == |ExpenseCategories(rows)| &&
      (forall c :: Lookup(s.byCategory, c) == SumExpensesIn(rows, c))
  {
    FoldIsSums(rows);
    DistinctKeysCount(Fold(rows).byCategory);
  }

  /** With no EXPENSE row the map is empty and the top category is "None". */
  lemma {:induction false} NoExpensesMeansNoTopCategory(rows: seq<Transaction>)
    requires forall i :: 0 <= i < |rows| ==> rows[i].txType != Expense
    ensures StatsOf(rows).topCategory == "None" && StatsOf(rows).categoryCount == 0
  {
    FoldIsSums(rows);
    var m := Fold(rows).byCategory;
    DistinctKeysCount(m);
    assert ExpenseCategories(rows) == {};
  }

  /**
   * Otherwise the top category is the first category of largest expense
   * sum, except that an empty category name also reads as "None".
   */
  lemma {:induction false} TopCategoryIsLargest(rows: seq<Transaction>)
    requires exists i :: 0 <= i < |rows| && rows[i].txType == Expense
    ensures var s := StatsOf(rows);
      s.topCategory == "None" ||
      (s.topCategory in ExpenseCategories(rows) &&
       forall c :: c in ExpenseCategories(rows) ==> SumExpensesIn(rows, c) <= SumExpensesIn(rows, s.topCategory))
  {
    FoldIsSums(rows);
    var m := Fold(rows).byCategory;
    var i :| 0 <= i < |rows| && rows[i].txType == Expense;
    assert rows[i].category in Keys(m);
    var k := FirstMax(m);
    forall c | c in ExpenseCategories(rows)
      ensures SumExpensesIn(rows, c) <= SumExpensesIn(rows, m[k].category)
    {
      assert c in Keys(m);
      var j :| 0 <= j < |m| && m[j].category == c;
      LookupDistinct(m, j);
      LookupDistinct(m, k);
    }
  }

  lemma {:induction false} LookupDistinct(m: seq<CategoryTotal>, j: nat)
    requires DistinctKeys(m) && j < |m|
    ensures Lookup(m, m[j].category) == m[j].amount
    decreases j
  {
    if j > 0 {
      LookupDistinct(m[1..], j - 1);
    }
  }

  /** The savings rate is zero without income and the net share of income otherwise. */
  lemma {:induction false} SavingsRateGuard(rows: seq<Transaction>)
    ensures var s := StatsOf(rows);
      (s.totalIncome <= 0 ==> s.savingsRate == 0.0) &&
      (s.totalIncome > 0 ==> s.savingsRate * s.totalIncome as real == s.netIncome as real * 100.0)
  {
    var acc := Fold(rows);
    assert StatsOf(rows).totalIncome == acc.totalIncome;
    assert StatsOf(rows).netIncome == acc.totalIncome - acc.totalExpenses;
    assert StatsOf(rows).savingsRate == SavingsRate(acc.totalIncome, acc.totalExpenses);
  }

  // ---------------------------------------------------------------------
  // The month a query covers

  /** The user's rows inside the window of month (y, m), in table order. */
  function MonthRows(txs: seq<Transaction>, userId: Id, y: int, m: int): (r: seq<Transaction>)
    requires 0 <= m < 12
    ensures forall t :: t in r <==> t in txs && t.userId == userId && InMonthWindow(t.date, y, m)
    decreases |txs|
  {
    if txs == [] then []
    else
      assert txs == [txs[0]] + txs[1..];
      var t := txs[0];
      (if t.userId == userId && InMonthWindow(t.date, y, m) then [t] else []) + MonthRows(txs[1..], userId, y, m)
  }

  /** `getMonthlyStats(userId, month)` */
  function MonthlyStatsFor(db: Db, userId: Id, month: Date): MonthlyStats
    requires Valid(month)
  {
    StatsOf(MonthRows(db.transactions, userId, month.year, month.month))
  }

  /** The month's expense total and net income are the sums over its rows. */
  lemma MonthTotals(db: Db, userId: Id, month: Date)
    requires Valid(month)
    ensures var rows := MonthRows(db.transactions, userId, month.year, month.month);
      MonthlyStatsFor(db, userId, month).totalExpenses == SumExpenses(rows) &&
      MonthlyStatsFor(db, userId, month).netIncome == SumIncome(rows) - SumExpenses(rows)
  {
    FoldIsSums(MonthRows(db.transactions, userId, month.year, month.month));
  }

  /** A transaction on the last day of the month after midnight falls outside the month's window. */
  lemma LastDayAfterMidnightIsLeftOut(t: Transaction, y: int, m: int)
    requires 0 <= m < 12 && Valid(t.date)
    requires t.date.year == y && t.date.month == m && t.date.day == DaysInMonth(y, m) && t.date.time > 0
    ensures !InMonthWindow(t.date, y, m)
  {
    InMonthWindowIff(t.date, y, m);
  }

  // ---------------------------------------------------------------------
  // Comparison with the previous month

  datatype Comparison = Comparison(
    incomeChange: int, expenseChange: int, savingsChange: int,
    incomeChangePercent: real, expenseChangePercent: real)

  /** `prev > 0 ? (cur - prev) / prev * 100 : 0` */
  function PercentChange(cur: int, prev: int): (r: real)
    ensures prev <= 0 ==> r == 0.0
    ensures prev > 0 ==> r * prev as real == (cur - prev) as real * 100.0
    ensures prev > 0 ==> (r > 0.0 <==> cur > prev) && (r == 0.0 <==> cur == prev)
  {
    if prev > 0 then (cur - prev) as real / prev as real * 100.0 else 0.0
  }

  /** The comparison object built from the two months' statistics. */
  function Compare(previous: MonthlyStats, current: MonthlyStats): Comparison {
    Comparison(
      current.totalIncome - previous.totalIncome,
      current.totalExpenses - previous.totalExpenses,
      current.netIncome - previous.netIncome,
      PercentChange(current.totalIncome, previous.totalIncome),
      PercentChange(current.totalExpenses, previous.totalExpenses))
  }

  /** `getComparisonData(userId, currentMonth)`: the month before is `setMonth(getMonth() - 1)`. */
  function ComparisonFor(db: Db, userId: Id, currentMonth: Date): Comparison
    requires Valid(currentMonth)
  {
    Compare(MonthlyStatsFor(db, userId, AddMonths(currentMonth, -1)), MonthlyStatsFor(db, userId, currentMonth))
  }

  /** Each change is current minus previous; the savings change is the change in net income. */
  lemma CompareChanges(previous: MonthlyStats, current: MonthlyStats)
    requires previous.netIncome == previous.totalIncome - previous.totalExpenses
    requires current.netIncome == current.totalIncome - current.totalExpenses
    ensures var c := Compare(previous, current);
      previous.totalIncome + c.incomeChange == current.totalIncome &&
      previous.totalExpenses + c.expenseChange == current.totalExpenses &&
      c.savingsChange == c.incomeChange - c.expenseChange &&
      (previous.totalIncome <= 0 ==> c.incomeChangePercent == 0.0) &&
      (previous.totalExpenses <= 0 ==> c.expenseChangePercent == 0.0)
  {
  }

  // ---------------------------------------------------------------------
  // Six-month trend

  /** A month counted from year 0. */
  function MonthNumber(d: Date): int {
    d.year * 12 + d.month
  }

  /** The loop of `getTrendData`: `setMonth(getMonth() - i)` for i = 5 down to 0. */
  method TrendMonths(currentMonth: Date) returns (months: seq<Date>)
    requires Valid(currentMonth)
    ensures |months| == 6
    ensures forall j :: 0 <= j < 6 ==> months[j] == AddMonths(currentMonth, j - 5)
  {
    months := [];
    var i := 5;
    while i >= 0
      invariant -1 <= i <= 5
      invariant |months| == 5 - i
      invariant forall j :: 0 <= j < |months| ==> months[j] == AddMonths(currentMonth, j - 5)
    {
      months := months + [AddMonths(currentMonth, -i)];
      i := i - 1;
    }
  }

  /** From the first of a month, the six trend months are consecutive and end at that month. */
  lemma {:induction false} TrendMonthsConsecutive(currentMonth: Date, j: int)
    requires Valid(currentMonth) && currentMonth.day == 1 && 0 <= j < 6
    ensures AddMonths(currentMonth, j - 5) == Date(
      currentMonth.year + (currentMonth.month + j - 5) / 12, (currentMonth.month + j - 5) % 12, 1, currentMonth.time)
    ensures MonthNumber(AddMonths(currentMonth, j - 5)) == MonthNumber(currentMonth) + j - 5
  {
    var m := currentMonth.month + j - 5;
    assert DaysInMonth(currentMonth.year + m / 12, m % 12) >= 1;
  }

  /** From the 31st the steps overflow: one month back from March 31 is March 2 (2024). */
  lemma TrendMonthsOverflow()
    ensures AddMonths(Date(2024, 2, 31, 0), -1) == Date(2024, 2, 2, 0)
  {
    assert MakeDate(2024, 1, 31, 0) == RollForward(2024, 1, 31, 0);
    assert DaysInMonth(2024, 1) == 29;
    assert RollForward(2024, 1, 31, 0) == RollForward(2024, 2, 2, 0);
    assert RollForward(2024, 2, 2, 0) == Date(2024, 2, 2, 0);
  }

  datatype TrendEntry = TrendEntry(month: int, income: int, expenses: int, savings: int, transactionCount: nat)

  function TrendEntryFor(db: Db, userId: Id, month: Date): TrendEntry
    requires Valid(month)
  {
    var s := MonthlyStatsFor(db, userId, month);
    TrendEntry(month.month, s.totalIncome, s.totalExpenses, s.netIncome, s.transactionCount)
  }

  /** The six trend entries, oldest month first. */
  function TrendFor(db: Db, userId: Id, currentMonth: Date): seq<TrendEntry>
    requires Valid(currentMonth)
  {
    seq(6, j requires 0 <= j < 6 => TrendEntryFor(db, userId, AddMonths(currentMonth, j - 5)))
  }

  /** `getTrendData(userId, currentMonth)`, oldest month first. */
  method TrendData(db: Db, userId: Id, currentMonth: Date) returns (trend: seq<TrendEntry>)
    requires Valid(currentMonth)
    ensures |trend| == 6 && trend == TrendFor(db, userId, currentMonth)
    ensures trend[5] == TrendEntryFor(db, userId, currentMonth)
  {
    var months := TrendMonths(currentMonth);
    ghost var spec := TrendFor(db, userId, currentMonth);
    trend := [];
    var j := 0;
    while j < 6
      invariant 0 <= j <= 6 && trend == spec[..j]
    {
      var entry := TrendEntryFor(db, userId, months[j]);
      assert entry == spec[j];
      PrefixExtend(spec, j);
      trend := trend + [entry];
      j := j + 1;
    }
    assert spec[..j] == spec;
    AddMonthsZero(currentMonth);
  }

  // ---------------------------------------------------------------------
  // Chart data

  predicate IsLower(c: char) { 'a' <= c <= 'z' }

  /** `category.charAt(0).toUpperCase() + category.slice(1)`, on ASCII letters. */
  function Capitalize(s: string): (r: string)
    ensures |r| == |s|
    ensures |s| > 0 ==> r[1..] == s[1..] && r[0] == (if IsLower(s[0]) then (s[0] as int - 32) as char else s[0])
  {
    if s == [] then []
    else [if IsLower(s[0]) then (s[0] as int - 32) as char else s[0]] + s[1..]
  }

  /** `((amount / totalExpenses) * 100).toFixed(1)` */
  function PercentOf(amount: int, totalExpenses: int): (r: JsNumber)
    ensures totalExpenses != 0 ==>
      r.Finite? && -0.05 <= r.value - amount as real / totalExpenses as real * 100.0 <= 0.05
  {
    match Scale(Divide(amount as real, totalExpenses as real), 100.0)
    case Finite(v) => Finite(RoundToTenth(v))
    case n => n
  }

  datatype ChartEntry = ChartEntry(category: string, amount: int, percentage: JsNumber)

  predicate SortedDesc(s: seq<ChartEntry>) {
    forall i, j :: 0 <= i < j < |s| ==> s[i].amount >= s[j].amount
  }

  /** Inserts `x` after every entry of at least its amount, so equal amounts keep their order. */
  function InsertDesc(x: ChartEntry, s: seq<ChartEntry>): (r: seq<ChartEntry>)
    ensures multiset(r) == multiset(s) + multiset{x}
    decreases |s|
  {
    if s == [] then [x]
    else
      assert s == [s[0]] + s[1..];
      if s[0].amount >= x.amount then [s[0]] + InsertDesc(x, s[1..]) else [x] + s
  }

  lemma {:induction false} InsertDescSorted(x: ChartEntry, s: seq<ChartEntry>)
    requires SortedDesc(s)
    ensures SortedDesc(InsertDesc(x, s))
    decreases |s|
  {
    if s == [] {
      assert InsertDesc(x, s) == [x];
    } else if s[0].amount >= x.amount {
      assert s == [s[0]] + s[1..];
      var rest := InsertDesc(x, s[1..]);
      InsertDescSorted(x, s[1..]);
      forall e | e in rest
        ensures s[0].amount >= e.amount
      {
        assert e in multiset(rest);
        if e != x {
          assert e in multiset(s[1..]);
        }
      }
      ConsSortedDesc(s[0], rest);
    } else {
      forall e | e in s
        ensures x.amount >= e.amount
      {
        var j :| 0 <= j < |s| && s[j] == e;
      }
      ConsSortedDesc(x, s);
    }
  }

  /** An entry of at least every amount of a descending list can go in front of it. */
  lemma ConsSortedDesc(h: ChartEntry, rest: seq<ChartEntry>)
    requires SortedDesc(rest)
    requires forall e :: e in rest ==> h.amount >= e.amount
    ensures SortedDesc([h] + rest)
  {
    var r := [h] + rest;
    forall i, j | 0 <= i < j < |r|
      ensures r[i].amount >= r[j].amount
    {
      assert r[j] == rest[j - 1] && r[j] in rest;
      if i > 0 {
        assert r[i] == rest[i - 1];
      }
    }
  }

  /** The entries of amount `k`, in their order in `s`. */
  function WithAmount(s: seq<ChartEntry>, k: int): seq<ChartEntry>
    decreases |s|
  {
    if s == [] then [] else (if s[0].amount == k then [s[0]] else []) + WithAmount(s[1..], k)
  }

  lemma {:induction false} WithAmountAppend(a: seq<ChartEntry>, b: seq<ChartEntry>)
    ensures forall k :: WithAmount(a + b, k) == WithAmount(a, k) + WithAmount(b, k)
    decreases |a|
  {
    if a != [] {
      assert (a + b)[0] == a[0];
      assert (a + b)[1..] == a[1..] + b;
      WithAmountAppend(a[1..], b);
    } else {
      assert a + b == b;
    }
  }

  lemma {:induction false} WithAmountNone(s: seq<ChartEntry>, k: int)
    requires forall i :: 0 <= i < |s| ==> s[i].amount < k
    ensures WithAmount(s, k) == []
    decreases |s|
  {
    if s != [] {
      WithAmountNone(s[1..], k);
    }
  }

  /** Inserting `x` puts it after every entry of its own amount. */
  lemma {:induction false} InsertDescStable(x: ChartEntry, s: seq<ChartEntry>, k: int)
    requires SortedDesc(s)
    ensures WithAmount(InsertDesc(x, s), k) == WithAmount(s, k) + (if x.amount == k then [x] else [])
    decreases |s|
  {
    if s == [] {
      assert InsertDesc(x, s) == [x];
      assert [x][1..] == [];
    } else if s[0].amount >= x.amount {
      SortedDescTail(s);
      InsertDescStable(x, s[1..], k);
      InsertBehind(x, s, k);
    } else {
      InsertInFront(x, s, k);
    }
  }

  lemma SortedDescTail(s: seq<ChartEntry>)
    requires SortedDesc(s) && s != []
    ensures SortedDesc(s[1..])
  {
    var t := s[1..];
    forall i, j | 0 <= i < j < |t|
      ensures t[i].amount >= t[j].amount
    {
      assert t[i] == s[i + 1] && t[j] == s[j + 1];
    }
  }

  lemma WithAmountCons(e: ChartEntry, t: seq<ChartEntry>, k: int)
    ensures WithAmount([e] + t, k) == (if e.amount == k then [e] else []) + WithAmount(t, k)
  {
    assert ([e] + t)[0] == e && ([e] + t)[1..] == t;
  }

  /** `x` goes behind the head: the head's entry, then the insertion into the rest. */
  lemma InsertBehind(x: ChartEntry, s: seq<ChartEntry>, k: int)
    requires s != [] && s[0].amount >= x.amount
    requires WithAmount(InsertDesc(x, s[1..]), k) == WithAmount(s[1..], k) + (if x.amount == k then [x] else [])
    ensures WithAmount(InsertDesc(x, s), k) == WithAmount(s, k) + (if x.amount == k then [x] else [])
  {
    var rest := InsertDesc(x, s[1..]);
    var head := if s[0].amount == k then [s[0]] else [];
    var tail := if x.amount == k then [x] else [];
    assert InsertDesc(x, s) == [s[0]] + rest;
    WithAmountCons(s[0], rest, k);
    assert s == [s[0]] + s[1..];
    WithAmountCons(s[0], s[1..], k);
    ConcatAssoc(head, WithAmount(s[1..], k), tail);
  }

  lemma ConcatAssoc<T>(a: seq<T>, b: seq<T>, c: seq<T>)
    ensures a + (b + c) == (a + b) + c
  {
  }

  /** `x` goes in front of a list of smaller amounts, none of which is `x`'s. */
  lemma InsertInFront(x: ChartEntry, s: seq<ChartEntry>, k: int)
    requires SortedDesc(s) && s != [] && s[0].amount < x.amount
    ensures WithAmount(InsertDesc(x, s), k) == WithAmount(s, k) + (if x.amount == k then [x] else [])
  {
    assert InsertDesc(x, s) == [x] + s;
    assert ([x] + s)[1..] == s;
    if x.amount == k {
      forall i | 0 <= i < |s|
        ensures s[i].amount < k
      {
        assert s[0].amount >= s[i].amount;
      }
      WithAmountNone(s, k);
    }
  }

  /** One step of the insertion sort keeps the order within every amount. */
  lemma SortDescStep(init: seq<ChartEntry>, last: ChartEntry, sorted: seq<ChartEntry>)
    requires SortedDesc(sorted)
    requires forall k :: WithAmount(sorted, k) == WithAmount(init, k)
    ensures forall k :: WithAmount(InsertDesc(last, sorted), k) == WithAmount(init + [last], k)
  {
    WithAmountAppend(init, [last]);
    assert [last][1..] == [];
    forall k
      ensures WithAmount(InsertDesc(last, sorted), k) == WithAmount(init + [last], k)
    {
      InsertDescStable(last, sorted, k);
      assert WithAmount([last], k) == (if last.amount == k then [last] else []) + WithAmount([last][1..], k);
    }
  }

  /**
   * The stable sort by amount, descending, of `Array.prototype.sort`: a
   * descending permutation in which the entries of each amount keep the
   * order they had.
   */
  function SortDesc(s: seq<ChartEntry>): (r: seq<ChartEntry>)
    ensures multiset(r) == multiset(s) && SortedDesc(r)
    ensures forall k :: WithAmount(r, k) == WithAmount(s, k)
    decreases |s|
  {
    if s == [] then []
    else
      assert s == s[..|s| - 1] + [s[|s| - 1]];
      var sorted := SortDesc(s[..|s| - 1]);
      InsertDescSorted(s[|s| - 1], sorted);
      SortDescStep(s[..|s| - 1], s[|s| - 1], sorted);
      InsertDesc(s[|s| - 1], sorted)
  }

  function CategoryEntries(m: seq<CategoryTotal>, totalExpenses: int): (r: seq<ChartEntry>)
    ensures |r| == |m|
    ensures forall i :: 0 <= i < |m| ==>
      r[i] == ChartEntry(Capitalize(m[i].category), m[i].amount, PercentOf(m[i].amount, totalExpenses))
    decreases |m|
  {
    if m == [] then []
    else
      var head := ChartEntry(Capitalize(m[0].category), m[0].amount, PercentOf(m[0].amount, totalExpenses));
      [head] + CategoryEntries(m[1..], totalExpenses)
  }

  datatype TrendPoint = TrendPoint(month: int, income: int, expenses: int, savings: int)

  datatype Summary = Summary(totalIncome: int, totalExpenses: int, netIncome: int, savingsRate: real)

  datatype ChartData = ChartData(categoryData: seq<ChartEntry>, trendChartData: seq<TrendPoint>, summaryData: Summary)

  function TrendPoints(trend: seq<TrendEntry>): (r: seq<TrendPoint>)
    ensures |r| == |trend|
    ensures forall i :: 0 <= i < |trend| ==>
      r[i] == TrendPoint(trend[i].month, trend[i].income, trend[i].expenses, trend[i].savings)
    decreases |trend|
  {
    if trend == [] then []
    else [TrendPoint(trend[0].month, trend[0].income, trend[0].expenses, trend[0].savings)] + TrendPoints(trend[1..])
  }

  /** `generateChartData(stats, trendData)` */
  function ChartDataFor(stats: MonthlyStats, trend: seq<TrendEntry>): ChartData {
    ChartData(
      SortDesc(CategoryEntries(stats.byCategory, stats.totalExpenses)),
      TrendPoints(trend),
      Summary(stats.totalIncome, stats.totalExpenses, stats.netIncome, stats.savingsRate))
  }

  /**
   * The category chart has one entry per entry of the map, largest amount
   * first, each carrying the amount of a map entry; with a non-zero expense
   * total every percentage is a number.
   */
  lemma {:induction false} ChartCategories(m: seq<CategoryTotal>, totalExpenses: int)
    ensures var c := SortDesc(CategoryEntries(m, totalExpenses));
      |c| == |m| && SortedDesc(c) &&
      multiset(c) == multiset(CategoryEntries(m, totalExpenses)) &&
      (forall i :: 0 <= i < |c| ==> exists j :: 0 <= j < |m| && c[i].amount == m[j].amount) &&
      (totalExpenses != 0 ==> forall i :: 0 <= i < |c| ==> c[i].percentage.Finite?)
  {
    var entries := CategoryEntries(m, totalExpenses);
    var c := SortDesc(entries);
    assert |c| == |multiset(c)| == |multiset(entries)| == |entries|;
    forall i | 0 <= i < |c|
      ensures exists j :: 0 <= j < |m| && c[i].amount == m[j].amount
      ensures totalExpenses != 0 ==> c[i].percentage.Finite?
    {
      assert c[i] in multiset(entries);
      var j :| 0 <= j < |entries| && entries[j] == c[i];
    }
  }

  /** For a month's statistics the chart lists exactly `categoryCount` categories. */
  lemma ChartMatchesStats(rows: seq<Transaction>, trend: seq<TrendEntry>)
    ensures |ChartDataFor(StatsOf(rows), trend).categoryData| == StatsOf(rows).categoryCount
    ensures |ChartDataFor(StatsOf(rows), trend).trendChartData| == |trend|
  {
    var s := StatsOf(rows);
    ChartCategories(s.byCategory, s.totalExpenses);
  }

  // ---------------------------------------------------------------------
  // Insights and the report

  /** The four insights used when the model call or its parsing fails. */
  const FallbackInsights: seq<string> := [
    "\U{1F4A1} Your highest expense category this month might need attention.",
    "\U{1F3AF} Consider setting up automatic savings to reach your financial goals.",
    "\U{1F50D} Track your recurring expenses to identify potential savings opportunities.",
    "\U{1F4CA} Monitor your spending patterns to make informed financial decisions."
  ]

  /** `generateFinancialInsights`: the parsed reply of the model, or the fallback list. */
  function Insights(parsedReply: Option<seq<string>>): (r: seq<string>)
    ensures parsedReply.None? ==> |r| == 4 && r == FallbackInsights
    ensures parsedReply.Some? ==> r == parsedReply.value
  {
    parsedReply.GetOr(FallbackInsights)
  }

  datatype ReportData = ReportData(
    stats: MonthlyStats, year: int, month: int, insights: seq<string>,
    comparison: Comparison, trend: seq<TrendEntry>, chart: ChartData)

  datatype ReportEmail = ReportEmail(to: string, userName: string, data: ReportData)

  /** The month a report covers: `setMonth(getMonth() - 1)` on the current date. */
  function ReportMonth(now: Date): (r: Date)
    requires Valid(now)
    ensures Valid(r)
  {
    AddMonths(now, -1)
  }

  /** Run on the first of a month, as scheduled, the report covers the previous month. */
  lemma ReportMonthIsPrevious(now: Date)
    requires Valid(now) && now.day == 1
    ensures MonthNumber(ReportMonth(now)) == MonthNumber(now) - 1 && ReportMonth(now).day == 1
  {
    var m := now.month - 1;
    assert DaysInMonth(now.year + m / 12, m % 12) >= 1;
  }

  /** The email `generate-report-<id>` sends to user row `u`. */
  function ReportFor(db: Db, u: nat, now: Date, parsedReply: Option<seq<string>>): ReportEmail
    requires u < |db.users| && Valid(now)
  {
    var user := db.users[u];
    var month := ReportMonth(now);
    var stats := MonthlyStatsFor(db, user.id, month);
    var trend := TrendFor(db, user.id, month);
    ReportEmail(user.email, user.name, ReportData(
      stats, month.year, month.month, Insights(parsedReply),
      ComparisonFor(db, user.id, month), trend, ChartDataFor(stats, trend)))
  }

  /** The `generate-report-<id>` step for user row `u`. */
  method GenerateReport(db: Db, u: nat, now: Date, parsedReply: Option<seq<string>>) returns (email: ReportEmail)
    requires u < |db.users| && Valid(now)
    ensures email == ReportFor(db, u, now, parsedReply)
  {
    var user := db.users[u];
    var month := ReportMonth(now);
    var stats := ComputeMonthlyStats(MonthRows(db.transactions, user.id, month.year, month.month));
    var trend := TrendData(db, user.id, month);
    var data := ReportData(
      stats, month.year, month.month, Insights(parsedReply),
      ComparisonFor(db, user.id, month), trend, ChartDataFor(stats, trend));
    email := ReportEmail(user.email, user.name, data);
  }

  /** The report of every user, in table order. */
  function ReportsFor(db: Db, now: Date, parsedReplies: seq<Option<seq<string>>>): (r: seq<ReportEmail>)
    requires Valid(now) && |parsedReplies| == |db.users|
    ensures |r| == |db.users|
  {
    seq(|db.users|, u requires 0 <= u < |db.users| => ReportFor(db, u, now, parsedReplies[u]))
  }

  /** Taking one more element of a sequence appends it. */
  lemma PrefixExtend<T>(s: seq<T>, n: nat)
    requires n < |s|
    ensures s[..n] + [s[n]] == s[..n + 1]
  {
  }

  /**
   * `generateMonthlyReports`: one report per user, in table order. The
   * model's replies are given per user; the emails are returned instead of sent.
   */
  method GenerateMonthlyReports(db: Db, now: Date, parsedReplies: seq<Option<seq<string>>>)
    returns (emails: seq<ReportEmail>, processed: nat)
    requires Valid(now) && |parsedReplies| == |db.users|
    ensures processed == |db.users|
    ensures emails == ReportsFor(db, now, parsedReplies)
  {
    ghost var spec := ReportsFor(db, now, parsedReplies);
    emails := [];
    var u := 0;
    while u < |db.users|
      invariant 0 <= u <= |db.users| && emails == spec[..u]
    {
      var email := GenerateReport(db, u, now, parsedReplies[u]);
      assert email == spec[u];
      PrefixExtend(spec, u);
      emails := emails + [email];
      u := u + 1;
    }
    assert spec[..u] == spec;
    processed := |db.users|;
  }
}
