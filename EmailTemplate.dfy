/**
 * The arithmetic of the email template (`emails/template.jsx`): the
 * defensive reading of a budget alert's numbers, the colour bands of the
 * alert and of the savings rate, the financial health score, the average
 * per transaction, and which of the two emails, if any, is rendered.
 * Markup, styles and the SVG charts are not modelled.
 */
module EmailTemplate {
  import opened Wrappers
  import opened JsNumbers
  import BudgetMonitor
  import Ledger
  import Dates

  datatype Tone = Green | Amber | Red

  datatype EmailKind = MonthlyReportEmail | BudgetAlertEmail

  /** The `type` prop, "monthly-report" when absent; any other value renders nothing. */
  function RenderedKind(emailType: Option<string>): (r: Option<EmailKind>)
    ensures emailType.None? ==> r == Some(MonthlyReportEmail)
    ensures r.None? <==> emailType.Some? && emailType.value != "monthly-report" && emailType.value != "budget-alert"
  {
    var t := emailType.GetOr("monthly-report");
    if t == "monthly-report" then Some(MonthlyReportEmail)
    else if t == "budget-alert" then Some(BudgetAlertEmail)
    else None
  }

  // ---------------------------------------------------------------------
  // Budget alert

  /** The percentage text: "N/A", or the number to one decimal. */
  datatype PercentText = NotAvailable | Shown(n: JsNumber)

  /**
   * `typeof data.percentageUsed === "number" ? toFixed(1) : "N/A"`; `None`
   * is any value that is not a number.
   */
  function PercentageText(percentageUsed: Option<JsNumber>): (r: PercentText)
    ensures percentageUsed.None? <==> r == NotAvailable
    ensures percentageUsed.Some? && percentageUsed.value.Finite? ==>
      r.Shown? && r.n.Finite? && -0.05 <= r.n.value - percentageUsed.value.value <= 0.05
  {
    match percentageUsed
    case None => NotAvailable
    case Some(Finite(v)) => Shown(Finite(RoundToTenth(v)))
    case Some(n) => Shown(n)
  }

  /** `parseFloat` of the percentage text: "N/A" reads as NaN. */
  function PercentValue(text: PercentText): JsNumber {
    match text
    case NotAvailable => NaN
    case Shown(n) => n
  }

  /** The progress bar's colour: red from 90, amber from 80, green below or when not a number. */
  function BarTone(text: PercentText): (r: Tone)
    ensures r == Red <==> AtLeast(PercentValue(text), 90.0)
    ensures r == Amber <==> !AtLeast(PercentValue(text), 90.0) && AtLeast(PercentValue(text), 80.0)
  {
    var p := PercentValue(text);
    if AtLeast(p, 90.0) then Red else if AtLeast(p, 80.0) then Amber else Green
  }

  /** The alert message: critical from 90, the warning otherwise (including "N/A"). */
  function IsCritical(text: PercentText): bool {
    AtLeast(PercentValue(text), 90.0)
  }

  /** `Number(x) || 0`; `None` is a value that converts to NaN. */
  function NumberOrZero(x: Option<real>): (r: real)
    ensures x.Some? ==> r == x.value
    ensures x.None? ==> r == 0.0
  {
    x.GetOr(0.0)
  }

  /** The figures of the alert: budget, spent, and the remaining amount to one decimal. */
  datatype AlertFigures = AlertFigures(budget: real, spent: real, remaining: real, remainingTone: Tone)

  function AlertFiguresOf(budgetAmount: Option<real>, totalExpenses: Option<real>): (r: AlertFigures)
    ensures r.budget == NumberOrZero(budgetAmount) && r.spent == NumberOrZero(totalExpenses)
    ensures -0.05 <= r.remaining - (r.budget - r.spent) <= 0.05
    ensures r.remainingTone == Green <==> r.remaining > 0.0
    ensures r.remainingTone == Green || r.remainingTone == Red
  {
    var budget := NumberOrZero(budgetAmount);
    var spent := NumberOrZero(totalExpenses);
    var remaining := RoundToTenth(budget - spent);
    AlertFigures(budget, spent, remaining, if remaining > 0.0 then Green else Red)
  }

  /**
   * A percentage that is rounded to the band: critical exactly from 89.95,
   * amber exactly from 79.95, since the bands compare the one-decimal text.
   */
  lemma BandsUseRoundedPercentage(v: real)
    ensures IsCritical(PercentageText(Some(Finite(v)))) <==> v >= 89.95
    ensures BarTone(PercentageText(Some(Finite(v)))) != Green <==> v >= 79.95
  {
    RoundToTenthAtLeast(v, 900);
    RoundToTenthAtLeast(v, 800);
  }

  /** A missing percentage shows "N/A" with a green bar but still the warning message. */
  lemma NotANumberPercentage()
    ensures PercentageText(None) == NotAvailable
    ensures BarTone(NotAvailable) == Green && !IsCritical(NotAvailable)
  {
  }

  /**
   * An alert from the budget monitor always shows a number, never "N/A";
   * for a zero budget that number is Infinity, shown with a red bar.
   */
  lemma MonitorAlertsShowANumber(db: Ledger.Db, b: nat, now: Dates.Date)
    requires b < |db.budgets| && Dates.Valid(now)
    requires BudgetMonitor.CheckBudget(db, b, now).1.Some?
    ensures var e := BudgetMonitor.CheckBudget(db, b, now).1.value;
      PercentageText(Some(e.percentageUsed)).Shown? &&
      (db.budgets[b].amount == 0 ==>
        e.percentageUsed == PosInfinity && BarTone(PercentageText(Some(e.percentageUsed))) == Red)
  {
    BudgetMonitor.AlertContents(db, b, now);
  }

  // ---------------------------------------------------------------------
  // Monthly report

  /** The savings-rate band: green "Excellent" from 20, amber "Good progress" from 10, red below. */
  function SavingsTone(savingsRate: real): (r: Tone)
    ensures r == Green <==> savingsRate >= 20.0
    ensures r == Amber <==> 10.0 <= savingsRate < 20.0
    ensures r == Red <==> savingsRate < 10.0
  {
    if savingsRate >= 20.0 then Green else if savingsRate >= 10.0 then Amber else Red
  }

  function SavingsMessage(savingsRate: real): string {
    match SavingsTone(savingsRate)
    case Green => "\U{1F389} Excellent!"
    case Amber => "\U{1F44D} Good progress"
    case Red => "\U{1F4C8} Room for improvement"
  }

  /** Up to 40 points for a savings rate of up to 30%. */
  function SavingsScore(savingsRate: real): (r: real)
    ensures savingsRate >= 0.0 ==> 0.0 <= r <= 40.0
    ensures savingsRate >= 30.0 ==> r == 40.0
  {
    (if savingsRate < 30.0 then savingsRate else 30.0) / 30.0 * 40.0
  }

  /** 30 points when expenses are at most 70% of income, 20 up to 80%, else 10. */
  function ExpenseScore(totalExpenses: real, totalIncome: real): (r: real)
    ensures r == 30.0 <==> totalExpenses <= totalIncome * 0.7
    ensures r == 20.0 <==> totalIncome * 0.7 < totalExpenses <= totalIncome * 0.8
    ensures r == 10.0 <==> totalExpenses > totalIncome * 0.8 && totalExpenses > totalIncome * 0.7
  {
    if totalExpenses <= totalIncome * 0.7 then 30.0
    else if totalExpenses <= totalIncome * 0.8 then 20.0
    else 10.0
  }

  /** Up to 30 points for using up to eight categories. */
  function DiversityScore(categoryCount: nat): (r: real)
    ensures 0.0 <= r <= 30.0
    ensures categoryCount >= 8 ==> r == 30.0
  {
    (if categoryCount < 8 then categoryCount as real else 8.0) / 8.0 * 30.0
  }

  /** The rounded sum of the three parts. */
  function HealthScore(savingsRate: real, totalExpenses: real, totalIncome: real, categoryCount: nat): int {
    MathRound(SavingsScore(savingsRate) + ExpenseScore(totalExpenses, totalIncome) + DiversityScore(categoryCount))
  }

  /** For a rate that is not negative, the score lies between 10 and 100. */
  lemma HealthScoreRange(savingsRate: real, totalExpenses: real, totalIncome: real, categoryCount: nat)
    requires savingsRate >= 0.0
    ensures 10 <= HealthScore(savingsRate, totalExpenses, totalIncome, categoryCount) <= 100
  {
    var sum := SavingsScore(savingsRate) + ExpenseScore(totalExpenses, totalIncome) + DiversityScore(categoryCount);
    assert 10.0 <= sum <= 100.0;
    var r := MathRound(sum);
    assert r as real - 0.5 <= sum < r as real + 0.5;
  }

  /** The best month scores 100. */
  lemma FullScore(totalIncome: real)
    requires totalIncome >= 0.0
    ensures HealthScore(30.0, 0.0, totalIncome, 8) == 100
  {
  }

  /** A month that spends more than it earns has a negative rate, which can take the score below 10. */
  lemma NegativeRateScoresBelowTen()
    ensures HealthScore(-100.0, 200.0, 100.0, 0) < 10
  {
  }

  /** "Avg per Transaction": expenses over the count, to whole units, or 0 without transactions. */
  function AveragePerTransaction(totalExpenses: real, transactionCount: nat): (r: int)
    ensures transactionCount == 0 ==> r == 0
    ensures transactionCount > 0 ==> -0.5 <= r as real - totalExpenses / transactionCount as real <= 0.5
  {
    if transactionCount > 0 then RoundToWhole(totalExpenses / transactionCount as real) else 0
  }

  /** The legend colours of the categories listed. */
  const LegendColors: seq<string> := ["#3B82F6", "#10B981", "#F59E0B", "#EF4444", "#8B5CF6", "#06B6D4"]

  /** `categoryData.slice(0, 6)`: the first six entries at most, in order, each with a legend colour. */
  function ListedCategories<T>(categoryData: seq<T>): (r: seq<(T, string)>)
    ensures |r| <= 6 && |r| <= |categoryData|
    ensures |categoryData| >= 6 ==> |r| == 6
    ensures |categoryData| < 6 ==> |r| == |categoryData|
    ensures forall i :: 0 <= i < |r| ==> r[i] == (categoryData[i], LegendColors[i])
  {
    var n := if |categoryData| < 6 then |categoryData| else 6;
    seq(n, i requires 0 <= i < n => (categoryData[i], LegendColors[i]))
  }
}
