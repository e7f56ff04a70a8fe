/**
 * The account form's validator (`app/lib/schema.js`): a non-empty name, one
 * of four account types, a balance written as digits with at most two
 * decimals, and an `isDefault` flag that defaults to false. As in Zod, every
 * field is checked and every failed check is reported.
 */
module AccountSchema {
  import opened Wrappers

  const NameRequired: string := "Name is required"
  const BalanceRequired: string := "Balance is required"
  const BalanceFormat: string := "Balance must be a valid number with up to two decimal places"

  /**
   * One reported problem, at the field named by `path`. Zod's own wording
   * for a missing field and a bad enum value is not modelled, only its kind.
   */
  datatype Issue =
    | Missing(path: string)
    | TooShort(path: string, message: string)
    | NoMatch(path: string, message: string)
    | NotInEnum(path: string, received: string)

  datatype AccountType = Current | Savings | Credit | Loan

  /** The raw form values; `None` is an absent key. */
  datatype AccountForm = AccountForm(
    name: Option<string>, accountType: Option<string>, balance: Option<string>, isDefault: Option<bool>)

  datatype ParsedAccount = ParsedAccount(name: string, accountType: AccountType, balance: string, isDefault: bool)

  /** What `safeParse` gives: the parsed values, or the issues. */
  datatype ParseResult = Accepted(account: ParsedAccount) | Rejected(issues: seq<Issue>)

  // ---------------------------------------------------------------------
  // The balance pattern ^\d+(\.\d{1,2})?$

  predicate IsDigit(c: char) {
    '0' <= c <= '9'
  }

  predicate AllDigits(s: string) {
    forall i :: 0 <= i < |s| ==> IsDigit(s[i])
  }

  /** How many digits `s` starts with. */
  function LeadingDigits(s: string): (n: nat)
    ensures n <= |s|
    ensures AllDigits(s[..n])
    ensures n < |s| ==> !IsDigit(s[n])
    decreases |s|
  {
    if s == [] || !IsDigit(s[0]) then 0
    else
      var rest := LeadingDigits(s[1..]);
      assert s[..1 + rest] == [s[0]] + s[1..][..rest];
      1 + rest
  }

  /**
   * The matcher: read the integer digits, then either stop at the end or
   * find a '.' followed by one or two digits and the end.
   */
  predicate MatchesBalance(s: string) {
    var n := LeadingDigits(s);
    n >= 1 &&
    (n == |s| || (s[n] == '.' && 2 <= |s| - n <= 3 && AllDigits(s[n + 1..])))
  }

  /**
   * The pattern as a set of strings: a non-empty run of digits, optionally
   * followed by '.' and a run of one or two digits.
   */
  predicate BalanceShape(s: string) {
    (|s| >= 1 && AllDigits(s)) ||
    exists k :: 1 <= k < |s| && s[k] == '.' && AllDigits(s[..k]) && AllDigits(s[k + 1..]) && 1 <= |s| - k - 1 <= 2
  }

  /** The matcher accepts exactly the strings of the pattern. */
  lemma MatcherIsPattern(s: string)
    ensures MatchesBalance(s) <==> BalanceShape(s)
  {
    if MatchesBalance(s) {
      MatchIsShape(s);
    }
    if BalanceShape(s) {
      ShapeIsMatch(s);
    }
  }

  lemma MatchIsShape(s: string)
    requires MatchesBalance(s)
    ensures BalanceShape(s)
  {
    var n := LeadingDigits(s);
    if n == |s| {
      assert s[..n] == s;
    } else {
      assert 1 <= n < |s| && s[n] == '.' && AllDigits(s[..n]) && AllDigits(s[n + 1..]) && 1 <= |s| - n - 1 <= 2;
    }
  }

  lemma ShapeIsMatch(s: string)
    requires BalanceShape(s)
    ensures MatchesBalance(s)
  {
    var n := LeadingDigits(s);
    if |s| >= 1 && AllDigits(s) {
      assert n == |s|;
    } else {
      var k :| 1 <= k < |s| && s[k] == '.' && AllDigits(s[..k]) && AllDigits(s[k + 1..]) && 1 <= |s| - k - 1 <= 2;
      assert forall i :: 0 <= i < k ==> s[..k][i] == s[i];
      assert forall i :: 0 <= i < n ==> s[..n][i] == s[i];
      assert n == k;
    }
  }

  /** Every balance the pattern accepts is non-empty, so `min(1)` never fails alongside a match. */
  lemma MatchIsNonEmpty(s: string)
    requires MatchesBalance(s)
    ensures |s| >= 1
  {
  }

  lemma BalanceExamples()
    ensures MatchesBalance("0") && MatchesBalance("12.5") && MatchesBalance("12.50")
    ensures !MatchesBalance("-1") && !MatchesBalance(".5") && !MatchesBalance("5.")
    ensures !MatchesBalance("5.123") && !MatchesBalance("")
  {
    assert LeadingDigits("0") == 1 by {
      assert LeadingDigits("0"[1..]) == 0;
    }
    assert LeadingDigits("12.5") == 2 by {
      assert "12.5"[1..] == "2.5" && "2.5"[1..] == ".5";
    }
    assert "12.5"[3..] == "5";
    assert LeadingDigits("12.50") == 2 by {
      assert "12.50"[1..] == "2.50" && "2.50"[1..] == ".50";
    }
    assert "12.50"[3..] == "50";
    assert LeadingDigits("5.") == 1 by {
      assert "5."[1..] == ".";
    }
    assert LeadingDigits("5.123") == 1 by {
      assert "5.123"[1..] == ".123";
    }
  }

  // ---------------------------------------------------------------------
  // The object schema

  function TypeOf(code: string): (r: Option<AccountType>)
    ensures r.Some? <==> code in {"CURRENT", "SAVINGS", "CREDIT", "LOAN"}
  {
    if code == "CURRENT" then Some(Current)
    else if code == "SAVINGS" then Some(Savings)
    else if code == "CREDIT" then Some(Credit)
    else if code == "LOAN" then Some(Loan)
    else None
  }

  function NameIssues(name: Option<string>): seq<Issue> {
    if name.None? then [Missing("name")]
    else if |name.value| < 1 then [TooShort("name", NameRequired)]
    else []
  }

  function TypeIssues(code: Option<string>): seq<Issue> {
    if code.None? then [Missing("type")]
    else if TypeOf(code.value).None? then [NotInEnum("type", code.value)]
    else []
  }

  /** Both string checks run, so an empty balance gets both messages. */
  function BalanceIssues(balance: Option<string>): seq<Issue> {
    if balance.None? then [Missing("balance")]
    else
      (if |balance.value| < 1 then [TooShort("balance", BalanceRequired)] else []) +
      (if !MatchesBalance(balance.value) then [NoMatch("balance", BalanceFormat)] else [])
  }

  /** `accountSchema.safeParse(form)`: the parsed account, or every issue in field order. */
  function ParseAccount(form: AccountForm): (r: ParseResult)
    ensures r.Rejected? ==>
      r.issues != [] && r.issues == NameIssues(form.name) + TypeIssues(form.accountType) + BalanceIssues(form.balance)
    ensures r.Accepted? <==>
      form.name.Some? && |form.name.value| >= 1 &&
      form.accountType.Some? && form.accountType.value in {"CURRENT", "SAVINGS", "CREDIT", "LOAN"} &&
      form.balance.Some? && BalanceShape(form.balance.value)
    ensures r.Accepted? ==>
      r.account.name == form.name.value && r.account.balance == form.balance.value &&
      Some(r.account.accountType) == TypeOf(form.accountType.value) &&
      r.account.isDefault == form.isDefault.GetOr(false)
  {
    if form.balance.Some? then
      MatcherIsPattern(form.balance.value);
      ParseWith(form)
    else ParseWith(form)
  }

  function ParseWith(form: AccountForm): ParseResult {
    var issues := NameIssues(form.name) + TypeIssues(form.accountType) + BalanceIssues(form.balance);
    if issues == [] then
      Accepted(ParsedAccount(form.name.value, TypeOf(form.accountType.value).value, form.balance.value,
                             form.isDefault.GetOr(false)))
    else Rejected(issues)
  }

  /** An empty balance is reported twice: as required and as not matching the pattern. */
  lemma EmptyBalanceIssues()
    ensures BalanceIssues(Some("")) == [TooShort("balance", BalanceRequired), NoMatch("balance", BalanceFormat)]
  {
  }

  /** `isDefault` is false when absent and kept when given. */
  lemma IsDefaultDefault(name: string, balance: string, b: bool)
    requires |name| >= 1 && MatchesBalance(balance)
    ensures ParseAccount(AccountForm(Some(name), Some("LOAN"), Some(balance), None)) ==
      Accepted(ParsedAccount(name, Loan, balance, false))
    ensures ParseAccount(AccountForm(Some(name), Some("SAVINGS"), Some(balance), Some(b))) ==
      Accepted(ParsedAccount(name, Savings, balance, b))
  {
    MatcherIsPattern(balance);
  }
}
