/**
 * The ledger edits of `actions/transaction.js`: creating and editing a
 * transaction (each one database transaction that writes the row and the
 * account balance), the next-date calculation that rejects unknown
 * intervals, the amount serialisation of the returned row, and the input
 * checks and result normalisation of the receipt scanner.
 */
module TransactionActions {
  import opened Wrappers
  import opened Dates
  import opened Ledger
  import RecurrenceEngine
  import opened ImageUtils
  import Categories

  const CreateFailed: string := "Transaction creation failed: "
  const UpdateFailed: string := "Transaction update failed: "
  const ScanFailed: string := "Receipt scanning failed: "

  /** What `tx.account.update` throws when the included account of the edited row is null. */
  const MissingIncludedAccount: string := "Cannot read properties of null (reading 'balance')"

  // ---------------------------------------------------------------------
  // serializeAmount

  /** A row as the client receives it: every column, with `amount` as a JavaScript number. */
  datatype SerializedTransaction = SerializedTransaction(
    id: Id, userId: Id, accountId: Id, txType: TxType, amount: real, date: Date,
    description: string, category: string,
    isRecurring: bool, recurringInterval: Option<string>,
    nextRecurringDate: Option<Date>, lastProcessed: Option<Date>,
    status: string)

  /** `serializeAmount(t)`: the Decimal amount (minor units) becomes a number of whole units. */
  function SerializeAmount(t: Transaction): (r: SerializedTransaction)
    ensures r.amount * 100.0 == t.amount as real
  {
    SerializedTransaction(
      t.id, t.userId, t.accountId, t.txType, t.amount as real / 100.0, t.date,
      t.description, t.category, t.isRecurring, t.recurringInterval,
      t.nextRecurringDate, t.lastProcessed, t.status)
  }

  /** The stored row a serialised row came from: minor units again. */
  function Deserialize(s: SerializedTransaction): Transaction {
    Transaction(
      s.id, s.userId, s.accountId, s.txType, (s.amount * 100.0).Floor, s.date,
      s.description, s.category, s.isRecurring, s.recurringInterval,
      s.nextRecurringDate, s.lastProcessed, s.status)
  }

  /** Serialisation loses nothing: every other column is kept and the amount converts back exactly. */
  lemma SerializeRoundTrip(t: Transaction)
    ensures Deserialize(SerializeAmount(t)) == t
  {
    var s := SerializeAmount(t);
    assert s.amount * 100.0 == t.amount as real;
    assert (s.amount * 100.0).Floor == t.amount;
  }

  // ---------------------------------------------------------------------
  // calculateNextRecurringDate

  /** `calculateNextRecurringDate(interval, date)`: the four steps, "Invalid interval" otherwise. */
  function NextRecurringDateStrict(interval: string, date: Date): (r: Result<Date>)
    requires Valid(date)
    ensures r.Ok? ==> Valid(r.value)
  {
    if interval == "DAILY" then Ok(AddDays(date, 1))
    else if interval == "WEEKLY" then Ok(AddDays(date, 7))
    else if interval == "MONTHLY" then Ok(AddMonths(date, 1))
    else if interval == "YEARLY" then Ok(AddYears(date, 1))
    else Err("Invalid interval")
  }

  /**
   * The two next-date functions agree on the four known intervals; on any
   * other this one fails where the engine's keeps the date.
   */
  lemma NextDatesAgree(interval: string, date: Date)
    requires Valid(date)
    ensures RecurrenceEngine.KnownInterval(Some(interval)) ==>
      NextRecurringDateStrict(interval, date) == Ok(RecurrenceEngine.NextRecurringDate(date, Some(interval)))
    ensures !RecurrenceEngine.KnownInterval(Some(interval)) <==>
      NextRecurringDateStrict(interval, date) == Err("Invalid interval")
  {
  }

  // ---------------------------------------------------------------------
  // Form input and its defaults

  /**
   * The client's `data`. Optional fields are `None` when absent; amounts are
   * minor units, like the stored column.
   */
  datatype TransactionInput = TransactionInput(
    txType: TxType, amount: int, date: Date, description: Option<string>, category: string,
    accountId: Id, isRecurring: Option<bool>, recurringInterval: Option<string>,
    status: Option<string>)

  /** `s || fallback` on an optional string: absent and "" are falsy. */
  function OrDefault(s: Option<string>, fallback: string): (r: string)
    ensures (s.None? || s.value == "") ==> r == fallback
    ensures (s.Some? && s.value != "") ==> r == s.value
  {
    if s.None? || s.value == "" then fallback else s.value
  }

  /** `s || null` */
  function OrNull(s: Option<string>): (r: Option<string>)
    ensures r.Some? <==> s.Some? && s.value != ""
    ensures r.Some? ==> r == s
  {
    if s.None? || s.value == "" then None else s
  }

  /**
   * The `nextRecurringDate` column: the next date when both `isRecurring` and
   * `recurringInterval` are truthy, else null; an unknown interval throws.
   */
  function NextDateFor(data: TransactionInput): (r: Result<Option<Date>>)
    requires Valid(data.date)
    ensures !(data.isRecurring.GetOr(false) && OrNull(data.recurringInterval).Some?) ==> r == Ok(None)
    ensures r.Ok? && r.value.Some? ==>
      data.isRecurring.GetOr(false) && OrNull(data.recurringInterval).Some? &&
      NextRecurringDateStrict(data.recurringInterval.value, data.date) == Ok(r.value.value)
    ensures r.Err? <==>
      data.isRecurring.GetOr(false) && OrNull(data.recurringInterval).Some? &&
      !RecurrenceEngine.KnownInterval(data.recurringInterval)
  {
    if data.isRecurring.GetOr(false) && OrNull(data.recurringInterval).Some? then
      match NextRecurringDateStrict(data.recurringInterval.value, data.date)
      case Err(m) => Err(m)
      case Ok(d) => Ok(Some(d))
    else Ok(None)
  }

  /** The row `tx.transaction.create` writes, before the database assigns its id. */
  function NewRow(userId: Id, accountId: Id, data: TransactionInput, next: Option<Date>): Transaction {
    Transaction(
      0, userId, accountId, data.txType, data.amount, data.date,
      OrDefault(data.description, ""), data.category,
      data.isRecurring.GetOr(false), OrNull(data.recurringInterval),
      next, None, OrDefault(data.status, RecurrenceEngine.DefaultStatus))
  }

  /** The fields `tx.transaction.update` writes over the edited row; `status` and `lastProcessed` stay. */
  function EditedRow(t: Transaction, accountId: Id, data: TransactionInput, next: Option<Date>): Transaction {
    t.(txType := data.txType, amount := data.amount, date := data.date,
       description := OrDefault(data.description, ""), category := data.category,
       accountId := accountId, isRecurring := data.isRecurring.GetOr(false),
       recurringInterval := OrNull(data.recurringInterval), nextRecurringDate := next)
  }

  // ---------------------------------------------------------------------
  // createTransaction

  /**
   * `createTransaction(data)`: resolve the signed-in user and their account,
   * then in one database transaction insert the row and write the account's
   * balance as the pre-read balance plus the signed amount. Every failure
   * leaves the database as it was and carries the "Transaction creation
   * failed: " prefix.
   */
  function CreateTransaction(db: Db, authUserId: Option<string>, data: TransactionInput): (r: (Db, Result<SerializedTransaction>))
    requires Valid(data.date)
    ensures r.1.Err? ==> r.0 == db && CreateFailed <= r.1.message
    ensures r.1.Ok? ==>
      |r.0.transactions| == |db.transactions| + 1 && r.0.users == db.users &&
      r.0.budgets == db.budgets && r.0.nextId == db.nextId + 1 && |r.0.accounts| == |db.accounts|
  {
    match SignedInUser(db.users, authUserId, "User not authenticated")
    case Err(m) => (db, Err(CreateFailed + m))
    case Ok(user) =>
      match FindOwnedAccount(db.accounts, data.accountId, user.id)
      case None => (db, Err(CreateFailed + "Account not found"))
      case Some(a) =>
        match NextDateFor(data)
        case Err(m) => (db, Err(CreateFailed + m))
        case Ok(next) =>
          var row := NewRow(user.id, db.accounts[a].id, data, next).(id := db.nextId);
          var acct := db.accounts[a];
          var newBalance := acct.balance + SignedAmount(data.txType, data.amount);
          (db.(transactions := db.transactions + [row],
               accounts := db.accounts[a := acct.(balance := newBalance)],
               nextId := db.nextId + 1),
           Ok(SerializeAmount(row)))
  }

  /** `createTransaction` against the store: the insert, then the absolute balance write. */
  method CreateTransactionAction(store: Store, authUserId: Option<string>, data: TransactionInput)
    returns (r: Result<SerializedTransaction>)
    requires Valid(data.date)
    modifies store
    ensures (store.Snapshot(), r) == CreateTransaction(old(store.Snapshot()), authUserId, data)
  {
    var user := SignedInUser(store.users, authUserId, "User not authenticated");
    if user.Err? {
      return Err(CreateFailed + user.message);
    }
    var a := FindOwnedAccount(store.accounts, data.accountId, user.value.id);
    if a.None? {
      return Err(CreateFailed + "Account not found");
    }
    var next := NextDateFor(data);
    if next.Err? {
      return Err(CreateFailed + next.message);
    }
    var acct := store.accounts[a.value];
    var newBalance := acct.balance + SignedAmount(data.txType, data.amount);
    var id := store.InsertTransaction(NewRow(user.value.id, acct.id, data, next.value));
    store.SetBalance(a.value, newBalance);
    r := Ok(SerializeAmount(store.transactions[|store.transactions| - 1]));
  }

  /**
   * The three checks, in order: a missing or empty auth id, a clerk id with
   * no user, and an account that is not the user's each fail with their own
   * message and write nothing.
   */
  lemma CreateChecks(db: Db, authUserId: Option<string>, data: TransactionInput)
    requires Valid(data.date)
    ensures authUserId.None? || authUserId.value == "" ==>
      CreateTransaction(db, authUserId, data) == (db, Err(CreateFailed + "User not authenticated"))
    ensures authUserId.Some? && authUserId.value != "" && FindUserByClerkId(db.users, authUserId.value).None? ==>
      CreateTransaction(db, authUserId, data) == (db, Err(CreateFailed + "User not found"))
    ensures var user := SignedInUser(db.users, authUserId, "User not authenticated");
      user.Ok? && FindOwnedAccount(db.accounts, data.accountId, user.value.id).None? ==>
      CreateTransaction(db, authUserId, data) == (db, Err(CreateFailed + "Account not found"))
  {
  }

  /**
   * A successful create appends exactly the row with its defaults filled in
   * (description "", isRecurring false, interval null, status "PENDING"),
   * and moves the user's account by the signed amount: down for an EXPENSE,
   * up otherwise; no other account changes.
   */
  lemma CreateEffects(db: Db, authUserId: Option<string>, data: TransactionInput)
    requires Valid(data.date)
    requires CreateTransaction(db, authUserId, data).1.Ok?
    ensures var r := CreateTransaction(db, authUserId, data).0;
      var user := SignedInUser(db.users, authUserId, "User not authenticated").value;
      var a := FindOwnedAccount(db.accounts, data.accountId, user.id).value;
      var row := r.transactions[|db.transactions|];
      r.transactions[..|db.transactions|] == db.transactions &&
      row.id == db.nextId && row.userId == user.id && row.accountId == data.accountId &&
      row.txType == data.txType && row.amount == data.amount && row.date == data.date &&
      row.description == OrDefault(data.description, "") &&
      row.isRecurring == data.isRecurring.GetOr(false) &&
      row.recurringInterval == OrNull(data.recurringInterval) &&
      row.status == OrDefault(data.status, "PENDING") && row.lastProcessed.None? &&
      (data.txType == Expense ==> r.accounts[a].balance == db.accounts[a].balance - data.amount) &&
      (data.txType == Income ==> r.accounts[a].balance == db.accounts[a].balance + data.amount) &&
      (forall j :: 0 <= j < |db.accounts| && j != a ==> r.accounts[j] == db.accounts[j])
  {
    var r := CreateTransaction(db, authUserId, data).0;
    assert r.transactions[..|db.transactions|] == db.transactions;
  }

  /**
   * An interval that is not one of the four, on a recurring row, throws
   * inside the database transaction: nothing is written.
   */
  lemma InvalidIntervalRollsBack(db: Db, authUserId: Option<string>, data: TransactionInput)
    requires Valid(data.date)
    requires SignedInUser(db.users, authUserId, "User not authenticated").Ok?
    requires FindOwnedAccount(db.accounts, data.accountId,
      SignedInUser(db.users, authUserId, "User not authenticated").value.id).Some?
    requires data.isRecurring == Some(true) && data.recurringInterval.Some? && data.recurringInterval.value != ""
    requires !RecurrenceEngine.KnownInterval(data.recurringInterval)
    ensures CreateTransaction(db, authUserId, data) == (db, Err(CreateFailed + "Invalid interval"))
  {
  }

  /**
   * A row created without a status is PENDING, so the recurring engine's
   * daily scan never picks it up, however recurring it is.
   */
  lemma DefaultStatusIsNeverScanned(db: Db, authUserId: Option<string>, data: TransactionInput, now: Date)
    requires Valid(data.date) && CreateTransaction(db, authUserId, data).1.Ok?
    requires data.status.None? || data.status.value == ""
    ensures var r := CreateTransaction(db, authUserId, data).0;
      !RecurrenceEngine.ScanMatches(r.transactions[|db.transactions|], now)
  {
  }

  /** Creating keeps every account's drift (balance minus booked effect) and the database's keys. */
  lemma {:induction false} CreateKeepsDrift(db: Db, authUserId: Option<string>, data: TransactionInput, i: nat)
    requires Valid(data.date) && ValidDb(db) && i < |db.accounts|
    ensures var r := CreateTransaction(db, authUserId, data).0;
      ValidDb(r) && i < |r.accounts| && Drift(r, i) == Drift(db, i)
  {
    var res := CreateTransaction(db, authUserId, data);
    if res.1.Ok? {
      var r := res.0;
      var user := SignedInUser(db.users, authUserId, "User not authenticated").value;
      var a := FindOwnedAccount(db.accounts, data.accountId, user.id).value;
      var row := r.transactions[|db.transactions|];
      var id := db.accounts[i].id;
      assert r.transactions == db.transactions + [row];
      NetEffectAppend(db.transactions, [row], id);
      assert NetEffect([row], id) == EffectOn(row, id) by {
        assert [row][1..] == [];
      }
      assert r.accounts[i].id == id;
      if i != a {
        assert id != db.accounts[a].id;
      }
      assert forall j :: 0 <= j < |r.accounts| ==> r.accounts[j].id == db.accounts[j].id;
      assert forall j :: 0 <= j < |r.transactions| ==>
        r.transactions[j].id == (if j < |db.transactions| then db.transactions[j].id else db.nextId);
    }
  }

  // ---------------------------------------------------------------------
  // updateTransaction

  /**
   * The writes of the edit's database transaction for edited row `k`, the
   * row's own account `o` and the chosen account `n`, as written: `o` is set
   * to its pre-read balance with the old effect reversed, then `n` is set to
   * ITS pre-read balance plus the new effect, so when `o == n` the second
   * write overwrites the first.
   */
  function EditAsWritten(db: Db, k: nat, o: nat, n: nat, data: TransactionInput, next: Option<Date>): (r: Db)
    requires k < |db.transactions| && o < |db.accounts| && n < |db.accounts|
    ensures |r.accounts| == |db.accounts| && |r.transactions| == |db.transactions|
  {
    var t := db.transactions[k];
    var oldAcct := db.accounts[o];
    var newAcct := db.accounts[n];
    var accounts1 := db.accounts[o := oldAcct.(balance := oldAcct.balance - SignedAmount(t.txType, t.amount))];
    var accounts2 := accounts1[n := newAcct.(balance := newAcct.balance + SignedAmount(data.txType, data.amount))];
    db.(accounts := accounts2, transactions := db.transactions[k := EditedRow(t, newAcct.id, data, next)])
  }

  /** The same writes with the second one reading the balance the first one left. */
  function EditCorrected(db: Db, k: nat, o: nat, n: nat, data: TransactionInput, next: Option<Date>): (r: Db)
    requires k < |db.transactions| && o < |db.accounts| && n < |db.accounts|
    ensures |r.accounts| == |db.accounts| && |r.transactions| == |db.transactions|
  {
    var t := db.transactions[k];
    var oldAcct := db.accounts[o];
    var accounts1 := db.accounts[o := oldAcct.(balance := oldAcct.balance - SignedAmount(t.txType, t.amount))];
    var newAcct := accounts1[n];
    var accounts2 := accounts1[n := newAcct.(balance := newAcct.balance + SignedAmount(data.txType, data.amount))];
    db.(accounts := accounts2, transactions := db.transactions[k := EditedRow(t, db.accounts[n].id, data, next)])
  }

  /**
   * `updateTransaction(id, data)`, with the database transaction's writes
   * given by `edit`: find the user, the user's row `id`, the chosen account
   * and the row's own account, compute the next date, then write. Every
   * failure leaves the database as it was and carries the "Transaction
   * update failed: " prefix.
   */
  function Update(db: Db, authUserId: Option<string>, id: Id, data: TransactionInput, corrected: bool)
    : (r: (Db, Result<SerializedTransaction>))
    requires Valid(data.date)
    ensures r.1.Err? ==> r.0 == db && UpdateFailed <= r.1.message
    ensures r.0.users == db.users && r.0.budgets == db.budgets && r.0.nextId == db.nextId
    ensures |r.0.accounts| == |db.accounts| && |r.0.transactions| == |db.transactions|
  {
    match SignedInUser(db.users, authUserId, "User not authenticated")
    case Err(m) => (db, Err(UpdateFailed + m))
    case Ok(user) =>
      match FindTransaction(db.transactions, id, user.id)
      case None => (db, Err(UpdateFailed + "Transaction not found"))
      case Some(k) =>
        match FindOwnedAccount(db.accounts, data.accountId, user.id)
        case None => (db, Err(UpdateFailed + "Account not found"))
        case Some(n) =>
          match FindAccount(db.accounts, db.transactions[k].accountId)
          case None => (db, Err(UpdateFailed + MissingIncludedAccount))
          case Some(o) =>
            match NextDateFor(data)
            case Err(m) => (db, Err(UpdateFailed + m))
            case Ok(next) =>
              var r := if corrected then EditCorrected(db, k, o, n, data, next)
                       else EditAsWritten(db, k, o, n, data, next);
              (r, Ok(SerializeAmount(r.transactions[k])))
  }

  /** `updateTransaction` as the source writes it. */
  function UpdateTransaction(db: Db, authUserId: Option<string>, id: Id, data: TransactionInput)
    : (r: (Db, Result<SerializedTransaction>))
    requires Valid(data.date)
    ensures r.1.Err? ==> r.0 == db && UpdateFailed <= r.1.message
  {
    Update(db, authUserId, id, data, false)
  }

  /** `updateTransaction` with the second balance write reading the first one's result. */
  function UpdateTransactionCorrected(db: Db, authUserId: Option<string>, id: Id, data: TransactionInput)
    : (r: (Db, Result<SerializedTransaction>))
    requires Valid(data.date)
    ensures r.1.Err? ==> r.0 == db && UpdateFailed <= r.1.message
  {
    Update(db, authUserId, id, data, true)
  }

  /** `updateTransaction` against the store: two absolute balance writes, then the row update. */
  method UpdateTransactionAction(store: Store, authUserId: Option<string>, id: Id, data: TransactionInput)
    returns (r: Result<SerializedTransaction>)
    requires Valid(data.date)
    modifies store
    ensures (store.Snapshot(), r) == UpdateTransaction(old(store.Snapshot()), authUserId, id, data)
  {
    var user := SignedInUser(store.users, authUserId, "User not authenticated");
    if user.Err? {
      return Err(UpdateFailed + user.message);
    }
    var k := FindTransaction(store.transactions, id, user.value.id);
    if k.None? {
      return Err(UpdateFailed + "Transaction not found");
    }
    var n := FindOwnedAccount(store.accounts, data.accountId, user.value.id);
    if n.None? {
      return Err(UpdateFailed + "Account not found");
    }
    var existing := store.transactions[k.value];
    var o := FindAccount(store.accounts, existing.accountId);
    if o.None? {
      return Err(UpdateFailed + MissingIncludedAccount);
    }
    var next := NextDateFor(data);
    if next.Err? {
      return Err(UpdateFailed + next.message);
    }
    var oldAcct := store.accounts[o.value];
    var newAcct := store.accounts[n.value];
    store.SetBalance(o.value, oldAcct.balance - SignedAmount(existing.txType, existing.amount));
    store.SetBalance(n.value, newAcct.balance + SignedAmount(data.txType, data.amount));
    var edited := EditedRow(existing, newAcct.id, data, next.value);
    store.UpdateTransaction(k.value, edited);
    r := Ok(SerializeAmount(edited));
  }

  /**
   * The checks, in order: sign-in, the user's row, the chosen account; each
   * fails with its own message and writes nothing.
   */
  lemma UpdateChecks(db: Db, authUserId: Option<string>, id: Id, data: TransactionInput)
    requires Valid(data.date)
    ensures authUserId.None? || authUserId.value == "" ==>
      UpdateTransaction(db, authUserId, id, data) == (db, Err(UpdateFailed + "User not authenticated"))
    ensures authUserId.Some? && authUserId.value != "" && FindUserByClerkId(db.users, authUserId.value).None? ==>
      UpdateTransaction(db, authUserId, id, data) == (db, Err(UpdateFailed + "User not found"))
    ensures var user := SignedInUser(db.users, authUserId, "User not authenticated");
      user.Ok? && FindTransaction(db.transactions, id, user.value.id).None? ==>
      UpdateTransaction(db, authUserId, id, data) == (db, Err(UpdateFailed + "Transaction not found"))
    ensures var user := SignedInUser(db.users, authUserId, "User not authenticated");
      user.Ok? && FindTransaction(db.transactions, id, user.value.id).Some? &&
      FindOwnedAccount(db.accounts, data.accountId, user.value.id).None? ==>
      UpdateTransaction(db, authUserId, id, data) == (db, Err(UpdateFailed + "Account not found"))
  {
  }

  /**
   * Moving a row to a different account, the source's writes are right:
   * the old account gets the old effect back, the new one takes the new
   * effect, and every account's drift is kept.
   */
  lemma {:induction false} EditToOtherAccountKeepsDrift(db: Db, k: nat, o: nat, n: nat, data: TransactionInput,
                                                      next: Option<Date>, i: nat)
    requires ValidDb(db) && k < |db.transactions| && o < |db.accounts| && n < |db.accounts| && i < |db.accounts|
    requires db.accounts[o].id == db.transactions[k].accountId && o != n
    ensures Drift(EditAsWritten(db, k, o, n, data, next), i) == Drift(db, i)
  {
    var t := db.transactions[k];
    var r := EditAsWritten(db, k, o, n, data, next);
    var id := db.accounts[i].id;
    var edited := EditedRow(t, db.accounts[n].id, data, next);
    NetEffectReplace(db.transactions, k, edited, id);
    assert r.accounts[i].id == id;
    if i != o {
      assert id != db.accounts[o].id;
    }
    if i != n {
      assert id != db.accounts[n].id;
    }
  }

  /**
   * Keeping the row on its account, the source's second write overwrites
   * the first: the account ends at its original balance plus the new
   * effect, the old effect never reversed, so its drift moves by exactly the
   * old signed amount.
   */
  lemma {:induction false} EditSameAccountAsWritten(db: Db, k: nat, a: nat, data: TransactionInput, next: Option<Date>)
    requires ValidDb(db) && k < |db.transactions| && a < |db.accounts|
    requires db.accounts[a].id == db.transactions[k].accountId
    ensures var r := EditAsWritten(db, k, a, a, data, next);
      var t := db.transactions[k];
      r.accounts[a].balance == db.accounts[a].balance + SignedAmount(data.txType, data.amount) &&
      Drift(r, a) == Drift(db, a) + SignedAmount(t.txType, t.amount)
  {
    var t := db.transactions[k];
    var edited := EditedRow(t, db.accounts[a].id, data, next);
    NetEffectReplace(db.transactions, k, edited, db.accounts[a].id);
  }

  /** With the corrected writes every account's drift is kept, whichever account the row ends on. */
  lemma {:induction false} EditCorrectedKeepsDrift(db: Db, k: nat, o: nat, n: nat, data: TransactionInput,
                                                   next: Option<Date>, i: nat)
    requires ValidDb(db) && k < |db.transactions| && o < |db.accounts| && n < |db.accounts| && i < |db.accounts|
    requires db.accounts[o].id == db.transactions[k].accountId
    ensures Drift(EditCorrected(db, k, o, n, data, next), i) == Drift(db, i)
  {
    var t := db.transactions[k];
    var r := EditCorrected(db, k, o, n, data, next);
    var id := db.accounts[i].id;
    var edited := EditedRow(t, db.accounts[n].id, data, next);
    NetEffectReplace(db.transactions, k, edited, id);
    assert r.accounts[i].id == id;
    if i != o {
      assert id != db.accounts[o].id;
    }
    if i != n {
      assert id != db.accounts[n].id;
    }
  }

  /**
   * A concrete case of the same-account overwrite: an account at 1000 that
   * holds an expense of 100; editing the expense to 50 leaves the account
   * at 950 instead of 1050.
   */
  lemma SameAccountEditExample()
    ensures var d := Date(2024, 0, 15, 0);
      var t := Transaction(1, 7, 3, Expense, 100, d, "", "food", false, None, None, None, "COMPLETED");
      var db := Db([], [Account(3, 7, "Main", Current, 1000, true)], [t], [], 2);
      var data := TransactionInput(Expense, 50, d, None, "food", 3, None, None, None);
      EditAsWritten(db, 0, 0, 0, data, None).accounts[0].balance == 950 &&
      EditCorrected(db, 0, 0, 0, data, None).accounts[0].balance == 1050
  {
  }

  /** The edit of a valid database keeps it valid: ids are untouched. */
  lemma EditKeepsValid(db: Db, k: nat, o: nat, n: nat, data: TransactionInput, next: Option<Date>, corrected: bool)
    requires ValidDb(db) && k < |db.transactions| && o < |db.accounts| && n < |db.accounts|
    ensures var r := if corrected then EditCorrected(db, k, o, n, data, next) else EditAsWritten(db, k, o, n, data, next);
      ValidDb(r)
  {
    var r := if corrected then EditCorrected(db, k, o, n, data, next) else EditAsWritten(db, k, o, n, data, next);
    assert forall j :: 0 <= j < |r.accounts| ==> r.accounts[j].id == db.accounts[j].id;
    assert forall j :: 0 <= j < |r.transactions| ==> r.transactions[j].id == db.transactions[j].id;
  }

  /**
   * The corrected update keeps every account's drift and the database's
   * keys; the update as written keeps them too unless the row stays on its
   * account.
   */
  lemma UpdateKeepsDrift(db: Db, authUserId: Option<string>, id: Id, data: TransactionInput, i: nat)
    requires Valid(data.date) && ValidDb(db) && i < |db.accounts|
    ensures var r := UpdateTransactionCorrected(db, authUserId, id, data).0;
      ValidDb(r) && Drift(r, i) == Drift(db, i)
  {
    match SignedInUser(db.users, authUserId, "User not authenticated")
    case Err(_) =>
    case Ok(user) =>
      match FindTransaction(db.transactions, id, user.id)
      case None =>
      case Some(k) =>
        match FindOwnedAccount(db.accounts, data.accountId, user.id)
        case None =>
        case Some(n) =>
          match FindAccount(db.accounts, db.transactions[k].accountId)
          case None =>
          case Some(o) =>
            match NextDateFor(data)
            case Err(_) =>
            case Ok(next) =>
              EditCorrectedKeepsDrift(db, k, o, n, data, next, i);
              EditKeepsValid(db, k, o, n, data, next, true);
  }

  // ---------------------------------------------------------------------
  // scanReceipt

  const MaxReceiptBytes: int := 1024 * 1024
  const ReceiptTooLarge: string := "Image file is too large. Please compress the image and try again."
  const ReceiptNotAnImage: string := "Please upload a valid image file."
  const NoReceiptData: string :=
    "Could not extract receipt data. Please ensure the image is clear and contains a receipt."

  /**
   * The `amount` member of the model's JSON: absent (undefined, null or ""),
   * a number, or a non-empty string together with what `parseFloat` reads
   * from its front (`None` for NaN).
   */
  datatype AmountField = NoAmount | Number(v: real) | AmountText(text: string, leading: Option<real>)

  /**
   * The `date` member: absent (undefined or ""), `null`, or a non-empty
   * string together with what `new Date` makes of it.
   */
  datatype DateField = NoDate | NullDate | DateText(text: string, parsed: Option<Date>)

  datatype ReceiptJson = ReceiptJson(
    amount: AmountField, date: DateField, description: Option<string>,
    merchantName: Option<string>, category: Option<string>)

  /**
   * What the model call gave: it threw, or its reply, with the code fences
   * removed, parsed to an object (`None` when `JSON.parse` threw or the
   * value has no members to read, such as `null`).
   */
  datatype ModelReply = CallFailed(message: string) | Replied(data: Option<ReceiptJson>)

  /** The normalised receipt; a `date` of `None` is an Invalid Date. */
  datatype ScannedReceipt = ScannedReceipt(
    amount: real, date: Option<Date>, description: string, category: string, merchantName: string)

  predicate AmountTruthy(a: AmountField) {
    match a
    case NoAmount => false
    case Number(v) => v != 0.0
    case AmountText(text, _) => text != ""
  }

  predicate DateTruthy(d: DateField) {
    d.DateText? && d.text != ""
  }

  /** `parseFloat(data.amount) || 0` */
  function ParsedAmount(a: AmountField): (r: real)
    ensures a.Number? ==> r == a.v
    ensures a.AmountText? && a.leading.Some? ==> r == a.leading.value
    ensures a.NoAmount? || (a.AmountText? && a.leading.None?) ==> r == 0.0
  {
    match a
    case NoAmount => 0.0
    case Number(v) => v
    case AmountText(_, leading) => leading.GetOr(0.0)
  }

  /**
   * `new Date(data.date)`: an absent date makes an Invalid Date, while
   * `null` converts to 0 and so makes the epoch, although it counts as no date.
   */
  function ParsedDate(d: DateField): (r: Option<Date>)
    ensures d.NoDate? ==> r.None?
    ensures d.NullDate? ==> r == Some(Epoch) && !DateTruthy(d)
    ensures d.DateText? ==> r == d.parsed
  {
    match d
    case NoDate => None
    case NullDate => Some(Epoch)
    case DateText(_, parsed) => parsed
  }

  /** The inner `try`: reject a reply with neither amount nor date, else fill in the defaults. */
  function NormaliseReceipt(data: ReceiptJson): (r: Result<ScannedReceipt>)
    ensures r.Err? <==> !AmountTruthy(data.amount) && !DateTruthy(data.date)
    ensures r.Ok? ==> r.value.amount == ParsedAmount(data.amount) && r.value.date == ParsedDate(data.date)
    ensures r.Ok? ==> r.value.description != "" && r.value.category != "" && r.value.merchantName != ""
  {
    if !AmountTruthy(data.amount) && !DateTruthy(data.date) then Err("No receipt data found in the image")
    else Ok(ScannedReceipt(
      ParsedAmount(data.amount), ParsedDate(data.date),
      OrDefault(data.description, "Receipt scan"),
      OrDefault(data.category, "other-expense"),
      OrDefault(data.merchantName, "Unknown")))
  }

  /**
   * `scanReceipt(file)` given the model's reply: the size check, then the
   * type check, both before any model call; then the reply is normalised.
   * Every failure carries the "Receipt scanning failed: " prefix, and every
   * failure of reading the reply becomes one fixed message.
   */
  function ScanReceipt(file: UploadedFile, reply: ModelReply): (r: Result<ScannedReceipt>)
    ensures r.Err? ==> ScanFailed <= r.message
    ensures file.size > MaxReceiptBytes ==> r == Err(ScanFailed + ReceiptTooLarge)
    ensures file.size <= MaxReceiptBytes && !IsImageType(file.mimeType) ==> r == Err(ScanFailed + ReceiptNotAnImage)
    ensures r.Ok? ==> file.size <= MaxReceiptBytes && IsImageType(file.mimeType) && reply.Replied?
  {
    if file.size > MaxReceiptBytes then Err(ScanFailed + ReceiptTooLarge)
    else if !IsImageType(file.mimeType) then Err(ScanFailed + ReceiptNotAnImage)
    else match reply
      case CallFailed(m) => Err(ScanFailed + m)
      case Replied(None) => Err(ScanFailed + NoReceiptData)
      case Replied(Some(data)) =>
        match NormaliseReceipt(data)
        case Err(_) => Err(ScanFailed + NoReceiptData)
        case Ok(receipt) => Ok(receipt)
  }

  /**
   * For an accepted file, a reply that parses is rejected exactly when it
   * has neither a truthy amount nor a truthy date, and otherwise yields the
   * normalised receipt; the members given non-empty are kept as they are.
   */
  lemma ScanReceiptOfParsedReply(file: UploadedFile, data: ReceiptJson)
    requires file.size <= MaxReceiptBytes && IsImageType(file.mimeType)
    ensures var r := ScanReceipt(file, Replied(Some(data)));
      (r == Err(ScanFailed + NoReceiptData) <==> !AmountTruthy(data.amount) && !DateTruthy(data.date)) &&
      (r.Ok? ==> r == NormaliseReceipt(data))
    ensures var r := ScanReceipt(file, Replied(Some(data)));
      r.Ok? && data.description.Some? && data.description.value != "" ==> r.value.description == data.description.value
    ensures var r := ScanReceipt(file, Replied(Some(data)));
      r.Ok? && data.category.Some? && data.category.value != "" ==> r.value.category == data.category.value
    ensures var r := ScanReceipt(file, Replied(Some(data)));
      r.Ok? && data.merchantName.Some? && data.merchantName.value != "" ==> r.value.merchantName == data.merchantName.value
  {
  }

  /**
   * The size limit is inclusive: an image of exactly 1 MiB is read like any
   * small one, and one byte more is refused whatever its type.
   */
  lemma ReceiptSizeBoundary(reply: ModelReply)
    ensures ScanReceipt(UploadedFile(1048576, "image/png"), reply) == ScanReceipt(UploadedFile(0, "image/jpeg"), reply)
    ensures ScanReceipt(UploadedFile(1048577, "image/png"), reply) == Err(ScanFailed + ReceiptTooLarge)
    ensures ScanReceipt(UploadedFile(1048577, "text/plain"), reply) == Err(ScanFailed + ReceiptTooLarge)
  {
    assert "image/" <= "image/png" && "image/" <= "image/jpeg";
  }

  /**
   * A receipt with a zero amount and no date is rejected; a date alone is
   * enough; a `null` date beside a non-zero amount is read as the epoch.
   */
  lemma ReceiptExamples(file: UploadedFile, d: Date)
    requires file.size <= MaxReceiptBytes && IsImageType(file.mimeType)
    ensures ScanReceipt(file, Replied(Some(ReceiptJson(Number(0.0), NoDate, None, None, None)))) ==
      Err(ScanFailed + NoReceiptData)
    ensures ScanReceipt(file, Replied(Some(ReceiptJson(NoAmount, DateText("2024-05-01", Some(d)), None, Some(""), None)))) ==
      Ok(ScannedReceipt(0.0, Some(d), "Receipt scan", "other-expense", "Unknown"))
    ensures ScanReceipt(file, Replied(Some(ReceiptJson(Number(12.5), NullDate, None, None, None)))) ==
      Ok(ScannedReceipt(12.5, Some(Date(1970, 0, 1, 0)), "Receipt scan", "other-expense", "Unknown"))
    ensures ScanReceipt(file, Replied(Some(ReceiptJson(Number(0.0), NullDate, None, None, None)))) ==
      Err(ScanFailed + NoReceiptData)
  {
  }

  /**
   * The server's limits are inside the browser's: a file that gets past the
   * server's two checks also passes `validateImageFile`, while an image
   * between 1 MiB and 10 MiB passes the browser and is refused here.
   */
  lemma ServerChecksAreStricter(file: UploadedFile, reply: ModelReply)
    ensures ScanReceipt(file, reply).Ok? ==> ValidateImageFile(file) == Ok(true)
    ensures IsImageType(file.mimeType) && MaxReceiptBytes < file.size <= MaxSizeBeforeCompression ==>
      ValidateImageFile(file) == Ok(true) && ScanReceipt(file, reply) == Err(ScanFailed + ReceiptTooLarge)
  {
  }

  /** The categories the receipt prompt lets the model choose from. */
  const ReceiptPromptCategories: seq<string> := [
    "housing", "transportation", "groceries", "utilities", "entertainment", "food", "shopping",
    "healthcare", "education", "personal", "travel", "insurance", "gifts", "bills", "other-expense"]

  /**
   * Every category the prompt offers, and the "other-expense" fallback, is
   * an expense category of the catalogue.
   */
  lemma ReceiptCategoriesAreExpenseIds()
    ensures forall c :: c in ReceiptPromptCategories ==> Categories.IsExpenseId(Categories.DefaultCategories(), c)
  {
    var table := Categories.DefaultCategories();
    Categories.DefaultIds();
    Categories.IncomeThenExpense();
    forall k | 0 <= k < |ReceiptPromptCategories|
      ensures Categories.IsExpenseId(table, ReceiptPromptCategories[k])
    {
      var i := if k < 14 then 11 + k else 30;
      assert Categories.Ids(table)[i] == table[i].id;
      assert table[i].id == ReceiptPromptCategories[k];
    }
  }
}
