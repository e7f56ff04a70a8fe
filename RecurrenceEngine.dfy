/**
 * The recurring-transaction engine of `lib/inngest/function.js`.
 *
 * A recurring definition is a ledger row with `isRecurring` set. Once a day
 * the trigger scans for definitions that are due and emits one
 * `transaction.recurring.process` event per definition. The processor
 * re-reads the definition, checks it is still due, and then atomically books
 * one occurrence: a new non-recurring row dated now, the matching change to
 * the account balance, and the definition's `lastProcessed`/`nextRecurringDate`
 * moved on.
 */
module RecurrenceEngine {
  import opened Wrappers
  import opened Dates
  import opened Ledger

  const ProcessEventName: string := "transaction.recurring.process"

  /** `status` of a row created without one. */
  const DefaultStatus: string := "PENDING"

  /** The status the trigger's scan requires. */
  const CompletedStatus: string := "COMPLETED"

  // ---------------------------------------------------------------------
  // Schedule arithmetic

  predicate KnownInterval(interval: Option<string>) {
    interval == Some("DAILY") || interval == Some("WEEKLY") ||
    interval == Some("MONTHLY") || interval == Some("YEARLY")
  }

  /**
   * `calculateNextRecurringDate(date, interval)`: one day, one week, one
   * month (day number kept, overflowing into the next month) or one year
   * later; any other interval, including a missing one, leaves the date as
   * it is.
   */
  function NextRecurringDate(date: Date, interval: Option<string>): (r: Date)
    requires Valid(date)
    ensures Valid(r)
    ensures !KnownInterval(interval) ==> r == date
  {
    if interval == Some("DAILY") then AddDays(date, 1)
    else if interval == Some("WEEKLY") then AddDays(date, 7)
    else if interval == Some("MONTHLY") then AddMonths(date, 1)
    else if interval == Some("YEARLY") then AddYears(date, 1)
    else date
  }

  /** For the four known intervals the next date is strictly later. */
  lemma NextRecurringDateIsLater(date: Date, interval: Option<string>)
    requires Valid(date) && KnownInterval(interval)
    ensures Before(date, NextRecurringDate(date, interval))
  {
    if interval == Some("DAILY") {
      AddDaysIsLater(date, 1);
    } else if interval == Some("WEEKLY") {
      AddDaysIsLater(date, 7);
    } else if interval == Some("MONTHLY") {
      AddMonthsIsLater(date, 1);
    } else {
      AddYearsIsLater(date, 1);
    }
  }

  lemma BeforeIsIrreflexiveAndAsymmetric(a: Date, b: Date)
    requires Before(a, b)
    ensures !AtOrBefore(b, a)
  {
  }

  /**
   * `isTransactionDue`: a definition never processed is due; otherwise it is
   * due when its next date is not after now, a missing next date reading as
   * the epoch (`new Date(null)`).
   */
  predicate IsTransactionDue(t: Transaction, now: Date) {
    t.lastProcessed.None? || AtOrBefore(t.nextRecurringDate.GetOr(Epoch), now)
  }

  /**
   * The trigger's `findMany` filter: recurring, COMPLETED, and never
   * processed or with a next date not after now (a null column fails `lte`).
   */
  predicate ScanMatches(t: Transaction, now: Date) {
    t.isRecurring && t.status == CompletedStatus &&
    (t.lastProcessed.None? ||
      (t.nextRecurringDate.Some? && AtOrBefore(t.nextRecurringDate.value, now)))
  }

  /** Everything the scan selects, the processor also finds due. */
  lemma ScanMatchIsDue(t: Transaction, now: Date)
    requires ScanMatches(t, now)
    ensures IsTransactionDue(t, now)
  {
  }

  /**
   * The processor is more lenient than the scan: a processed definition
   * whose next date is null counts as due from 1970 on.
   */
  lemma NullNextDateIsDueButNotScanned(t: Transaction, now: Date)
    requires t.isRecurring && t.status == CompletedStatus
    requires t.lastProcessed.Some? && t.nextRecurringDate.None?
    requires AtOrBefore(Epoch, now)
    ensures IsTransactionDue(t, now) && !ScanMatches(t, now)
  {
  }

  // ---------------------------------------------------------------------
  // Trigger

  datatype Event = Event(name: string, data: map<string, Id>)

  /** The rows the scan returns, in table order. */
  function DueScan(txs: seq<Transaction>, now: Date): (r: seq<Transaction>)
    ensures |r| <= |txs|
    ensures forall t :: t in r <==> t in txs && ScanMatches(t, now)
    decreases |txs|
  {
    if txs == [] then []
    else
      assert txs == [txs[0]] + txs[1..];
      (if ScanMatches(txs[0], now) then [txs[0]] else []) + DueScan(txs[1..], now)
  }

  /** One event per row, carrying the row's id under `idKey` and its owner under "userId". */
  function EventsFor(rows: seq<Transaction>, idKey: string): (r: seq<Event>)
    requires idKey != "userId"
    ensures |r| == |rows|
    ensures forall i :: 0 <= i < |r| ==>
      r[i].name == ProcessEventName && r[i].data.Keys == {idKey, "userId"} &&
      r[i].data[idKey] == rows[i].id && r[i].data["userId"] == rows[i].userId
    decreases |rows|
  {
    if rows == [] then []
    else [Event(ProcessEventName, map[idKey := rows[0].id, "userId" := rows[0].userId])] + EventsFor(rows[1..], idKey)
  }

  /** `triggerRecurringTransactions` as written: the id travels under the key "transactionID". */
  function TriggerEvents(txs: seq<Transaction>, now: Date): (r: seq<Event>)
    ensures |r| == |DueScan(txs, now)|
    ensures forall e :: e in r ==> "transactionId" !in e.data
  {
    EventsFor(DueScan(txs, now), "transactionID")
  }

  /** The trigger with the key the processor reads. */
  function TriggerEventsCorrected(txs: seq<Transaction>, now: Date): (r: seq<Event>)
    ensures |r| == |DueScan(txs, now)|
    ensures forall i :: 0 <= i < |r| ==>
      "transactionId" in r[i].data && "userId" in r[i].data &&
      r[i].data["transactionId"] == DueScan(txs, now)[i].id &&
      r[i].data["userId"] == DueScan(txs, now)[i].userId
  {
    EventsFor(DueScan(txs, now), "transactionId")
  }

  // ---------------------------------------------------------------------
  // Processing one definition

  datatype Outcome =
    | MissingEventData          // the `{ error: "Missing required event data" }` result
    | Skipped                   // no such definition, or not due
    | Applied(occurrenceId: Id) // one occurrence booked
    | Failed                    // the step threw; the transaction rolled back

  /** The occurrence `tx.transaction.create` books for definition `t`. */
  function Occurrence(t: Transaction, id: Id, now: Date): Transaction {
    Transaction(
      id, t.userId, t.accountId, t.txType, t.amount, now,
      t.description + " (Recurring)", t.category,
      false, None, None, None, DefaultStatus)
  }

  /** The definition after `tx.transaction.update`. */
  function Advance(t: Transaction, now: Date): Transaction
    requires Valid(now)
  {
    t.(lastProcessed := Some(now), nextRecurringDate := Some(NextRecurringDate(now, t.recurringInterval)))
  }

  /** The three writes of the processing transaction, for definition row `k` and account row `a`. */
  function Apply(db: Db, k: nat, a: nat, now: Date): Db
    requires k < |db.transactions| && a < |db.accounts| && Valid(now)
  {
    var t := db.transactions[k];
    var acct := db.accounts[a];
    db.(
      transactions := (db.transactions + [Occurrence(t, db.nextId, now)])[k := Advance(t, now)],
      accounts := db.accounts[a := acct.(balance := acct.balance + SignedAmount(t.txType, t.amount))],
      nextId := db.nextId + 1)
  }

  /**
   * The `process-transaction` step for a definition id and owner: skip when
   * the definition is missing or not due; otherwise apply all three writes,
   * or none when the account update fails for want of the account.
   */
  function ProcessStep(db: Db, id: Id, userId: Id, now: Date): (Db, Outcome)
    requires Valid(now)
  {
    match FindTransaction(db.transactions, id, userId)
    case None => (db, Skipped)
    case Some(k) =>
      if !IsTransactionDue(db.transactions[k], now) then (db, Skipped)
      else match FindAccount(db.accounts, db.transactions[k].accountId)
        case None => (db, Failed)
        case Some(a) => (Apply(db, k, a, now), Applied(db.nextId))
  }

  /**
   * `processRecurringTransaction`: an event without "transactionId" or
   * "userId" is answered with the error result and touches nothing.
   */
  function ProcessEvent(db: Db, e: Event, now: Date): (Db, Outcome)
    requires Valid(now)
  {
    if "transactionId" !in e.data || "userId" !in e.data then (db, MissingEventData)
    else ProcessStep(db, e.data["transactionId"], e.data["userId"], now)
  }

  /**
   * The step as written opens its transaction with `db.transaction(...)`,
   * which is the `transaction` model delegate rather than `$transaction`;
   * calling it throws before any write, so a due definition is never booked.
   */
  function ProcessStepAsWritten(db: Db, id: Id, userId: Id, now: Date): (r: (Db, Outcome))
    requires Valid(now)
    ensures r.0 == db
    ensures r.1 == Skipped || r.1 == Failed
  {
    match FindTransaction(db.transactions, id, userId)
    case None => (db, Skipped)
    case Some(k) => if !IsTransactionDue(db.transactions[k], now) then (db, Skipped) else (db, Failed)
  }

  /**
   * `processRecurringTransaction` against the store, CORRECTED: guard,
   * lookup, due check, then the create, the balance increment and the
   * definition update, performed as the atomic step the handler intends.
   * As written the step throws at `db.transaction(...)` and writes nothing;
   * that behaviour is `ProcessStepAsWritten`.
   */
  method ProcessRecurringTransaction(store: Store, e: Event, now: Date) returns (outcome: Outcome)
    requires Valid(now)
    modifies store
    ensures (store.Snapshot(), outcome) == ProcessEvent(old(store.Snapshot()), e, now)
  {
    if "transactionId" !in e.data || "userId" !in e.data {
      return MissingEventData;
    }
    var found := FindTransaction(store.transactions, e.data["transactionId"], e.data["userId"]);
    if found.None? || !IsTransactionDue(store.transactions[found.value], now) {
      return Skipped;
    }
    var k := found.value;
    var t := store.transactions[k];
    var account := FindAccount(store.accounts, t.accountId);
    if account.None? {
      return Failed;
    }
    ghost var db := store.Snapshot();
    var id := store.InsertTransaction(Occurrence(t, 0, now));
    store.IncrementBalance(account.value, SignedAmount(t.txType, t.amount));
    store.UpdateTransaction(k, Advance(t, now));
    assert Occurrence(t, 0, now).(id := id) == Occurrence(t, db.nextId, now);
    outcome := Applied(id);
  }

  // ---------------------------------------------------------------------
  // Properties of one step

  /**
   * Applying a due definition books exactly one occurrence copying type,
   * amount, category, owner and account; moves that account's balance by the
   * signed amount; advances the definition; and changes nothing else.
   */
  lemma ApplyEffects(db: Db, k: nat, a: nat, now: Date)
    requires k < |db.transactions| && a < |db.accounts| && Valid(now)
    ensures var r := Apply(db, k, a, now); var t := db.transactions[k];
      |r.transactions| == |db.transactions| + 1 &&
      r.transactions[|db.transactions|] == Occurrence(t, db.nextId, now) &&
      r.transactions[k] == Advance(t, now) &&
      (forall j :: 0 <= j < |db.transactions| && j != k ==> r.transactions[j] == db.transactions[j]) &&
      |r.accounts| == |db.accounts| &&
      r.accounts[a].balance == db.accounts[a].balance + SignedAmount(t.txType, t.amount) &&
      r.accounts[a] == db.accounts[a].(balance := r.accounts[a].balance) &&
      (forall j :: 0 <= j < |db.accounts| && j != a ==> r.accounts[j] == db.accounts[j]) &&
      r.users == db.users && r.budgets == db.budgets && r.nextId == db.nextId + 1
  {
  }

  /** The occurrence is an ordinary row: not recurring, so never itself scanned. */
  lemma OccurrenceIsNotScanned(t: Transaction, id: Id, now: Date, later: Date)
    ensures var o := Occurrence(t, id, now);
      o.txType == t.txType && o.amount == t.amount && o.category == t.category &&
      o.userId == t.userId && o.accountId == t.accountId &&
      o.description == t.description + " (Recurring)" && !o.isRecurring &&
      !ScanMatches(o, later)
  {
  }

  /** A step that finds nothing to do, or fails, leaves the database as it was. */
  lemma ProcessStepNoOp(db: Db, id: Id, userId: Id, now: Date)
    requires Valid(now)
    ensures ProcessStep(db, id, userId, now).1 != Applied(db.nextId) ==> ProcessStep(db, id, userId, now).0 == db
    ensures ProcessStep(db, id, userId, now).1 == Skipped <==>
      (FindTransaction(db.transactions, id, userId).None? ||
       !IsTransactionDue(db.transactions[FindTransaction(db.transactions, id, userId).value], now))
  {
  }

  /** After an application the definition is found at the same row. */
  lemma FindAfterApply(db: Db, id: Id, userId: Id, k: nat, a: nat, now: Date)
    requires k < |db.transactions| && a < |db.accounts| && Valid(now)
    requires FindTransaction(db.transactions, id, userId) == Some(k)
    ensures FindTransaction(Apply(db, k, a, now).transactions, id, userId) == Some(k)
  {
    var txs := Apply(db, k, a, now).transactions;
    assert txs[k].id == id && txs[k].userId == userId;
    assert forall j :: 0 <= j < k ==> txs[j] == db.transactions[j];
  }

  /**
   * Idempotence: for a known interval, a second step with the same `now`
   * finds the definition no longer due and changes nothing.
   */
  lemma {:induction false} SecondStepIsNoOp(db: Db, id: Id, userId: Id, now: Date)
    requires Valid(now)
    requires ProcessStep(db, id, userId, now).1.Applied?
    requires KnownInterval(db.transactions[FindTransaction(db.transactions, id, userId).value].recurringInterval)
    ensures var db1 := ProcessStep(db, id, userId, now).0;
      ProcessStep(db1, id, userId, now) == (db1, Skipped)
  {
    var k := FindTransaction(db.transactions, id, userId).value;
    var a := FindAccount(db.accounts, db.transactions[k].accountId).value;
    var db1 := Apply(db, k, a, now);
    FindAfterApply(db, id, userId, k, a, now);
    var t := db.transactions[k];
    NextRecurringDateIsLater(now, t.recurringInterval);
    BeforeIsIrreflexiveAndAsymmetric(now, NextRecurringDate(now, t.recurringInterval));
    assert !IsTransactionDue(db1.transactions[k], now);
  }

  /**
   * With an unknown interval the next date stays at now, so the definition
   * is still due and a second step with the same `now` books again.
   */
  lemma {:induction false} UnknownIntervalBooksAgain(db: Db, id: Id, userId: Id, now: Date)
    requires Valid(now)
    requires ProcessStep(db, id, userId, now).1.Applied?
    requires !KnownInterval(db.transactions[FindTransaction(db.transactions, id, userId).value].recurringInterval)
    ensures var db1 := ProcessStep(db, id, userId, now).0;
      ProcessStep(db1, id, userId, now).1 == Applied(db.nextId + 1)
  {
    var k := FindTransaction(db.transactions, id, userId).value;
    var a := FindAccount(db.accounts, db.transactions[k].accountId).value;
    var db1 := Apply(db, k, a, now);
    FindAfterApply(db, id, userId, k, a, now);
    assert db1.transactions[k].accountId == db.transactions[k].accountId;
    assert db1.accounts[a].id == db.accounts[a].id;
    assert IsTransactionDue(db1.transactions[k], now);
  }

  /** An advanced definition with a known interval leaves the scan until its next date. */
  lemma AdvancedLeavesScan(t: Transaction, now: Date)
    requires Valid(now) && KnownInterval(t.recurringInterval)
    ensures !ScanMatches(Advance(t, now), now)
    ensures t.isRecurring && t.status == CompletedStatus ==>
      ScanMatches(Advance(t, now), NextRecurringDate(now, t.recurringInterval))
  {
    NextRecurringDateIsLater(now, t.recurringInterval);
    BeforeIsIrreflexiveAndAsymmetric(now, NextRecurringDate(now, t.recurringInterval));
  }

  // ---------------------------------------------------------------------
  // Conservation: balance minus booked effect is invariant

  /**
   * Applying a definition keeps every account's drift: the balance moves by
   * exactly the effect of the booked occurrence, and on no other account.
   */
  lemma {:induction false} ApplyKeepsDrift(db: Db, k: nat, a: nat, now: Date, i: nat)
    requires ValidDb(db)
    requires k < |db.transactions| && a < |db.accounts| && Valid(now) && i < |db.accounts|
    requires db.accounts[a].id == db.transactions[k].accountId
    ensures i < |Apply(db, k, a, now).accounts| && Drift(Apply(db, k, a, now), i) == Drift(db, i)
  {
    var t := db.transactions[k];
    var occ := Occurrence(t, db.nextId, now);
    var r := Apply(db, k, a, now);
    var id := db.accounts[i].id;
    NetEffectAppend(db.transactions, [occ], id);
    NetEffectReplace(db.transactions + [occ], k, Advance(t, now), id);
    assert NetEffect([occ], id) == EffectOn(t, id) by {
      assert [occ][1..] == [];
    }
    assert r.accounts[i].id == id;
    if i != a {
      assert id != db.accounts[a].id;
    }
  }

  /** Every step, whatever its outcome, keeps every account's drift and `ValidDb`. */
  lemma {:induction false} ProcessStepKeepsDrift(db: Db, id: Id, userId: Id, now: Date, i: nat)
    requires ValidDb(db) && Valid(now) && i < |db.accounts|
    ensures var r := ProcessStep(db, id, userId, now).0;
      ValidDb(r) && i < |r.accounts| && Drift(r, i) == Drift(db, i)
  {
    match FindTransaction(db.transactions, id, userId)
    case None =>
    case Some(k) =>
      if IsTransactionDue(db.transactions[k], now) {
        match FindAccount(db.accounts, db.transactions[k].accountId)
        case None =>
        case Some(a) =>
          ApplyKeepsDrift(db, k, a, now, i);
          ApplyKeepsValid(db, k, a, now);
      }
  }

  lemma ApplyKeepsValid(db: Db, k: nat, a: nat, now: Date)
    requires ValidDb(db)
    requires k < |db.transactions| && a < |db.accounts| && Valid(now)
    ensures ValidDb(Apply(db, k, a, now))
  {
    var r := Apply(db, k, a, now);
    assert forall j :: 0 <= j < |r.accounts| ==> r.accounts[j].id == db.accounts[j].id;
    assert forall j :: 0 <= j < |r.transactions| ==>
      r.transactions[j].id == (if j < |db.transactions| then db.transactions[j].id else db.nextId);
  }

  // ---------------------------------------------------------------------
  // The trigger and the processor together

  /** As written, every event the trigger emits fails the processor's guard and changes nothing. */
  lemma AsWrittenEventsAreRejected(db: Db, txs: seq<Transaction>, now: Date, e: Event)
    requires Valid(now) && e in TriggerEvents(txs, now)
    ensures ProcessEvent(db, e, now) == (db, MissingEventData)
  {
  }

  /**
   * As written, the processing step never books anything: a due definition
   * makes it throw, leaving the database unchanged.
   */
  lemma AsWrittenStepNeverBooks(db: Db, id: Id, userId: Id, now: Date)
    requires Valid(now)
    ensures ProcessStepAsWritten(db, id, userId, now).0 == db
    ensures ProcessStepAsWritten(db, id, userId, now).1 == Failed <==>
      ProcessStep(db, id, userId, now).1.Applied? || ProcessStep(db, id, userId, now).1 == Failed
  {
  }

  /**
   * With the corrected key, the event for a scanned definition whose account
   * exists books exactly that definition.
   */
  lemma {:induction false} CorrectedEventIsBooked(db: Db, now: Date, i: nat)
    requires ValidDb(db) && Valid(now)
    requires i < |TriggerEventsCorrected(db.transactions, now)|
    requires FindAccount(db.accounts, DueScan(db.transactions, now)[i].accountId).Some?
    ensures var e := TriggerEventsCorrected(db.transactions, now)[i];
      ProcessEvent(db, e, now).1 == Applied(db.nextId) &&
      exists k :: 0 <= k < |db.transactions| && db.transactions[k] == DueScan(db.transactions, now)[i] &&
        ProcessEvent(db, e, now).0 == Apply(db, k, FindAccount(db.accounts, db.transactions[k].accountId).value, now)
  {
    var t := DueScan(db.transactions, now)[i];
    assert t in DueScan(db.transactions, now);
    var e := TriggerEventsCorrected(db.transactions, now)[i];
    var k := FindTransaction(db.transactions, t.id, t.userId);
    assert t in db.transactions;
    var k0 :| 0 <= k0 < |db.transactions| && db.transactions[k0] == t;
    assert k.Some?;
    assert db.transactions[k.value].id == t.id;
    assert k.value == k0;
    ScanMatchIsDue(t, now);
  }
}
