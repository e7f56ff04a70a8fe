/**
 * The ledger the server code reads and writes through Prisma: users,
 * accounts, transactions and budgets. Each table is a sequence of rows in
 * insertion order, which is the order `findMany` and `findUnique` see them
 * in; an id is the row's primary key. `Store` owns the tables and offers the
 * writes the server code issues (`create`, `update`, a balance `increment`).
 */
module Ledger {
  import opened Wrappers
  import opened Dates

  type Id = nat

  datatype TxType = Expense | Income

  datatype AccountType = Current | Savings | Credit | Loan

  datatype User = User(id: Id, clerkUserId: string, email: string, name: string)

  datatype Account = Account(
    id: Id, userId: Id, name: string, accountType: AccountType, balance: int, isDefault: bool)

  /** A ledger row; a recurring definition is a row with `isRecurring` set. Amounts are minor units. */
  datatype Transaction = Transaction(
    id: Id, userId: Id, accountId: Id, txType: TxType, amount: int, date: Date,
    description: string, category: string,
    isRecurring: bool, recurringInterval: Option<string>,
    nextRecurringDate: Option<Date>, lastProcessed: Option<Date>,
    status: string)

  datatype Budget = Budget(id: Id, userId: Id, amount: int, lastAlertSent: Option<Date>)

  /** The whole database as a value. */
  datatype Db = Db(
    users: seq<User>, accounts: seq<Account>, transactions: seq<Transaction>,
    budgets: seq<Budget>, nextId: Id)

  /**
   * What the database guarantees: every transaction id is below the next id
   * to hand out, and transaction and account ids are primary keys.
   */
  predicate ValidDb(db: Db) {
    (forall i :: 0 <= i < |db.transactions| ==> db.transactions[i].id < db.nextId) &&
    (forall i, j :: 0 <= i < j < |db.transactions| ==> db.transactions[i].id != db.transactions[j].id) &&
    (forall i, j :: 0 <= i < j < |db.accounts| ==> db.accounts[i].id != db.accounts[j].id)
  }

  /** The change a transaction makes to its account: EXPENSE subtracts, anything else adds. */
  function SignedAmount(t: TxType, amount: int): (r: int)
    ensures t == Expense ==> r + amount == 0
    ensures t != Expense ==> r == amount
  {
    if t == Expense then -amount else amount
  }

  // ---------------------------------------------------------------------
  // Lookups (`findUnique` / `findFirst`): the first row that matches.

  function FindTransaction(txs: seq<Transaction>, id: Id, userId: Id): (r: Option<nat>)
    ensures r.Some? ==> r.value < |txs| && txs[r.value].id == id && txs[r.value].userId == userId
    ensures r.Some? ==> forall j :: 0 <= j < r.value ==> !(txs[j].id == id && txs[j].userId == userId)
    ensures r.None? ==> forall j :: 0 <= j < |txs| ==> !(txs[j].id == id && txs[j].userId == userId)
    decreases |txs|
  {
    if txs == [] then None
    else if txs[0].id == id && txs[0].userId == userId then Some(0)
    else match FindTransaction(txs[1..], id, userId)
      case None => None
      case Some(k) => Some(k + 1)
  }

  function FindAccount(accs: seq<Account>, id: Id): (r: Option<nat>)
    ensures r.Some? ==> r.value < |accs| && accs[r.value].id == id
    ensures r.None? ==> forall j :: 0 <= j < |accs| ==> accs[j].id != id
    decreases |accs|
  {
    if accs == [] then None
    else if accs[0].id == id then Some(0)
    else match FindAccount(accs[1..], id)
      case None => None
      case Some(k) => Some(k + 1)
  }

  /** `account.findUnique({ where: { id, userId } })` */
  function FindOwnedAccount(accs: seq<Account>, id: Id, userId: Id): (r: Option<nat>)
    ensures r.Some? ==> r.value < |accs| && accs[r.value].id == id && accs[r.value].userId == userId
    ensures r.None? ==> forall j :: 0 <= j < |accs| ==> !(accs[j].id == id && accs[j].userId == userId)
    decreases |accs|
  {
    if accs == [] then None
    else if accs[0].id == id && accs[0].userId == userId then Some(0)
    else match FindOwnedAccount(accs[1..], id, userId)
      case None => None
      case Some(k) => Some(k + 1)
  }

  /** The first of a user's accounts flagged `isDefault` (`user.accounts[0]` under `where: { isDefault: true }`). */
  function FindDefaultAccount(accs: seq<Account>, userId: Id): (r: Option<nat>)
    ensures r.Some? ==> r.value < |accs| && accs[r.value].userId == userId && accs[r.value].isDefault
    ensures r.Some? ==> forall j :: 0 <= j < r.value ==> !(accs[j].userId == userId && accs[j].isDefault)
    ensures r.None? ==> forall j :: 0 <= j < |accs| ==> !(accs[j].userId == userId && accs[j].isDefault)
    decreases |accs|
  {
    if accs == [] then None
    else if accs[0].userId == userId && accs[0].isDefault then Some(0)
    else match FindDefaultAccount(accs[1..], userId)
      case None => None
      case Some(k) => Some(k + 1)
  }

  function FindUser(users: seq<User>, id: Id): (r: Option<nat>)
    ensures r.Some? ==> r.value < |users| && users[r.value].id == id
    ensures r.None? ==> forall j :: 0 <= j < |users| ==> users[j].id != id
    decreases |users|
  {
    if users == [] then None
    else if users[0].id == id then Some(0)
    else match FindUser(users[1..], id)
      case None => None
      case Some(k) => Some(k + 1)
  }

  /** `user.findUnique({ where: { clerkUserId } })` */
  function FindUserByClerkId(users: seq<User>, clerkUserId: string): (r: Option<nat>)
    ensures r.Some? ==> r.value < |users| && users[r.value].clerkUserId == clerkUserId
    ensures r.None? ==> forall j :: 0 <= j < |users| ==> users[j].clerkUserId != clerkUserId
    decreases |users|
  {
    if users == [] then None
    else if users[0].clerkUserId == clerkUserId then Some(0)
    else match FindUserByClerkId(users[1..], clerkUserId)
      case None => None
      case Some(k) => Some(k + 1)
  }

  // ---------------------------------------------------------------------
  // Net effect of rows on one account

  /** What row `t` does to account `accountId`: its signed amount if booked there, else nothing. */
  function EffectOn(t: Transaction, accountId: Id): int {
    if t.accountId == accountId then SignedAmount(t.txType, t.amount) else 0
  }

  /** The sum of the signed amounts of the rows booked to account `accountId`. */
  function NetEffect(rows: seq<Transaction>, accountId: Id): int
    decreases |rows|
  {
    if rows == [] then 0 else EffectOn(rows[0], accountId) + NetEffect(rows[1..], accountId)
  }

  lemma {:induction false} NetEffectAppend(a: seq<Transaction>, b: seq<Transaction>, accountId: Id)
    ensures NetEffect(a + b, accountId) == NetEffect(a, accountId) + NetEffect(b, accountId)
    decreases |a|
  {
    if a == [] {
      assert a + b == b;
    } else {
      assert (a + b)[1..] == a[1..] + b;
      NetEffectAppend(a[1..], b, accountId);
    }
  }

  /** Replacing row `k` swaps its effect for the new row's. */
  lemma {:induction false} NetEffectReplace(rows: seq<Transaction>, k: nat, t: Transaction, accountId: Id)
    requires k < |rows|
    ensures NetEffect(rows[k := t], accountId) ==
      NetEffect(rows, accountId) - EffectOn(rows[k], accountId) + EffectOn(t, accountId)
    decreases k
  {
    if k == 0 {
      assert rows[k := t][1..] == rows[1..];
    } else {
      assert rows[k := t][1..] == rows[1..][k - 1 := t];
      NetEffectReplace(rows[1..], k - 1, t, accountId);
    }
  }

  /**
   * How far account row `a`'s balance is from the net effect of the rows
   * booked to it: the opening balance, which bookings must leave unchanged.
   */
  function Drift(db: Db, a: nat): int
    requires a < |db.accounts|
  {
    db.accounts[a].balance - NetEffect(db.transactions, db.accounts[a].id)
  }

  /**
   * The signed-in user's row: `auth()` must give a non-empty id (else the
   * `unauthenticated` message) and a user must carry it ("User not found").
   */
  function SignedInUser(users: seq<User>, authUserId: Option<string>, unauthenticated: string): (r: Result<User>)
    ensures r.Ok? <==>
      authUserId.Some? && authUserId.value != "" && FindUserByClerkId(users, authUserId.value).Some?
    ensures r.Ok? ==> r.value in users && r.value.clerkUserId == authUserId.value
    ensures (authUserId.None? || authUserId.value == "") ==> r == Err(unauthenticated)
    ensures r.Err? && authUserId.Some? && authUserId.value != "" ==> r == Err("User not found")
  {
    if authUserId.None? || authUserId.value == "" then Err(unauthenticated)
    else match FindUserByClerkId(users, authUserId.value)
      case None => Err("User not found")
      case Some(u) => Ok(users[u])
  }

  // ---------------------------------------------------------------------

  /** The database: the tables and the writes issued against them. */
  class Store {
    var users: seq<User>
    var accounts: seq<Account>
    var transactions: seq<Transaction>
    var budgets: seq<Budget>
    var nextId: Id

    function Snapshot(): Db
      reads this
    {
      Db(users, accounts, transactions, budgets, nextId)
    }

    constructor (db: Db)
      ensures Snapshot() == db
    {
      users, accounts, transactions, budgets, nextId :=
        db.users, db.accounts, db.transactions, db.budgets, db.nextId;
    }

    /** `transaction.create`: the row is stored under a fresh id. */
    method InsertTransaction(t: Transaction) returns (id: Id)
      modifies this
      ensures id == old(nextId) && nextId == old(nextId) + 1
      ensures transactions == old(transactions) + [t.(id := id)]
      ensures users == old(users) && accounts == old(accounts) && budgets == old(budgets)
    {
      id := nextId;
      transactions := transactions + [t.(id := id)];
      nextId := nextId + 1;
    }

    /** `transaction.update` of row `k`. */
    method UpdateTransaction(k: nat, t: Transaction)
      requires k < |transactions|
      modifies this
      ensures transactions == old(transactions)[k := t]
      ensures users == old(users) && accounts == old(accounts) && budgets == old(budgets)
      ensures nextId == old(nextId)
    {
      transactions := transactions[k := t];
    }

    /** `account.update({ data: { balance } })`: an absolute write. */
    method SetBalance(a: nat, balance: int)
      requires a < |accounts|
      modifies this
      ensures accounts == old(accounts)[a := old(accounts)[a].(balance := balance)]
      ensures users == old(users) && transactions == old(transactions) && budgets == old(budgets)
      ensures nextId == old(nextId)
    {
      accounts := accounts[a := accounts[a].(balance := balance)];
    }

    /** `account.update({ data: { balance: { increment } } })` */
    method IncrementBalance(a: nat, delta: int)
      requires a < |accounts|
      modifies this
      ensures accounts == old(accounts)[a := old(accounts)[a].(balance := old(accounts)[a].balance + delta)]
      ensures users == old(users) && transactions == old(transactions) && budgets == old(budgets)
      ensures nextId == old(nextId)
    {
      accounts := accounts[a := accounts[a].(balance := accounts[a].balance + delta)];
    }

    /** `budget.update({ data: { lastAlertSent } })` */
    method SetLastAlertSent(b: nat, when: Date)
      requires b < |budgets|
      modifies this
      ensures budgets == old(budgets)[b := old(budgets)[b].(lastAlertSent := Some(when))]
      ensures users == old(users) && accounts == old(accounts) && transactions == old(transactions)
      ensures nextId == old(nextId)
    {
      budgets := budgets[b := budgets[b].(lastAlertSent := Some(when))];
    }
  }
}
