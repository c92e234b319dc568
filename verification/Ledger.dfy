/**
 Credits and their ledger. Every writer of `users.credits` posts one row; registration and the seeded
 administrator are the ways a user comes to exist.
 */
module Ledger {
  import opened Wrappers
  import opened Schema
  import opened QuotaWindow

  const ADMIN_CREDITS: int := 100

  /** What a user's balance starts from: only the seeded administrator has credits without a row. */
  function Opening(user: User): int {
    if user.role.Admin? then ADMIN_CREDITS else 0
  }

  function Total(rows: seq<Transaction>, which: Transaction -> bool): int {
    if rows == [] then 0 else
      var t := rows[|rows| - 1];
      Total(rows[..|rows| - 1], which) + if which(t) then t.amount else 0
  }

  function Count(rows: seq<Transaction>, which: Transaction -> bool): nat {
    if rows == [] then 0 else
      Count(rows[..|rows| - 1], which) + if which(rows[|rows| - 1]) then 1 else 0
  }

  function OfUser(u: Id): Transaction -> bool {
    (t: Transaction) => t.userId == u
  }

  function BonusOf(u: Id): Transaction -> bool {
    (t: Transaction) => t.userId == u && t.kind == WelcomeBonus
  }

  lemma TotalAppend(rows: seq<Transaction>, t: Transaction, which: Transaction -> bool)
    ensures Total(rows + [t], which) == Total(rows, which) + if which(t) then t.amount else 0
    ensures Count(rows + [t], which) == Count(rows, which) + if which(t) then 1 else 0
  {
    assert (rows + [t])[..|rows|] == rows;
  }

  lemma {:induction false} NoneCounted(rows: seq<Transaction>, which: Transaction -> bool)
    requires forall i | 0 <= i < |rows| :: !which(rows[i])
    ensures Total(rows, which) == 0 && Count(rows, which) == 0
  {
    if rows != [] {
      NoneCounted(rows[..|rows| - 1], which);
    }
  }

  // ---------- Posting ----------

  /** Changes a balance and records it. */
  function Post(db: Tables, u: Id, kind: TransactionType, amount: int,
                requestId: Option<Id>, intentId: Option<Id>, promo: Option<string>): Tables
    requires u in db.users
  {
    var balance := db.users[u].credits + amount;
    db.(users := db.users[u := db.users[u].(credits := balance)],
        transactions := db.transactions + [Transaction(u, kind, amount, balance, requestId, intentId, promo)])
  }

  /** The balance of `u` is its opening balance and its rows, and every row shows the balance up to it. */
  ghost predicate Balanced(db: Tables, u: Id)
    requires u in db.users
  {
    var opening, rows := Opening(db.users[u]), db.transactions;
    && db.users[u].credits == opening + Total(rows, OfUser(u))
    && db.users[u].credits >= 0
    && (forall k | 0 <= k < |rows| && rows[k].userId == u ::
          rows[k].balanceAfter == opening + Total(rows[..k + 1], OfUser(u)))
    && Count(rows, BonusOf(u)) == if db.users[u].role.Admin? then 0 else 1
  }

  ghost predicate Conserved(db: Tables) {
    && (forall u | u in db.users :: u < db.nextId && Balanced(db, u))
    && (forall k | 0 <= k < |db.transactions| :: db.transactions[k].userId in db.users)
  }

  /** Nothing that concerns the ledger changed. */
  ghost predicate SameLedger(a: Tables, b: Tables) {
    && b.transactions == a.transactions
    && b.users.Keys == a.users.Keys
    && (forall u | u in a.users :: b.users[u].credits == a.users[u].credits && b.users[u].role == a.users[u].role)
    && a.nextId <= b.nextId
  }

  lemma SameLedgerConserves(a: Tables, b: Tables)
    requires Conserved(a) && SameLedger(a, b)
    ensures Conserved(b)
  {
    forall u | u in b.users ensures u < b.nextId && Balanced(b, u) {
      assert u in a.users && Balanced(a, u);
    }
  }

  lemma NeverNegative(db: Tables, u: Id)
    requires Conserved(db) && u in db.users
    ensures db.users[u].credits >= 0
  {
    assert Balanced(db, u);
  }

  lemma PostBalances(db: Tables, u: Id, kind: TransactionType, amount: int, requestId: Option<Id>,
                     intentId: Option<Id>, promo: Option<string>, v: Id)
    requires Conserved(db) && u in db.users && v in db.users
    requires kind != WelcomeBonus && db.users[u].credits + amount >= 0
    ensures Balanced(Post(db, u, kind, amount, requestId, intentId, promo), v)
  {
    var after := Post(db, u, kind, amount, requestId, intentId, promo);
    var rows, t := db.transactions, after.transactions[|db.transactions|];
    assert Balanced(db, v);
    TotalAppend(rows, t, OfUser(v));
    TotalAppend(rows, t, BonusOf(v));
    forall k | 0 <= k <= |rows| && after.transactions[k].userId == v
      ensures after.transactions[k].balanceAfter ==
                Opening(after.users[v]) + Total(after.transactions[..k + 1], OfUser(v))
    {
      if k < |rows| {
        assert after.transactions[..k + 1] == rows[..k + 1];
      } else {
        assert after.transactions[..k + 1] == after.transactions;
      }
    }
  }

  lemma PostConserves(db: Tables, u: Id, kind: TransactionType, amount: int,
                      requestId: Option<Id>, intentId: Option<Id>, promo: Option<string>)
    requires Conserved(db) && u in db.users && kind != WelcomeBonus && db.users[u].credits + amount >= 0
    ensures Conserved(Post(db, u, kind, amount, requestId, intentId, promo))
  {
    hide Balanced;
    forall v | v in db.users ensures Balanced(Post(db, u, kind, amount, requestId, intentId, promo), v) {
      PostBalances(db, u, kind, amount, requestId, intentId, promo, v);
    }
  }

  // ---------- Registration ----------

  ghost predicate Registered(users: map<Id, User>, contact: Contact) {
    exists u :: u in users && users[u].contact == contact
  }

  function NewUser(contact: Contact, role: Role, plan: Plan, credits: int): User {
    User(contact, role, plan, credits, 0, None, None)
  }

  /** A new user row; its key is `db.nextId`. */
  function CreateUser(db: Tables, user: User): Tables {
    db.(users := db.users[db.nextId := user], nextId := db.nextId + 1)
  }

  /** A new regular user and the welcome bonus, in one transaction. */
  ghost function Register(db: Tables, contact: Contact, bonus: int): Finished<Id> {
    if Registered(db.users, contact) then Finished(db, Raised(UserAlreadyExists))
    else
      var created := CreateUser(db, NewUser(contact, Regular, Free, 0));
      if bonus <= 0 then RolledBack(db, created, InvalidAmount)
      else Finished(Post(created, db.nextId, WelcomeBonus, bonus, None, None, None), Returned(db.nextId))
  }

  ghost function SeedAdmin(db: Tables, address: string): Tables {
    if Registered(db.users, Email(address)) then db
    else CreateUser(db, NewUser(Email(address), Admin, Pro, ADMIN_CREDITS))
  }

  method CreateUserRow(db: Database, user: User) returns (id: Id)
    modifies db
    ensures db.Snapshot() == CreateUser(old(db.Snapshot()), user) && id == old(db.nextId)
  {
    id := db.NextId();
    db.users := db.users[id := user];
  }

  method GrantWelcomeBonus(db: Database, userId: Id, amount: int)
    requires userId in db.users
    modifies db
    ensures db.Snapshot() == Post(old(db.Snapshot()), userId, WelcomeBonus, amount, None, None, None)
  {
    var user := db.users[userId];
    user := user.(credits := user.credits + amount);
    db.users := db.users[userId := user];
    db.transactions := db.transactions + [Transaction(userId, WelcomeBonus, amount, user.credits, None, None, None)];
  }

  method RegisterApiUser(db: Database, address: string, bonus: int) returns (r: Outcome<Id, Error>)
    modifies db
    ensures Finished(db.Snapshot(), r) == Register(old(db.Snapshot()), Email(address), bonus)
  {
    var before := db.Snapshot();
    if exists u :: u in db.users && db.users[u].contact == Email(address) {
      return Raised(UserAlreadyExists);
    }
    var id := CreateUserRow(db, NewUser(Email(address), Regular, Free, 0));
    if bonus <= 0 {
      db.Rollback(before);
      return Raised(InvalidAmount);
    }
    GrantWelcomeBonus(db, id, bonus);
    return Returned(id);
  }

  /** A second `/start` finds the user and grants nothing. */
  method GetOrCreateTelegramUser(db: Database, telegramId: int, bonus: int) returns (r: Outcome<Id, Error>)
    modifies db
    ensures !old(Registered(db.users, Telegram(telegramId))) ==>
              Finished(db.Snapshot(), r) == Register(old(db.Snapshot()), Telegram(telegramId), bonus)
    ensures old(Registered(db.users, Telegram(telegramId))) ==>
              && db.Snapshot() == old(db.Snapshot())
              && r.Returned? && r.value in db.users && db.users[r.value].contact == Telegram(telegramId)
  {
    var before := db.Snapshot();
    if exists u :: u in db.users && db.users[u].contact == Telegram(telegramId) {
      var existing :| existing in db.users && db.users[existing].contact == Telegram(telegramId);
      return Returned(existing);
    }
    var id := CreateUserRow(db, NewUser(Telegram(telegramId), Regular, Free, 0));
    if bonus <= 0 {
      db.Rollback(before);
      return Raised(InvalidAmount);
    }
    GrantWelcomeBonus(db, id, bonus);
    return Returned(id);
  }

  /** A contact belongs to one user. */
  ghost predicate UniqueContacts(users: map<Id, User>) {
    forall u, v | u in users && v in users && users[u].contact == users[v].contact :: u == v
  }

  lemma OldUserUnaffected(db: Tables, user: User, bonus: int, v: Id)
    requires Conserved(db) && v in db.users
    ensures Balanced(CreateUser(db, user), v)
    ensures Balanced(Post(CreateUser(db, user), db.nextId, WelcomeBonus, bonus, None, None, None), v)
  {
    var created := CreateUser(db, user);
    var after := Post(created, db.nextId, WelcomeBonus, bonus, None, None, None);
    assert v != db.nextId && Balanced(db, v);
    var rows, t := db.transactions, after.transactions[|db.transactions|];
    TotalAppend(rows, t, OfUser(v));
    TotalAppend(rows, t, BonusOf(v));
    forall k | 0 <= k <= |rows| && after.transactions[k].userId == v
      ensures after.transactions[k].balanceAfter ==
                Opening(after.users[v]) + Total(after.transactions[..k + 1], OfUser(v))
    {
      assert after.transactions[..k + 1] == rows[..k + 1];
    }
  }

  lemma NewUserHasNoRows(db: Tables)
    requires Conserved(db)
    ensures Total(db.transactions, OfUser(db.nextId)) == 0 && Count(db.transactions, BonusOf(db.nextId)) == 0
    ensures forall k | 0 <= k < |db.transactions| :: db.transactions[k].userId != db.nextId
  {
    forall k | 0 <= k < |db.transactions| ensures db.transactions[k].userId != db.nextId {
      assert db.transactions[k].userId in db.users;
    }
    NoneCounted(db.transactions, OfUser(db.nextId));
    NoneCounted(db.transactions, BonusOf(db.nextId));
  }

  lemma NewUserBalanced(db: Tables, user: User, bonus: int)
    requires Conserved(db) && user.role.Regular? && user.credits == 0 && bonus > 0
    ensures Balanced(Post(CreateUser(db, user), db.nextId, WelcomeBonus, bonus, None, None, None), db.nextId)
  {
    hide Total, Count, Conserved;
    var after := Post(CreateUser(db, user), db.nextId, WelcomeBonus, bonus, None, None, None);
    var rows, t := db.transactions, after.transactions[|db.transactions|];
    assert after.transactions == rows + [t];
    NewUserHasNoRows(db);
    TotalAppend(rows, t, OfUser(db.nextId));
    TotalAppend(rows, t, BonusOf(db.nextId));
    forall k | 0 <= k < |after.transactions| && after.transactions[k].userId == db.nextId
      ensures after.transactions[k].balanceAfter == Total(after.transactions[..k + 1], OfUser(db.nextId))
    {
      assert k == |rows|;
      assert after.transactions[..k + 1] == after.transactions;
    }
  }

  lemma RegisterConserves(db: Tables, contact: Contact, bonus: int)
    requires Conserved(db) && UniqueContacts(db.users)
    ensures Conserved(Register(db, contact, bonus).db) && UniqueContacts(Register(db, contact, bonus).db.users)
  {
    hide Balanced;
    var after := Register(db, contact, bonus).db;
    if !Registered(db.users, contact) && bonus > 0 {
      NewUserBalanced(db, NewUser(contact, Regular, Free, 0), bonus);
      forall v | v in db.users ensures Balanced(after, v) {
        OldUserUnaffected(db, NewUser(contact, Regular, Free, 0), bonus, v);
      }
    } else {
      SameLedgerConserves(db, after);
    }
  }

  lemma SeedAdminConserves(db: Tables, address: string)
    requires Conserved(db) && UniqueContacts(db.users)
    ensures Conserved(SeedAdmin(db, address)) && UniqueContacts(SeedAdmin(db, address).users)
  {
    if !Registered(db.users, Email(address)) {
      var after := SeedAdmin(db, address);
      NewUserHasNoRows(db);
      assert Balanced(after, db.nextId);
      forall v | v in db.users ensures Balanced(after, v) {
        OldUserUnaffected(db, NewUser(Email(address), Admin, Pro, ADMIN_CREDITS), 1, v);
      }
    }
  }

  /** Who becomes a user, with which balance and row; a known contact and a bonus that is none are refused. */
  lemma RegisterTerms(db: Tables, contact: Contact, bonus: int)
    ensures var r, known := Register(db, contact, bonus), exists u :: u in db.users && db.users[u].contact == contact;
      && (known ==> r == Finished(db, Raised(UserAlreadyExists)))
      && (!known && bonus <= 0 ==> r == Finished(db.(nextId := db.nextId + 1), Raised(InvalidAmount)))
      && (!known && bonus > 0 ==>
            && r.outcome == Returned(db.nextId)
            && r.db.users == db.users[db.nextId := User(contact, Regular, Free, bonus, 0, None, None)]
            && r.db.transactions ==
               db.transactions + [Transaction(db.nextId, WelcomeBonus, bonus, bonus, None, None, None)])
  {
    var user := NewUser(contact, Regular, Free, 0);
    assert db.users[db.nextId := user][db.nextId := user.(credits := bonus)] ==
           db.users[db.nextId := user.(credits := bonus)];
  }

  /** The administrator of a fresh database: the pro plan, a hundred credits, no row; a known address does nothing. */
  lemma SeedAdminTerms(db: Tables, address: string)
    ensures var after := SeedAdmin(db, address);
      var known := exists u :: u in db.users && db.users[u].contact == Email(address);
      && (known ==> after == db)
      && (!known ==>
            && after.users == db.users[db.nextId := User(Email(address), Admin, Pro, 100, 0, None, None)]
            && after.transactions == db.transactions)
  {
  }

  // ---------- Adjustment by an administrator ----------

  function AdjustBalance(db: Tables, u: Id, amount: int): Finished<int> {
    if u !in db.users then Finished(db, Raised(NotFound))
    else if db.users[u].credits + amount < 0 then Finished(db, Raised(Conflict))
    else
      var after := Post(db, u, Adjustment, amount, None, None, None);
      Finished(after, Returned(after.users[u].credits))
  }

  /** By how much a balance moves, and when it does not. */
  lemma AdjustTerms(db: Tables, u: Id, amount: int)
    ensures var r := AdjustBalance(db, u, amount);
      && (u !in db.users ==> r == Finished(db, Raised(NotFound)))
      && (u in db.users && db.users[u].credits + amount < 0 ==> r == Finished(db, Raised(Conflict)))
      && (u in db.users && db.users[u].credits + amount >= 0 ==>
            var balance := db.users[u].credits + amount;
            && r.outcome == Returned(balance)
            && r.db.users == db.users[u := db.users[u].(credits := balance)]
            && r.db.transactions ==
               db.transactions + [Transaction(u, Adjustment, amount, balance, None, None, None)])
  {
  }

  method AdjustUserBalance(db: Database, u: Id, amount: int) returns (r: Outcome<int, Error>)
    modifies db
    ensures Finished(db.Snapshot(), r) == AdjustBalance(old(db.Snapshot()), u, amount)
  {
    var before := db.Snapshot();
    if u !in db.users {
      return Raised(NotFound);
    }
    db.users := db.users[u := db.users[u].(credits := db.users[u].credits + amount)];
    if db.users[u].credits < 0 {
      db.Rollback(before);
      return Raised(Conflict);
    }
    db.transactions := db.transactions +
      [Transaction(u, Adjustment, amount, db.users[u].credits, None, None, None)];
    return Returned(db.users[u].credits);
  }
}
