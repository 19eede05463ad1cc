/** The three account tables, the constraints their migrations declare, and transactions:
    rows inserted by an open transaction stay private to it until it commits. */
module Postgres {
  import opened Wrappers
  import opened Uuids

  datatype UserRow = UserRow(id: Uuid, username: string)
  datatype WalletRow = WalletRow(userId: Uuid, coins: int, gems: int)
  datatype ProviderRow = ProviderRow(id: Uuid, userId: Uuid, provider: string, subject: string, email: Option<string>)

  datatype Tables = Tables(users: seq<UserRow>, wallets: seq<WalletRow>, providers: seq<ProviderRow>)

  // Committed rows, and the uncommitted rows of each open transaction.
  datatype Database = Database(committed: Tables, open: map<nat, Tables>)

  const NO_ROWS := Tables([], [], [])
  const MAX_USERNAME := 50
  const MAX_PROVIDER := 50
  const MAX_SUBJECT := 255

  function Plus(a: Tables, b: Tables): Tables {
    Tables(a.users + b.users, a.wallets + b.wallets, a.providers + b.providers)
  }

  function OneUser(row: UserRow): Tables { Tables([row], [], []) }
  function OneWallet(row: WalletRow): Tables { Tables([], [row], []) }
  function OneProvider(row: ProviderRow): Tables { Tables([], [], [row]) }

  // Two rows clash when a PRIMARY KEY or UNIQUE constraint forbids them together.
  predicate UsersClash(a: UserRow, b: UserRow) { a.id == b.id || a.username == b.username }
  predicate WalletsClash(a: WalletRow, b: WalletRow) { a.userId == b.userId }
  predicate ProvidersClash(a: ProviderRow, b: ProviderRow) {
    a.id == b.id || (a.provider == b.provider && a.subject == b.subject)
  }

  predicate RowsApart<R>(a: seq<R>, b: seq<R>, clash: (R, R) -> bool) {
    forall i, j :: 0 <= i < |a| && 0 <= j < |b| ==> !clash(a[i], b[j])
  }

  predicate Apart(a: Tables, b: Tables) {
    && RowsApart(a.users, b.users, UsersClash)
    && RowsApart(a.wallets, b.wallets, WalletsClash)
    && RowsApart(a.providers, b.providers, ProvidersClash)
  }

  predicate HasUser(t: Tables, id: Uuid) { exists i :: 0 <= i < |t.users| && t.users[i].id == id }
  predicate HasUsername(t: Tables, name: string) { exists i :: 0 <= i < |t.users| && t.users[i].username == name }

  // REFERENCES users(id), as the transaction sees it.
  predicate SeesUser(db: Database, tx: nat, id: Uuid)
    requires tx in db.open
  {
    HasUser(db.committed, id) || HasUser(db.open[tx], id)
  }

  function Begin(db: Database, tx: nat): Database {
    db.(open := db.open[tx := NO_ROWS])
  }

  /* INSERT of the rows in d: None is an error. A row that clashes with a committed row, or
     with the transaction's own rows, violates the constraint. One that clashes with another
     open transaction has to wait for it; an INSERT that runs while it would still have to
     wait stands for giving up (deadlock detection, cancelled request). */
  function Insert(db: Database, tx: nat, d: Tables): Option<Database> {
    if tx in db.open && Apart(db.committed, d) && (forall o :: o in db.open ==> Apart(db.open[o], d))
    then Some(db.(open := db.open[tx := Plus(db.open[tx], d)]))
    else None
  }

  function InsertUser(db: Database, tx: nat, row: UserRow): Option<Database> {
    if |row.username| <= MAX_USERNAME then Insert(db, tx, OneUser(row)) else None
  }

  function InsertWallet(db: Database, tx: nat, row: WalletRow): Option<Database> {
    if tx in db.open && SeesUser(db, tx, row.userId) then Insert(db, tx, OneWallet(row)) else None
  }

  function InsertProvider(db: Database, tx: nat, row: ProviderRow): Option<Database> {
    if tx in db.open && SeesUser(db, tx, row.userId) && |row.provider| <= MAX_PROVIDER && |row.subject| <= MAX_SUBJECT
    then Insert(db, tx, OneProvider(row))
    else None
  }

  function Commit(db: Database, tx: nat): Database {
    if tx in db.open then Database(Plus(db.committed, db.open[tx]), db.open - {tx}) else db
  }

  function Rollback(db: Database, tx: nat): Database {
    db.(open := db.open - {tx})
  }

  // SELECT ... WHERE provider = $1 AND provider_user_id = $2, over committed rows.
  function FindProvider(rows: seq<ProviderRow>, provider: string, subject: string): (r: Option<ProviderRow>)
    ensures r.Some? ==> r.value in rows && r.value.provider == provider && r.value.subject == subject
    ensures r.None? ==> forall i :: 0 <= i < |rows| ==> !(rows[i].provider == provider && rows[i].subject == subject)
  {
    if rows == [] then None
    else if rows[0].provider == provider && rows[0].subject == subject then Some(rows[0])
    else FindProvider(rows[1..], provider, subject)
  }

  // ---- What the constraints keep ----

  ghost predicate RowsUnique<R>(a: seq<R>, clash: (R, R) -> bool) {
    forall i, j :: 0 <= i < j < |a| ==> !clash(a[i], a[j])
  }

  ghost predicate Unique(t: Tables) {
    RowsUnique(t.users, UsersClash) && RowsUnique(t.wallets, WalletsClash) && RowsUnique(t.providers, ProvidersClash)
  }

  // Open transactions clash neither with committed rows nor with one another.
  ghost predicate Consistent(db: Database) {
    && Unique(db.committed)
    && (forall o :: o in db.open ==> Unique(db.open[o]) && Apart(db.committed, db.open[o]))
    && (forall o, p :: o in db.open && p in db.open && o != p ==> Apart(db.open[o], db.open[p]))
  }

  lemma RowsUniquePlus<R>(a: seq<R>, b: seq<R>, clash: (R, R) -> bool)
    requires RowsUnique(a, clash) && RowsUnique(b, clash) && RowsApart(a, b, clash)
    ensures RowsUnique(a + b, clash)
  {
  }

  lemma RowsApartPlus<R>(a: seq<R>, b: seq<R>, c: seq<R>, clash: (R, R) -> bool)
    requires RowsApart(a, b, clash) && RowsApart(a, c, clash)
    ensures RowsApart(a, b + c, clash)
  {
  }

  lemma UniquePlus(a: Tables, b: Tables)
    requires Unique(a) && Unique(b) && Apart(a, b)
    ensures Unique(Plus(a, b))
  {
    RowsUniquePlus(a.users, b.users, UsersClash);
    RowsUniquePlus(a.wallets, b.wallets, WalletsClash);
    RowsUniquePlus(a.providers, b.providers, ProvidersClash);
  }

  lemma ApartPlus(a: Tables, b: Tables, c: Tables)
    requires Apart(a, b) && Apart(a, c)
    ensures Apart(a, Plus(b, c)) && Apart(Plus(b, c), a)
  {
    RowsApartPlus(a.users, b.users, c.users, UsersClash);
    RowsApartPlus(a.wallets, b.wallets, c.wallets, WalletsClash);
    RowsApartPlus(a.providers, b.providers, c.providers, ProvidersClash);
    ApartSymmetric(a, Plus(b, c));
  }

  lemma ApartSymmetric(a: Tables, b: Tables)
    requires Apart(a, b)
    ensures Apart(b, a)
  {
  }

  /** An INSERT that is let through keeps every constraint satisfiable. */
  lemma InsertConsistent(db: Database, tx: nat, d: Tables)
    requires Consistent(db) && Unique(d) && Insert(db, tx, d).Some?
    ensures Consistent(Insert(db, tx, d).value)
  {
    UniquePlus(db.open[tx], d);
    ApartPlus(db.committed, db.open[tx], d);
    var next := Insert(db, tx, d).value;
    forall o, p | o in next.open && p in next.open && o != p
      ensures Apart(next.open[o], next.open[p])
    {
      if o == tx {
        ApartPlus(db.open[p], db.open[tx], d);
      } else if p == tx {
        ApartPlus(db.open[o], db.open[tx], d);
      }
    }
  }

  /** A commit cannot fail on a constraint: what the transaction holds already fits. */
  lemma CommitConsistent(db: Database, tx: nat)
    requires Consistent(db)
    ensures Consistent(Commit(db, tx))
  {
    if tx in db.open {
      UniquePlus(db.committed, db.open[tx]);
      forall o | o in db.open && o != tx
        ensures Apart(Plus(db.committed, db.open[tx]), db.open[o])
      {
        ApartSymmetric(db.committed, db.open[o]);
        ApartPlus(db.open[o], db.committed, db.open[tx]);
      }
    }
  }

  lemma BeginConsistent(db: Database, tx: nat)
    requires Consistent(db)
    ensures Consistent(Begin(db, tx))
  {
  }

  lemma RollbackConsistent(db: Database, tx: nat)
    requires Consistent(db)
    ensures Consistent(Rollback(db, tx))
  {
  }

  // ---- What an accepted INSERT means, row by row ----

  // The row is committed, or some open transaction holds it.
  ghost predicate UserStored(db: Database, x: UserRow) {
    x in db.committed.users || exists o :: o in db.open && x in db.open[o].users
  }

  ghost predicate WalletStored(db: Database, x: WalletRow) {
    x in db.committed.wallets || exists o :: o in db.open && x in db.open[o].wallets
  }

  ghost predicate ProviderStored(db: Database, x: ProviderRow) {
    x in db.committed.providers || exists o :: o in db.open && x in db.open[o].providers
  }

  // The transaction sees a user row with this id.
  ghost predicate UserVisible(db: Database, tx: nat, id: Uuid) {
    tx in db.open && exists u :: (u in db.committed.users || u in db.open[tx].users) && u.id == id
  }

  lemma VisibleIsSeen(db: Database, tx: nat, id: Uuid)
    requires tx in db.open
    ensures UserVisible(db, tx, id) <==> SeesUser(db, tx, id)
  {
    if SeesUser(db, tx, id) {
      if i :| 0 <= i < |db.committed.users| && db.committed.users[i].id == id {
        assert db.committed.users[i] in db.committed.users;
      } else {
        var j :| 0 <= j < |db.open[tx].users| && db.open[tx].users[j].id == id;
        assert db.open[tx].users[j] in db.open[tx].users;
      }
    }
  }

  lemma ApartOne<R>(a: seq<R>, row: R, clash: (R, R) -> bool)
    ensures RowsApart(a, [row], clash) <==> forall x :: x in a ==> !clash(x, row)
  {
    if RowsApart(a, [row], clash) {
      forall x | x in a ensures !clash(x, row) {
        var i :| 0 <= i < |a| && a[i] == x;
        assert !clash(a[i], [row][0]);
      }
    }
  }

  /** A user row is taken exactly when its name fits and no stored row has its id or its name. */
  lemma InsertUserMeans(db: Database, tx: nat, row: UserRow)
    ensures InsertUser(db, tx, row).Some? <==>
            && tx in db.open && |row.username| <= 50
            && forall x :: UserStored(db, x) ==> x.id != row.id && x.username != row.username
    ensures var r := InsertUser(db, tx, row);
            r.Some? ==>
              tx in db.open && r.value == db.(open := db.open[tx := db.open[tx].(users := db.open[tx].users + [row])])
  {
    ApartOne(db.committed.users, row, UsersClash);
    forall o | o in db.open
      ensures RowsApart(db.open[o].users, [row], UsersClash) <==>
          (forall x :: x in db.open[o].users ==> !UsersClash(x, row))
    {
      ApartOne(db.open[o].users, row, UsersClash);
    }
    if tx in db.open {
      var t := db.open[tx];
      assert t.wallets + [] == t.wallets && t.providers + [] == t.providers;
    }
  }

  /** A wallet is taken exactly when the transaction sees its user and no stored wallet is the user's. */
  lemma InsertWalletMeans(db: Database, tx: nat, row: WalletRow)
    ensures InsertWallet(db, tx, row).Some? <==>
            UserVisible(db, tx, row.userId) && forall x :: WalletStored(db, x) ==> x.userId != row.userId
    ensures var r := InsertWallet(db, tx, row);
            r.Some? ==>
              tx in db.open &&
                  r.value == db.(open := db.open[tx := db.open[tx].(wallets := db.open[tx].wallets + [row])])
  {
    ApartOne(db.committed.wallets, row, WalletsClash);
    forall o | o in db.open
      ensures RowsApart(db.open[o].wallets, [row], WalletsClash) <==>
          (forall x :: x in db.open[o].wallets ==> !WalletsClash(x, row))
    {
      ApartOne(db.open[o].wallets, row, WalletsClash);
    }
    if tx in db.open {
      var t := db.open[tx];
      VisibleIsSeen(db, tx, row.userId);
      assert t.users + [] == t.users && t.providers + [] == t.providers;
    }
  }

  /** A provider row is taken exactly when the transaction sees its user, its texts fit, and no stored row
      has its id or its provider and subject. */
  lemma InsertProviderMeans(db: Database, tx: nat, row: ProviderRow)
    ensures InsertProvider(db, tx, row).Some? <==>
            && UserVisible(db, tx, row.userId) && |row.provider| <= 50 && |row.subject| <= 255
            && forall x :: ProviderStored(db, x) ==>
                 x.id != row.id && !(x.provider == row.provider && x.subject == row.subject)
    ensures var r := InsertProvider(db, tx, row);
            r.Some? ==>
              tx in db.open &&
                  r.value == db.(open := db.open[tx := db.open[tx].(providers := db.open[tx].providers + [row])])
  {
    ApartOne(db.committed.providers, row, ProvidersClash);
    forall o | o in db.open
      ensures RowsApart(db.open[o].providers, [row], ProvidersClash) <==>
          (forall x :: x in db.open[o].providers ==> !ProvidersClash(x, row))
    {
      ApartOne(db.open[o].providers, row, ProvidersClash);
    }
    if tx in db.open {
      var t := db.open[tx];
      VisibleIsSeen(db, tx, row.userId);
      assert t.users + [] == t.users && t.wallets + [] == t.wallets;
    }
  }
}
