/**
  The migration to the canonical user ids of meta.sr.ht: references to a user's local id become
  references to the remote id, which becomes the primary key.  One migration is one transaction.
*/
module Migration {
  import opened Prelude

  // ---------------------------------------------------------------------------
  // Tables
  // ---------------------------------------------------------------------------

  /** A user's primary key and its other id: the remote one before the migration, the old one after it. */
  datatype User = User(id: Option<int>, other: Option<int>, data: string)

  /** A row of a table with a column that references a user. */
  datatype Row = Row(user: Option<int>, data: string)

  type Table = seq<Row>

  /** gql_user_wh_sub, job_group, job, oauthtoken and secret. */
  const TABLES: nat := 5

  datatype Db = Db(users: seq<User>, tables: seq<Table>)

  /** PRIMARY KEY (id): no nulls, no duplicates. */
  predicate PrimaryKey(users: seq<User>) {
    && (forall i | 0 <= i < |users| :: users[i].id.Some?)
    && forall i, j | 0 <= i < j < |users| :: users[i].id != users[j].id
  }

  /** UNIQUE on the other id: nulls do not collide. */
  predicate UniqueOther(users: seq<User>) {
    forall i, j | 0 <= i < j < |users| :: users[i].other.Some? ==> users[i].other != users[j].other
  }

  /** The place of the user with the id, or |users|. */
  function Lookup(users: seq<User>, id: int): (i: nat)
    ensures i <= |users|
    ensures i < |users| ==> users[i].id == Some(id)
    ensures forall k | 0 <= k < i :: users[k].id != Some(id)
  {
    if users == [] then 0
    else if users[0].id == Some(id) then 0
    else 1 + Lookup(users[1..], id)
  }

  /** FOREIGN KEY: a reference that is not null names a user. */
  predicate ForeignKey(users: seq<User>, table: Table) {
    forall r | 0 <= r < |table| :: table[r].user.Some? ==> Lookup(users, table[r].user.value) < |users|
  }

  predicate Constraints(db: Db) {
    && |db.tables| == TABLES && PrimaryKey(db.users) && UniqueOther(db.users)
    && forall t | 0 <= t < |db.tables| :: ForeignKey(db.users, db.tables[t])
  }

  lemma ForeignKeyNamesUsers(users: seq<User>, table: Table)
    ensures ForeignKey(users, table) <==>
      forall r | 0 <= r < |table| && table[r].user.Some? :: exists k :: 0 <= k < |users| && users[k].id == table[r].user
  {
    forall r | 0 <= r < |table| && table[r].user.Some?
      ensures Lookup(users, table[r].user.value) < |users| <==>
              exists k :: 0 <= k < |users| && users[k].id == table[r].user
    {
      var k := Lookup(users, table[r].user.value);
      assert k < |users| ==> users[k].id == table[r].user;
    }
  }

  /**
    What the constraints demand: five tables; no user without an id; one id, and one other id unless it is
    null, for one user; and no reference to an id that no user has.
  */
  lemma WhatConstraintsSay(db: Db)
    ensures Constraints(db) <==>
      && |db.tables| == 5
      && (forall i | 0 <= i < |db.users| :: db.users[i].id != None)
      && (forall i, k | 0 <= i < |db.users| && 0 <= k < |db.users| && i != k ::
            && db.users[i].id != db.users[k].id
            && (db.users[i].other == db.users[k].other ==> db.users[i].other == None))
      && forall t | 0 <= t < |db.tables| ::
           forall r | 0 <= r < |db.tables[t]| && db.tables[t][r].user.Some? ::
             exists k :: 0 <= k < |db.users| && db.users[k].id == db.tables[t][r].user
  {
    forall t | 0 <= t < |db.tables| {
      ForeignKeyNamesUsers(db.users, db.tables[t]);
    }
  }

  /** The user a row belongs to, by its place; the migration does not move users. */
  function Owner(users: seq<User>, row: Row): Option<nat> {
    if row.user.Some? && Lookup(users, row.user.value) < |users| then Some(Lookup(users, row.user.value)) else None
  }

  // ---------------------------------------------------------------------------
  // The statements
  // ---------------------------------------------------------------------------

  /** UPDATE t SET col = u.other FROM "user" u WHERE u.id = t.col, for one row. */
  function UpdateRow(users: seq<User>, row: Row): Row {
    var owner := Owner(users, row);
    if owner.Some? then row.(user := users[owner.value].other) else row
  }

  function UpdateTable(users: seq<User>, table: Table): Table {
    seq(|table|, r requires 0 <= r < |table| => UpdateRow(users, table[r]))
  }

  /** The two column renames. */
  function RenameColumns(users: seq<User>): seq<User> {
    seq(|users|, i requires 0 <= i < |users| => User(users[i].other, users[i].id, users[i].data))
  }

  function Rekeyed(db: Db): Db {
    Db(RenameColumns(db.users),
       seq(|db.tables|, t requires 0 <= t < |db.tables| => UpdateTable(db.users, db.tables[t])))
  }

  class Database {
    var users: seq<User>
    var tables: seq<Table>
    var canonical: bool  // which of the users' ids is the primary key: the remote one, or the local one

    constructor (users: seq<User>, tables: seq<Table>)
      ensures View() == Db(users, tables) && !canonical
    {
      this.users, this.tables, this.canonical := users, tables, false;
    }

    /** The id that meta.sr.ht gave the i-th user, and the one that this site did. */
    function RemoteId(i: nat): Option<int>
      requires i < |users|
      reads this
    {
      if canonical then users[i].id else users[i].other
    }

    function LocalId(i: nat): Option<int>
      requires i < |users|
      reads this
    {
      if canonical then users[i].other else users[i].id
    }

    function View(): Db
      reads this
    {
      Db(users, tables)
    }

    predicate AllRemote()
      reads this
    {
      forall i | 0 <= i < |users| :: RemoteId(i).Some?
    }

    predicate AllLocal()
      reads this
    {
      forall i | 0 <= i < |users| :: LocalId(i).Some?
    }

    lemma OtherIsRemote()
      requires !canonical
      ensures AllRemote() <==> AllHaveOther(users)
    {
      assert forall i | 0 <= i < |users| :: RemoteId(i) == users[i].other;
    }

    lemma OtherIsLocal()
      requires canonical
      ensures AllLocal() <==> AllHaveOther(users)
    {
      assert forall i | 0 <= i < |users| :: LocalId(i) == users[i].other;
    }

    /**
      What upgrade does with remote_id and downgrade with old_id as the other id: rewrites every
      table's references, swaps the columns, and adds the constraints again.  A constraint that does
      not hold rolls everything back.
    */
    method Rekey() returns (ok: bool)
      requires Constraints(View())
      modifies this`users, this`tables
      ensures ok <==> Constraints(Rekeyed(old(View())))
      ensures View() == if ok then Rekeyed(old(View())) else old(View())
    {
      var backup := tables;
      for t := 0 to |tables|
        invariant users == old(users) && |tables| == |backup|
        invariant forall k | 0 <= k < t :: tables[k] == UpdateTable(users, backup[k])
        invariant forall k | t <= k < |tables| :: tables[k] == backup[k]
      {
        tables := tables[t := UpdateTable(users, tables[t])];
      }
      var renamed := RenameColumns(users);
      assert Db(renamed, tables) == Rekeyed(old(View()));
      ok := PrimaryKey(renamed) && UniqueOther(renamed);
      for t := 0 to |tables|
        invariant ok <==>
          PrimaryKey(renamed) && UniqueOther(renamed) && forall k | 0 <= k < t :: ForeignKey(renamed, tables[k])
      {
        ok := ok && ForeignKey(renamed, tables[t]);
      }
      if ok {
        users := renamed;
      } else {
        tables := backup;
      }
    }

    /** Goes through exactly when every user has a remote id; no user's ids change. */
    method Upgrade() returns (ok: bool)
      requires Constraints(View()) && !canonical
      modifies this
      ensures ok <==> old(AllRemote())
      ensures View() == (if ok then Rekeyed(old(View())) else old(View())) && canonical == ok
      ensures |users| == |old(users)|
      ensures forall i | 0 <= i < |users| :: RemoteId(i) == old(RemoteId(i)) && LocalId(i) == old(LocalId(i))
    {
      RekeyWorks(View());
      OtherIsRemote();
      ok := Rekey();
      canonical := ok;
    }

    /** The way back goes through exactly when every user has a local id, as users of an upgraded database have. */
    method Downgrade() returns (ok: bool)
      requires Constraints(View()) && canonical
      modifies this
      ensures ok <==> old(AllLocal())
      ensures View() == (if ok then Rekeyed(old(View())) else old(View())) && canonical == !ok
      ensures |users| == |old(users)|
      ensures forall i | 0 <= i < |users| :: RemoteId(i) == old(RemoteId(i)) && LocalId(i) == old(LocalId(i))
    {
      RekeyWorks(View());
      OtherIsLocal();
      ok := Rekey();
      canonical := !ok;
    }
  }

  // ---------------------------------------------------------------------------
  // What the migration preserves
  // ---------------------------------------------------------------------------

  predicate AllHaveOther(users: seq<User>) {
    forall i | 0 <= i < |users| :: users[i].other.Some?
  }

  lemma LookupFinds(users: seq<User>, i: nat)
    requires PrimaryKey(users) && i < |users|
    ensures Lookup(users, users[i].id.value) == i
  {
  }

  lemma RenamedKeys(users: seq<User>)
    requires PrimaryKey(users) && UniqueOther(users)
    ensures AllHaveOther(users) <==> PrimaryKey(RenameColumns(users))
    ensures UniqueOther(RenameColumns(users)) && AllHaveOther(RenameColumns(users))
  {
    var renamed := RenameColumns(users);
    if PrimaryKey(renamed) {
      forall i | 0 <= i < |users| ensures users[i].other.Some? {
        assert renamed[i].id.Some?;
      }
    }
  }

  /** A row refers to the same user before and after, even when old and new ids overlap. */
  lemma OwnerIsKept(users: seq<User>, row: Row)
    requires PrimaryKey(users) && UniqueOther(users) && AllHaveOther(users)
    requires row.user.Some? ==> Lookup(users, row.user.value) < |users|
    ensures Owner(RenameColumns(users), UpdateRow(users, row)) == Owner(users, row)
    ensures UpdateRow(users, row).user.Some? <==> row.user.Some?
  {
    RenamedKeys(users);
    if row.user.Some? {
      LookupFinds(RenameColumns(users), Lookup(users, row.user.value));
    }
  }

  lemma RekeyWorks(db: Db)
    requires Constraints(db)
    ensures AllHaveOther(db.users) <==> Constraints(Rekeyed(db))
  {
    RenamedKeys(db.users);
    if AllHaveOther(db.users) {
      var db' := Rekeyed(db);
      forall t | 0 <= t < |db.tables| ensures ForeignKey(db'.users, db'.tables[t]) {
        forall r | 0 <= r < |db.tables[t]| && db'.tables[t][r].user.Some?
          ensures Lookup(db'.users, db'.tables[t][r].user.value) < |db'.users|
        {
          OwnerIsKept(db.users, db.tables[t][r]);
        }
      }
    }
  }

  /**
    The upgrade goes through exactly when every user has a remote id.  Then all constraints hold
    again, users only exchange their two ids, and every row of every table keeps its owner and data.
  */
  lemma UpgradePreservesMeaning(db: Db)
    requires Constraints(db)
    ensures AllHaveOther(db.users) <==> Constraints(Rekeyed(db))
    ensures AllHaveOther(db.users) ==>
      var db' := Rekeyed(db);
      && |db'.users| == |db.users| && |db'.tables| == |db.tables|
      && (forall i | 0 <= i < |db.users| ::
           && db'.users[i].id == db.users[i].other && db'.users[i].other == db.users[i].id
           && db'.users[i].data == db.users[i].data)
      && forall t | 0 <= t < |db.tables| ::
           && |db'.tables[t]| == |db.tables[t]|
           && forall r | 0 <= r < |db.tables[t]| ::
                && Owner(db'.users, db'.tables[t][r]) == Owner(db.users, db.tables[t][r])
                && db'.tables[t][r].data == db.tables[t][r].data
  {
    RekeyWorks(db);
    if AllHaveOther(db.users) {
      var db' := Rekeyed(db);
      forall t, r | 0 <= t < |db.tables| && 0 <= r < |db.tables[t]|
        ensures Owner(db'.users, db'.tables[t][r]) == Owner(db.users, db.tables[t][r])
      {
        OwnerIsKept(db.users, db.tables[t][r]);
      }
    }
  }

  lemma RowRoundTrip(users: seq<User>, row: Row)
    requires PrimaryKey(users) && UniqueOther(users) && AllHaveOther(users)
    requires row.user.Some? ==> Lookup(users, row.user.value) < |users|
    ensures UpdateRow(RenameColumns(users), UpdateRow(users, row)) == row
  {
    OwnerIsKept(users, row);
  }

  /** A downgrade after an upgrade goes through and restores every row of every table. */
  lemma DowngradeUndoesUpgrade(db: Db)
    requires Constraints(db) && AllHaveOther(db.users)
    ensures Constraints(Rekeyed(db)) && AllHaveOther(Rekeyed(db).users)
    ensures Rekeyed(Rekeyed(db)) == db
  {
    RekeyWorks(db);
    RenamedKeys(db.users);
    var db' := Rekeyed(db);
    var db'' := Rekeyed(db');
    assert db''.users == db.users;
    forall t | 0 <= t < |db.tables| ensures db''.tables[t] == db.tables[t] {
      forall r | 0 <= r < |db.tables[t]| ensures db''.tables[t][r] == db.tables[t][r] {
        RowRoundTrip(db.users, db.tables[t][r]);
      }
    }
  }
}
