/** Bringing a store's schema up to the version a build ships, file by file, with other processes doing the same. */
module Migration {
  import opened Executions

  /** `applied` is what the schema is made of: the migration files whose statements have been committed, in order. */
  datatype Db = Db(table: Option<seq<nat>>, pragma: nat, applied: seq<nat>)

  function Rows(db: Db): seq<nat> {
    match db.table
    case None => []
    case Some(rows) => rows
  }

  /** The one row of the version table, or what the old runner left behind. */
  function Version(db: Db): nat {
    if Rows(db) == [] then db.pragma else Rows(db)[0]
  }

  function Upto(n: nat): (s: seq<nat>)
    ensures |s| == n && forall i :: 0 <= i < n ==> s[i] == i + 1
  {
    seq(n, i => i + 1)
  }

  /** Migrations 1 to the version, each once, in order. */
  predicate Consistent(db: Db) {
    |Rows(db)| <= 1 && db.applied == Upto(Version(db))
  }

  // ---- the statements ----

  function TableCreated(db: Db): Db {
    if db.table.None? then db.(table := Some([])) else db
  }

  /** INSERT OR IGNORE against the singleton key. */
  function Seeded(db: Db, version: nat): Db {
    if Rows(db) == [] then db.(table := Some([version])) else db
  }

  /** One transaction: the file's statements and the version bump together. */
  function Applied(db: Db, target: nat): Db {
    db.(applied := db.applied + [target],
        table := if Rows(db) == [] then db.table else Some(seq(|Rows(db)|, _ => target)))
  }

  lemma {:induction false} AppliedIsConsistent(db: Db)
    requires Consistent(db) && |Rows(db)| == 1
    ensures Consistent(Applied(db, Version(db) + 1)) && Version(Applied(db, Version(db) + 1)) == Version(db) + 1
    ensures |Rows(Applied(db, Version(db) + 1))| == 1
  {
    assert Upto(Version(db)) + [Version(db) + 1] == Upto(Version(db) + 1);
  }

  // ---- one process, on its own ----

  /** The first of the files `from` to `upto` that fails, or the one after them when none does. */
  function FirstFailing(fails: nat -> bool, from: nat, upto: nat): (n: nat)
    requires from <= upto + 1
    ensures from <= n <= upto + 1
    ensures forall m: nat :: from <= m < n ==> !fails(m)
    ensures n <= upto ==> fails(n)
    decreases upto + 1 - from
  {
    if from > upto || fails(from) then from else FirstFailing(fails, from + 1, upto)
  }

  datatype Outcome = Current | Corrupt | TooNew | FileFailed | Died

  class MigrationRunner {
    var db: Db
    const current: nat

    constructor (db: Db, current: nat)
      ensures this.db == db && this.current == current
    {
      this.db, this.current := db, current;
    }

    /**
     * Makes sure the version table exists and holds its one row; a table with more rows is refused. Reading takes a
     * step, and seeding an empty table another; it gives no version only for a refused table or for want of a step.
     */
    method BootstrapVersion(life: nat) returns (version: Option<nat>, left: nat)
      modifies this
      ensures db.pragma == old(db).pragma && db.applied == old(db).applied
      ensures |Rows(old(db))| > 1 ==> db == old(db) && version.None? && left == if life == 0 then 0 else life - 1
      ensures |Rows(old(db))| == 1 ==>
        && db == old(db)
        && (version.Some? <==> life >= 1) && (version.Some? ==> left == life - 1)
      ensures |Rows(old(db))| == 0 ==>
        && (version.Some? <==> life >= 2) && (version.Some? ==> left == life - 2)
        && Rows(db) == if life >= 2 then [old(db).pragma] else []
      ensures |Rows(old(db))| <= 1 ==> Version(db) == Version(old(db))
      ensures version.Some? ==> |Rows(db)| == 1 && version.value == Version(db)
    {
      left := life;
      if left == 0 {
        return None, 0;
      }
      left := left - 1;
      db := TableCreated(db);
      var rows := Rows(db);
      if |rows| > 1 {
        return None, left;
      }
      if |rows| == 1 {
        return Some(rows[0]), left;
      }
      if left == 0 {
        return None, 0;
      }
      left := left - 1;
      db := Seeded(db, db.pragma);
      version := Some(Rows(db)[0]);
    }

    /**
     * Applies the files the store lacks, in order; a failing file is rolled back and stops the run at the last good
     * version. With `v` the version it starts from and `stop` the first file that fails, it needs a step for each file
     * up to `stop` besides those of the bootstrap, and dies exactly when it is given fewer.
     */
    method RunMigrationsLocked(fails: nat -> bool, life: nat) returns (outcome: Outcome)
      modifies this
      ensures Consistent(old(db)) ==> Consistent(db)
      ensures |Rows(old(db))| > 1 ==> db == old(db) && outcome == if life == 0 then Died else Corrupt
      ensures |Rows(old(db))| <= 1 && Version(old(db)) > current ==>
        && Version(db) == Version(old(db)) && db.applied == old(db).applied
        && outcome == if life < StepsToRead(old(db)) then Died else TooNew
      ensures |Rows(old(db))| <= 1 && Version(old(db)) <= current ==>
        var v, given := Version(old(db)), life - StepsToRead(old(db));
        var stop := FirstFailing(fails, v + 1, current);
        && (outcome == Died <==> given < if stop <= current then stop - v else current - v)
        && (outcome == FileFailed <==> outcome != Died && exists m: nat :: v < m <= current && fails(m))
        && (outcome == Current <==> outcome != Died && forall m: nat :: v < m <= current ==> !fails(m))
        && Version(db) == (if outcome == Died then v + (if given < 0 then 0 else given) else stop - 1)
        && v <= Version(db) <= current
        && (forall m: nat :: v < m <= Version(db) ==> !fails(m))
    {
      var version, left := BootstrapVersion(life);
      if version.None? {
        return if |Rows(db)| > 1 && life > 0 then Corrupt else Died;
      }
      if version.value > current {
        return TooNew;
      }
      ghost var stop := FirstFailing(fails, version.value + 1, current);
      var target := version.value + 1;
      while target <= current
        invariant version.value + 1 <= target <= stop && |Rows(db)| == 1 && Version(db) == target - 1
        invariant left == life - StepsToRead(old(db)) - (target - version.value - 1)
        invariant Consistent(old(db)) ==> Consistent(db)
      {
        if left == 0 {
          return Died;
        }
        left := left - 1;
        if fails(target) {
          return FileFailed;
        }
        if Consistent(db) {
          AppliedIsConsistent(db);
        }
        db := Applied(db, target);
        target := target + 1;
      }
      outcome := Current;
    }
  }

  /** Reading the version takes one step, and seeding an empty table another. */
  function StepsToRead(db: Db): nat {
    if |Rows(db)| == 0 then 2 else 1
  }
}
