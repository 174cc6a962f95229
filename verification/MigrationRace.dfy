/**
 * Any number of processes migrating one store at once, of any builds, each free to die at any step or have a file
 * fail.
 */
module MigrationRace {
  import opened Executions
  import opened Migration

  type Pid = nat

  datatype Pc =
    | Waiting
    | Creating
    | Reading
    | Seeding(prior: nat)
    | ReadingBack
    | Checking(version: nat)
    | Applying(target: nat)
    | Stopped(outcome: Outcome)

  /** `current` is the version the process ships; `locks` is false for a caller without a store directory. */
  datatype Process = Process(current: nat, locks: bool, pc: Pc)

  datatype System = System(db: Db, lock: Option<Pid>, procs: map<Pid, Process>)

  datatype Action = Acquire | Create | Read | Seed | ReadBack | Check | Apply | FileFails | Die

  /** Whether a process can take the step, the store lock aside. */
  predicate Ready(proc: Process, db: Db, a: Action) {
    match a
    case Acquire => proc.pc.Waiting?
    case Create => proc.pc.Creating?
    case Read => proc.pc.Reading?
    case Seed => proc.pc.Seeding?
    case ReadBack => proc.pc.ReadingBack? && Rows(db) != []
    case Check => proc.pc.Checking?
    case Apply => proc.pc.Applying?
    case FileFails => proc.pc.Applying?
    case Die => !proc.pc.Stopped?
  }

  predicate Enabled(s: System, p: Pid, a: Action) {
    && p in s.procs
    && Ready(s.procs[p], s.db, a)
    && (a.Acquire? && s.procs[p].locks ==> s.lock.None?)
  }

  function AfterRead(db: Db): Pc {
    if |Rows(db)| > 1 then Stopped(Corrupt) else if |Rows(db)| == 1 then Checking(Rows(db)[0]) else Seeding(db.pragma)
  }

  function AfterCheck(version: nat, current: nat): Pc {
    if version > current then Stopped(TooNew)
    else if version == current then Stopped(Current)
    else Applying(version + 1)
  }

  function AfterApply(target: nat, current: nat): Pc {
    if target >= current then Stopped(Current) else Applying(target + 1)
  }

  /** Where the step takes the database and the process. */
  function Step(proc: Process, db: Db, a: Action): (Db, Pc)
    requires Ready(proc, db, a)
  {
    match a
    case Acquire => (db, Creating)
    case Create => (TableCreated(db), Reading)
    case Read => (db, AfterRead(db))
    case Seed => (Seeded(db, proc.pc.prior), ReadingBack)
    case ReadBack => (db, Checking(Rows(db)[0]))
    case Check => (db, AfterCheck(proc.pc.version, proc.current))
    case Apply => (Applied(db, proc.pc.target), AfterApply(proc.pc.target, proc.current))
    case FileFails => (db, Stopped(FileFailed))
    case Die => (db, Stopped(Died))
  }

  /** The lock is taken by the first step of a process that locks, and given back when the process stops. */
  function Do(s: System, p: Pid, a: Action): System
    requires Enabled(s, p, a)
  {
    var (db, pc) := Step(s.procs[p], s.db, a);
    var lock :=
      if a.Acquire? && s.procs[p].locks then Some(p) else if pc.Stopped? && s.lock == Some(p) then None else s.lock;
    System(db, lock, s.procs[p := s.procs[p].(pc := pc)])
  }

  ghost predicate Initial(s: System) {
    s.lock == None && Consistent(s.db) && forall p :: p in s.procs ==> s.procs[p].pc == Waiting && s.procs[p].locks
  }

  predicate Inside(pc: Pc) {
    !pc.Waiting? && !pc.Stopped?
  }

  /** What the holder of the lock knows about the store. */
  predicate Knows(db: Db, proc: Process) {
    match proc.pc
    case Seeding(prior) => Rows(db) == [] && prior == db.pragma
    case ReadingBack => |Rows(db)| == 1
    case Checking(version) => |Rows(db)| == 1 && version == Version(db)
    case Applying(target) => |Rows(db)| == 1 && target == Version(db) + 1 && target <= proc.current
    case Stopped(outcome) => outcome.Current? ==> Version(db) >= proc.current
    case _ => true
  }

  ghost predicate Inv(s: System) {
    && Consistent(s.db)
    && (forall p :: p in s.procs ==> s.procs[p].locks && Knows(s.db, s.procs[p]))
    && (forall p :: p in s.procs && Inside(s.procs[p].pc) ==> s.lock == Some(p))
    && (s.lock.Some? ==> s.lock.value in s.procs && Inside(s.procs[s.lock.value].pc))
  }

  lemma {:induction false} StartsWell(s: System)
    requires Initial(s)
    ensures Inv(s)
  {
  }

  /** The holder moves the store; everybody else only remembers having finished, which a growing version keeps true. */
  lemma {:induction false} EveryStepKeeps(s: System, p: Pid, a: Action)
    requires Inv(s) && Enabled(s, p, a)
    ensures Inv(Do(s, p, a)) && Version(Do(s, p, a).db) >= Version(s.db)
  {
    if a.Apply? {
      AppliedIsConsistent(s.db);
    }
    var s' := Do(s, p, a);
    assert Version(s'.db) >= Version(s.db) && Consistent(s'.db);
    forall q | q in s.procs && q != p
      ensures Knows(s'.db, s.procs[q])
    {
      assert Knows(s.db, s.procs[q]);
      if Inside(s.procs[p].pc) {
        assert !Inside(s.procs[q].pc);
      }
    }
  }

  /** A process that finishes leaves the store at exactly the version it ships. */
  lemma {:induction false} FinishingLeavesTheShippedVersion(s: System, p: Pid, a: Action)
    requires Inv(s) && Enabled(s, p, a) && Do(s, p, a).procs[p].pc == Stopped(Current)
    ensures Version(Do(s, p, a).db) == s.procs[p].current
    ensures Do(s, p, a).db.applied == Upto(s.procs[p].current)
  {
    assert Knows(s.db, s.procs[p]);
    EveryStepKeeps(s, p, a);
    if a.Apply? {
      AppliedIsConsistent(s.db);
    }
  }

  /** No step of a process older than the store moves the schema or its version. */
  lemma {:induction false} NewerStoreIsLeftAlone(s: System, p: Pid, a: Action)
    requires Inv(s) && Enabled(s, p, a) && s.procs[p].current < Version(s.db)
    ensures Version(Do(s, p, a).db) == Version(s.db) && Do(s, p, a).db.applied == s.db.applied
    ensures Do(s, p, a).procs[p].pc != Stopped(Current)
  {
    assert Knows(s.db, s.procs[p]);
  }

  datatype Move = Move(p: Pid, a: Action)

  ghost predicate IsTrace(states: seq<System>, moves: seq<Move>) {
    && |states| == |moves| + 1 && Initial(states[0])
    && forall i :: 0 <= i < |moves| ==>
         Enabled(states[i], moves[i].p, moves[i].a) && states[i + 1] == Do(states[i], moves[i].p, moves[i].a)
  }

  /**
   * Over every race: the schema is migrations 1 to the version, once each and in order; the version never goes back;
   * and every process that has finished did so at or below the version there now.
   */
  lemma {:induction false} EveryRaceIsSafe(states: seq<System>, moves: seq<Move>, m: nat, n: nat)
    requires IsTrace(states, moves) && m <= n < |states|
    ensures Inv(states[n]) && Version(states[m].db) <= Version(states[n].db)
    ensures states[n].db.applied == Upto(Version(states[n].db)) && |Rows(states[n].db)| <= 1
    ensures forall p :: p in states[n].procs && states[n].procs[p].pc == Stopped(Current) ==>
      Version(states[n].db) >= states[n].procs[p].current
  {
    hide Do, Enabled;
    if n == 0 {
      StartsWell(states[0]);
    } else {
      EveryRaceIsSafe(states, moves, if m == n then n - 1 else m, n - 1);
      EveryStepKeeps(states[n - 1], moves[n - 1].p, moves[n - 1].a);
    }
    forall p | p in states[n].procs && states[n].procs[p].pc == Stopped(Current)
      ensures Version(states[n].db) >= states[n].procs[p].current
    {
      assert Knows(states[n].db, states[n].procs[p]);
    }
  }

  // ---- without the lock ----

  /** Even with no lock held by anybody the version table never gets a second row. */
  lemma {:induction false} OneRowWithoutTheLock(s: System, p: Pid, a: Action)
    requires |Rows(s.db)| <= 1 && Enabled(s, p, a)
    ensures |Rows(Do(s, p, a).db)| <= 1
    ensures Rows(s.db) != [] ==> Rows(Do(s, p, a).db) != []
  {
  }

  ghost predicate IsFreeRun(states: seq<System>, moves: seq<Move>) {
    && |states| == |moves| + 1
    && forall i :: 0 <= i < |moves| ==>
         Enabled(states[i], moves[i].p, moves[i].a) && states[i + 1] == Do(states[i], moves[i].p, moves[i].a)
  }

  /** Over whole runs of processes that take no lock. */
  lemma {:induction false} NeverTwoRows(states: seq<System>, moves: seq<Move>, n: nat)
    requires IsFreeRun(states, moves) && n < |states| && |Rows(states[0].db)| <= 1
    ensures |Rows(states[n].db)| <= 1
  {
    hide Do, Enabled;
    if n > 0 {
      NeverTwoRows(states, moves, n - 1);
      OneRowWithoutTheLock(states[n - 1], moves[n - 1].p, moves[n - 1].a);
    }
  }

  function Unlocked(current: nat, pc: Pc): Process {
    Process(current, false, pc)
  }

  /** Two processes of version 1 that take no lock. */
  function Pair(db: Db, first: Pc, second: Pc): System {
    System(db, None, map[0 := Unlocked(1, first), 1 := Unlocked(1, second)])
  }

  /** Both processes make the same kind of step, the first one first. */
  lemma {:induction false} BothMove(db: Db, pc: Pc, a: Action, middle: Db, db': Db, pc': Pc)
    requires Ready(Unlocked(1, pc), db, a) && Step(Unlocked(1, pc), db, a) == (middle, pc')
    requires Ready(Unlocked(1, pc), middle, a) && Step(Unlocked(1, pc), middle, a) == (db', pc')
    ensures IsFreeRun([Pair(db, pc, pc), Pair(middle, pc', pc), Pair(db', pc', pc')], [Move(0, a), Move(1, a)])
  {
    hide Ready, Step;
    var first, second, third := Pair(db, pc, pc), Pair(middle, pc', pc), Pair(db', pc', pc');
    assert first.procs[0] == Unlocked(1, pc) && second.procs[1] == Unlocked(1, pc);
    assert first.procs[0 := Unlocked(1, pc')] == second.procs;
    assert second.procs[1 := Unlocked(1, pc')] == third.procs;
  }

  /** A run goes on where another ended. */
  lemma {:induction false} RunsJoin(states: seq<System>, moves: seq<Move>, states': seq<System>, moves': seq<Move>)
    requires IsFreeRun(states, moves) && IsFreeRun(states', moves') && states[|moves|] == states'[0]
    ensures IsFreeRun(states + states'[1..], moves + moves')
    ensures (states + states'[1..])[0] == states[0] && (states + states'[1..])[|moves + moves'|] == states'[|moves'|]
  {
    var all, ms := states + states'[1..], moves + moves';
    forall i | 0 <= i < |ms|
      ensures Enabled(all[i], ms[i].p, ms[i].a) && all[i + 1] == Do(all[i], ms[i].p, ms[i].a)
    {
      if i >= |moves| {
        assert all[i] == states'[i - |moves|] && all[i + 1] == states'[i - |moves| + 1];
      }
    }
  }

  lemma {:induction false} BothReadVersionZero() returns (states: seq<System>, moves: seq<Move>)
    ensures IsFreeRun(states, moves) && states[0] == Pair(Db(None, 0, []), Waiting, Waiting)
    ensures states[|moves|] == Pair(Db(Some([0]), 0, []), Applying(1), Applying(1))
  {
    var empty, created, seeded := Db(None, 0, []), Db(Some([]), 0, []), Db(Some([0]), 0, []);
    states, moves := [Pair(empty, Waiting, Waiting)], [];
    hide IsFreeRun, Pair;
    states, moves := Then(states, moves, empty, Waiting, Acquire, empty, empty, Creating);
    states, moves := Then(states, moves, empty, Creating, Create, created, created, Reading);
    states, moves := Then(states, moves, created, Reading, Read, created, created, Seeding(0));
    states, moves := Then(states, moves, created, Seeding(0), Seed, seeded, seeded, ReadingBack);
    states, moves := Then(states, moves, seeded, ReadingBack, ReadBack, seeded, seeded, Checking(0));
    states, moves := Then(states, moves, seeded, Checking(0), Check, seeded, seeded, Applying(1));
  }

  /**
   * Without the lock the schema itself is not safe: on a fresh database two processes that start together both read
   * version 0 and both apply migration 1. (Where the file's own statements collide, the second fails instead.)
   */
  lemma {:induction false} WithoutTheLockFilesRepeat() returns (states: seq<System>, moves: seq<Move>)
    ensures IsFreeRun(states, moves) && states[0] == Pair(Db(None, 0, []), Waiting, Waiting)
    ensures states[|moves|].db.applied == [1, 1]
  {
    states, moves := BothReadVersionZero();
    hide IsFreeRun;
    var seeded := Db(Some([0]), 0, []);
    var once := Applied(seeded, 1);
    var twice := Applied(once, 1);
    states, moves := Then(states, moves, seeded, Applying(1), Apply, once, twice, Stopped(Current));
    assert twice.applied == [1, 1];
  }

  lemma {:induction false} Then(states: seq<System>, moves: seq<Move>, db: Db, pc: Pc, a: Action, middle: Db, db': Db,
                                pc': Pc)
    returns (states': seq<System>, moves': seq<Move>)
    requires IsFreeRun(states, moves) && states[|moves|] == Pair(db, pc, pc)
    requires Ready(Unlocked(1, pc), db, a) && Step(Unlocked(1, pc), db, a) == (middle, pc')
    requires Ready(Unlocked(1, pc), middle, a) && Step(Unlocked(1, pc), middle, a) == (db', pc')
    ensures IsFreeRun(states', moves') && states'[0] == states[0] && states'[|moves'|] == Pair(db', pc', pc')
  {
    BothMove(db, pc, a, middle, db', pc');
    var more := [Pair(db, pc, pc), Pair(middle, pc', pc), Pair(db', pc', pc')];
    hide Do, Enabled, Ready, Step;
    RunsJoin(states, moves, more, [Move(0, a), Move(1, a)]);
    states', moves' := states + more[1..], moves + [Move(0, a), Move(1, a)];
  }

  /**
   * A process that has not stopped may die wherever it is, and a file it is about to apply may fail; neither moves
   * the store.
   */
  lemma {:induction false} AnythingCanGoWrong(s: System, p: Pid)
    requires Inv(s) && p in s.procs && !s.procs[p].pc.Stopped?
    ensures Enabled(s, p, Die) && Do(s, p, Die).db == s.db && Do(s, p, Die).procs[p].pc == Stopped(Died)
    ensures s.procs[p].pc.Applying? ==>
      && Enabled(s, p, FileFails) && Do(s, p, FileFails).db == s.db
      && Do(s, p, FileFails).procs[p].pc == Stopped(FileFailed)
    ensures Do(s, p, Die).lock != Some(p)
  {
  }

  // ---- a process that nobody disturbs ----

  ghost predicate IsRunOf(states: seq<System>, moves: seq<Move>, p: Pid, fails: nat -> bool, s: System, t: System) {
    && IsFreeRun(states, moves) && states[0] == s && states[|moves|] == t
    && (forall i :: 0 <= i < |moves| ==> moves[i].p == p && !moves[i].a.Die?)
    && (forall i :: 0 <= i < |moves| ==> Respects(states[i], moves[i], fails))
  }

  /** A file is applied if it does not fail, and fails if it does. */
  predicate Respects(s: System, m: Move, fails: nat -> bool) {
    && (m.a.Apply? ==> m.p in s.procs && s.procs[m.p].pc.Applying? && !fails(s.procs[m.p].pc.target))
    && (m.a.FileFails? ==> m.p in s.procs && s.procs[m.p].pc.Applying? && fails(s.procs[m.p].pc.target))
  }

  lemma {:induction false} GoesOn(states: seq<System>, moves: seq<Move>, p: Pid, fails: nat -> bool, s: System,
                                  t: System, a: Action)
    returns (states': seq<System>, moves': seq<Move>)
    requires IsRunOf(states, moves, p, fails, s, t) && Enabled(t, p, a) && !a.Die? && Respects(t, Move(p, a), fails)
    ensures IsRunOf(states', moves', p, fails, s, Do(t, p, a))
  {
    states', moves' := states + [Do(t, p, a)], moves + [Move(p, a)];
    hide Do, Enabled, Respects;
    assert forall i :: 0 <= i < |states| ==> states'[i] == states[i];
    assert forall i :: 0 <= i < |moves| ==> moves'[i] == moves[i];
  }

  /** Where the first steps of a process with the lock to itself lead: to the store's version. */
  lemma {:induction false} ReadsTheVersion(s: System, p: Pid, fails: nat -> bool)
    returns (states: seq<System>, moves: seq<Move>, t: System)
    requires Inv(s) && p in s.procs && s.procs[p].pc.Waiting? && s.lock == None
    ensures IsRunOf(states, moves, p, fails, s, t) && Inv(t) && p in t.procs
    ensures t.procs[p] == s.procs[p].(pc := Checking(Version(s.db))) && t.db.applied == s.db.applied
    ensures Version(t.db) == Version(s.db)
  {
    states, moves, t := [s], [], s;
    assert IsRunOf(states, moves, p, fails, s, t);
    hide IsRunOf;
    states, moves, t := Steps(states, moves, p, fails, s, t, Acquire);
    states, moves, t := Steps(states, moves, p, fails, s, t, Create);
    states, moves, t := Steps(states, moves, p, fails, s, t, Read);
    if t.procs[p].pc.Seeding? {
      states, moves, t := Seeds(states, moves, p, fails, s, t);
    }
  }

  lemma {:induction false} Seeds(states: seq<System>, moves: seq<Move>, p: Pid, fails: nat -> bool, s: System,
                                 t: System)
    returns (states': seq<System>, moves': seq<Move>, t': System)
    requires IsRunOf(states, moves, p, fails, s, t) && Inv(t) && p in t.procs && t.procs[p].pc.Seeding?
    ensures IsRunOf(states', moves', p, fails, s, t') && Inv(t') && p in t'.procs
    ensures t'.procs[p] == t.procs[p].(pc := Checking(Version(t.db))) && t'.db.applied == t.db.applied
    ensures Version(t'.db) == Version(t.db)
  {
    hide IsRunOf;
    assert Knows(t.db, t.procs[p]);
    states', moves', t' := Steps(states, moves, p, fails, s, t, Seed);
    states', moves', t' := Steps(states', moves', p, fails, s, t', ReadBack);
  }

  lemma {:induction false} Steps(states: seq<System>, moves: seq<Move>, p: Pid, fails: nat -> bool, s: System,
                                 t: System, a: Action)
    returns (states': seq<System>, moves': seq<Move>, t': System)
    requires IsRunOf(states, moves, p, fails, s, t) && Enabled(t, p, a) && !a.Die? && Respects(t, Move(p, a), fails)
    requires Inv(t)
    ensures t' == Do(t, p, a) && IsRunOf(states', moves', p, fails, s, t') && Inv(t') && p in t'.procs
  {
    EveryStepKeeps(t, p, a);
    states', moves' := GoesOn(states, moves, p, fails, s, t, a);
    t' := Do(t, p, a);
    hide Inv, IsRunOf, Enabled;
  }

  /** The files one after the other, up to the first that fails. */
  lemma {:induction false} AppliesFiles(states: seq<System>, moves: seq<Move>, p: Pid, fails: nat -> bool, s: System,
                                        t: System)
    returns (states': seq<System>, moves': seq<Move>, t': System)
    requires IsRunOf(states, moves, p, fails, s, t) && Inv(t) && p in t.procs
    requires t.procs[p].pc == Applying(Version(t.db) + 1) && Version(t.db) < t.procs[p].current
    ensures IsRunOf(states', moves', p, fails, s, t') && Inv(t') && p in t'.procs
    ensures var stop := FirstFailing(fails, Version(t.db) + 1, t.procs[p].current);
      && Version(t'.db) == stop - 1
      && t'.procs[p].pc == Stopped(if stop <= t.procs[p].current then FileFailed else Current)
    decreases t.procs[p].current - Version(t.db)
  {
    var target := Version(t.db) + 1;
    if fails(target) {
      states', moves', t' := Steps(states, moves, p, fails, s, t, FileFails);
    } else {
      AppliedIsConsistent(t.db);
      states', moves', t' := Steps(states, moves, p, fails, s, t, Apply);
      assert t'.db == Applied(t.db, target) && Version(t'.db) == target;
      hide Inv, IsRunOf, Consistent;
      if target < t.procs[p].current {
        states', moves', t' := AppliesFiles(states', moves', p, fails, s, t');
      }
    }
  }

  /**
   * A process that nobody disturbs does what the runner on its own does: it leaves a newer store alone, and otherwise
   * applies the files it lacks up to the first that fails, or all of them.
   */
  lemma {:induction false} UndisturbedMigrates(s: System, p: Pid, fails: nat -> bool)
    returns (states: seq<System>, moves: seq<Move>, t: System)
    requires Inv(s) && p in s.procs && s.procs[p].pc.Waiting? && s.lock == None
    ensures IsRunOf(states, moves, p, fails, s, t) && Inv(t) && p in t.procs && t.procs[p].pc.Stopped?
    ensures var v, current := Version(s.db), s.procs[p].current;
      if v > current then t.procs[p].pc == Stopped(TooNew) && Version(t.db) == v
      else
        var stop := FirstFailing(fails, v + 1, current);
        && Version(t.db) == stop - 1
        && t.procs[p].pc == Stopped(if stop <= current then FileFailed else Current)
  {
    states, moves, t := ReadsTheVersion(s, p, fails);
    states, moves, t := Steps(states, moves, p, fails, s, t, Check);
    hide IsRunOf, Inv;
    if t.procs[p].pc.Applying? {
      states, moves, t := AppliesFiles(states, moves, p, fails, s, t);
    }
  }
}
