/** Opening a store: schema versions, migrations and the create-if-absent script
    (src/ap_agent/persistence/repository.py, `_apply_schema` and `_migrate_to`).

    A build is any schema version, any migration table and any script; nothing depends on the two
    versions that exist today. Each migration is one transaction, each statement of the script another, and
    an opener may be interrupted between any two of them, by a crash or by another opener. */
module Migration {
  import opened Prelude

  datatype AddColumn = AddColumn(table: string, column: string)

  datatype Statement =
    | CreateTable(table: string, columns: set<string>)
    | CreateIndex(index: string, table: string, columns: set<string>)

  /** `migrations[v]` carries a store from version v - 1 to v. */
  datatype Build = Build(version: nat, migrations: map<nat, seq<AddColumn>>, script: seq<Statement>)

  /** `stamp` is the recorded version, 0 when there is none. */
  datatype Disk = Disk(stamp: nat, tables: map<string, set<string>>, indexes: set<string>)

  /** A store with tables and no stamp was written before versioning existed, and is version 1. */
  function StoreVersion(d: Disk): nat {
    if d.stamp != 0 then d.stamp else if d.tables != map[] then 1 else 0
  }

  // ---- statements; `None` is an error of the database ---------------------------------

  function ColumnNames(d: Disk, table: string): set<string> {
    if table in d.tables then d.tables[table] else {}
  }

  /** Adding a column fails on a missing table and on a column that is already there. */
  function Alter(d: Disk, step: AddColumn): Option<Disk> {
    if step.table !in d.tables || step.column in d.tables[step.table] then None
    else Some(d.(tables := d.tables[step.table := d.tables[step.table] + {step.column}]))
  }

  predicate StepIsNeeded(d: Disk, step: AddColumn) {
    ColumnNames(d, step.table) != {} && step.column !in ColumnNames(d, step.table)
  }

  function ApplySteps(d: Disk, steps: seq<AddColumn>): Option<Disk> {
    if steps == [] then Some(d)
    else
      var before := ApplySteps(d, steps[..|steps| - 1]);
      var step := steps[|steps| - 1];
      if before.None? then None
      else if StepIsNeeded(before.value, step) then Alter(before.value, step)
      else before
  }

  function StepsTo(build: Build, target: nat): seq<AddColumn> {
    if target in build.migrations then build.migrations[target] else []
  }

  /** One version's steps and its stamp, as a single transaction. */
  function Migrated(build: Build, d: Disk, target: nat): Option<Disk> {
    var after := ApplySteps(d, StepsTo(build, target));
    if after.None? then None else Some(after.value.(stamp := target))
  }

  /** Every statement is create-if-absent; an index needs its table and columns. */
  function Execute(d: Disk, s: Statement): Option<Disk> {
    match s
    case CreateTable(table, columns) =>
      if table in d.tables then Some(d) else Some(d.(tables := d.tables[table := columns]))
    case CreateIndex(index, table, columns) =>
      if index in d.indexes then Some(d)
      else if table in d.tables && columns <= d.tables[table] then Some(d.(indexes := d.indexes + {index}))
      else None
  }

  // ---- one opener ---------------------------------------------------------------------

  datatype Opener =
    | Stamping
    | Migrating(next: nat)
    | Scripting(position: nat)
    | Opened
    | Refused

  /** Read the version and decide what there is to do. */
  function Begin(build: Build, d: Disk): Opener {
    if StoreVersion(d) > build.version then Refused
    else if StoreVersion(d) == 0 then Stamping
    else Migrating(StoreVersion(d) + 1)
  }

  /** One atomic step of an opener. */
  function Step(build: Build, d: Disk, o: Opener): (Option<Disk>, Opener) {
    match o
    case Stamping => (Some(d.(stamp := build.version)), Scripting(0))
    case Migrating(next) =>
      if next > build.version then (Some(d), Scripting(0)) else (Migrated(build, d, next), Migrating(next + 1))
    case Scripting(k) =>
      if k >= |build.script| then (Some(d), Opened) else (Execute(d, build.script[k]), Scripting(k + 1))
    case Opened => (Some(d), o)
    case Refused => (Some(d), o)
  }

  // ---- what a build must be -----------------------------------------------------------

  predicate TableAt(build: Build, k: int) {
    0 <= k < |build.script| && build.script[k].CreateTable?
  }

  ghost predicate EachTableOnce(build: Build) {
    forall j, k | j < k && TableAt(build, j) && TableAt(build, k) ::
      build.script[j].table != build.script[k].table
  }

  ghost predicate NoEmptyTable(build: Build) {
    forall k | TableAt(build, k) :: build.script[k].columns != {}
  }

  ghost predicate MigrationsFit(build: Build) {
    forall t, i, k | 2 <= t <= build.version && 0 <= i < |StepsTo(build, t)| && TableAt(build, k) ::
      build.script[k].table == StepsTo(build, t)[i].table ==> StepsTo(build, t)[i].column in build.script[k].columns
  }

  ghost predicate IndexesFit(build: Build) {
    forall k | 0 <= k < |build.script| && build.script[k].CreateIndex? ::
      exists j :: j < k && TableAt(build, j) && build.script[j].table == build.script[k].table &&
                  build.script[k].columns <= build.script[j].columns
  }

  /** The script creates the current shape: each table once, with every column a migration adds to it, at
      least one column in all, and each index after its table and over its columns. */
  ghost predicate WellFormed(build: Build) {
    build.version >= 1 && EachTableOnce(build) && NoEmptyTable(build) && MigrationsFit(build) && IndexesFit(build)
  }

  /** Some migration after version `n` adds this column to this table. */
  ghost predicate AddedAfter(build: Build, table: string, column: string, n: nat) {
    exists t, i :: n < t <= build.version && 0 <= i < |StepsTo(build, t)| &&
      StepsTo(build, t)[i] == AddColumn(table, column)
  }

  /** Every existing table has the columns of version `n`: all current ones but those added later. */
  ghost predicate AtLevel(build: Build, d: Disk, n: nat) {
    forall k, c | TableAt(build, k) && build.script[k].table in d.tables && c in build.script[k].columns ::
      c in d.tables[build.script[k].table] || AddedAfter(build, build.script[k].table, c, n)
  }

  ghost predicate NothingExtra(build: Build, d: Disk) {
    forall k | TableAt(build, k) && build.script[k].table in d.tables ::
      d.tables[build.script[k].table] <= build.script[k].columns && d.tables[build.script[k].table] != {}
  }

  /** A stamped version implies its columns, on every existing table. */
  ghost predicate DiskOk(build: Build, d: Disk) {
    StoreVersion(d) <= build.version && AtLevel(build, d, StoreVersion(d)) && NothingExtra(build, d)
  }

  ghost predicate TablesExist(build: Build, d: Disk, n: nat) {
    forall k | k < n && TableAt(build, k) :: build.script[k].table in d.tables
  }

  ghost predicate IndexesExist(build: Build, d: Disk, n: nat) {
    forall k | 0 <= k < n && k < |build.script| && build.script[k].CreateIndex? :: build.script[k].index in d.indexes
  }

  /** Exactly the current shape: every table with its columns, and every index. */
  ghost predicate FullShape(build: Build, d: Disk) {
    && (forall k | TableAt(build, k) ::
          build.script[k].table in d.tables && d.tables[build.script[k].table] == build.script[k].columns)
    && IndexesExist(build, d, |build.script|)
  }

  ghost predicate OpenerOk(build: Build, d: Disk, o: Opener) {
    match o
    case Stamping => AtLevel(build, d, build.version)
    case Migrating(next) => 2 <= next <= build.version + 1 && AtLevel(build, d, next - 1)
    case Scripting(k) =>
      k <= |build.script| && AtLevel(build, d, build.version) && TablesExist(build, d, k) && IndexesExist(build, d, k)
    case Opened => FullShape(build, d)
    case Refused => true
  }

  /** Tables, columns and indexes are never dropped. */
  ghost predicate Grows(build: Build, d: Disk, e: Disk) {
    && (forall t :: t in d.tables ==> t in e.tables && d.tables[t] <= e.tables[t])
    && d.indexes <= e.indexes
    && (forall k | TableAt(build, k) && build.script[k].table in e.tables && build.script[k].table !in d.tables ::
          e.tables[build.script[k].table] == build.script[k].columns)
  }

  // ---- one step keeps everything ------------------------------------------------------

  lemma LevelSurvives(build: Build, d: Disk, e: Disk, n: nat)
    requires AtLevel(build, d, n) && Grows(build, d, e)
    ensures AtLevel(build, e, n)
  {
    forall k, c | TableAt(build, k) && build.script[k].table in e.tables && c in build.script[k].columns
      ensures c in e.tables[build.script[k].table] || AddedAfter(build, build.script[k].table, c, n)
    {
      if build.script[k].table in d.tables {
        assert c in d.tables[build.script[k].table] || AddedAfter(build, build.script[k].table, c, n);
      }
    }
  }

  /** What one opener relies on survives every step of every other. */
  lemma OpenerSurvives(build: Build, d: Disk, e: Disk, o: Opener)
    requires OpenerOk(build, d, o) && Grows(build, d, e) && NothingExtra(build, e)
    ensures OpenerOk(build, e, o)
  {
    hide AtLevel;
    match o
    case Stamping => LevelSurvives(build, d, e, build.version);
    case Migrating(next) => LevelSurvives(build, d, e, next - 1);
    case Scripting(k) => LevelSurvives(build, d, e, build.version);
    case Opened =>
      forall k | TableAt(build, k)
        ensures build.script[k].table in e.tables && e.tables[build.script[k].table] == build.script[k].columns
      {
        assert d.tables[build.script[k].table] <= e.tables[build.script[k].table];
      }
    case Refused =>
  }

  ghost predicate StepsFit(build: Build, steps: seq<AddColumn>) {
    forall i, k | 0 <= i < |steps| && TableAt(build, k) ::
      build.script[k].table == steps[i].table ==> steps[i].column in build.script[k].columns
  }

  /** A migration never fails, only adds columns, and leaves none of its own out. */
  lemma {:induction false} StepsApply(build: Build, d: Disk, steps: seq<AddColumn>)
    requires StepsFit(build, steps) && NothingExtra(build, d)
    ensures ApplySteps(d, steps).Some?
    ensures var e := ApplySteps(d, steps).value;
      Grows(build, d, e) && NothingExtra(build, e) && e.stamp == d.stamp && e.tables.Keys == d.tables.Keys &&
      forall i, k | 0 <= i < |steps| && TableAt(build, k) && build.script[k].table in d.tables ::
        build.script[k].table == steps[i].table ==> steps[i].column in e.tables[build.script[k].table]
  {
    if steps != [] {
      var front := steps[..|steps| - 1];
      assert forall i :: 0 <= i < |front| ==> front[i] == steps[i];
      StepsApply(build, d, front);
    }
  }

  lemma LowerLevel(build: Build, d: Disk, n: nat, m: nat)
    requires AtLevel(build, d, n) && m <= n
    ensures AtLevel(build, d, m)
  {
    forall k, c | TableAt(build, k) && build.script[k].table in d.tables && c in build.script[k].columns
      ensures c in d.tables[build.script[k].table] || AddedAfter(build, build.script[k].table, c, m)
    {
      if c !in d.tables[build.script[k].table] {
        var t, i :| n < t <= build.version && 0 <= i < |StepsTo(build, t)| &&
          StepsTo(build, t)[i] == AddColumn(build.script[k].table, c);
        assert m < t;
      }
    }
  }

  lemma MigrationKeeps(build: Build, d: Disk, target: nat)
    requires WellFormed(build) && 2 <= target <= build.version
    requires NothingExtra(build, d) && AtLevel(build, d, target - 1)
    ensures Migrated(build, d, target).Some?
    ensures var e := Migrated(build, d, target).value;
      Grows(build, d, e) && NothingExtra(build, e) && AtLevel(build, e, target) && e.stamp == target
  {
    var steps := StepsTo(build, target);
    StepsApply(build, d, steps);
    var e := Migrated(build, d, target).value;
    assert e.tables == ApplySteps(d, steps).value.tables;
    forall k, c | TableAt(build, k) && build.script[k].table in e.tables && c in build.script[k].columns
      ensures c in e.tables[build.script[k].table] || AddedAfter(build, build.script[k].table, c, target)
    {
      var table := build.script[k].table;
      if c !in d.tables[table] {
        var t, i :| target - 1 < t <= build.version && 0 <= i < |StepsTo(build, t)| &&
          StepsTo(build, t)[i] == AddColumn(table, c);
        if t == target {
          assert steps[i].table == table;
        }
      }
    }
  }

  /** No statement of the script ever fails. */
  lemma StatementKeeps(build: Build, d: Disk, k: nat)
    requires WellFormed(build) && NothingExtra(build, d) && OpenerOk(build, d, Scripting(k)) && k < |build.script|
    ensures Execute(d, build.script[k]).Some?
    ensures var e := Execute(d, build.script[k]).value;
      Grows(build, d, e) && NothingExtra(build, e) && TablesExist(build, e, k + 1) && IndexesExist(build, e, k + 1) &&
      e.stamp == d.stamp
  {
    match build.script[k]
    case CreateTable(table, columns) =>
    case CreateIndex(index, table, columns) =>
      var j :| j < k && TableAt(build, j) && build.script[j].table == table && columns <= build.script[j].columns;
      assert table in d.tables;
      forall c | c in columns ensures c in d.tables[table] {
        assert !AddedAfter(build, table, c, build.version);
      }
  }

  lemma ScriptDone(build: Build, d: Disk)
    requires OpenerOk(build, d, Scripting(|build.script|)) && NothingExtra(build, d)
    ensures FullShape(build, d)
  {
    forall k | TableAt(build, k)
      ensures build.script[k].table in d.tables && d.tables[build.script[k].table] == build.script[k].columns
    {
      forall c | c in build.script[k].columns ensures c in d.tables[build.script[k].table] {
        assert !AddedAfter(build, build.script[k].table, c, build.version);
      }
    }
  }

  lemma GrowsReflexive(build: Build, d: Disk)
    ensures Grows(build, d, d)
  {
  }

  /** Any step of any opener succeeds, keeps the store good, and leaves the opener with what it needs. */
  lemma StepKeeps(build: Build, d: Disk, o: Opener)
    requires WellFormed(build) && DiskOk(build, d) && OpenerOk(build, d, o)
    ensures Step(build, d, o).0.Some?
    ensures var (e, next) := Step(build, d, o);
      Grows(build, d, e.value) && DiskOk(build, e.value) && OpenerOk(build, e.value, next)
  {
    hide Grows, NothingExtra, AtLevel, FullShape, TablesExist, IndexesExist;
    GrowsReflexive(build, d);
    match o
    case Stamping =>
      Stamped(build, d);
    case Migrating(target) =>
      if target <= build.version {
        MigrationKeeps(build, d, target);
      } else {
        NothingYet(build, d);
      }
    case Scripting(k) =>
      if k < |build.script| {
        StatementKeeps(build, d, k);
        var e := Execute(d, build.script[k]).value;
        LevelSurvives(build, d, e, build.version);
        LowerLevel(build, e, build.version, StoreVersion(e));
      } else {
        ScriptDone(build, d);
      }
    case Opened =>
    case Refused =>
  }

  lemma NothingYet(build: Build, d: Disk)
    ensures TablesExist(build, d, 0) && IndexesExist(build, d, 0)
  {
  }

  lemma Stamped(build: Build, d: Disk)
    requires WellFormed(build) && DiskOk(build, d) && AtLevel(build, d, build.version)
    ensures var e := d.(stamp := build.version);
      Grows(build, d, e) && DiskOk(build, e) && OpenerOk(build, e, Scripting(0))
  {
  }

  lemma BeginOk(build: Build, d: Disk)
    requires WellFormed(build) && DiskOk(build, d)
    ensures OpenerOk(build, d, Begin(build, d)) && !Begin(build, d).Refused?
  {
  }

  // ---- any number of openers ----------------------------------------------------------

  datatype System = System(disk: Disk, openers: map<nat, Opener>, failures: nat)

  datatype Event = Open(id: nat) | Act(id: nat) | Crash(id: nat)

  function Fire(build: Build, sys: System, e: Event): System {
    match e
    case Open(id) => sys.(openers := sys.openers[id := Begin(build, sys.disk)])
    case Act(id) =>
      if id !in sys.openers then sys
      else
        var (disk, opener) := Step(build, sys.disk, sys.openers[id]);
        if disk.Some? then System(disk.value, sys.openers[id := opener], sys.failures)
        else System(sys.disk, sys.openers - {id}, sys.failures + 1)
    case Crash(id) => sys.(openers := sys.openers - {id})
  }

  function After(build: Build, sys: System, events: seq<Event>): System
    decreases |events|
  {
    if events == [] then sys else After(build, Fire(build, sys, events[0]), events[1..])
  }

  ghost predicate SystemOk(build: Build, sys: System) {
    DiskOk(build, sys.disk) && forall id :: id in sys.openers ==> OpenerOk(build, sys.disk, sys.openers[id])
  }

  lemma FireKeeps(build: Build, sys: System, e: Event)
    requires WellFormed(build) && SystemOk(build, sys)
    ensures SystemOk(build, Fire(build, sys, e)) && Fire(build, sys, e).failures == sys.failures
  {
    hide OpenerOk, WellFormed, Grows, NothingExtra, AtLevel, Step, Begin;
    match e
    case Open(id) => BeginOk(build, sys.disk);
    case Act(id) =>
      if id in sys.openers {
        StepKeeps(build, sys.disk, sys.openers[id]);
        var after := Step(build, sys.disk, sys.openers[id]).0.value;
        forall other | other in sys.openers ensures OpenerOk(build, after, sys.openers[other]) {
          OpenerSurvives(build, sys.disk, after, sys.openers[other]);
        }
      }
    case Crash(id) =>
  }

  /** However many processes open the store, and wherever each of them stops: no statement ever fails, so no
      column is ever added twice; a stamped version always implies its columns; and whoever finishes finds
      the full shape, which stays. */
  lemma {:induction false} OpeningIsCrashSafe(build: Build, sys: System, events: seq<Event>)
    requires WellFormed(build) && SystemOk(build, sys)
    ensures var later := After(build, sys, events);
      SystemOk(build, later) && later.failures == sys.failures &&
      forall id :: id in later.openers && later.openers[id].Opened? ==> FullShape(build, later.disk)
    decreases |events|
  {
    if events != [] {
      FireKeeps(build, sys, events[0]);
      OpeningIsCrashSafe(build, Fire(build, sys, events[0]), events[1..]);
    }
  }

  // ---- one opener to the end ----------------------------------------------------------

  /** How many steps an opener has left. */
  function Work(build: Build, o: Opener): nat {
    match o
    case Stamping => |build.script| + 2
    case Migrating(next) => |build.script| + 2 + (if next <= build.version then build.version + 1 - next else 0)
    case Scripting(k) => if k <= |build.script| then |build.script| - k + 1 else 1
    case Opened => 0
    case Refused => 0
  }

  /** An opener left alone: the store it ends with, or `None` where a statement fails. */
  function Finish(build: Build, d: Disk, o: Opener): Option<Disk>
    decreases Work(build, o)
  {
    if o.Opened? || o.Refused? then Some(d)
    else
      var (e, next) := Step(build, d, o);
      if e.None? then None else Finish(build, e.value, next)
  }

  /** Left alone, the version on disk keeps step with the opener. */
  predicate InStep(build: Build, d: Disk, o: Opener) {
    match o
    case Stamping => true
    case Migrating(next) => StoreVersion(d) == next - 1
    case Scripting(_) => StoreVersion(d) == build.version
    case Opened => StoreVersion(d) == build.version
    case Refused => false
  }

  lemma {:induction false} FinishOk(build: Build, d: Disk, o: Opener)
    requires WellFormed(build) && DiskOk(build, d) && OpenerOk(build, d, o) && InStep(build, d, o)
    ensures Finish(build, d, o).Some?
    ensures var e := Finish(build, d, o).value;
      DiskOk(build, e) && FullShape(build, e) && StoreVersion(e) == build.version
    decreases Work(build, o)
  {
    hide WellFormed, DiskOk, OpenerOk, FullShape;
    if o.Opened? {
      OpenedIsFull(build, d);
    } else {
      StepKeeps(build, d, o);
      var (e, next) := Step(build, d, o);
      StepStaysInStep(build, d, o);
      FinishOk(build, e.value, next);
    }
  }

  lemma OpenedIsFull(build: Build, d: Disk)
    requires OpenerOk(build, d, Opened)
    ensures FullShape(build, d)
  {
  }

  lemma StepStaysInStep(build: Build, d: Disk, o: Opener)
    requires WellFormed(build) && DiskOk(build, d) && OpenerOk(build, d, o) && InStep(build, d, o) && !o.Opened?
    ensures var (e, next) := Step(build, d, o);
      e.Some? && InStep(build, e.value, next)
  {
    hide AtLevel, FullShape;
    StepKeeps(build, d, o);
    match o
    case Stamping =>
    case Migrating(target) =>
      if target <= build.version {
        MigrationKeeps(build, d, target);
      }
    case Scripting(k) =>
      if k < |build.script| {
        StatementKeeps(build, d, k);
        TablesStay(build, d, Execute(d, build.script[k]).value);
      }
    case Opened =>
    case Refused =>
  }

  lemma TablesStay(build: Build, d: Disk, e: Disk)
    requires Grows(build, d, e) && e.stamp == d.stamp && (d.stamp != 0 || d.tables != map[])
    ensures StoreVersion(e) == StoreVersion(d)
  {
    if d.stamp == 0 {
      var t :| t in d.tables;
      assert t in e.tables;
    }
  }

  /** Tables but no stamp, under a build that has nothing to migrate them to. */
  predicate StaysUnstamped(build: Build, d: Disk) {
    build.version == 1 && d.stamp == 0 && d.tables != map[]
  }

  /** The stamp an opener leaves: its build's if it has anything to claim or migrate, else the one it found. */
  function StampLeft(build: Build, d: Disk, o: Opener): nat {
    match o
    case Stamping => build.version
    case Migrating(next) => if next <= build.version then build.version else d.stamp
    case _ => d.stamp
  }

  lemma StepKeepsStampLeft(build: Build, d: Disk, o: Opener)
    requires Step(build, d, o).0.Some?
    ensures var (e, next) := Step(build, d, o); StampLeft(build, e.value, next) == StampLeft(build, d, o)
  {
  }

  lemma {:induction false} FinishStamps(build: Build, d: Disk, o: Opener)
    requires Finish(build, d, o).Some?
    ensures Finish(build, d, o).value.stamp == StampLeft(build, d, o)
    decreases Work(build, o)
  {
    hide Step;
    if !o.Opened? && !o.Refused? {
      var (e, next) := Step(build, d, o);
      StepKeepsStampLeft(build, d, o);
      WorkFalls(build, d, o);
      FinishStamps(build, e.value, next);
    }
  }

  lemma WorkFalls(build: Build, d: Disk, o: Opener)
    requires !o.Opened? && !o.Refused?
    ensures Work(build, Step(build, d, o).1) < Work(build, o)
  {
  }

  lemma BeginStamps(build: Build, d: Disk)
    requires WellFormed(build) && DiskOk(build, d)
    ensures StampLeft(build, d, Begin(build, d)) == build.version <==> !StaysUnstamped(build, d)
  {
  }

  /** After any history of interrupted openings, from any good store, one opening that runs to its end yields
      exactly the current shape at exactly the current version. The version is also stamped, except on a store
      of tables that never had a stamp when the build's version is 1. */
  lemma OneCompleteOpenFinishes(build: Build, sys: System, events: seq<Event>)
    requires WellFormed(build) && SystemOk(build, sys)
    ensures var d := After(build, sys, events).disk;
      Finish(build, d, Begin(build, d)).Some? &&
      var e := Finish(build, d, Begin(build, d)).value;
      FullShape(build, e) && StoreVersion(e) == build.version &&
      Finish(build, e, Begin(build, e)) == Some(e) &&
      (e.stamp == build.version <==> !StaysUnstamped(build, d))
  {
    hide WellFormed, FullShape, StaysUnstamped;
    OpeningIsCrashSafe(build, sys, events);
    var d := After(build, sys, events).disk;
    BeginOk(build, d);
    FinishOk(build, d, Begin(build, d));
    FinishStamps(build, d, Begin(build, d));
    BeginStamps(build, d);
    var e := Finish(build, d, Begin(build, d)).value;
    OpeningAgainChangesNothing(build, e);
  }

  /** The concrete input: a build of version 1 opens a store written before versioning, and leaves it without
      a stamp. */
  lemma VersionOneLeavesALegacyStoreUnstamped()
    ensures
      var build := Build(1, map[], [CreateTable("runs", {"run_id"})]);
      var d := Disk(0, map["runs" := {"run_id"}], {});
      WellFormed(build) && SystemOk(build, System(d, map[], 0)) && Finish(build, d, Begin(build, d)) == Some(d)
  {
    var build := Build(1, map[], [CreateTable("runs", {"run_id"})]);
    var d := Disk(0, map["runs" := {"run_id"}], {});
    assert "runs" in d.tables;
    assert Begin(build, d) == Migrating(2);
    assert Step(build, d, Migrating(2)) == (Some(d), Scripting(0));
    assert Step(build, d, Scripting(0)) == (Some(d), Scripting(1));
    assert Step(build, d, Scripting(1)) == (Some(d), Opened);
    assert Finish(build, d, Scripting(1)) == Finish(build, d, Opened) == Some(d);
    assert Finish(build, d, Scripting(0)) == Finish(build, d, Scripting(1));
  }

  lemma OpeningAgainChangesNothing(build: Build, e: Disk)
    requires WellFormed(build) && DiskOk(build, e) && FullShape(build, e) && StoreVersion(e) == build.version
    ensures Finish(build, e, Begin(build, e)) == Some(e)
  {
    ScriptChangesNothing(build, e, 0);
    assert Begin(build, e) == Migrating(build.version + 1);
  }

  lemma {:induction false} ScriptChangesNothing(build: Build, e: Disk, k: nat)
    requires FullShape(build, e) && k <= |build.script|
    ensures Finish(build, e, Scripting(k)) == Some(e)
    decreases |build.script| - k
  {
    if k < |build.script| {
      if build.script[k].CreateTable? {
        assert TableAt(build, k);
      }
      ScriptChangesNothing(build, e, k + 1);
    }
  }

  /** A fresh file, and a store written before versioning, are good; so is any store left behind by this
      machine. A store that a newer build stamped is refused untouched. */
  lemma WhereOpeningMayStart(build: Build, legacy: map<string, set<string>>, newer: Disk)
    requires WellFormed(build)
    requires NothingExtra(build, Disk(0, legacy, {})) && AtLevel(build, Disk(0, legacy, {}), 1)
    ensures SystemOk(build, System(Disk(0, map[], {}), map[], 0))
    ensures SystemOk(build, System(Disk(0, legacy, {}), map[], 0))
    ensures StoreVersion(newer) > build.version ==> Finish(build, newer, Begin(build, newer)) == Some(newer)
  {
  }

  // ---- the build of today -------------------------------------------------------------

  const TODAY: Build := Build(
    2,
    map[2 := [AddColumn("decisions", "invoice_fingerprint")]],
    [ CreateTable("runs",
        {"run_id", "case_id", "status", "phase", "version", "state_json", "created_at", "updated_at"}),
      CreateIndex("idx_runs_case", "runs", {"case_id"}),
      CreateIndex("idx_runs_status", "runs", {"status"}),
      CreateTable("events",
        {"event_id", "run_id", "sequence", "event_type", "phase", "outcome", "duration_ms", "correlation_id",
         "payload_json", "created_at"}),
      CreateIndex("idx_events_run", "events", {"run_id", "sequence"}),
      CreateIndex("idx_events_type", "events", {"event_type"}),
      CreateTable("approvals",
        {"approval_id", "run_id", "case_id", "status", "request_json", "decided_at", "decided_by",
         "decided_by_role", "decision_comment", "created_at"}),
      CreateIndex("idx_approvals_run", "approvals", {"run_id", "status"}),
      CreateTable("approval_signatures",
        {"approval_id", "approver_id", "approver_role", "effective_role", "applicable_limit",
         "authority_register_version", "delegation_applied", "is_financial_control", "signed_at", "comment"}),
      CreateIndex("idx_signatures_approval", "approval_signatures", {"approval_id"}),
      CreateTable("decisions",
        {"idempotency_key", "run_id", "case_id", "approval_id", "outcome", "request_hash", "response_json",
         "created_at", "invoice_fingerprint"}),
      CreateIndex("idx_decisions_case", "decisions", {"case_id"}),
      CreateIndex("idx_decisions_invoice_fingerprint", "decisions", {"invoice_fingerprint"}) ])

  lemma TodaysTables()
    ensures TODAY.version == 2 && EachTableOnce(TODAY)
    ensures forall k :: TableAt(TODAY, k) <==> k == 0 || k == 3 || k == 6 || k == 8 || k == 10
  {
    var s := TODAY.script;
    assert |s[0].table| == 4 && |s[3].table| == 6 && |s[6].table| == 9 && |s[8].table| == 19 && |s[10].table| == 9;
    assert s[6].table[0] != s[10].table[0];
  }

  lemma TodaysIndexes()
    ensures IndexesFit(TODAY)
  {
    forall k | 0 <= k < |TODAY.script| && TODAY.script[k].CreateIndex?
      ensures exists j :: j < k && TableAt(TODAY, j) && TODAY.script[j].table == TODAY.script[k].table &&
                          TODAY.script[k].columns <= TODAY.script[j].columns
    {
      var j := if k < 3 then 0 else if k < 6 then 3 else if k < 8 then 6 else if k < 10 then 8 else 10;
      assert TableAt(TODAY, j);
    }
  }

  lemma TodaysMigration()
    ensures MigrationsFit(TODAY)
  {
    TodaysTables();
    assert StepsTo(TODAY, 2) == [AddColumn("decisions", "invoice_fingerprint")];
    forall k | TableAt(TODAY, k) && TODAY.script[k].table == "decisions"
      ensures "invoice_fingerprint" in TODAY.script[k].columns
    {
      assert TableAt(TODAY, 10) && TODAY.script[10].table == "decisions";
    }
  }

  lemma TodaysColumns()
    ensures NoEmptyTable(TODAY)
  {
    var s := TODAY.script;
    TodaysTables();
    assert "run_id" in s[0].columns && "run_id" in s[3].columns && "run_id" in s[6].columns &&
           "approval_id" in s[8].columns && "run_id" in s[10].columns;
  }

  /** The build of today meets the assumption made of every build. */
  lemma TodayIsWellFormed()
    ensures WellFormed(TODAY)
  {
    hide EachTableOnce, NoEmptyTable, MigrationsFit, IndexesFit, TODAY;
    TodaysTables();
    TodaysColumns();
    TodaysIndexes();
    TodaysMigration();
  }

  // ---- the store as an object ---------------------------------------------------------

  datatype OpenOutcome = StoreOpened | NewerStoreRefused | DatabaseError

  class SchemaStore {
    var stamp: nat
    var tables: map<string, set<string>>
    var indexes: set<string>

    constructor (d: Disk)
      ensures Contents() == d
    {
      stamp, tables, indexes := d.stamp, d.tables, d.indexes;
    }

    function Contents(): Disk
      reads this
    {
      Disk(stamp, tables, indexes)
    }

    method Commit(d: Disk)
      modifies this
      ensures Contents() == d
    {
      stamp, tables, indexes := d.stamp, d.tables, d.indexes;
    }

    /** `BEGIN IMMEDIATE`, the needed steps, the stamp. The guard on each step means that no step can fail,
        whatever shape the store is in. */
    method MigrateTo(build: Build, target: nat)
      modifies this
      ensures Migrated(build, old(Contents()), target) == Some(Contents())
    {
      var steps := StepsTo(build, target);
      var work := Contents();
      var i := 0;
      while i < |steps|
        invariant 0 <= i <= |steps|
        invariant ApplySteps(old(Contents()), steps[..i]) == Some(work)
        invariant Contents() == old(Contents())
      {
        assert steps[..i + 1][..i] == steps[..i];
        if StepIsNeeded(work, steps[i]) {
          work := Alter(work, steps[i]).value;
        }
        i := i + 1;
      }
      assert steps[..i] == steps;
      Commit(work.(stamp := target));
    }

    /** `_apply_schema`: refuse a newer store; stamp a fresh one before building it; migrate an older one;
        then run the script. */
    method ApplySchema(build: Build) returns (outcome: OpenOutcome)
      modifies this
      ensures outcome == NewerStoreRefused <==> StoreVersion(old(Contents())) > build.version
      ensures outcome == NewerStoreRefused ==> Contents() == old(Contents())
      ensures outcome != NewerStoreRefused ==>
        (outcome == StoreOpened <==> Finish(build, old(Contents()), Begin(build, old(Contents()))).Some?)
      ensures outcome == StoreOpened ==>
        Some(Contents()) == Finish(build, old(Contents()), Begin(build, old(Contents())))
    {
      ghost var whole := Finish(build, Contents(), Begin(build, Contents()));
      var version := StoreVersion(Contents());
      if version > build.version {
        return NewerStoreRefused;
      }
      if version == 0 {
        stamp := build.version;
      } else {
        var target := version + 1;
        while target <= build.version
          invariant version < target <= build.version + 1
          invariant whole == Finish(build, Contents(), Migrating(target))
        {
          MigrateTo(build, target);
          target := target + 1;
        }
      }
      var k := 0;
      while k < |build.script|
        invariant 0 <= k <= |build.script|
        invariant whole == Finish(build, Contents(), Scripting(k))
      {
        var after := Execute(Contents(), build.script[k]);
        if after.None? {
          return DatabaseError;
        }
        Commit(after.value);
        k := k + 1;
      }
      outcome := StoreOpened;
    }
  }
}
