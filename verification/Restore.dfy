/**
  Restoring a recovery point over the live stores, with the rollback written out by hand
  (backend/backup/backup_service.go:320-613).

  The live SQLite file, its staging file and the two files of the pre-restore point are separate cells: the premise
  is that these paths differ from each other and from everything in the backup root.
 */
module Restore {
  import opened Common
  import opened Text
  import opened FileSystem
  import opened RecoveryPoint

  datatype Options = Options(backupId: string, confirm: string, target: string)

  /** Which programs are on the path, and whether a PostgreSQL address is configured. */
  datatype Tools = Tools(psql: bool, pgDump: bool, sqlite3: bool, dsn: bool)

  /**
    PostgreSQL seen from outside: `load` runs a script in a single transaction and gives None when it is aborted,
    `dump` is the plain dump taken before a restore.
   */
  datatype Engine = Engine(load: (string, string) -> Option<string>, dump: string -> string)

  /** The artifacts of a point that verifies. */
  datatype Artifacts = Artifacts(postgres: string, sqlite: string, postgresSHA: string, sqliteSHA: string)

  function ArtifactsOf(sha: Sha, json: Json, cfg: Config, fs: FS, id: string): Option<Artifacts> {
    match Verified(sha, json, cfg, fs, id)
    case None => None
    case Some(m) =>
      match (Read(fs, PostgresPath(cfg, id, m)), Read(fs, SQLitePath(cfg, id, m)))
      case (Some(script), Some(image)) => Some(Artifacts.Artifacts(script, image, m.postgresSHA, m.sqliteSHA))
      case _ => None
  }

  /** The live stores and the staging file; None where there is no file. */
  datatype World = World(sqlite: Option<string>, postgres: string, staged: Option<string>)

  /** How a copy ends: done, or failed with this left at its target. */
  datatype Copy = Done | Torn(left: Option<string>)

  /** How psql ends: it runs the script, it changes nothing, or it commits and still reports a failure. */
  datatype Psql = Runs | Fails | CommitsUnheard

  /** Which steps of one run work. */
  datatype Faults = Faults(
    verify: bool, mkdir: bool, save: Copy, dump: bool, stage: Copy, psql: Psql, rename: bool, integrity: bool,
    undoCopy: Copy, undoPsql: bool)

  datatype Failure =
    | NoId | NotConfirmed | InvalidTarget | NotVerified | NoPreRestorePoint | SQLiteNotSaved | PostgresNotSaved
    | SQLiteNotStaged | PostgresNotRestored | SQLiteNotActivated | IntegrityFailed

  datatype Receipt = Receipt(backupId: string, target: string, postgresSHA: string, sqliteSHA: string, verified: bool)

  predicate ForSQLite(target: string) {
    target == "local" || target == "both"
  }

  predicate ForPostgres(target: string) {
    target == "postgres" || target == "both"
  }

  function Copied(source: Option<string>, before: Option<string>, c: Copy): (Option<string>, bool) {
    match c
    case Torn(left) => (left, false)
    case Done => if source.None? then (before, false) else (source, true)
  }

  /** psql over a script; an aborted transaction changes nothing. */
  function Loaded(engine: Engine, db: string, script: string): string {
    match engine.load(db, script)
    case None => db
    case Some(d) => d
  }

  // ---------------------------------------------------------------- what a run does

  predicate Accepted(opts: Options) {
    opts.backupId != "" && opts.confirm == "RESTORE" && (ForSQLite(opts.target) || ForPostgres(opts.target))
  }

  predicate UsesPsql(tools: Tools, target: string) {
    ForPostgres(target) && tools.psql && tools.dsn
  }

  /** Why a run stops before it activates an image; nothing has been rolled back then. */
  function Refusal(tools: Tools, engine: Engine, w: World, opts: Options, backup: Option<Artifacts>,
                   f: Faults): Option<Failure> {
    if opts.backupId == "" then Some(NoId)
    else if opts.confirm != "RESTORE" then Some(NotConfirmed)
    else if !Accepted(opts) then Some(InvalidTarget)
    else if backup.None? || !f.verify then Some(NotVerified)
    else if !f.mkdir then Some(NoPreRestorePoint)
    else if ForSQLite(opts.target) && w.sqlite.Some? && f.save.Torn? then Some(SQLiteNotSaved)
    else if ForPostgres(opts.target) && tools.pgDump && tools.dsn && !f.dump then Some(PostgresNotSaved)
    else if ForSQLite(opts.target) && f.stage.Torn? then Some(SQLiteNotStaged)
    else if UsesPsql(tools, opts.target) && (!f.psql.Runs? || engine.load(w.postgres,
        backup.value.postgres).None?) then Some(PostgresNotRestored)
    else None
  }

  /** A refused run may have removed the staging file. */
  function StagedAfterRefusal(w: World, opts: Options, e: Failure): Option<string> {
    if e.SQLiteNotStaged? || (e.PostgresNotRestored? && ForSQLite(opts.target)) then None else w.staged
  }

  function NewPostgres(tools: Tools, engine: Engine, db: string, target: string, script: string): string {
    if UsesPsql(tools, target) then Loaded(engine, db, script) else db
  }

  /** PostgreSQL after a refused run: as before, unless psql committed and did not say so. */
  function PostgresAfterRefusal(engine: Engine, db: string, backup: Option<Artifacts>, e: Failure, f: Faults): string {
    if e.PostgresNotRestored? && f.psql.CommitsUnheard? && backup.Some?
        then Loaded(engine, db, backup.value.postgres) else db
  }

  function SavedDump(tools: Tools, engine: Engine, db: string, target: string): Option<string> {
    if ForPostgres(target) && tools.pgDump && tools.dsn then Some(engine.dump(db)) else None
  }

  function Undone(tools: Tools, engine: Engine, db: string, saved: Option<string>, f: Faults): string {
    if tools.psql && saved.Some? && f.undoPsql then Loaded(engine, db, saved.value) else db
  }

  /** The live stores after a run, and what it reports. */
  function Run(tools: Tools, engine: Engine, w: World, opts: Options, backup: Option<Artifacts>, f: Faults): (World,
               Result<Receipt, Failure>) {
    var refusal := Refusal(tools, engine, w, opts, backup, f);
    if refusal.Some? then
      (World(w.sqlite, PostgresAfterRefusal(engine, w.postgres, backup, refusal.value, f),
           StagedAfterRefusal(w, opts, refusal.value)),
       Err(refusal.value))
    else
      var point := backup.value;
      var db := NewPostgres(tools, engine, w.postgres, opts.target, point.postgres);
      var undone := Undone(tools, engine, db, SavedDump(tools, engine, w.postgres, opts.target), f);
      var receipt := Receipt(opts.backupId, opts.target, point.postgresSHA, point.sqliteSHA, true);
      if !ForSQLite(opts.target) then (World(w.sqlite, db, w.staged), Ok(receipt))
      else if !f.rename then (World(w.sqlite, undone, None), Err(SQLiteNotActivated))
      else if tools.sqlite3 && !f.integrity then
        (World(if w.sqlite.Some? then Copied(w.sqlite, Some(point.sqlite), f.undoCopy).0 else Some(point.sqlite),
            undone, None),
         Err(IntegrityFailed))
      else (World(Some(point.sqlite), db, None), Ok(receipt))
  }

  class Service {
    const tools: Tools
    const engine: Engine
    var sqlite: Option<string>
    var postgres: string
    var staged: Option<string>
    var savedSQLite: Option<string>
    var savedPostgres: Option<string>

    constructor (tools: Tools, engine: Engine, w: World)
      ensures this.tools == tools && this.engine == engine && Now() == w
    {
      this.tools, this.engine := tools, engine;
      sqlite, postgres, staged, savedSQLite, savedPostgres := w.sqlite, w.postgres, w.staged, None, None;
    }

    function Now(): World
      reads this
    {
      World(sqlite, postgres, staged)
    }

    /** copyFile onto one of the cells. */
    method CopyFile(source: Option<string>, before: Option<string>, c: Copy) returns (after: Option<string>, ok: bool)
      ensures (after, ok) == Copied(source, before, c)
    {
      match c {
        case Torn(left) => return left, false;
        case Done =>
          if source.None? {
            return before, false;
          }
          return source, true;
      }
    }

    /** Replays the pre-restore dump, if there is one and psql is there; its own errors are ignored. */
    method UndoPostgres(f: Faults)
      modifies this`postgres
      ensures postgres == Undone(tools, engine, old(postgres), savedPostgres, f)
    {
      if tools.psql && savedPostgres.Some? && f.undoPsql {
        var d := engine.load(postgres, savedPostgres.value);
        if d.Some? {
          postgres := d.value;
        }
      }
    }

    method Restore(opts: Options, backup: Option<Artifacts>, f: Faults) returns (r: Result<Receipt, Failure>)
      modifies this
      ensures (Now(), r) == Run(tools, engine, old(Now()), opts, backup, f)
    {
      hide Refusal, Undone, Loaded, PostgresAfterRefusal;
      savedSQLite, savedPostgres := None, None;
      var refused := Prepare(opts, backup, f);
      if refused.Some? {
        return Err(refused.value);
      }
      var point := backup.value;
      if ForSQLite(opts.target) {
        var failed := Activate(opts.target, f);
        if failed.Some? {
          return Err(failed.value);
        }
      }
      r := Ok(Receipt(opts.backupId, opts.target, point.postgresSHA, point.sqliteSHA, true));
    }

    /** Everything up to and including psql: checks, the pre-restore point, the staged image, PostgreSQL. */
    method Prepare(opts: Options, backup: Option<Artifacts>, f: Faults) returns (refused: Option<Failure>)
      requires savedSQLite.None? && savedPostgres.None?
      modifies this
      ensures refused == Refusal(tools, engine, old(Now()), opts, backup, f)
      ensures sqlite == old(sqlite)
      ensures refused.Some? ==> staged == StagedAfterRefusal(old(Now()), opts, refused.value)
      ensures refused.Some? ==> postgres == PostgresAfterRefusal(engine, old(postgres), backup, refused.value, f)
      ensures refused.None? ==> backup.Some?
      ensures refused.None? ==>
                postgres == NewPostgres(tools, engine, old(postgres), opts.target, backup.value.postgres)
      ensures refused.None? ==> staged == if ForSQLite(opts.target) then Some(backup.value.sqlite) else old(staged)
      ensures refused.None? ==> savedPostgres == SavedDump(tools, engine, old(postgres), opts.target)
      ensures refused.None? && ForSQLite(opts.target) ==> savedSQLite == old(sqlite)
    {
      if opts.backupId == "" {
        return Some(NoId);
      }
      if opts.confirm != "RESTORE" {
        return Some(NotConfirmed);
      }
      if opts.target != "local" && opts.target != "postgres" && opts.target != "both" {
        return Some(InvalidTarget);
      }
      if backup.None? || !f.verify {
        return Some(NotVerified);
      }
      if !f.mkdir {
        return Some(NoPreRestorePoint);
      }
      var ok: bool;
      if ForSQLite(opts.target) && sqlite.Some? {
        savedSQLite, ok := CopyFile(sqlite, None, f.save);
        if !ok {
          return Some(SQLiteNotSaved);
        }
      }
      if ForPostgres(opts.target) && tools.pgDump && tools.dsn {
        if !f.dump {
          return Some(PostgresNotSaved);
        }
        savedPostgres := Some(engine.dump(postgres));
      }
      refused := Load(opts.target, backup.value, f);
    }

    /** Stages the image, then restores PostgreSQL. */
    method Load(target: string, point: Artifacts, f: Faults) returns (refused: Option<Failure>)
      modifies this`staged, this`postgres
      ensures refused == (if ForSQLite(target) && f.stage.Torn? then Some(SQLiteNotStaged)
                          else if UsesPsql(tools, target) && (!f.psql.Runs? || engine.load(old(postgres),
                              point.postgres).None?) then Some(PostgresNotRestored)
                          else None)
      ensures refused.Some? ==> staged == if ForSQLite(target) then None else old(staged)
      ensures refused.Some? ==> postgres == PostgresAfterRefusal(engine, old(postgres), Some(point), refused.value, f)
      ensures refused.None? ==> postgres == NewPostgres(tools, engine, old(postgres), target, point.postgres)
      ensures refused.None? ==> staged == if ForSQLite(target) then Some(point.sqlite) else old(staged)
    {
      if ForSQLite(target) {
        var ok: bool;
        staged, ok := CopyFile(Some(point.sqlite), staged, f.stage);
        if !ok {
          staged := None;
          return Some(SQLiteNotStaged);
        }
      }
      if ForPostgres(target) && tools.psql && tools.dsn {
        var d := engine.load(postgres, point.postgres);
        if !f.psql.Runs? || d.None? {
          if f.psql.CommitsUnheard? && d.Some? {
            postgres := d.value;
          }
          if ForSQLite(target) {
            staged := None;
          }
          return Some(PostgresNotRestored);
        }
        postgres := d.value;
      }
      refused := None;
    }

    /** Moves the staged image over the live file and checks it, rolling both stores back when that fails. */
    method Activate(target: string, f: Faults) returns (failed: Option<Failure>)
      requires staged.Some?
      requires savedPostgres.Some? ==> ForPostgres(target)
      modifies this`sqlite, this`postgres, this`staged
      ensures staged == None
      ensures failed == (if !f.rename then Some(SQLiteNotActivated) else if tools.sqlite3
              && !f.integrity then Some(IntegrityFailed) else None)
      ensures postgres == if failed.Some? then Undone(tools, engine, old(postgres), savedPostgres, f) else old(postgres)
      ensures sqlite == (if !f.rename then old(sqlite)
                         else if failed.Some? && savedSQLite.Some? then Copied(savedSQLite, old(staged), f.undoCopy).0
                         else old(staged))
    {
      if !f.rename {
        staged := None;
        if ForPostgres(target) {
          UndoPostgres(f);
        }
        return Some(SQLiteNotActivated);
      }
      sqlite, staged := staged, None;
      if tools.sqlite3 && !f.integrity {
        if savedSQLite.Some? {
          var ok;
          sqlite, ok := CopyFile(savedSQLite, sqlite, f.undoCopy);
        }
        UndoPostgres(f);
        return Some(IntegrityFailed);
      }
      failed := None;
    }
  }

  // ---------------------------------------------------------------- success

  /**
    A restore that succeeds puts the backup into every selected store it has a tool for, touches nothing else, leaves no
    staging file, and answers with the point, the target and the recorded sums.
   */
  lemma SuccessRestores(tools: Tools, engine: Engine, w: World, opts: Options, backup: Option<Artifacts>, f: Faults)
    requires Run(tools, engine, w, opts, backup, f).1.Ok?
    ensures backup.Some?
    ensures var (after, r) := Run(tools, engine, w, opts, backup, f);
            && after.sqlite == (if opts.target != "postgres" then Some(backup.value.sqlite) else w.sqlite)
            && (if opts.target != "local" && tools.psql && tools.dsn
                then engine.load(w.postgres, backup.value.postgres) == Some(after.postgres)
                else after.postgres == w.postgres)
            && (opts.target != "postgres" ==> after.staged == None)
            && r.value.backupId == opts.backupId && r.value.target == opts.target && r.value.verified
            && r.value.postgresSHA == backup.value.postgresSHA && r.value.sqliteSHA == backup.value.sqliteSHA
  {
  }

  /**
    When a restore succeeds: it is asked for properly, the point verifies, and every step it needs works.  Nothing else
    makes it refuse.
   */
  lemma SucceedsIff(tools: Tools, engine: Engine, w: World, opts: Options, backup: Option<Artifacts>, f: Faults)
    ensures Run(tools, engine, w, opts, backup, f).1.Ok? <==>
              && opts.backupId != "" && opts.confirm == "RESTORE"
              && (opts.target == "local" || opts.target == "postgres" || opts.target == "both")
              && backup.Some? && f.verify && f.mkdir
              && (opts.target != "postgres" ==>
                    && (w.sqlite.Some? ==> f.save.Done?) && f.stage.Done? && f.rename
                    && (tools.sqlite3 ==> f.integrity))
              && (opts.target != "local" && tools.dsn ==>
                    && (tools.pgDump ==> f.dump)
                    && (tools.psql ==> f.psql.Runs? && engine.load(w.postgres, backup.value.postgres).Some?))
  {
    hide Undone, PostgresAfterRefusal;
  }

  /** Without a failing step, a restore that is asked for properly brings the backup back into the stores it names. */
  lemma UndisturbedRestores(tools: Tools, engine: Engine, w: World, id: string, target: string, point: Artifacts)
    requires id != "" && (target == "local" || target == "postgres" || target == "both")
    requires target != "local" && tools.psql && tools.dsn ==> engine.load(w.postgres, point.postgres).Some?
    ensures var (after, r) := Run(tools, engine, w, Options(id, "RESTORE", target), Some(point), NO_FAULT);
            && r.Ok?
            && after.sqlite == (if target == "local" || target == "both" then Some(point.sqlite) else w.sqlite)
            && after.postgres == (if (target == "postgres" || target == "both") && tools.psql && tools.dsn
                                  then engine.load(w.postgres, point.postgres).value else w.postgres)
  {
    SucceedsIff(tools, engine, w, Options(id, "RESTORE", target), Some(point), NO_FAULT);
    SuccessRestores(tools, engine, w, Options(id, "RESTORE", target), Some(point), NO_FAULT);
  }

  /** What each error means: the step it names is the one that failed. */
  lemma ErrorsTellTheTruth(tools: Tools, engine: Engine, w: World, opts: Options, backup: Option<Artifacts>, f: Faults)
    requires Run(tools, engine, w, opts, backup, f).1.Err?
    ensures match Run(tools, engine, w, opts, backup, f).1.error
            case NoId => opts.backupId == ""
            case NotConfirmed => opts.confirm != "RESTORE"
            case InvalidTarget => opts.target !in {"local", "postgres", "both"}
            case NotVerified => backup.None? || !f.verify
            case NoPreRestorePoint => !f.mkdir
            case SQLiteNotSaved => opts.target != "postgres" && w.sqlite.Some? && !f.save.Done?
            case PostgresNotSaved => opts.target != "local" && tools.pgDump && tools.dsn && !f.dump
            case SQLiteNotStaged => opts.target != "postgres" && !f.stage.Done?
            case PostgresNotRestored =>
              && opts.target != "local" && tools.psql && tools.dsn
              && (!f.psql.Runs? || engine.load(w.postgres, backup.value.postgres).None?)
            case SQLiteNotActivated => opts.target != "postgres" && !f.rename
            case IntegrityFailed => opts.target != "postgres" && tools.sqlite3 && !f.integrity
  {
    hide Undone, PostgresAfterRefusal;
  }

  /** With psql missing, or without an address, a restore of PostgreSQL reports success and restores nothing. */
  lemma SilentSkip(tools: Tools, engine: Engine, w: World, id: string, backup: Artifacts, f: Faults)
    requires id != "" && f.verify && f.mkdir && f.dump && !(tools.psql && tools.dsn)
    ensures var r := Run(tools, engine, w, Options(id, "RESTORE", "postgres"), Some(backup), f);
            r.1.Ok? && r.1.value.verified && r.0 == w
  {
  }

  // ---------------------------------------------------------------- all or nothing

  predicate Unchanged(w: World, after: World) {
    after.sqlite == w.sqlite && after.postgres == w.postgres
  }

  /** The rollback commands themselves work. */
  predicate UndoWorks(f: Faults) {
    f.undoCopy.Done? && f.undoPsql
  }

  /**
    Whatever fails, as long as the rollback works, an error leaves both live stores as they were.  With `unheard`
    that includes a psql that commits and reports a failure.
   */
  ghost predicate AllOrNothing(tools: Tools, engine: Engine, w: World, opts: Options, backup: Option<Artifacts>,
                               unheard: bool) {
    forall f {:trigger Run(tools, engine, w, opts, backup, f)} ::
      UndoWorks(f) && (f.psql.CommitsUnheard? ==> unheard) && Run(tools, engine, w, opts, backup, f).1.Err? ==>
          Unchanged(w, Run(tools, engine, w, opts, backup, f).0)
  }

  /** A run over this point can get as far as activating the SQLite image. */
  predicate CanActivate(tools: Tools, engine: Engine, w: World, opts: Options, backup: Option<Artifacts>) {
    && Accepted(opts) && ForSQLite(opts.target) && backup.Some?
    && (UsesPsql(tools, opts.target) ==> engine.load(w.postgres, backup.value.postgres).Some?)
  }

  /** PostgreSQL after the replay of the dump taken before, or as it is now where there was no pg_dump to take it. */
  function Replayed(tools: Tools, engine: Engine, db: string, now: string): string {
    if tools.pgDump then Loaded(engine, now, engine.dump(db)) else now
  }

  /**
    What a caller can check beforehand: replaying the dump of PostgreSQL as it is over PostgreSQL as it would be gives
    back PostgreSQL as it is, and if the image is checked after activation, there is a live file to go back to.
   */
  predicate CanUndo(tools: Tools, engine: Engine, w: World, opts: Options, backup: Option<Artifacts>) {
    CanActivate(tools, engine, w, opts, backup) ==>
      && (UsesPsql(tools, opts.target) ==>
            Replayed(tools, engine, w.postgres, Loaded(engine, w.postgres, backup.value.postgres)) == w.postgres)
      && (tools.sqlite3 ==> w.sqlite.Some?)
  }

  const NO_FAULT := Faults(true, true, Done, true, Done, Runs, true, true, Done, true)

  /** The rollback of PostgreSQL, where it runs, is that replay. */
  lemma UndoneIsReplayed(tools: Tools, engine: Engine, w: World, opts: Options, point: Artifacts, f: Faults)
    requires UndoWorks(f)
    ensures var db := NewPostgres(tools, engine, w.postgres, opts.target, point.postgres);
            Undone(tools, engine, db, SavedDump(tools, engine, w.postgres, opts.target), f)
            == if UsesPsql(tools, opts.target) then Replayed(tools, engine, w.postgres, db) else w.postgres
  {
  }

  /** Restore is all or nothing exactly when CanUndo holds, for every engine and every schedule of failures. */
  lemma AllOrNothingIff(tools: Tools, engine: Engine, w: World, opts: Options, backup: Option<Artifacts>)
    ensures AllOrNothing(tools, engine, w, opts, backup, false) <==> CanUndo(tools, engine, w, opts, backup)
  {
    if CanUndo(tools, engine, w, opts, backup) {
      forall f | UndoWorks(f) && !f.psql.CommitsUnheard? && Run(tools, engine, w, opts, backup, f).1.Err?
        ensures Unchanged(w, Run(tools, engine, w, opts, backup, f).0)
      {
        if Refusal(tools, engine, w, opts, backup, f).None? {
          UndoneIsReplayed(tools, engine, w, opts, backup.value, f);
        }
      }
    } else {
      var f := if tools.sqlite3 && w.sqlite.None? then NO_FAULT.(integrity := false) else NO_FAULT.(rename := false);
      LeftTorn(tools, engine, w, opts, backup, f);
    }
  }

  /** The run that shows it: one failing step, a working rollback, and a store that is not as before. */
  lemma LeftTorn(tools: Tools, engine: Engine, w: World, opts: Options, backup: Option<Artifacts>, f: Faults)
    requires !CanUndo(tools, engine, w, opts, backup)
    requires f == if tools.sqlite3 && w.sqlite.None? then NO_FAULT.(integrity := false) else NO_FAULT.(rename := false)
    ensures UndoWorks(f) && Run(tools, engine, w, opts, backup, f).1.Err?
    ensures !Unchanged(w, Run(tools, engine, w, opts, backup, f).0)
  {
    UndoneIsReplayed(tools, engine, w, opts, backup.value, f);
  }

  /** Replaying a plain dump over any state brings back the dumped state. */
  ghost predicate Replays(engine: Engine) {
    forall db, now {:trigger engine.load(now, engine.dump(db))} :: engine.load(now, engine.dump(db)) == Some(db)
  }

  /** Where dumps always replay, it is enough that pg_dump is there whenever PostgreSQL would change. */
  lemma AllOrNothingWhereDumpsReplay(tools: Tools, engine: Engine, w: World, opts: Options, backup: Option<Artifacts>)
    requires Replays(engine)
    ensures AllOrNothing(tools, engine, w, opts, backup, false) <==>
              (CanActivate(tools, engine, w, opts, backup) ==>
                 && (NewPostgres(tools, engine, w.postgres, opts.target, backup.value.postgres) == w.postgres
                     || tools.pgDump)
                 && (tools.sqlite3 ==> w.sqlite.Some?))
  {
    AllOrNothingIff(tools, engine, w, opts, backup);
    if backup.Some? {
      var now := NewPostgres(tools, engine, w.postgres, opts.target, backup.value.postgres);
      assert engine.load(now, engine.dump(w.postgres)) == Some(w.postgres);
    }
  }

  /** The script of the point would change PostgreSQL. */
  predicate Changes(tools: Tools, engine: Engine, w: World, opts: Options, backup: Option<Artifacts>) {
    && Accepted(opts) && UsesPsql(tools, opts.target) && backup.Some?
    && Loaded(engine, w.postgres, backup.value.postgres) != w.postgres
  }

  /**
    The error branch of psql rolls nothing back.  Counting a psql that commits and reports a failure, restore is all or
    nothing exactly when PostgreSQL would not change and CanUndo holds.
   */
  lemma AllOrNothingUnheardIff(tools: Tools, engine: Engine, w: World, opts: Options, backup: Option<Artifacts>)
    ensures AllOrNothing(tools, engine, w, opts, backup, true) <==>
              CanUndo(tools, engine, w, opts, backup) && !Changes(tools, engine, w, opts, backup)
  {
    AllOrNothingIff(tools, engine, w, opts, backup);
    if Changes(tools, engine, w, opts, backup) {
      var r := Run(tools, engine, w, opts, backup, NO_FAULT.(psql := CommitsUnheard));
      assert r.1 == Err(PostgresNotRestored) && !Unchanged(w, r.0);
    } else {
      forall f | UndoWorks(f) && f.psql.CommitsUnheard? && Run(tools, engine, w, opts, backup, f).1.Err?
        ensures Unchanged(w, Run(tools, engine, w, opts, backup, f).0) || !CanUndo(tools, engine, w, opts, backup)
      {
        if Refusal(tools, engine, w, opts, backup, f).None? {
          UndoneIsReplayed(tools, engine, w, opts, backup.value, f);
        }
      }
      if AllOrNothing(tools, engine, w, opts, backup, true) {
        assert AllOrNothing(tools, engine, w, opts, backup, false);
      }
    }
  }

  /**
    The dump is taken without --clean.  Where replaying it is aborted, because what it creates exists, the rollback
    does nothing: a failed activation leaves the new PostgreSQL beside the old SQLite file.
   */
  lemma PlainDumpLeavesThemApart(tools: Tools, engine: Engine, w: World, id: string, backup: Artifacts, now: string)
    requires id != "" && tools.psql && tools.dsn && engine.load(w.postgres, backup.postgres) == Some(now)
             && now != w.postgres
    requires engine.load(now, engine.dump(w.postgres)) == None
    ensures var r := Run(tools, engine, w, Options(id, "RESTORE", "both"), Some(backup), NO_FAULT.(rename := false));
            r.1 == Err(SQLiteNotActivated) && r.0.sqlite == w.sqlite && r.0.postgres == now
  {
  }
}
