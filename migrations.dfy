/** The migration manager: how it drives a migration source and which of the
    source's errors it tolerates, wraps or reports. The source is a scripted
    stand-in for the locally declared `Migration` interface. */
module Migrations {
  import opened Wrappers
  import Strs

  /** The migration library's "no version recorded yet" error. */
  const ErrNilVersion: Error := Sentinel("no migration")
  /** The migration library's "already at the latest version" error. */
  const ErrNoChange: Error := Sentinel("no change")

  datatype MigrationCall = VersionCall | UpCall | StepsCall(n: int) | MigrateCall(version: nat)

  /** The triple `Version()` returns. */
  datatype VersionAnswer = VersionAnswer(version: nat, dirty: bool, err: Option<Error>)

  /** What `Version()` answers: the next scripted fault if any, otherwise the
      current version, or `ErrNilVersion` when none has been applied. */
  function VersionReplyOf(faults: seq<Error>, version: Option<nat>, dirty: bool): VersionAnswer
  {
    if |faults| > 0 then VersionAnswer(0, false, Some(faults[0]))
    else if version.None? then VersionAnswer(0, false, Some(ErrNilVersion))
    else VersionAnswer(version.value, dirty, None)
  }

  /** The scripted faults left after one `Version()` call. */
  function RestOf(faults: seq<Error>): seq<Error>
  {
    if |faults| > 0 then faults[1..] else faults
  }

  /** The version after moving `n` steps (down when negative); stepping below
      the first migration leaves no version. */
  function Shift(version: Option<nat>, n: int): Option<nat>
  {
    var t := (if version.Some? then version.value else 0) + n;
    if t <= 0 then None else Some(t)
  }

  /** A Version error blocks a run or a status query unless it is the library's
      own "no version" error; the comparison is by identity, not `errors.Is`. */
  predicate Tolerated(err: Option<Error>)
  {
    err.None? || err.value == ErrNilVersion
  }

  /** A wrapped "no version" error is still recognised by `errors.Is`, but the
      identity comparison does not tolerate it. */
  lemma WrappedNilVersionBlocks(context: string)
    ensures Wrapped(context, ErrNilVersion).Is(ErrNilVersion)
    ensures !Tolerated(Some(Wrapped(context, ErrNilVersion)))
  {
  }

  /** `GetMigrationStatus` from a `Version()` answer: a blocking error is wrapped
      and the version and dirty flag are zeroed; otherwise, the "no version"
      error included, the answer's version and flag come back with no error. */
  function StatusOf(a: VersionAnswer): (r: (nat, bool, Option<Error>))
    ensures r.2.None? <==> Tolerated(a.err)
    ensures r.2.Some? ==> r == (0, false, Some(Wrapped("failed to get migration status", a.err.value)))
    ensures r.2.None? ==> r.0 == a.version && r.1 == a.dirty
  {
    if !Tolerated(a.err) then (0, false, Some(Wrapped("failed to get migration status", a.err.value)))
    else (a.version, a.dirty, None)
  }

  /** A source that has never been migrated reports version 0, clean, no error. */
  lemma FreshStatus()
    ensures StatusOf(VersionReplyOf([], None, false)) == (0, false, None)
  {
  }

  /** The migration source: its current version and dirty flag, the latest
      version `Up` moves to, the faults each operation is scripted to return,
      and the calls made to it. */
  class Migration {
    var version: Option<nat>
    var dirty: bool
    const latest: nat
    /** The next `Version()` calls fail with these errors, one each, in order. */
    var versionFaults: seq<Error>
    const upFault: Option<Error>
    const stepsFault: Option<Error>
    const migrateFault: Option<Error>
    var calls: seq<MigrationCall>

    constructor (version: Option<nat>, dirty: bool, latest: nat, versionFaults: seq<Error>,
                 upFault: Option<Error>, stepsFault: Option<Error>, migrateFault: Option<Error>)
      ensures this.version == version && this.dirty == dirty && this.latest == latest
      ensures this.versionFaults == versionFaults && this.upFault == upFault
      ensures this.stepsFault == stepsFault && this.migrateFault == migrateFault && calls == []
    {
      this.version := version;
      this.dirty := dirty;
      this.latest := latest;
      this.versionFaults := versionFaults;
      this.upFault := upFault;
      this.stepsFault := stepsFault;
      this.migrateFault := migrateFault;
      calls := [];
    }

    function VersionReply(): VersionAnswer
      reads this`versionFaults, this`version, this`dirty
    {
      VersionReplyOf(versionFaults, version, dirty)
    }

    /** What `Up()` answers: the scripted fault, or `ErrNoChange` at the latest version. */
    function UpReply(): Option<Error>
      reads this`version
    {
      if upFault.Some? then upFault
      else if version == Some(latest) then Some(ErrNoChange)
      else None
    }

    method Version() returns (a: VersionAnswer)
      modifies this`versionFaults, this`calls
      ensures a == old(VersionReply())
      ensures versionFaults == RestOf(old(versionFaults))
      ensures calls == old(calls) + [VersionCall]
    {
      a := VersionReply();
      versionFaults := RestOf(versionFaults);
      calls := calls + [VersionCall];
    }

    /** Applies every pending migration. */
    method Up() returns (err: Option<Error>)
      modifies this`version, this`dirty, this`calls
      ensures err == old(UpReply())
      ensures if err.None? then version == Some(latest) && !dirty
              else version == old(version) && dirty == old(dirty)
      ensures calls == old(calls) + [UpCall]
    {
      err := UpReply();
      if err.None? {
        version, dirty := Some(latest), false;
      }
      calls := calls + [UpCall];
    }

    /** Moves `n` migrations up, or down when `n` is negative. */
    method Steps(n: int) returns (err: Option<Error>)
      modifies this`version, this`dirty, this`calls
      ensures err == stepsFault
      ensures if err.None? then version == Shift(old(version), n) && !dirty
              else version == old(version) && dirty == old(dirty)
      ensures calls == old(calls) + [StepsCall(n)]
    {
      err := stepsFault;
      if err.None? {
        version, dirty := Shift(version, n), false;
      }
      calls := calls + [StepsCall(n)];
    }

    /** Migrates up or down to version `v`. */
    method Migrate(v: nat) returns (err: Option<Error>)
      modifies this`version, this`dirty, this`calls
      ensures err == migrateFault
      ensures if err.None? then version == Some(v) && !dirty
              else version == old(version) && dirty == old(dirty)
      ensures calls == old(calls) + [MigrateCall(v)]
    {
      err := migrateFault;
      if err.None? {
        version, dirty := Some(v), false;
      }
      calls := calls + [MigrateCall(v)];
    }
  }

  class MigrationManager {
    const migrations: Migration

    constructor (migrations: Migration)
      ensures this.migrations == migrations
    {
      this.migrations := migrations;
    }

    /** Resolving a dirty state is left to the operator: it always succeeds. */
    method HandleDirtyState() returns (err: Option<Error>)
      ensures err == None
    {
      err := None;
    }

    /** Reads the version (only "no version" is tolerated), resolves a dirty
        state, applies pending migrations (`ErrNoChange` is success and ends the
        run) and reads the version again, which must then succeed. */
    method RunMigrations() returns (err: Option<Error>)
      modifies migrations`versionFaults, migrations`version, migrations`dirty, migrations`calls
      ensures var first := old(migrations.VersionReply());
        var up := old(migrations.UpReply());
        var second := VersionReplyOf(RestOf(old(migrations.versionFaults)), Some(migrations.latest), false);
        if !Tolerated(first.err) then
          && err == Some(Wrapped("failed to get migration version", first.err.value))
          && migrations.calls == old(migrations.calls) + [VersionCall]
          && migrations.versionFaults == RestOf(old(migrations.versionFaults))
          && migrations.version == old(migrations.version) && migrations.dirty == old(migrations.dirty)
        else if up == Some(ErrNoChange) then
          && err == None
          && migrations.calls == old(migrations.calls) + [VersionCall, UpCall]
          && migrations.versionFaults == RestOf(old(migrations.versionFaults))
          && migrations.version == old(migrations.version) && migrations.dirty == old(migrations.dirty)
        else if up.Some? then
          && err == Some(Wrapped("failed to apply migrations", up.value))
          && migrations.calls == old(migrations.calls) + [VersionCall, UpCall]
          && migrations.versionFaults == RestOf(old(migrations.versionFaults))
          && migrations.version == old(migrations.version) && migrations.dirty == old(migrations.dirty)
        else
          && err == (if second.err.Some? then Some(Wrapped("failed to get new version", second.err.value)) else None)
          && migrations.calls == old(migrations.calls) + [VersionCall, UpCall, VersionCall]
          && migrations.versionFaults == RestOf(RestOf(old(migrations.versionFaults)))
          && migrations.version == Some(migrations.latest) && !migrations.dirty
    {
      var current := migrations.Version();
      if !Tolerated(current.err) {
        return Some(Wrapped("failed to get migration version", current.err.value));
      }
      if current.dirty {
        var dirtyErr := HandleDirtyState();
        if dirtyErr.Some? {
          // the "failed to handle dirty state" wrapping cannot be reached
          assert false;
        }
      }
      var upErr := migrations.Up();
      if upErr.Some? {
        if upErr.value == ErrNoChange {
          return None;
        }
        return Some(Wrapped("failed to apply migrations", upErr.value));
      }
      var next := migrations.Version();
      if next.err.Some? {
        return Some(Wrapped("failed to get new version", next.err.value));
      }
      err := None;
    }

    /** Rolls back exactly one migration with `Steps(-1)`. */
    method RollbackLastMigration() returns (err: Option<Error>)
      modifies migrations`version, migrations`dirty, migrations`calls
      ensures migrations.calls == old(migrations.calls) + [StepsCall(-1)]
      ensures err == if migrations.stepsFault.Some?
                     then Some(Wrapped("failed to rollback last migration", migrations.stepsFault.value))
                     else None
      ensures if err.None? then migrations.version == Shift(old(migrations.version), -1) && !migrations.dirty
              else migrations.version == old(migrations.version) && migrations.dirty == old(migrations.dirty)
    {
      var stepErr := migrations.Steps(-1);
      if stepErr.Some? {
        return Some(Wrapped("failed to rollback last migration", stepErr.value));
      }
      err := None;
    }

    /** Migrates to `version` with a single `Migrate(version)`. */
    method RollbackToVersion(version: nat) returns (err: Option<Error>)
      modifies migrations`version, migrations`dirty, migrations`calls
      ensures migrations.calls == old(migrations.calls) + [MigrateCall(version)]
      ensures err == if migrations.migrateFault.Some?
                     then Some(Wrapped("failed to rollback to version " + Strs.Itoa(version), migrations.migrateFault.value))
                     else None
      ensures if err.None? then migrations.version == Some(version) && !migrations.dirty
              else migrations.version == old(migrations.version) && migrations.dirty == old(migrations.dirty)
    {
      var migErr := migrations.Migrate(version);
      if migErr.Some? {
        return Some(Wrapped("failed to rollback to version " + Strs.Itoa(version), migErr.value));
      }
      err := None;
    }

    /** The version and dirty flag, with "no version" reported as no error. */
    method GetMigrationStatus() returns (version: nat, dirty: bool, err: Option<Error>)
      modifies migrations`versionFaults, migrations`calls
      ensures (version, dirty, err) == StatusOf(old(migrations.VersionReply()))
      ensures migrations.calls == old(migrations.calls) + [VersionCall]
    {
      var a := migrations.Version();
      if !Tolerated(a.err) {
        return 0, false, Some(Wrapped("failed to get migration status", a.err.value));
      }
      return a.version, a.dirty, None;
    }
  }
}
