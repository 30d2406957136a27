/** The server plugin that, in dev, applies the generated migrations to the
    database returned by `useDB`. Applying them is one abstract step whose
    success or failure is an input; a failure is logged and swallowed. */
module Migrations {
  import opened Common
  import opened Db

  /** How the plugin ended. It never throws. */
  datatype Outcome =
    | Skipped                                 // not dev: nothing happens
    | Migrated(db: Backend, folder: Path)     // migrations applied to `db`
    | FailureLogged                           // "Cannot migrate database"

  /** The plugin body: outside dev it does nothing; in dev it calls
      `useDB()` and migrates from `db.migrations`, catching any error. In dev
      `useDB()` cannot throw, so the only error caught is the migration's. */
  method RunPlugin(db: DbSingleton, env: Env, dev: bool, database: Path, migrations: Path, migrateSucceeds: bool)
    returns (o: Outcome)
    requires db.Valid()
    modifies db
    ensures db.Valid()
    ensures !dev ==> o == Skipped && unchanged(db)
    ensures dev ==> db.cache.Some? && db.cache == Serve(old(db.cache), Call(env, true, database)).1
    ensures dev && migrateSucceeds ==> o == Migrated(db.cache.value, migrations)
    ensures dev && !migrateSucceeds ==> o == FailureLogged
  {
    if !dev {
      return Skipped;
    }
    var r := db.UseDB(env, dev, database);
    if r.Err? {
      assert false;
    }
    if migrateSucceeds {
      o := Migrated(r.handle, migrations);
    } else {
      o := FailureLogged;
    }
  }
}
