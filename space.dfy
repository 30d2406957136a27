/** The `nuxt-space` module's `setup`: it fills the runtime configuration
    with defaults, makes sure the database directory exists, and in dev
    writes the drizzle configuration, creates a placeholder schema and arms a
    watcher on it; it always ends by running the migration generator. The
    file system, the watcher, the generator and the restart hook are
    abstract: every action is an `Effect` appended to a log. */
module Space {
  import opened Common

  // ---------------------------------------------------------------------
  // Runtime configuration

  /** `runtimeConfig.db` as the user left it: each key may be undefined. */
  datatype DbOptions = DbOptions(tables: Option<Path>, migrations: Option<Path>, database: Option<Path>)

  datatype SessionOptions = SessionOptions(name: Option<string>, password: Option<string>)

  datatype GithubOptions = GithubOptions(
    clientId: Option<string>,
    clientSecret: Option<string>,
    authorizationURL: Option<string>,
    tokenURL: Option<string>)

  /** The parts of `nuxt.options.runtimeConfig` that `setup` fills in. */
  datatype RuntimeConfig = RuntimeConfig(
    kvDir: Option<Path>,
    db: DbOptions,
    session: SessionOptions,
    github: GithubOptions)

  /** The three database locations once defaults are applied. */
  datatype DbPaths = DbPaths(tables: Path, migrations: Path, database: Path)

  const SessionName := "nuxt-space-session"
  const GithubAuthorizationURL := "https://github.com/login/oauth/authorize"
  const GithubTokenURL := "https://github.com/login/oauth/access_token"

  /** The database locations: the user's where given, otherwise
      `server/db/tables.ts`, `server/db/migrations` and `data/db.sqlite`
      under the project root. */
  function DbDefaults(root: Path, db: DbOptions): (r: DbPaths)
    ensures db.tables.Some? ==> r.tables == db.tables.value
    ensures db.tables.None? ==> r.tables == Join(root, ["server", "db", "tables.ts"])
    ensures db.migrations.Some? ==> r.migrations == db.migrations.value
    ensures db.migrations.None? ==> r.migrations == Join(root, ["server", "db", "migrations"])
    ensures db.database.Some? ==> r.database == db.database.value
    ensures db.database.None? ==> r.database == Join(root, ["data", "db.sqlite"])
  {
    DbPaths(
      Defu(db.tables, Join(root, ["server", "db", "tables.ts"])),
      Defu(db.migrations, Join(root, ["server", "db", "migrations"])),
      Defu(db.database, Join(root, ["data", "db.sqlite"])))
  }

  /** The session password after `setup`: in dev without a truthy
      `NUXT_SESSION_PASSWORD`, the first 32 characters of a random digest
      (the user's password is overwritten); otherwise the user's password,
      or the empty string. */
  function SessionPassword(session: SessionOptions, dev: bool, envPassword: EnvVar, digest: string): (pw: string)
    ensures dev && !Truthy(envPassword) ==> pw <= digest && (|digest| >= 32 ==> |pw| == 32)
    ensures !(dev && !Truthy(envPassword)) && session.password.Some? ==> pw == session.password.value
    ensures !(dev && !Truthy(envPassword)) && session.password.None? ==> pw == ""
  {
    if dev && !Truthy(envPassword) then Slice(digest, 32) else Defu(session.password, "")
  }

  /** The runtime configuration after `setup`: every key it covers is
      defined, user values are kept, and the session password follows
      `SessionPassword`. */
  function Configure(cfg: RuntimeConfig, root: Path, dev: bool, envPassword: EnvVar, digest: string): (r: RuntimeConfig)
    ensures r.kvDir.Some? && r.db.tables.Some? && r.db.migrations.Some? && r.db.database.Some?
    ensures r.session.name.Some? && r.session.password.Some?
    ensures r.github.clientId.Some? && r.github.clientSecret.Some?
    ensures r.github.authorizationURL.Some? && r.github.tokenURL.Some?
    ensures cfg.kvDir.Some? ==> r.kvDir == cfg.kvDir
    ensures cfg.kvDir.None? ==> r.kvDir == Some(Join(root, ["data", "kv"]))
    ensures var p := DbDefaults(root, cfg.db);
      r.db == DbOptions(Some(p.tables), Some(p.migrations), Some(p.database))
    ensures cfg.session.name.Some? ==> r.session.name == cfg.session.name
    ensures cfg.session.name.None? ==> r.session.name == Some(SessionName)
    ensures r.session.password == Some(SessionPassword(cfg.session, dev, envPassword, digest))
    ensures cfg.github.clientId.Some? ==> r.github.clientId == cfg.github.clientId
    ensures cfg.github.clientId.None? ==> r.github.clientId == Some("")
    ensures cfg.github.clientSecret.Some? ==> r.github.clientSecret == cfg.github.clientSecret
    ensures cfg.github.clientSecret.None? ==> r.github.clientSecret == Some("")
    ensures cfg.github.authorizationURL.Some? ==> r.github.authorizationURL == cfg.github.authorizationURL
    ensures cfg.github.authorizationURL.None? ==> r.github.authorizationURL == Some(GithubAuthorizationURL)
    ensures cfg.github.tokenURL.Some? ==> r.github.tokenURL == cfg.github.tokenURL
    ensures cfg.github.tokenURL.None? ==> r.github.tokenURL == Some(GithubTokenURL)
  {
    var p := DbDefaults(root, cfg.db);
    RuntimeConfig(
      Some(Defu(cfg.kvDir, Join(root, ["data", "kv"]))),
      DbOptions(Some(p.tables), Some(p.migrations), Some(p.database)),
      SessionOptions(
        Some(Defu(cfg.session.name, SessionName)),
        Some(SessionPassword(cfg.session, dev, envPassword, digest))),
      GithubOptions(
        Some(Defu(cfg.github.clientId, "")),
        Some(Defu(cfg.github.clientSecret, "")),
        Some(Defu(cfg.github.authorizationURL, GithubAuthorizationURL)),
        Some(Defu(cfg.github.tokenURL, GithubTokenURL))))
  }

  // ---------------------------------------------------------------------
  // Drizzle configuration and effects

  /** The record written to `drizzle.config.json`. */
  datatype DrizzleConfig = DrizzleConfig(out: Path, schema: Path, breakpoints: bool)

  datatype FileContent = Json(config: DrizzleConfig) | Text(text: string)

  /** The abstract actions of `setup` and of the watcher callback. */
  datatype Effect =
    | MkDir(dir: Path)                            // mkdirSync(dir, { recursive: true })
    | WriteFile(path: Path, content: FileContent) // writeFile, overwriting
    | ArmWatch(target: Path)                      // chokidar watch(target).on('change', ...)
    | RunGenerate(cwd: Path)                      // npx drizzle-kit generate:sqlite
    | CloseWatch                                  // watcher.close()
    | Restart                                     // nuxt.hooks.callHook('restart')

  /** The stub written when no schema file exists. */
  const PlaceholderSchema := "import { sqliteTable, text, integer } from 'drizzle-orm/sqlite-core'\n"

  function DrizzleConfigPath(root: Path): Path {
    Join(root, ["drizzle.config.json"])
  }

  /** The drizzle configuration: output and schema locations relative to
      the project root, and `breakpoints` always on. */
  function DrizzleConfigFor(root: Path, db: DbPaths): (c: DrizzleConfig)
    ensures c.out == Relative(root, Join(db.migrations, []))
    ensures c.schema == Relative(root, Join(db.tables, []))
    ensures c.breakpoints
  {
    DrizzleConfig(Relative(root, Join(db.migrations, [])), Relative(root, Join(db.tables, [])), true)
  }

  /** The paths `existsSync` reports after an effect: a created directory
      or a written file exists; nothing else changes. */
  function Apply(files: set<Path>, e: Effect): (r: set<Path>)
    ensures files <= r
    ensures e.MkDir? ==> r == files + {e.dir}
    ensures e.WriteFile? ==> r == files + {e.path}
    ensures !e.MkDir? && !e.WriteFile? ==> r == files
  {
    match e
    case MkDir(d) => files + {d}
    case WriteFile(p, _) => files + {p}
    case _ => files
  }

  function ApplyAll(files: set<Path>, t: seq<Effect>): set<Path>
    decreases |t|
  {
    if t == [] then files else ApplyAll(Apply(files, t[0]), t[1..])
  }

  lemma {:induction false} ApplyAllAppend(files: set<Path>, a: seq<Effect>, b: seq<Effect>)
    ensures ApplyAll(files, a + b) == ApplyAll(ApplyAll(files, a), b)
    decreases |a|
  {
    if a == [] {
      assert a + b == b;
    } else {
      assert (a + b)[0] == a[0];
      assert (a + b)[1..] == a[1..] + b;
      ApplyAllAppend(Apply(files, a[0]), a[1..], b);
    }
  }

  /** The database directory step: the parent directory of the database
      file is created when the file does not exist. */
  function DbDirTrace(db: DbPaths, files: set<Path>): seq<Effect> {
    if db.database in files then [] else [MkDir(Dirname(db.database))]
  }

  /** The dev-only steps: write the drizzle configuration, create the
      schema file (and its directory) when it is missing, arm the watcher.
      `files` is what exists once the database directory step is done. */
  function DevTrace(root: Path, db: DbPaths, files: set<Path>): seq<Effect> {
    var config := WriteFile(DrizzleConfigPath(root), Json(DrizzleConfigFor(root, db)));
    var schema :=
      if db.tables in Apply(files, config) then []
      else [MkDir(Dirname(db.tables)), WriteFile(db.tables, Text(PlaceholderSchema))];
    [config] + schema + [ArmWatch(db.tables)]
  }

  /** Everything `setup` does, in order, given the dev flag, the database
      locations and the paths that exist when it starts. */
  function SetupTrace(root: Path, dev: bool, db: DbPaths, files: set<Path>): seq<Effect> {
    var dbDir := DbDirTrace(db, files);
    dbDir + (if dev then DevTrace(root, db, ApplyAll(files, dbDir)) else []) + [RunGenerate(root)]
  }

  // ---------------------------------------------------------------------
  // Properties of the setup trace

  /** The database directory is created as the very first effect exactly
      when the database file does not exist. */
  lemma DbDirectoryOnlyIfMissing(root: Path, dev: bool, db: DbPaths, files: set<Path>)
    ensures var t := SetupTrace(root, dev, db, files);
      (db.database !in files <==> t[0] == MkDir(Dirname(db.database)))
  {
  }

  /** Outside dev, setup only creates the database directory when needed
      and runs the generator: no file is written, no watcher armed. */
  lemma NotDevOnlyGenerates(root: Path, db: DbPaths, files: set<Path>)
    ensures var t := SetupTrace(root, false, db, files);
      t == DbDirTrace(db, files) + [RunGenerate(root)] &&
      forall i :: 0 <= i < |t| ==> !t[i].WriteFile? && !t[i].ArmWatch? && !t[i].CloseWatch? && !t[i].Restart?
  {
  }

  /** In dev, the drizzle configuration is written, with exactly the
      derived record, before the schema step and the watcher. */
  lemma DevWritesDrizzleConfig(root: Path, db: DbPaths, files: set<Path>)
    ensures var t := SetupTrace(root, true, db, files);
      var k := |DbDirTrace(db, files)|;
      k < |t| && t[k] == WriteFile(Join(root, ["drizzle.config.json"]),
        Json(DrizzleConfig(Relative(root, Join(db.migrations, [])), Relative(root, Join(db.tables, [])), true)))
  {
  }

  /** Every drizzle configuration that setup writes has `breakpoints` on. */
  lemma BreakpointsAlwaysOn(root: Path, dev: bool, db: DbPaths, files: set<Path>)
    ensures var t := SetupTrace(root, dev, db, files);
      forall i :: 0 <= i < |t| && t[i].WriteFile? && t[i].content.Json? ==> t[i].content.config.breakpoints
  {
  }

  /** The placeholder schema is written exactly when in dev and the
      schema file does not exist at that point; an existing schema file is
      never overwritten with it. */
  lemma PlaceholderOnlyIfMissing(root: Path, dev: bool, db: DbPaths, files: set<Path>)
    ensures var t := SetupTrace(root, dev, db, files);
      var before := Apply(ApplyAll(files, DbDirTrace(db, files)),
                          WriteFile(DrizzleConfigPath(root), Json(DrizzleConfigFor(root, db))));
      (WriteFile(db.tables, Text(PlaceholderSchema)) in t <==> dev && db.tables !in before)
    ensures db.tables in files ==> WriteFile(db.tables, Text(PlaceholderSchema)) !in SetupTrace(root, dev, db, files)
  {
  }

  /** The generator runs exactly once, as the last effect, after the
      watcher (when there is one) has been armed. */
  lemma GenerateRunsLast(root: Path, dev: bool, db: DbPaths, files: set<Path>)
    ensures var t := SetupTrace(root, dev, db, files);
      |t| > 0 && t[|t| - 1] == RunGenerate(root) &&
      (forall i :: 0 <= i < |t| - 1 ==> !t[i].RunGenerate?) &&
      (dev ==> t[|t| - 2] == ArmWatch(db.tables)) &&
      (forall i :: 0 <= i < |t| && t[i].ArmWatch? ==> dev && i == |t| - 2)
  {
  }

  // ---------------------------------------------------------------------
  // The watcher callback

  datatype WatchState = NotArmed | Watching(target: Path) | Closed

  /** One firing of the (debounced) change callback: the generator runs;
      if it succeeds the watcher is closed and then the restart hook is
      called; if it rejects, nothing further happens and the watcher stays
      open. A watcher that is not open delivers no event. */
  function React(w: WatchState, root: Path, generateSucceeds: bool): (r: (seq<Effect>, WatchState))
    ensures !w.Watching? ==> r == ([], w)
    ensures w.Watching? ==> |r.0| > 0 && r.0[0] == RunGenerate(root)
    ensures Restart in r.0 <==> w.Watching? && generateSucceeds
    ensures CloseWatch in r.0 <==> w.Watching? && generateSucceeds
    ensures Restart in r.0 ==> r.0 == [RunGenerate(root), CloseWatch, Restart] && r.1 == Closed
    ensures Restart !in r.0 ==> r.1 == w
    ensures w.Watching? && !generateSucceeds ==> r == ([RunGenerate(root)], w)
  {
    if !w.Watching? then ([], w)
    else if generateSucceeds then ([RunGenerate(root), CloseWatch, Restart], Closed)
    else ([RunGenerate(root)], w)
  }

  /** Successive firings, each with the outcome of its generator run. */
  function Reactions(w: WatchState, root: Path, outcomes: seq<bool>): (seq<Effect>, WatchState)
    decreases |outcomes|
  {
    if outcomes == [] then ([], w)
    else
      var first := React(w, root, outcomes[0]);
      var rest := Reactions(first.1, root, outcomes[1..]);
      (first.0 + rest.0, rest.1)
  }

  function Count(t: seq<Effect>, e: Effect): nat
    decreases |t|
  {
    if t == [] then 0 else (if t[0] == e then 1 else 0) + Count(t[1..], e)
  }

  lemma {:induction false} CountAppend(a: seq<Effect>, b: seq<Effect>, e: Effect)
    ensures Count(a + b, e) == Count(a, e) + Count(b, e)
    decreases |a|
  {
    if a == [] {
      assert a + b == b;
    } else {
      assert (a + b)[0] == a[0];
      assert (a + b)[1..] == a[1..] + b;
      CountAppend(a[1..], b, e);
    }
  }

  lemma {:induction false} CountAbsent(t: seq<Effect>, e: Effect)
    requires e !in t
    ensures Count(t, e) == 0
    decreases |t|
  {
    if t != [] {
      CountAbsent(t[1..], e);
    }
  }

  /** A watcher that is not open produces nothing, however many events. */
  lemma {:induction false} ClosedIsSilent(w: WatchState, root: Path, outcomes: seq<bool>)
    requires !w.Watching?
    ensures Reactions(w, root, outcomes) == ([], w)
    decreases |outcomes|
  {
    if outcomes != [] {
      assert React(w, root, outcomes[0]) == ([], w);
      ClosedIsSilent(w, root, outcomes[1..]);
      var none: seq<Effect> := [];
      assert none + none == none;
    }
  }

  /** Over any sequence of firings the restart hook is called at most once,
      only from an open watcher, always right after the watcher is closed
      and the generator has run, and nothing happens after it. */
  lemma {:induction false} RestartAtMostOnce(w: WatchState, root: Path, outcomes: seq<bool>)
    ensures var (t, _) := Reactions(w, root, outcomes);
      Count(t, Restart) <= (if w.Watching? then 1 else 0) &&
      (Restart in t ==> |t| >= 3 && t[|t| - 1] == Restart && t[|t| - 2] == CloseWatch && t[|t| - 3] == RunGenerate(root))
    decreases |outcomes|
  {
    if outcomes != [] {
      var t0 := React(w, root, outcomes[0]).0;
      var w1 := React(w, root, outcomes[0]).1;
      var rest := Reactions(w1, root, outcomes[1..]).0;
      assert Reactions(w, root, outcomes).0 == t0 + rest;
      if Restart in t0 {
        ClosedIsSilent(w1, root, outcomes[1..]);
        assert t0 + rest == [RunGenerate(root), CloseWatch, Restart];
        var t := [RunGenerate(root), CloseWatch, Restart];
        assert t[1..] == [CloseWatch, Restart] && t[1..][1..] == [Restart] && [Restart][1..] == [];
        assert Count([Restart], Restart) == 1;
        assert Count(t, Restart) == 1;
      } else {
        CountAbsent(t0, Restart);
        RestartAtMostOnce(w1, root, outcomes[1..]);
        CountAppend(t0, rest, Restart);
        if Restart in t0 + rest {
          assert Restart in rest;
        }
      }
    }
  }

  // ---------------------------------------------------------------------
  // The host: the state that `setup` and the callback change

  /** The Nuxt instance as `setup` sees it: its root directory and dev
      flag, its runtime configuration (updated in place), the paths that
      exist, the log of effects, and the schema watcher. */
  class NuxtHost {
    const rootDir: Path
    const dev: bool
    var runtimeConfig: RuntimeConfig
    var files: set<Path>
    var effects: seq<Effect>
    var watcher: WatchState

    constructor (rootDir: Path, dev: bool, runtimeConfig: RuntimeConfig, files: set<Path>)
      ensures this.rootDir == rootDir && this.dev == dev
      ensures this.runtimeConfig == runtimeConfig && this.files == files
      ensures effects == [] && watcher == NotArmed
    {
      this.rootDir := rootDir;
      this.dev := dev;
      this.runtimeConfig := runtimeConfig;
      this.files := files;
      effects := [];
      watcher := NotArmed;
    }

    /** Records one effect and its consequence for the file system. */
    method Perform(e: Effect)
      modifies `effects, `files
      ensures effects == old(effects) + [e] && files == Apply(old(files), e)
    {
      effects := effects + [e];
      files := Apply(files, e);
    }

    /** `setup(_options, nuxt)`. `envPassword` is `NUXT_SESSION_PASSWORD`;
        `digest` stands for `sha256` of the clock and a random number. */
    method Setup(envPassword: EnvVar, digest: string)
      modifies this
      ensures runtimeConfig == Configure(old(runtimeConfig), rootDir, dev, envPassword, digest)
      ensures var t := SetupTrace(rootDir, dev, DbDefaults(rootDir, old(runtimeConfig).db), old(files));
        effects == old(effects) + t && files == ApplyAll(old(files), t)
      ensures watcher == if dev then Watching(DbDefaults(rootDir, old(runtimeConfig).db).tables) else old(watcher)
    {
      ghost var files0, effects0 := files, effects;
      var db := FillDbDefaults();
      // Create the database directory
      if db.database !in files {
        Perform(MkDir(Dirname(db.database)));
      }
      ghost var dbDir := DbDirTrace(db, files0);
      assert effects == effects0 + dbDir && files == ApplyAll(files0, dbDir);
      FillSessionAndOAuthDefaults(envPassword, digest);
      ghost var devPart := if dev then DevTrace(rootDir, db, files) else [];
      if dev {
        PrepareDrizzle(db);
      }
      ApplyAllAppend(files0, dbDir, devPart);
      ghost var files2 := files;
      Perform(RunGenerate(rootDir));
      ApplyAllAppend(files0, dbDir + devPart, [RunGenerate(rootDir)]);
      assert ApplyAll(files2, [RunGenerate(rootDir)]) == files2;
    }

    /** The KV and database defaults; returns the database locations. */
    method FillDbDefaults() returns (db: DbPaths)
      modifies `runtimeConfig
      ensures db == DbDefaults(rootDir, old(runtimeConfig).db)
      ensures runtimeConfig == old(runtimeConfig).(
        kvDir := Some(Defu(old(runtimeConfig).kvDir, Join(rootDir, ["data", "kv"]))),
        db := DbOptions(Some(db.tables), Some(db.migrations), Some(db.database)))
    {
      db := DbDefaults(rootDir, runtimeConfig.db);
      runtimeConfig := runtimeConfig.(
        kvDir := Some(Defu(runtimeConfig.kvDir, Join(rootDir, ["data", "kv"]))),
        db := DbOptions(Some(db.tables), Some(db.migrations), Some(db.database)));
    }

    /** The session defaults, the random dev password, and the GitHub OAuth
        defaults. */
    method FillSessionAndOAuthDefaults(envPassword: EnvVar, digest: string)
      modifies `runtimeConfig
      ensures runtimeConfig == old(runtimeConfig).(
        session := SessionOptions(
          Some(Defu(old(runtimeConfig).session.name, SessionName)),
          Some(SessionPassword(old(runtimeConfig).session, dev, envPassword, digest))),
        github := GithubOptions(
          Some(Defu(old(runtimeConfig).github.clientId, "")),
          Some(Defu(old(runtimeConfig).github.clientSecret, "")),
          Some(Defu(old(runtimeConfig).github.authorizationURL, GithubAuthorizationURL)),
          Some(Defu(old(runtimeConfig).github.tokenURL, GithubTokenURL))))
    {
      var name := Defu(runtimeConfig.session.name, SessionName);
      var password := Defu(runtimeConfig.session.password, "");
      if dev && !Truthy(envPassword) {
        password := Slice(digest, 32);
      }
      runtimeConfig := runtimeConfig.(session := SessionOptions(Some(name), Some(password)));
      runtimeConfig := runtimeConfig.(github := GithubOptions(
        Some(Defu(runtimeConfig.github.clientId, "")),
        Some(Defu(runtimeConfig.github.clientSecret, "")),
        Some(Defu(runtimeConfig.github.authorizationURL, GithubAuthorizationURL)),
        Some(Defu(runtimeConfig.github.tokenURL, GithubTokenURL))));
    }

    /** The dev-only block: `drizzle.config.json`, the placeholder schema,
        and the watcher. */
    method PrepareDrizzle(db: DbPaths)
      modifies `effects, `files, `watcher
      ensures effects == old(effects) + DevTrace(rootDir, db, old(files))
      ensures files == ApplyAll(old(files), DevTrace(rootDir, db, old(files)))
      ensures watcher == Watching(db.tables)
    {
      Perform(WriteFile(DrizzleConfigPath(rootDir), Json(DrizzleConfigFor(rootDir, db))));
      if db.tables !in files {
        Perform(MkDir(Dirname(db.tables)));
        Perform(WriteFile(db.tables, Text(PlaceholderSchema)));
      }
      Perform(ArmWatch(db.tables));
      watcher := Watching(db.tables);
      DevTraceFiles(rootDir, db, old(files));
    }

    /** One firing of the debounced change callback, with the outcome of
        its generator run. */
    method OnChange(generateSucceeds: bool)
      modifies `effects, `files, `watcher
      ensures effects == old(effects) + React(old(watcher), rootDir, generateSucceeds).0
      ensures files == old(files)
      ensures watcher == React(old(watcher), rootDir, generateSucceeds).1
    {
      if watcher.Watching? {
        Perform(RunGenerate(rootDir));
        if generateSucceeds {
          Perform(CloseWatch);
          watcher := Closed;
          Perform(Restart);
        }
      }
    }
  }

  /** The file-system view after the dev steps, as `Setup` computes it. */
  lemma DevTraceFiles(root: Path, db: DbPaths, files: set<Path>)
    ensures ApplyAll(files, DevTrace(root, db, files)) ==
      var f1 := files + {DrizzleConfigPath(root)};
      if db.tables in f1 then f1 else f1 + {Dirname(db.tables), db.tables}
  {
    var config := WriteFile(DrizzleConfigPath(root), Json(DrizzleConfigFor(root, db)));
    var f1 := Apply(files, config);
    var arm := ArmWatch(db.tables);
    if db.tables in f1 {
      assert DevTrace(root, db, files) == [config, arm];
      assert ApplyAll(f1, [arm]) == ApplyAll(f1, []);
    } else {
      var mk := MkDir(Dirname(db.tables));
      var wr := WriteFile(db.tables, Text(PlaceholderSchema));
      assert DevTrace(root, db, files) == [config, mk, wr, arm];
      var f2 := Apply(f1, mk);
      var f3 := Apply(f2, wr);
      assert [config, mk, wr, arm][1..] == [mk, wr, arm];
      assert [mk, wr, arm][1..] == [wr, arm];
      assert [wr, arm][1..] == [arm];
      assert ApplyAll(f3, [arm]) == f3;
      assert ApplyAll(f2, [wr, arm]) == f3;
      assert ApplyAll(f1, [mk, wr, arm]) == f3;
      assert ApplyAll(files, [config, mk, wr, arm]) == f3;
    }
  }
}
