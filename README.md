# nuxt-space database layer, modelled in Dafny

This project models the two pieces of decision logic in the `space` Nuxt
layer:

- **`useDB`** (`space/server/utils/db.ts`), the database resolver. A
  module-wide variable `_db` caches a drizzle handle. On a call that finds it
  empty, `useDB` picks one backend in priority order:
  1. Turso/libSQL, when `TURSO_DB_URL` and `TURSO_DB_TOKEN` are both truthy;
  2. otherwise Cloudflare D1, when `D1_DB` is truthy;
  3. otherwise the local better-sqlite3 file at `runtimeConfig.db.database`,
     in dev;
  4. otherwise it throws a 500 error, "No database configured for
     production".

  Once the cache is filled, every later call returns the cached handle.
  `Db.DbSingleton` is `_db` together with `useDB`. `Db.Select`, `Db.Serve` and
  `Db.ServeAll` specify one selection, one call and a run of calls.
- **The module `setup`** (`space/modules/space.ts`). It fills the runtime
  configuration with defaults and creates the database directory when the
  database file is missing. In dev only, it then writes `drizzle.config.json`,
  creates a placeholder schema when none exists and arms a watcher on the
  schema. It always ends by running `drizzle-kit generate:sqlite`. The
  watcher callback runs the generator, closes the watcher and calls the
  `restart` hook. `Space.NuxtHost` holds the state that `setup` changes: the
  runtime configuration, the paths that exist, and a log of abstract
  effects. `Space.SetupTrace` and `Space.React` are the pure specifications
  of those effects.
- **The migrations plugin** (`space/server/plugins/migrations.ts`), as one
  abstract step: in dev it calls `useDB` and applies the migrations, and a
  failure is logged and swallowed.

How the outside world enters the model:
- Environment variables are `EnvVar` values (`Unset` or `Set(string)`).
  JavaScript truthiness is `Truthy`, so an empty string counts as absent.
- `process.dev` and `nuxt.options.dev` are one boolean input.
- `pathe`'s `join`, `dirname` and `relative` are symbolic `Path` terms.
- `defu` on a leaf key is `Defu`: the user value when it is defined, the
  default otherwise.
- The random digest behind the session password is a string input.
- The file system is the set of paths `existsSync` would report. A
  directory made or a file written is added to that set.
- Whether a generator run or a migration succeeds is a boolean input.

Four behaviours of the code worth noting:
- The database directory is created by `setup`, whatever the dev flag, and
  not by the resolver (space/modules/space.ts:30-32).
- The generator runs at the end of `setup`, after the watcher is armed, in
  every mode (space/modules/space.ts:80).
- When the generator rejects inside the watcher callback, the rejection is
  not caught there. The callback stops, so the watcher is not closed and no
  restart happens.
- `useDB` is synchronous JavaScript. There is no concurrent first access to
  guard.

## Model

| member | source | states |
|---|---|---|
| Common.Slice | space/modules/space.ts:40 | `slice(0, n)` yields the first n characters, or the whole string when it is shorter; the result is a prefix |
| Db.Select | space/server/utils/db.ts:15-34 | each backend is chosen exactly when its priority condition holds (both directions), with the credentials, binding or path it was given; it fails, with status 500 and the production message, exactly when no Turso pair, no D1 and not dev |
| Db.TursoWinsRegardless | space/server/utils/db.ts:15-20 | with a truthy Turso URL and token, the result does not depend on `D1_DB`, the dev flag or the database path, and is a success |
| Db.DevNeverFails | space/server/utils/db.ts:24-28 | in dev the selection always yields a handle |
| Db.Serve | space/server/utils/db.ts:13-37 | a filled cache is returned unchanged; a success leaves the returned handle in the cache; a failure happens only on an empty cache and leaves it empty; an empty cache runs the selection |
| Db.CachedIsReturned | space/server/utils/db.ts:14-36 | once a handle is cached, every later call returns it, whatever the environment says, and nothing is constructed |
| Db.AtMostOneConstruction | space/server/utils/db.ts:11-36 | over any run of calls at most one handle is constructed, and none when the cache starts filled |
| Db.SameHandleEverywhere | space/server/utils/db.ts:14-36 | all successful calls in a run return the same handle |
| Db.FailuresComeFirst | space/server/utils/db.ts:14-34 | a failing call happens only while the cache is empty, fails with the production error, has inputs that name no backend, and every earlier call failed too |
| Db.DbSingleton.constructor | space/server/utils/db.ts:11 | the cache starts as null and nothing is constructed |
| Db.DbSingleton.UseDB | space/server/utils/db.ts:13-37 | result and new cache are those of `Serve`; a cached handle is returned with nothing rebuilt; the first success stores the selected handle as the only one constructed; a failure leaves the cache null |
| Migrations.RunPlugin | space/server/plugins/migrations.ts:4-15 | outside dev nothing happens; in dev the cache ends filled as `useDB` leaves it, a successful migration targets that handle and the migrations folder, and a failed one is logged and never thrown |
| Space.DbDefaults | space/modules/space.ts:24-28 | `tables`, `migrations` and `database` are the user's values when defined, else `rootDir/server/db/tables.ts`, `rootDir/server/db/migrations`, `rootDir/data/db.sqlite` |
| Space.SessionPassword | space/modules/space.ts:35-43 | in dev without a truthy `NUXT_SESSION_PASSWORD`, the password is a prefix of the digest and 32 characters long when the digest has at least 32; otherwise the user's password, or "" |
| Space.Configure | space/modules/space.ts:19-53 | after setup every covered key is defined; user values win over the KV, database, session-name and GitHub OAuth defaults; the password follows `SessionPassword` |
| Space.DrizzleConfigFor | space/modules/space.ts:57-61 | the drizzle record is `out` = migrations relative to root, `schema` = tables relative to root, `breakpoints` = true |
| Space.DbDirectoryOnlyIfMissing | space/modules/space.ts:30-32 | the first effect creates the database's parent directory exactly when the database file does not exist |
| Space.NotDevOnlyGenerates | space/modules/space.ts:30-80 | outside dev the trace is the optional database directory and the generator run; nothing is written, no watcher is armed, closed or restarted |
| Space.DevWritesDrizzleConfig | space/modules/space.ts:56-64 | in dev, right after the database directory step, `rootDir/drizzle.config.json` is written with exactly the derived record |
| Space.BreakpointsAlwaysOn | space/modules/space.ts:57-61 | every drizzle configuration written has `breakpoints` on |
| Space.PlaceholderOnlyIfMissing | space/modules/space.ts:65-69 | the placeholder schema is written exactly when in dev and the schema file is missing at that point; a schema file that exists at the start is never overwritten by it |
| Space.GenerateRunsLast | space/modules/space.ts:70-80 | the generator runs exactly once, as the last effect; in dev the watcher is armed right before it, and never outside dev |
| Space.React | space/modules/space.ts:70-76 | a firing runs the generator first; the watcher is closed and restart is called, in that order, exactly when the generator succeeds; after a rejection the generator run is the only effect and the watcher stays open; a watcher that is not open does nothing |
| Space.ClosedIsSilent | space/modules/space.ts:56-76 | a watcher that was never armed, or is closed, produces no effect however many changes occur |
| Space.RestartAtMostOnce | space/modules/space.ts:70-76 | over any run of firings, restart is called at most once, only from an open watcher, right after the generator and the close, and nothing follows it |
| Space.NuxtHost.constructor | space/modules/space.ts:15-17 | the host starts with its root, dev flag, runtime configuration and files, an empty effect log and no watcher |
| Space.NuxtHost.Setup | space/modules/space.ts:15-81 | the runtime configuration becomes `Configure` of the old one; the log grows by exactly `SetupTrace`; the files reflect it; in dev the watcher watches the schema file |
| Space.NuxtHost.FillDbDefaults | space/modules/space.ts:19-28 | the KV directory and database keys get their defaults in place; the returned locations are `DbDefaults` |
| Space.NuxtHost.FillSessionAndOAuthDefaults | space/modules/space.ts:34-53 | the session name, the password per `SessionPassword` and the four GitHub OAuth keys get their defaults in place |
| Space.NuxtHost.PrepareDrizzle | space/modules/space.ts:55-77 | the log grows by exactly `DevTrace` (config file, placeholder when missing, watch); the watcher watches the schema file |
| Space.NuxtHost.OnChange | space/modules/space.ts:70-76 | the log grows by the effects of `React` and the watcher takes its new state; the files are unchanged |

## Left out

- Failures of `writeFile`, `mkdirSync` and chokidar's `watch` are not modelled. Each would reject `setup` and skip the remaining steps; every effect other than a generator run is taken to succeed.
- A rejection of the final generator run in `setup` is not modelled. It is the last step, so the effect trace is the same either way.
- Logging (`logger.warn`, `logger.info`, `logger.success`, `console.log`) is left out. It changes no state.
- A watcher firing while `setup`'s own final generator run is still pending is not modelled. The watcher is armed before that run is awaited (space/modules/space.ts:70, 80), so two generator runs can overlap; the effect log keeps their start order but cannot show the overlap.
- The debounce window (perfect-debounce) is a timing concern. One firing of the debounced callback is one `OnChange`; coalescing of bursts is not modelled.
- `sha256`, `Date.now` and `Math.random` are replaced by an opaque `digest` input.
- `pathe` path normalisation is not interpreted. Paths are terms, so two paths are equal only when built alike.
- `defu` is modelled per leaf key only. Deep merging of other keys (such as OAuth providers other than GitHub, which `defu(runtimeConfig.oauth, {})` keeps) is not modelled.
- The drizzle, libSQL, D1 and better-sqlite3 constructors are tags of `Backend`. Their own failures (for example a database file that cannot be opened) are not modelled.
- drizzle's `migrate` is one boolean outcome. The plugin's cast of the handle to a better-sqlite3 database is not checked.
- The JSON text of `drizzle.config.json` is the `DrizzleConfig` record. Its `JSON.stringify` formatting is not modelled.
- The `tables` re-export in `db.ts` is not part of this model.
- `space/composables/session.ts` and `nuxt.config.ts` are not part of this model. They hold UI state, HTTP calls and static configuration.
- Process restart itself is the `Restart` effect. What the host does after it is outside the model.
