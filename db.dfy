/** The database resolver `useDB`: a module-wide cache `_db` that is filled
    on the first successful call with one of three backends, chosen in a
    fixed priority order from the environment and the dev flag. */
module Db {
  import opened Common

  /** The environment variables `useDB` reads. */
  datatype Env = Env(tursoUrl: EnvVar, tursoToken: EnvVar, d1: EnvVar)

  /** The drizzle database handle, tagged by the client it wraps. */
  datatype Backend =
    | Turso(url: string, authToken: string)   // libSQL over HTTP
    | D1(binding: string)                     // Cloudflare D1 binding
    | Local(database: Path)                   // better-sqlite3 file

  /** The error `createError` builds. */
  datatype HttpError = HttpError(statusCode: int, message: string)

  /** What one call returns, or throws. */
  datatype Result = Ok(handle: Backend) | Err(error: HttpError)

  const NoDatabase := HttpError(500, "No database configured for production")

  predicate TursoConfigured(env: Env) {
    Truthy(env.tursoUrl) && Truthy(env.tursoToken)
  }

  /** The backend chosen when the cache is empty: Turso when both its URL
      and token are truthy, else D1 when its binding is truthy, else the
      local SQLite file in dev, else the production configuration error. */
  function Select(env: Env, dev: bool, database: Path): (r: Result)
    ensures (r.Ok? && r.handle.Turso?) <==> TursoConfigured(env)
    ensures (r.Ok? && r.handle.D1?) <==> !TursoConfigured(env) && Truthy(env.d1)
    ensures (r.Ok? && r.handle.Local?) <==> !TursoConfigured(env) && !Truthy(env.d1) && dev
    ensures r.Err? <==> !TursoConfigured(env) && !Truthy(env.d1) && !dev
    ensures r.Err? ==> r.error == NoDatabase
    ensures r.Ok? && r.handle.Turso? ==> r.handle == Turso(env.tursoUrl.value, env.tursoToken.value)
    ensures r.Ok? && r.handle.D1? ==> r.handle == D1(env.d1.value)
    ensures r.Ok? && r.handle.Local? ==> r.handle == Local(database)
  {
    if TursoConfigured(env) then Ok(Turso(env.tursoUrl.value, env.tursoToken.value))
    else if Truthy(env.d1) then Ok(D1(env.d1.value))
    else if dev then Ok(Local(database))
    else Err(NoDatabase)
  }

  /** The Turso pair, once both are truthy, decides alone: the D1 binding,
      the dev flag and the database path play no part. */
  lemma TursoWinsRegardless(env: Env, d1: EnvVar, dev1: bool, dev2: bool, db1: Path, db2: Path)
    requires TursoConfigured(env)
    ensures Select(env, dev1, db1) == Select(env.(d1 := d1), dev2, db2)
    ensures Select(env, dev1, db1).Ok?
  {
  }

  /** In dev some backend is always found, so `useDB` never throws there. */
  lemma DevNeverFails(env: Env, database: Path)
    ensures Select(env, true, database).Ok?
  {
  }

  /** The inputs of one call: the environment and dev flag at that moment,
      and `useRuntimeConfig().db.database`. */
  datatype Call = Call(env: Env, dev: bool, database: Path)

  /** One call of `useDB` against the cache: what it returns or throws, and
      the cache afterwards. */
  function Serve(cache: Option<Backend>, c: Call): (r: (Result, Option<Backend>))
    ensures cache.Some? ==> r.1 == cache && r.0 == Ok(cache.value)
    ensures r.0.Ok? <==> r.1.Some?
    ensures r.1.Some? ==> r.0 == Ok(r.1.value)
    ensures r.0.Err? ==> cache.None? && r.1.None? && r.0.error == NoDatabase
    ensures cache.None? ==> r.0 == Select(c.env, c.dev, c.database)
  {
    if cache.Some? then (Ok(cache.value), cache)
    else
      var r := Select(c.env, c.dev, c.database);
      (r, if r.Ok? then Some(r.handle) else None)
  }

  /** Successive calls: the results in order, and the final cache. */
  function ServeAll(cache: Option<Backend>, calls: seq<Call>): (r: (seq<Result>, Option<Backend>))
    ensures |r.0| == |calls|
    ensures cache.Some? ==> r.1 == cache
    decreases |calls|
  {
    if calls == [] then ([], cache)
    else
      var (x, next) := Serve(cache, calls[0]);
      var (xs, last) := ServeAll(next, calls[1..]);
      ([x] + xs, last)
  }

  /** The handles constructed during successive calls, in order. */
  function Constructed(cache: Option<Backend>, calls: seq<Call>): seq<Backend>
    decreases |calls|
  {
    if calls == [] then []
    else
      var next := Serve(cache, calls[0]).1;
      (if cache.None? && next.Some? then [next.value] else []) + Constructed(next, calls[1..])
  }

  /** Once the cache holds a handle, every later call returns that very
      handle, whatever the environment then says. */
  lemma {:induction false} CachedIsReturned(h: Backend, calls: seq<Call>)
    ensures forall i :: 0 <= i < |calls| ==> ServeAll(Some(h), calls).0[i] == Ok(h)
    ensures Constructed(Some(h), calls) == []
    decreases |calls|
  {
    if calls != [] {
      CachedIsReturned(h, calls[1..]);
    }
  }

  /** Construction happens at most once, however many calls are made, and
      not at all once the cache is filled. */
  lemma {:induction false} AtMostOneConstruction(cache: Option<Backend>, calls: seq<Call>)
    ensures |Constructed(cache, calls)| <= 1
    ensures cache.Some? ==> Constructed(cache, calls) == []
    decreases |calls|
  {
    if calls != [] {
      var next := Serve(cache, calls[0]).1;
      if next.Some? {
        CachedIsReturned(next.value, calls[1..]);
      } else {
        AtMostOneConstruction(next, calls[1..]);
      }
    }
  }

  /** All calls that succeed return one and the same handle. */
  lemma {:induction false} SameHandleEverywhere(cache: Option<Backend>, calls: seq<Call>)
    ensures forall i, j ::
      (0 <= i < |calls| && 0 <= j < |calls| &&
       ServeAll(cache, calls).0[i].Ok? && ServeAll(cache, calls).0[j].Ok?) ==>
        ServeAll(cache, calls).0[i] == ServeAll(cache, calls).0[j]
    decreases |calls|
  {
    if calls != [] {
      var (x, next) := Serve(cache, calls[0]);
      var rs := ServeAll(cache, calls).0;
      var tail := ServeAll(next, calls[1..]).0;
      assert rs == [x] + tail;
      if next.Some? {
        CachedIsReturned(next.value, calls[1..]);
      } else {
        SameHandleEverywhere(next, calls[1..]);
        assert x.Err?;
        forall i, j | 0 <= i < |rs| && 0 <= j < |rs| && rs[i].Ok? && rs[j].Ok?
          ensures rs[i] == rs[j]
        {
          assert rs[i] == tail[i - 1] && rs[j] == tail[j - 1];
        }
      }
    }
  }

  /** A call fails only while nothing is cached, only with the production
      configuration error, and only when its own inputs name no backend;
      every call before it failed too, so the next call selects afresh. */
  lemma {:induction false} FailuresComeFirst(cache: Option<Backend>, calls: seq<Call>, k: nat)
    requires k < |calls|
    requires ServeAll(cache, calls).0[k].Err?
    ensures cache.None?
    ensures ServeAll(cache, calls).0[k].error == NoDatabase
    ensures Select(calls[k].env, calls[k].dev, calls[k].database).Err?
    ensures forall i :: 0 <= i < k ==> ServeAll(cache, calls).0[i].Err?
    decreases |calls|
  {
    var (x, next) := Serve(cache, calls[0]);
    if cache.Some? {
      CachedIsReturned(cache.value, calls);
    } else if k > 0 {
      if next.Some? {
        CachedIsReturned(next.value, calls[1..]);
      } else {
        FailuresComeFirst(next, calls[1..], k - 1);
      }
    }
  }

  /** The module-wide `_db` variable: `cache` is its value (`None` for
      `null`); `constructed` is the history of handles built into it, each
      construction appending one. `Valid` bounds that history by one, so a
      second construction would break it. */
  class DbSingleton {
    var cache: Option<Backend>
    ghost var constructed: seq<Backend>

    ghost predicate Valid()
      reads this
    {
      |constructed| <= 1 &&
      (cache.None? <==> constructed == []) &&
      (cache.Some? ==> constructed == [cache.value])
    }

    /** `let _db = null` */
    constructor ()
      ensures Valid() && cache == None && constructed == []
    {
      cache := None;
      constructed := [];
    }

    /** `useDB()`: returns the cached handle when there is one; otherwise
        selects a backend, stores it and returns it, or throws and leaves
        the cache empty. */
    method UseDB(env: Env, dev: bool, database: Path) returns (r: Result)
      requires Valid()
      modifies this
      ensures Valid()
      ensures (r, cache) == Serve(old(cache), Call(env, dev, database))
      ensures old(cache).Some? ==> r == Ok(old(cache).value) && cache == old(cache) && constructed == old(constructed)
      ensures old(cache).None? && r.Ok? ==> r == Select(env, dev, database)
      ensures old(cache).None? && r.Ok? ==> constructed == old(constructed) + [r.handle] == [r.handle]
      ensures r.Err? ==> cache == None && constructed == [] && r.error == NoDatabase
    {
      if cache.None? {
        if TursoConfigured(env) {
          cache := Some(Turso(env.tursoUrl.value, env.tursoToken.value));
        } else if Truthy(env.d1) {
          cache := Some(D1(env.d1.value));
        } else if dev {
          cache := Some(Local(database));
        } else {
          return Err(NoDatabase);
        }
        constructed := constructed + [cache.value];
      }
      r := Ok(cache.value);
    }
  }
}
