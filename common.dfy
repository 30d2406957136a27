/** Values shared by the database resolver and the module setup: optional
    values, environment variables with JavaScript truthiness, the `defu`
    default rule, string slicing, and file-system paths as symbolic terms. */
module Common {

  datatype Option<T> = None | Some(value: T)

  /** A variable as `process.env` exposes it: undefined, or some string. */
  datatype EnvVar = Unset | Set(value: string)

  /** JavaScript truthiness of an environment variable: `undefined` and the
      empty string are both falsy, every other string is truthy. */
  predicate Truthy(v: EnvVar) {
    v.Set? && v.value != ""
  }

  /** `defu(user, defaults)` on one key: the user's value when it is defined
      (neither `null` nor `undefined`), the default otherwise. */
  function Defu<T>(user: Option<T>, default: T): (r: T)
    ensures user.Some? ==> r == user.value
    ensures user.None? ==> r == default
  {
    match user
    case Some(v) => v
    case None => default
  }

  /** `s.slice(0, n)`: the first `n` characters, or all of `s` when it is
      shorter. */
  function Slice(s: string, n: nat): (r: string)
    ensures |r| == if |s| < n then |s| else n
    ensures r <= s
  {
    if |s| < n then s else s[..n]
  }

  /** A path as the `pathe` helpers build it. The helpers are not
      interpreted: `join`, `dirname` and `relative` are kept as terms, so two
      paths are equal exactly when they were built the same way. */
  datatype Path =
    | Lit(text: string)
    | Join(base: Path, segments: seq<string>)
    | Dirname(of: Path)
    | Relative(from: Path, to: Path)
}
