/**
 * The process environment the commands and configuration plugins share, and
 * the facts about the project on disk that the plugins consult.  Every flag
 * the core passes between its parts (`CLI_BUILD_TARGET`, `CLI_MODERN_MODE`,
 * `CLI_MODERN_BUILD`, `NODE_ENV`, `CLI_TEST`, ...) lives in `Process.env`;
 * the file system, path resolution and the helpers the core only calls
 * (`getAssetPath`, `resolveClientEnv`, the terser options) are inputs.
 */
module Env {
  import opened JsValues

  /** `process`: its environment variables, which the core reads and writes. */
  class Process {
    var env: map<string, string>

    constructor (initial: map<string, string>)
      ensures env == initial
    {
      env := initial;
    }

    /** `process.env[key] = v`: the value is stored as its string coercion. */
    method Set(key: string, v: Value)
      modifies this`env
      ensures env == old(env)[key := JsString(v)]
    {
      env := env[key := JsString(v)];
    }

    /** `delete process.env[key]`. */
    method Delete(key: string)
      modifies this`env
      ensures env == old(env) - {key}
    {
      env := env - {key};
    }
  }

  /** `process.env[key]` as a JavaScript value. */
  function EnvValue(env: map<string, string>, key: string): (v: Value)
    ensures key in env ==> v == Str(env[key])
    ensures key !in env ==> v == Undefined
  {
    if key in env then Str(env[key]) else Undefined
  }

  /** A flag is on when the variable is set to a non-empty string, as a
      truthiness test on `process.env[key]` decides. */
  predicate Flag(env: map<string, string>, key: string) {
    Truthy(EnvValue(env, key))
  }

  /** `process.env.NODE_ENV === 'production'`. */
  predicate IsProduction(env: map<string, string>) {
    "NODE_ENV" in env && env["NODE_ENV"] == "production"
  }

  /** The legacy half of a modern build: `CLI_MODERN_MODE && !CLI_MODERN_BUILD`. */
  predicate IsLegacyBundle(env: map<string, string>) {
    Flag(env, "CLI_MODERN_MODE") && !Flag(env, "CLI_MODERN_BUILD")
  }

  /** What the plugins learn from outside the core: the service context and
      the package's own install directory (for `api.resolve` and
      `resolveLocal`), the `postcss` field of package.json, the PostCSS
      configuration files and the `public` folder present in the project, and
      the results of helpers outside the core (`resolveClientEnv` in its
      stringified and raw forms, the terser options). */
  datatype Host = Host(
    context: string,
    localRoot: string,
    pkgPostcss: Value,
    existingFiles: set<string>,
    publicDirExists: bool,
    assetPath: string -> string,
    clientEnv: Value,
    clientEnvRaw: Value,
    terserOptions: Value)

  /** An absolute path, in the POSIX sense `path.resolve` uses. */
  predicate Absolute(p: string) {
    |p| > 0 && p[0] == '/'
  }

  /** `path.resolve(dir, p)`, `dir` being the absolute directory the
      service works in: `p` itself when it is absolute, otherwise `p` under
      `dir` (normalisation of `.` and `..` is not modelled). */
  function PathResolve(dir: string, p: string): string {
    if Absolute(p) then p else dir + "/" + p
  }

  /** The resolved path ends in `p`, lies under `dir` unless `p` was
      absolute already (then it is `p` itself), and is absolute when `dir`
      is. */
  lemma PathResolveMeaning(dir: string, p: string)
    ensures Absolute(dir) || Absolute(p) ==> Absolute(PathResolve(dir, p))
    ensures Absolute(p) ==> PathResolve(dir, p) == p
    ensures var r := PathResolve(dir, p); |p| <= |r| && r[|r| - |p|..] == p
    ensures !Absolute(p) ==> var r := PathResolve(dir, p); |dir| < |r| && r[..|dir|] == dir && r[|dir|] == '/'
  {
  }

  /** Resolving a resolved path again changes nothing. */
  lemma PathResolveIdempotent(dir: string, p: string)
    requires Absolute(dir)
    ensures PathResolve(dir, PathResolve(dir, p)) == PathResolve(dir, p)
  {
  }

  /** `api.resolve(p)`: `path.resolve(context, p)`, so an absolute `p` is
      kept and a relative one goes under the service context. */
  function Resolve(h: Host, p: string): string {
    PathResolve(h.context, p)
  }

  /** `resolveLocal(p)`: `p` under the package's own install directory. */
  function ResolveLocal(h: Host, p: string): string {
    h.localRoot + "/" + p
  }
}
