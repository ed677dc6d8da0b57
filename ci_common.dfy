/** What the three release scripts under `scripts/ci/` share: the files they
    read and write, the exceptions they raise, and the stripping of a leading
    `v` from a version argument.

    The file system is a map from a path relative to the repository root to
    the file's content; reading a path that is not in it raises. A run ends
    with the files as they are afterwards and the exception it raised, if
    any. Writes done before an exception stay done. */
module CiCommon {
  import opened Common

  type Files = map<string, string>

  /** The exceptions the scripts raise. */
  datatype ScriptError =
    | Usage(message: string)
    | FileNotFound(path: string)
    | NameNotFound(path: string)
    | VersionNotFound(path: string)
    | InvalidProjectName(name: string)
    | UvDepNotFound(replacement: string, path: string)
    | InvalidBuildType(buildType: string)
    | InvalidVersion(version: string)
    | BaseDepNotFound(path: string)

  datatype Run = Run(files: Files, error: Option<ScriptError>)

  const BasePyproject := "src/backend/base/pyproject.toml"
  const RootPyproject := "pyproject.toml"

  /** `re.sub` reads backslashes in the replacement as escapes; the model
      covers replacements without them. */
  predicate NoBackslash(t: string)
  {
    forall k :: 0 <= k < |t| ==> t[k] != '\\'
  }

  /** `if v.startswith("v"): v = v[1:]`. */
  function StripV(v: string): (r: string)
    ensures |v| > 0 && v[0] == 'v' ==> v == "v" + r
    ensures !(|v| > 0 && v[0] == 'v') ==> r == v
  {
    if |v| > 0 && v[0] == 'v' then v[1..] else v
  }

  /** Only one `v` is stripped: `vv1` becomes `v1`. */
  lemma StripSingle(t: string)
    ensures StripV("v" + t) == t
    ensures StripV("vv1") == "v1"
  {
    assert ("v" + t)[1..] == t;
  }

  /** The second step runs on the files the first left, unless the first
      raised. */
  function Then(first: Run, second: Files -> Run): (r: Run)
    ensures first.error.Some? ==> r == first
    ensures first.error.None? ==> r == second(first.files)
  {
    if first.error.Some? then first else second(first.files)
  }
}
