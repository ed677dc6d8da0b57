/** `scripts/ci/update_lf_base_dependency.py`: replaces the local
    `langflow-base` path dependency in the root `pyproject.toml` by a pinned
    `langflow-base-nightly` version, after checking the version against
    PEP 440. The PEP 440 parse is a parameter: a predicate on version
    strings. */
module UpdateLfBaseDependency {
  import opened Common
  import opened TomlRewrite
  import opened CiCommon

  /** The poetry dependency line the script looks for. */
  const PathDependency := "langflow-base = { path = \"./src/backend/base\", develop = true }"

  /** The line that takes its place. */
  function Pinned(newVersion: string): string
  {
    "langflow-base-nightly = \"" + newVersion + "\""
  }

  /** `update_base_dep`: every occurrence of the path dependency becomes the
      pinned line; with none it raises and writes nothing. */
  function UpdateBaseDep(files: Files, path: string, newVersion: string): (r: Run)
    requires NoBackslash(newVersion)
    ensures r.error.None? <==> path in files && Occurs(files[path], PathDependency)
    ensures r.error.None? ==> r.files == files[path := ReplaceAll(files[path], PathDependency, Pinned(newVersion))]
    ensures r.error.Some? ==> r.files == files
  {
    if path !in files then Run(files, Some(FileNotFound(path)))
    else if !Occurs(files[path], PathDependency) then Run(files, Some(BaseDepNotFound(path)))
    else Run(files[path := ReplaceAll(files[path], PathDependency, Pinned(newVersion))], None)
  }

  /** `main`: `args` are the command-line arguments after the program name;
      `pep440` says whether `packaging.version.Version` accepts a string. */
  function Main(args: seq<string>, files: Files, pep440: string -> bool): (r: Run)
    requires |args| == 1 && pep440(StripV(args[0])) ==> NoBackslash(StripV(args[0]))
    ensures r.files.Keys == files.Keys
    ensures forall p :: p in files && p != RootPyproject ==> r.files[p] == files[p]
  {
    if |args| != 1 then Run(files, Some(Usage("New version not specified")))
    else
      var baseVersion := StripV(args[0]);
      if !pep440(baseVersion) then Run(files, Some(InvalidVersion(baseVersion)))
      else UpdateBaseDep(files, RootPyproject, baseVersion)
  }

  // ---------------------------------------------------------------------------
  // Properties

  /** Anything but one argument is a usage error that touches no file. */
  lemma MainArgumentCount(args: seq<string>, files: Files, pep440: string -> bool)
    requires |args| != 1
    ensures Main(args, files, pep440) == Run(files, Some(Usage("New version not specified")))
  {
  }

  /** A version PEP 440 rejects raises before the file is read. */
  lemma VersionCheckedFirst(version: string, files: Files, pep440: string -> bool)
    requires !pep440(StripV(version))
    ensures Main([version], files, pep440) == Run(files, Some(InvalidVersion(StripV(version))))
  {
  }

  /** An accepted version, without its leading `v`, is pinned in the root
      file. */
  lemma MainPins(version: string, files: Files, pep440: string -> bool)
    requires NoBackslash(version) && pep440(version)
    ensures Main(["v" + version], files, pep440) == UpdateBaseDep(files, RootPyproject, version)
  {
    StripSingle(version);
  }

  /** In a file with the path dependency once, the text around it is kept
      and the dependency becomes the pinned line. */
  lemma PinsSingleOccurrence(a: string, b: string, newVersion: string)
    requires NoBackslash(newVersion)
    requires forall i :: 0 <= i < |a| ==> !OccursAt(a + PathDependency + b, PathDependency, i)
    requires !Occurs(b, PathDependency)
    ensures var files := map[RootPyproject := a + PathDependency + b];
      UpdateBaseDep(files, RootPyproject, newVersion) ==
      Run(map[RootPyproject := a + Pinned(newVersion) + b], None)
  {
    var s := a + PathDependency + b;
    ReplaceAllFirst(a, b, PathDependency, Pinned(newVersion));
    ReplaceAllAbsent(b, PathDependency, Pinned(newVersion));
    assert OccursAt(s, PathDependency, |a|) by {
      assert s[|a|..|a| + |PathDependency|] == PathDependency;
    }
  }
}
