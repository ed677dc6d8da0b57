/** `scripts/ci/update_pyproject_version.py`: sets the version in a
    `pyproject.toml`, after checking it against PEP 440. The PEP 440 parse
    is a parameter: a predicate on version strings. */
module UpdatePyprojectVersion {
  import opened Common
  import opened TomlRewrite
  import opened CiCommon

  /** `update_pyproject_version`: every value after a line-initial
      `version = "` is replaced by the new version; with no such value it
      raises and writes nothing. */
  function UpdateVersion(files: Files, path: string, newVersion: string): (r: Run)
    requires NoBackslash(newVersion)
    ensures r.error.None? <==> path in files && Found("version", files[path])
    ensures r.error.None? ==> r.files == files[path := Sub("version", files[path], newVersion)]
    ensures r.error.Some? ==> r.files == files
    ensures path in files && !Found("version", files[path]) ==> r.error == Some(VersionNotFound(path))
  {
    if path !in files then Run(files, Some(FileNotFound(path)))
    else if !Found("version", files[path]) then Run(files, Some(VersionNotFound(path)))
    else Run(files[path := Sub("version", files[path], newVersion)], None)
  }

  /** `main`: `args` are the command-line arguments after the program name;
      `pep440` says whether `packaging.version.Version` accepts a string. */
  function Main(args: seq<string>, files: Files, pep440: string -> bool): (r: Run)
    requires |args| == 2 && pep440(StripV(args[0])) && (args[1] == "base" || args[1] == "main") ==>
      NoBackslash(StripV(args[0]))
    ensures r.files.Keys == files.Keys
    ensures forall p :: p in files && p != BasePyproject && p != RootPyproject ==> r.files[p] == files[p]
  {
    if |args| != 2 then Run(files, Some(Usage("New version not specified")))
    else
      var newVersion, buildType := StripV(args[0]), args[1];
      if !pep440(newVersion) then Run(files, Some(InvalidVersion(newVersion)))
      else if buildType == "base" then UpdateVersion(files, BasePyproject, newVersion)
      else if buildType == "main" then UpdateVersion(files, RootPyproject, newVersion)
      else Run(files, Some(InvalidBuildType(buildType)))
  }

  // ---------------------------------------------------------------------------
  // Properties

  /** Anything but two arguments is a usage error that touches no file. */
  lemma MainArgumentCount(args: seq<string>, files: Files, pep440: string -> bool)
    requires |args| != 2
    ensures Main(args, files, pep440) == Run(files, Some(Usage("New version not specified")))
  {
  }

  /** The version check comes first: a version PEP 440 rejects raises before
      any file is read, whatever the build type. */
  lemma VersionCheckedFirst(version: string, buildType: string, files: Files, pep440: string -> bool)
    requires !pep440(StripV(version))
    ensures Main([version, buildType], files, pep440) == Run(files, Some(InvalidVersion(StripV(version))))
  {
  }

  /** A build type other than `base` or `main` raises and touches no file. */
  lemma MainBuildType(version: string, buildType: string, files: Files, pep440: string -> bool)
    requires pep440(StripV(version))
    requires buildType != "base" && buildType != "main"
    ensures Main([version, buildType], files, pep440) == Run(files, Some(InvalidBuildType(buildType)))
  {
  }

  /** The two build types select the file. */
  lemma MainDispatch(version: string, files: Files, pep440: string -> bool)
    requires NoBackslash(StripV(version)) && pep440(StripV(version))
    ensures Main([version, "base"], files, pep440) == UpdateVersion(files, BasePyproject, StripV(version))
    ensures Main([version, "main"], files, pep440) == UpdateVersion(files, RootPyproject, StripV(version))
  {
  }

  /** A leading `v` is not written; only the first one is dropped. */
  lemma MainStripsV(version: string, files: Files, pep440: string -> bool)
    requires NoBackslash(version) && pep440(version)
    ensures Main(["v" + version, "main"], files, pep440) == UpdateVersion(files, RootPyproject, version)
  {
    StripSingle(version);
  }

  /** Running the rewrite again with the same version leaves the files as
      the first run left them, provided the version holds no quote and no
      newline. */
  lemma UpdateTwice(files: Files, path: string, newVersion: string)
    requires NoBackslash(newVersion) && QuoteFree(newVersion) && NewlineFree(newVersion)
    ensures var once := UpdateVersion(files, path, newVersion);
      UpdateVersion(once.files, path, newVersion).files == once.files
  {
    if path in files {
      SubIdempotent("version", files[path], newVersion);
    }
  }
}
