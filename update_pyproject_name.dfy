/** `scripts/ci/update_pyproject_name.py`: renames the project in a
    `pyproject.toml` and points the workspace dependency at the nightly
    package of that name. */
module UpdatePyprojectName {
  import opened Common
  import opened TomlRewrite
  import opened CiCommon

  /** `update_pyproject_name`: every value after a line-initial `name = "` is
      replaced by the new name; with no such value it raises and writes
      nothing. */
  function UpdateName(files: Files, path: string, newName: string): (r: Run)
    requires NoBackslash(newName)
    ensures r.error.None? <==> path in files && Found("name", files[path])
    ensures r.error.None? ==> r.files == files[path := Sub("name", files[path], newName)]
    ensures r.error.Some? ==> r.files == files
    ensures path !in files ==> r.error == Some(FileNotFound(path))
  {
    if path !in files then Run(files, Some(FileNotFound(path)))
    else if !Found("name", files[path]) then Run(files, Some(NameNotFound(path)))
    else Run(files[path := Sub("name", files[path], newName)], None)
  }

  /** The workspace-dependency line for a nightly project name, and its
      nightly form. */
  function UvPattern(newName: string): Option<(string, string)>
  {
    if newName == "langflow-nightly" then
      Some(("langflow = { workspace = true }", "langflow-nightly = { workspace = true }"))
    else if newName == "langflow-base-nightly" then
      Some(("langflow-base = { workspace = true }", "langflow-base-nightly = { workspace = true }"))
    else None
  }

  /** `update_uv_dep`: reads the file, picks the line by the project name
      (raising for any other name), raises when the line is absent, and
      otherwise replaces every occurrence. */
  function UpdateUvDep(files: Files, path: string, newName: string): (r: Run)
    ensures r.error.None? <==> path in files && UvPattern(newName).Some? && Occurs(files[path], UvPattern(newName).value.0)
    ensures r.error.None? ==>
      r.files == files[path := ReplaceAll(files[path], UvPattern(newName).value.0, UvPattern(newName).value.1)]
    ensures r.error.Some? ==> r.files == files
  {
    if path !in files then Run(files, Some(FileNotFound(path)))
    else match UvPattern(newName)
      case None => Run(files, Some(InvalidProjectName(newName)))
      case Some((pattern, replacement)) =>
        if !Occurs(files[path], pattern) then Run(files, Some(UvDepNotFound(replacement, path)))
        else Run(files[path := ReplaceAll(files[path], pattern, replacement)], None)
  }

  function UvStep(newName: string): Files -> Run
  {
    fs => UpdateUvDep(fs, RootPyproject, newName)
  }

  /** `main`: `args` are the command-line arguments after the program name. */
  function Main(args: seq<string>, files: Files): (r: Run)
    requires |args| == 2 && (args[1] == "base" || args[1] == "main") ==> NoBackslash(args[0])
    ensures r.files.Keys == files.Keys
    ensures forall p :: p in files && p != BasePyproject && p != RootPyproject ==> r.files[p] == files[p]
  {
    if |args| != 2 then
      Run(files, Some(Usage("Must specify project name and build type, e.g. langflow-nightly base")))
    else
      var newName, buildType := args[0], args[1];
      if buildType == "base" then Then(UpdateName(files, BasePyproject, newName), UvStep(newName))
      else if buildType == "main" then Then(UpdateName(files, RootPyproject, newName), UvStep(newName))
      else Run(files, Some(InvalidBuildType(buildType)))
  }

  // ---------------------------------------------------------------------------
  // Properties

  /** Only the two nightly names are accepted; any other name raises
      `ValueError` once the file has been read. */
  lemma UvDepNames(files: Files, path: string, newName: string)
    requires path in files
    ensures UpdateUvDep(files, path, newName).error == Some(InvalidProjectName(newName))
      <==> newName != "langflow-nightly" && newName != "langflow-base-nightly"
  {
  }

  /** Anything but two arguments is a usage error that touches no file. */
  lemma MainArgumentCount(args: seq<string>, files: Files)
    requires |args| != 2
    ensures Main(args, files).files == files && Main(args, files).error.Some?
    ensures Main(args, files).error.value.Usage?
  {
  }

  /** A build type other than `base` or `main` raises and touches no file. */
  lemma MainBuildType(newName: string, buildType: string, files: Files)
    requires buildType != "base" && buildType != "main"
    ensures Main([newName, buildType], files) == Run(files, Some(InvalidBuildType(buildType)))
  {
  }

  /** The `base` build renames the base project and rewrites the root
      dependency line. */
  lemma MainBase(newName: string, files: Files)
    requires NoBackslash(newName) && UvPattern(newName).Some?
    requires BasePyproject in files && Found("name", files[BasePyproject])
    requires RootPyproject in files && Occurs(files[RootPyproject], UvPattern(newName).value.0)
    ensures var (pattern, replacement) := UvPattern(newName).value;
      Main([newName, "base"], files) ==
      Run(files[BasePyproject := Sub("name", files[BasePyproject], newName)]
               [RootPyproject := ReplaceAll(files[RootPyproject], pattern, replacement)], None)
  {
    var first := UpdateName(files, BasePyproject, newName);
    assert first.files[RootPyproject] == files[RootPyproject];
  }

  /** The `main` build applies both rewrites to the root file, the
      dependency line after the name. */
  lemma MainMain(newName: string, files: Files)
    requires NoBackslash(newName) && UvPattern(newName).Some?
    requires RootPyproject in files && Found("name", files[RootPyproject])
    requires Occurs(Sub("name", files[RootPyproject], newName), UvPattern(newName).value.0)
    ensures var (pattern, replacement) := UvPattern(newName).value;
      Main([newName, "main"], files) ==
      Run(files[RootPyproject := ReplaceAll(Sub("name", files[RootPyproject], newName), pattern, replacement)], None)
  {
  }

  /** The `base` build with a name other than the two nightly ones has
      already renamed the base project when it raises: the write is not
      undone. */
  lemma BasePartialWrite(newName: string, files: Files)
    requires NoBackslash(newName) && UvPattern(newName).None?
    requires BasePyproject in files && Found("name", files[BasePyproject]) && RootPyproject in files
    ensures Main([newName, "base"], files) ==
      Run(files[BasePyproject := Sub("name", files[BasePyproject], newName)], Some(InvalidProjectName(newName)))
  {
    var first := UpdateName(files, BasePyproject, newName);
    assert RootPyproject in first.files;
  }
}
