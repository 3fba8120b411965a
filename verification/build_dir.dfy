/** Build-output directory detection and the choice of the path that
    `deploy_to_pinme` uploads: `COMMON_BUILD_DIRS`, `detectBuildDirectory` and
    the path resolution and validation at the start of `handleDeploy`. */
module BuildDir {
  import opened Wrappers
  import opened Text

  /** What `stat` and `readdir` report for an existing path. */
  datatype Node = File | Directory(entryCount: nat) | Special

  /** The filesystem as the server observes it: a path exists iff it is a key. */
  type FileSystem = map<string, Node>

  /** The candidate build-output directory names, in priority order. */
  const BuildDirs: seq<string> := ["build", "dist", "out", ".next", "public", "output", ".output", "site"]

  /** `path.resolve(base, p)` taken as a plain join: an absolute `p` stands for
      itself, any other is appended to `base`. */
  function Resolve(base: string, p: string): string {
    if |p| > 0 && p[0] == '/' then p else base + "/" + p
  }

  predicate IsNonEmptyDirectory(fs: FileSystem, path: string) {
    path in fs && fs[path].Directory? && fs[path].entryCount > 0
  }

  /** Candidate `name` under `cwd` exists, is a directory and has an entry. */
  predicate Qualifies(fs: FileSystem, cwd: string, name: string) {
    IsNonEmptyDirectory(fs, Resolve(cwd, name))
  }

  /** The qualifying members of `names`, in order: `foundDirs` once the loop has
      visited `names`. */
  function Kept(fs: FileSystem, cwd: string, names: seq<string>): seq<string>
    decreases |names|
  {
    if names == [] then []
    else
      var last := names[|names| - 1];
      Kept(fs, cwd, names[..|names| - 1]) + (if Qualifies(fs, cwd, last) then [last] else [])
  }

  /** The selection among the found directories: `build`, else `dist`, else the
      first one found, else nothing. */
  function Choose(found: seq<string>): (r: Option<string>)
    ensures r.None? <==> found == []
    ensures r.Some? ==> r.value in found
  {
    if |found| == 0 then None
    else if "build" in found then Some("build")
    else if "dist" in found then Some("dist")
    else Some(found[0])
  }

  /** The directory detection picks, as a resolved path. */
  function Detected(fs: FileSystem, cwd: string): Option<string> {
    match Choose(Kept(fs, cwd, BuildDirs))
    case None => None
    case Some(d) => Some(Resolve(cwd, d))
  }

  /** `detectBuildDirectory`: visit every candidate, keep the qualifying ones in
      `found`, then choose. */
  method DetectBuildDirectory(fs: FileSystem, cwd: string) returns (r: Option<string>)
    ensures r == Detected(fs, cwd)
  {
    var found: seq<string> := [];
    for i := 0 to |BuildDirs|
      invariant found == Kept(fs, cwd, BuildDirs[..i])
    {
      var dir := BuildDirs[i];
      var dirPath := Resolve(cwd, dir);
      assert BuildDirs[..i + 1][..i] == BuildDirs[..i];
      if dirPath in fs && fs[dirPath].Directory? && fs[dirPath].entryCount > 0 {
        found := found + [dir];
      }
    }
    assert BuildDirs[..|BuildDirs|] == BuildDirs;
    var chosen := Choose(found);
    if chosen.None? {
      r := None;
    } else {
      r := Some(Resolve(cwd, chosen.value));
    }
  }

  lemma {:induction false} KeptMembers(fs: FileSystem, cwd: string, names: seq<string>, x: string)
    ensures x in Kept(fs, cwd, names) <==> x in names && Qualifies(fs, cwd, x)
    decreases |names|
  {
    if names != [] {
      var init := names[..|names| - 1];
      KeptMembers(fs, cwd, init, x);
      assert names == init + [names[|names| - 1]];
    }
  }

  lemma {:induction false} KeptEmpty(fs: FileSystem, cwd: string, names: seq<string>)
    ensures Kept(fs, cwd, names) == [] <==> forall j | 0 <= j < |names| :: !Qualifies(fs, cwd, names[j])
    decreases |names|
  {
    if names != [] {
      var init := names[..|names| - 1];
      KeptEmpty(fs, cwd, init);
      assert forall j | 0 <= j < |init| :: init[j] == names[j];
    }
  }

  lemma {:induction false} KeptHead(fs: FileSystem, cwd: string, names: seq<string>, i: nat)
    requires i < |names| && Qualifies(fs, cwd, names[i])
    requires forall j | 0 <= j < i :: !Qualifies(fs, cwd, names[j])
    ensures Kept(fs, cwd, names) != [] && Kept(fs, cwd, names)[0] == names[i]
    decreases |names|
  {
    var init := names[..|names| - 1];
    if i == |names| - 1 {
      KeptEmpty(fs, cwd, init);
    } else {
      KeptHead(fs, cwd, init, i);
    }
  }

  /** Detection yields the first candidate, in list order, that qualifies. */
  lemma DetectedIsFirstQualifying(fs: FileSystem, cwd: string, i: nat)
    requires i < |BuildDirs| && Qualifies(fs, cwd, BuildDirs[i])
    requires forall j | 0 <= j < i :: !Qualifies(fs, cwd, BuildDirs[j])
    ensures Detected(fs, cwd) == Some(Resolve(cwd, BuildDirs[i]))
  {
    var found := Kept(fs, cwd, BuildDirs);
    KeptHead(fs, cwd, BuildDirs, i);
    KeptMembers(fs, cwd, BuildDirs, "build");
    KeptMembers(fs, cwd, BuildDirs, "dist");
    if i >= 2 {
      assert !Qualifies(fs, cwd, BuildDirs[0]) && !Qualifies(fs, cwd, BuildDirs[1]);
    }
  }

  /** `build` wins whenever it qualifies, whatever else does; `dist` wins next. */
  lemma DetectedPriority(fs: FileSystem, cwd: string)
    ensures Qualifies(fs, cwd, "build") ==> Detected(fs, cwd) == Some(Resolve(cwd, "build"))
    ensures !Qualifies(fs, cwd, "build") && Qualifies(fs, cwd, "dist") ==>
              Detected(fs, cwd) == Some(Resolve(cwd, "dist"))
  {
    if Qualifies(fs, cwd, "build") {
      DetectedIsFirstQualifying(fs, cwd, 0);
    } else if Qualifies(fs, cwd, "dist") {
      DetectedIsFirstQualifying(fs, cwd, 1);
    }
  }

  /** Detection finds nothing exactly when no candidate qualifies. */
  lemma DetectedNoneIff(fs: FileSystem, cwd: string)
    ensures Detected(fs, cwd).None? <==> forall i | 0 <= i < |BuildDirs| :: !Qualifies(fs, cwd, BuildDirs[i])
  {
    KeptEmpty(fs, cwd, BuildDirs);
  }

  /** The path a deployment uploads, and whether it was found by detection. */
  datatype Target = Target(path: string, autoDetected: bool)

  /** The path resolution of `handleDeploy`: a given `path` argument, else the
      detected directory, else the working directory. */
  function DeployTarget(pathArg: Option<string>, cwd: string, fs: FileSystem): Target {
    if Truthy(pathArg) then Target(Resolve(cwd, pathArg.value), false)
    else
      match Detected(fs, cwd)
      case Some(d) => Target(d, true)
      case None => Target(cwd, false)
  }

  lemma DeployTargetChoice(pathArg: Option<string>, cwd: string, fs: FileSystem)
    ensures Truthy(pathArg) ==> DeployTarget(pathArg, cwd, fs) == Target(Resolve(cwd, pathArg.value), false)
    ensures DeployTarget(pathArg, cwd, fs).autoDetected <==>
              !Truthy(pathArg) && exists i | 0 <= i < |BuildDirs| :: Qualifies(fs, cwd, BuildDirs[i])
    ensures !Truthy(pathArg) && (forall i | 0 <= i < |BuildDirs| :: !Qualifies(fs, cwd, BuildDirs[i])) ==>
              DeployTarget(pathArg, cwd, fs) == Target(cwd, false)
    ensures !Truthy(pathArg) && Qualifies(fs, cwd, "build") ==>
              DeployTarget(pathArg, cwd, fs) == Target(Resolve(cwd, "build"), true)
  {
    DetectedNoneIff(fs, cwd);
    DetectedPriority(fs, cwd);
  }

  /** The checks on the chosen path before anything is uploaded: it must exist,
      be a file or a directory, and a directory must not be empty. Success
      carries whether the path is a file; failure carries the message thrown. */
  function CheckTarget(fs: FileSystem, path: string): (r: Result<bool, string>)
    ensures r.Success? <==> path in fs && (fs[path].File? || IsNonEmptyDirectory(fs, path))
    ensures r.Success? ==> (r.value <==> fs[path].File?)
    ensures r.Failure? ==> IsSubstring(path, r.error)
  {
    var message :=
      if path !in fs then "路径不存在: "
      else if fs[path].Special? then "路径既不是文件也不是目录: "
      else "目录为空: ";
    assert HasAt(message + path, |message|, path);
    if path !in fs || fs[path].Special? || (fs[path].Directory? && fs[path].entryCount == 0) then
      Failure(message + path)
    else
      Success(fs[path].File?)
  }
}
