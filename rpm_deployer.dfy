/**
 * The RPM deployer: stages every deployed dependency under
 * `<output>/toolchain-<name>-<version>/<prefix>` and archives that tree into
 * a shared `rpmbuild/SOURCES` directory of a temporary `HOME`.
 */
module RpmDeployer {

  import opened Paths
  import opened Conan
  import opened Host

  /** Conan's bookkeeping files, never shipped inside a package. */
  const MetadataExcludes: seq<string> := ["conaninfo.txt", "conanmanifest.txt"]

  /** What one loop iteration derives for a dependency before copying it. */
  datatype Staging = Staging(packageDir: string, strippedPrefix: string, pattern: string, dst: string)

  /** `deploy` fails before any effect when `HOME` is not in the environment. */
  datatype Outcome = Pass | KeyError(key: string)

  /** The package directory name, `toolchain-<name>-<version>`. */
  function PackageDir(dep: Dependency): string {
    "toolchain-" + dep.name + "-" + dep.version
  }

  /**
   * The per-dependency arithmetic: a dependency with its own `prefix`
   * option is copied out of that subtree into the package directory; one
   * without it is copied whole, below the root's prefix inside the package
   * directory. Either prefix loses all its leading separators.
   */
  function Stage(dep: Dependency, outputFolder: string, toolchainPrefix: string): Staging {
    var pkg := PackageDir(dep);
    match dep.prefix
    case Some(p) =>
      var stripped := LStripSlash(p);
      Staging(pkg, stripped, stripped + "/*", Join(outputFolder, pkg))
    case None =>
      var stripped := LStripSlash(toolchainPrefix);
      Staging(pkg, stripped, "*", Join(Join(outputFolder, pkg), stripped))
  }

  /** The temporary `HOME`, `os.path.join(output_folder, 'RPM_HOME')`. */
  function RpmHome(outputFolder: string): string {
    Join(outputFolder, "RPM_HOME")
  }

  /** The environment with `HOME` redirected to the temporary one. */
  function Redirected(env: map<string, string>, outputFolder: string): map<string, string> {
    env["HOME" := RpmHome(outputFolder)]
  }

  /** The archive written for a package directory. */
  function TarballPath(outputFolder: string, packageDir: string): string {
    Join(Join(Join(RpmHome(outputFolder), "rpmbuild"), "SOURCES"), packageDir + ".tar.gz")
  }

  /** The single member `tar` archives, relative to the output folder. */
  function ArchiveMember(s: Staging): string {
    Join(s.packageDir, s.strippedPrefix)
  }

  function TarArgv(outputFolder: string, s: Staging): seq<string> {
    ["tar", "--create", "--gzip", "--file", TarballPath(outputFolder, s.packageDir),
     "--directory", outputFolder, ArchiveMember(s)]
  }

  /** What one loop iteration asks for: nothing, or a copy and then a `tar`. */
  function StepActions(dep: Dependency, outputFolder: string, toolchainPrefix: string,
                       env: map<string, string>): seq<Action>
  {
    if !IsDeployed(dep) then []
    else
      var s := Stage(dep, outputFolder, toolchainPrefix);
      [CopyFiles(dep.packageFolder.value, s.dst, s.pattern, MetadataExcludes),
       RunProcess(TarArgv(outputFolder, s), env)]
  }

  /** What the whole loop asks for, iteration after iteration. */
  function LoopActions(deps: seq<Dependency>, outputFolder: string, toolchainPrefix: string,
                       env: map<string, string>): seq<Action>
  {
    if deps == [] then []
    else
      var last := |deps| - 1;
      LoopActions(deps[..last], outputFolder, toolchainPrefix, env)
        + StepActions(deps[last], outputFolder, toolchainPrefix, env)
  }

  /**
   * Everything `deploy` asks for when `HOME` is set: the directory of the
   * temporary `HOME`, `rpmdev-setuptree` under it, then the loop, every
   * child process running with the redirected environment.
   */
  function Plan(deps: seq<Dependency>, outputFolder: string, toolchainPrefix: string,
                env: map<string, string>): seq<Action>
  {
    SetUpActions(outputFolder, env)
      + LoopActions(deps, outputFolder, toolchainPrefix, Redirected(env, outputFolder))
  }

  /** The temporary `HOME` directory, then `rpmdev-setuptree` run under it. */
  function SetUpActions(outputFolder: string, env: map<string, string>): seq<Action> {
    [MakeDirectory(RpmHome(outputFolder)), RunProcess(["rpmdev-setuptree"], Redirected(env, outputFolder))]
  }

  lemma LoopActionsSnoc(deps: seq<Dependency>, i: nat, outputFolder: string, toolchainPrefix: string,
                        env: map<string, string>)
    requires i < |deps|
    ensures LoopActions(deps[..i + 1], outputFolder, toolchainPrefix, env)
         == LoopActions(deps[..i], outputFolder, toolchainPrefix, env)
            + StepActions(deps[i], outputFolder, toolchainPrefix, env)
  {
    assert deps[..i + 1][..i] == deps[..i];
  }

  lemma RestoreHome(env: map<string, string>, outputFolder: string)
    requires "HOME" in env
    ensures Redirected(env, outputFolder)["HOME" := env["HOME"]] == env
  {
  }

  /** The body of the loop for a dependency that has a package folder. */
  method StageAndArchive(host: Process, dep: Dependency, outputFolder: string, toolchainPrefix: string)
    requires IsDeployed(dep)
    modifies host
    ensures host.environ == old(host.environ)
    ensures host.actions == old(host.actions) + StepActions(dep, outputFolder, toolchainPrefix, old(host.environ))
  {
    var s := Stage(dep, outputFolder, toolchainPrefix);
    host.Copy(dep.packageFolder.value, s.dst, s.pattern, MetadataExcludes);
    host.Run(TarArgv(outputFolder, s));
  }

  /**
   * Before the loop: remember `HOME`, point it at the temporary one, create that
   * directory and lay out the `rpmbuild` tree under it.
   */
  method SetUpRpmHome(host: Process, outputFolder: string)
    modifies host
    ensures host.environ == Redirected(old(host.environ), outputFolder)
    ensures host.actions == old(host.actions) + SetUpActions(outputFolder, old(host.environ))
  {
    var rpmHome := Join(outputFolder, "RPM_HOME");
    host.SetEnv("HOME", rpmHome);
    host.Mkdir(Join(outputFolder, "RPM_HOME"));
    host.Run(["rpmdev-setuptree"]);
  }

  /** The loop over the root's dependencies: stage and archive each deployed one. */
  method StageAll(host: Process, deps: seq<Dependency>, outputFolder: string, toolchainPrefix: string)
    modifies host
    ensures host.environ == old(host.environ)
    ensures host.actions == old(host.actions) + LoopActions(deps, outputFolder, toolchainPrefix, old(host.environ))
  {
    ghost var env, start := host.environ, host.actions;
    var i := 0;
    while i < |deps|
      invariant 0 <= i <= |deps|
      invariant host.environ == env
      invariant host.actions == start + LoopActions(deps[..i], outputFolder, toolchainPrefix, env)
    {
      var dep := deps[i];
      ghost var done := LoopActions(deps[..i], outputFolder, toolchainPrefix, env);
      LoopActionsSnoc(deps, i, outputFolder, toolchainPrefix, env);
      ghost var step := StepActions(dep, outputFolder, toolchainPrefix, env);
      if dep.packageFolder.Some? {
        StageAndArchive(host, dep, outputFolder, toolchainPrefix);
        LogAppend(start, done, step);
      } else {
        assert step == [];
        LogAppend(start, done, step);
      }
      i := i + 1;
    }
    assert deps[..|deps|] == deps;
  }

  /**
   * `deploy(graph, output_folder)`: `toolchainPrefix` is the root's `prefix`
   * option and `deps` the root's dependencies in iteration order.
   */
  method Deploy(host: Process, deps: seq<Dependency>, outputFolder: string, toolchainPrefix: string)
    returns (r: Outcome)
    modifies host
    ensures "HOME" !in old(host.environ) ==>
      r == KeyError("HOME") && host.environ == old(host.environ) && host.actions == old(host.actions)
    ensures "HOME" in old(host.environ) ==>
      && r == Pass
      && host.environ == old(host.environ)
      && host.actions == old(host.actions) + Plan(deps, outputFolder, toolchainPrefix, old(host.environ))
  {
    if "HOME" !in host.environ {
      return KeyError("HOME");
    }
    var origHome := host.environ["HOME"];
    SetUpRpmHome(host, outputFolder);
    StageAll(host, deps, outputFolder, toolchainPrefix);
    host.SetEnv("HOME", origHome);
    assert host.environ == old(host.environ) by {
      RestoreHome(old(host.environ), outputFolder);
    }
    r := Pass;
  }

  // ---------------------------------------------------------------------
  // Properties of the plan
  // ---------------------------------------------------------------------

  /** A loop iteration emits two actions for a deployed dependency and none otherwise. */
  lemma StepLength(dep: Dependency, outputFolder: string, toolchainPrefix: string, env: map<string, string>)
    ensures |StepActions(dep, outputFolder, toolchainPrefix, env)| == if IsDeployed(dep) then 2 else 0
  {
  }

  /** The loop logs two actions per deployed dependency. */
  lemma {:induction false} LoopLength(deps: seq<Dependency>, outputFolder: string, toolchainPrefix: string,
                                      env: map<string, string>)
    ensures |LoopActions(deps, outputFolder, toolchainPrefix, env)| == 2 * |Deployed(deps)|
  {
    if deps != [] {
      LoopLength(deps[..|deps| - 1], outputFolder, toolchainPrefix, env);
      StepLength(deps[|deps| - 1], outputFolder, toolchainPrefix, env);
    }
  }

  /** The `k`-th pair of loop actions belongs to the `k`-th deployed dependency. */
  lemma {:induction false} LoopStepAt(deps: seq<Dependency>, k: nat, outputFolder: string, toolchainPrefix: string,
                                      env: map<string, string>)
    requires k < |Deployed(deps)|
    ensures |LoopActions(deps, outputFolder, toolchainPrefix, env)| == 2 * |Deployed(deps)|
    ensures LoopActions(deps, outputFolder, toolchainPrefix, env)[2 * k..2 * k + 2]
         == StepActions(deps[Deployed(deps)[k]], outputFolder, toolchainPrefix, env)
  {
    LoopLength(deps, outputFolder, toolchainPrefix, env);
    var last := |deps| - 1;
    var init := deps[..last];
    var before := LoopActions(init, outputFolder, toolchainPrefix, env);
    var step := StepActions(deps[last], outputFolder, toolchainPrefix, env);
    var all := LoopActions(deps, outputFolder, toolchainPrefix, env);
    assert all == before + step;
    assert |before| == 2 * |Deployed(init)| && |step| == if IsDeployed(deps[last]) then 2 else 0 by {
      LoopLength(init, outputFolder, toolchainPrefix, env);
      StepLength(deps[last], outputFolder, toolchainPrefix, env);
    }
    assert Deployed(deps) == Deployed(init) + (if IsDeployed(deps[last]) then [last] else []);
    if k < |Deployed(init)| {
      LoopStepAt(init, k, outputFolder, toolchainPrefix, env);
      var j := Deployed(init)[k];
      assert Deployed(deps)[k] == j && j < |init| && deps[j] == init[j];
      assert all[2 * k..2 * k + 2] == before[2 * k..2 * k + 2] by {
        SliceOfPrefix(before, step, 2 * k, 2 * k + 2);
      }
    } else {
      assert Deployed(deps)[k] == last && |before| == 2 * k && |step| == 2;
      SliceOfSuffix(before, step);
    }
  }

  /**
   * The loop emits exactly a copy and a `tar` per deployed dependency, in
   * dependency order, and nothing for a skipped one.
   */
  lemma LoopInOrder(deps: seq<Dependency>, outputFolder: string, toolchainPrefix: string, env: map<string, string>)
    ensures |LoopActions(deps, outputFolder, toolchainPrefix, env)| == 2 * |Deployed(deps)|
    ensures forall k :: 0 <= k < |Deployed(deps)| ==>
      LoopActions(deps, outputFolder, toolchainPrefix, env)[2 * k..2 * k + 2]
        == StepActions(deps[Deployed(deps)[k]], outputFolder, toolchainPrefix, env)
  {
    LoopLength(deps, outputFolder, toolchainPrefix, env);
    forall k | 0 <= k < |Deployed(deps)|
      ensures LoopActions(deps, outputFolder, toolchainPrefix, env)[2 * k..2 * k + 2]
           == StepActions(deps[Deployed(deps)[k]], outputFolder, toolchainPrefix, env)
    {
      LoopStepAt(deps, k, outputFolder, toolchainPrefix, env);
    }
  }

  lemma SliceOfSuffix<T>(a: seq<T>, b: seq<T>)
    ensures (a + b)[|a|..|a| + |b|] == b
  {
  }

  lemma SliceOfPrefix<T>(a: seq<T>, b: seq<T>, i: nat, j: nat)
    requires i <= j <= |a|
    ensures (a + b)[i..j] == a[i..j]
  {
  }

  /** The conventions every loop action keeps. */
  predicate KeepsConventions(a: Action, env: map<string, string>) {
    (a.RunProcess? ==> a.env == env) && (a.CopyFiles? ==> a.excludes == MetadataExcludes)
  }

  lemma {:induction false} LoopKeepsConventions(deps: seq<Dependency>, outputFolder: string,
                                                toolchainPrefix: string, env: map<string, string>)
    ensures forall j :: 0 <= j < |LoopActions(deps, outputFolder, toolchainPrefix, env)| ==>
      KeepsConventions(LoopActions(deps, outputFolder, toolchainPrefix, env)[j], env)
  {
    if deps != [] {
      LoopKeepsConventions(deps[..|deps| - 1], outputFolder, toolchainPrefix, env);
    }
  }

  /**
   * Every child process `deploy` starts sees `HOME` set to
   * `<output>/RPM_HOME` and the rest of the environment untouched, and
   * every copy leaves out Conan's two bookkeeping files.
   */
  lemma PlanRunsUnderRpmHome(deps: seq<Dependency>, outputFolder: string, toolchainPrefix: string,
                             env: map<string, string>)
    ensures forall a :: a in Plan(deps, outputFolder, toolchainPrefix, env) && a.RunProcess? ==>
      a.env == env["HOME" := Join(outputFolder, "RPM_HOME")] && a.env["HOME"] == Join(outputFolder, "RPM_HOME")
    ensures forall a :: a in Plan(deps, outputFolder, toolchainPrefix, env) && a.CopyFiles? ==>
      a.excludes == ["conaninfo.txt", "conanmanifest.txt"]
  {
    var redirected := Redirected(env, outputFolder);
    var loop := LoopActions(deps, outputFolder, toolchainPrefix, redirected);
    LoopKeepsConventions(deps, outputFolder, toolchainPrefix, redirected);
    assert Plan(deps, outputFolder, toolchainPrefix, env) == SetUpActions(outputFolder, env) + loop;
    forall a | a in loop ensures KeepsConventions(a, redirected) {
      var j :| 0 <= j < |loop| && loop[j] == a;
    }
  }

  /** Deploying a concatenation of dependency lists plans the two loops one after the other. */
  lemma {:induction false} LoopActionsAppend(xs: seq<Dependency>, ys: seq<Dependency>, outputFolder: string,
                                             toolchainPrefix: string, env: map<string, string>)
    ensures LoopActions(xs + ys, outputFolder, toolchainPrefix, env)
         == LoopActions(xs, outputFolder, toolchainPrefix, env) + LoopActions(ys, outputFolder, toolchainPrefix, env)
  {
    if ys == [] {
      assert xs + ys == xs;
    } else {
      var init, last := ys[..|ys| - 1], ys[|ys| - 1];
      var step := StepActions(last, outputFolder, toolchainPrefix, env);
      calc {
        LoopActions(xs + ys, outputFolder, toolchainPrefix, env);
        { assert (xs + ys)[..|xs + ys| - 1] == xs + init;
          assert (xs + ys)[|xs + ys| - 1] == last; }
        LoopActions(xs + init, outputFolder, toolchainPrefix, env) + step;
        { LoopActionsAppend(xs, init, outputFolder, toolchainPrefix, env); }
        LoopActions(xs, outputFolder, toolchainPrefix, env) + LoopActions(init, outputFolder, toolchainPrefix, env) + step;
        { LogAppend(LoopActions(xs, outputFolder, toolchainPrefix, env),
                    LoopActions(init, outputFolder, toolchainPrefix, env), step); }
        LoopActions(xs, outputFolder, toolchainPrefix, env) + (LoopActions(init, outputFolder, toolchainPrefix, env) + step);
        LoopActions(xs, outputFolder, toolchainPrefix, env) + LoopActions(ys, outputFolder, toolchainPrefix, env);
      }
    }
  }

  /** Dropping a skipped dependency from the list leaves the loop's actions as they were. */
  lemma {:induction false} LoopSkip(deps: seq<Dependency>, i: nat, outputFolder: string,
                                    toolchainPrefix: string, env: map<string, string>)
    requires i < |deps| && !IsDeployed(deps[i])
    ensures LoopActions(deps, outputFolder, toolchainPrefix, env)
         == LoopActions(deps[..i] + deps[i + 1..], outputFolder, toolchainPrefix, env)
  {
    var a, d, b := deps[..i], [deps[i]], deps[i + 1..];
    assert deps == (a + d) + b;
    assert LoopActions(d, outputFolder, toolchainPrefix, env) == [] by {
      assert d[..0] == [];
    }
    LoopActionsAppend(a + d, b, outputFolder, toolchainPrefix, env);
    LoopActionsAppend(a, d, outputFolder, toolchainPrefix, env);
    LoopActionsAppend(a, b, outputFolder, toolchainPrefix, env);
  }

  /** A dependency without a package folder contributes nothing: dropping it leaves the plan as it was. */
  lemma SkippedDependencyChangesNothing(deps: seq<Dependency>, i: nat, outputFolder: string,
                                        toolchainPrefix: string, env: map<string, string>)
    requires i < |deps| && !IsDeployed(deps[i])
    ensures Plan(deps, outputFolder, toolchainPrefix, env)
         == Plan(deps[..i] + deps[i + 1..], outputFolder, toolchainPrefix, env)
  {
    LoopSkip(deps, i, outputFolder, toolchainPrefix, Redirected(env, outputFolder));
  }

  /** The archive lies in `RPM_HOME/rpmbuild/SOURCES` below the output folder. */
  lemma {:induction false} TarballUnderSources(outputFolder: string, packageDir: string)
    requires !IsAbsolute(packageDir)
    ensures TarballPath(outputFolder, packageDir)
         == Join(outputFolder, "RPM_HOME/rpmbuild/SOURCES/" + packageDir + ".tar.gz")
  {
    var file := packageDir + ".tar.gz";
    var sources := "RPM_HOME/rpmbuild/SOURCES";
    calc {
      TarballPath(outputFolder, packageDir);
      Join(Join(Join(Join(outputFolder, "RPM_HOME"), "rpmbuild"), "SOURCES"), file);
      { JoinAssoc(outputFolder, "RPM_HOME", "rpmbuild");
        assert Join("RPM_HOME", "rpmbuild") == "RPM_HOME/rpmbuild"; }
      Join(Join(Join(outputFolder, "RPM_HOME/rpmbuild"), "SOURCES"), file);
      { JoinAssoc(outputFolder, "RPM_HOME/rpmbuild", "SOURCES");
        assert Join("RPM_HOME/rpmbuild", "SOURCES") == sources; }
      Join(Join(outputFolder, sources), file);
      { JoinAssoc(outputFolder, sources, file); }
      Join(outputFolder, Join(sources, file));
      { assert !IsAbsolute(file) by {
          if packageDir != [] { assert file[0] == packageDir[0]; }
        }
        JoinRelative(sources, file); }
      Join(outputFolder, sources + "/" + file);
      { assert sources + "/" + file == "RPM_HOME/rpmbuild/SOURCES/" + packageDir + ".tar.gz"; }
      Join(outputFolder, "RPM_HOME/rpmbuild/SOURCES/" + packageDir + ".tar.gz");
    }
  }

  /**
   * One name, `toolchain-<name>-<version>`, is used three times: the copy
   * destination lies inside `<output>/<name>`, the archive is
   * `<output>/RPM_HOME/rpmbuild/SOURCES/<name>.tar.gz`, and the archived
   * member starts with it. The prefix used under it has no leading
   * separator and is the dependency's own `prefix` when it has one, the
   * root's otherwise.
   */
  lemma {:induction false} PackageDirSharedByCopyAndTar(dep: Dependency, outputFolder: string, toolchainPrefix: string)
    ensures var s := Stage(dep, outputFolder, toolchainPrefix);
      var pkg := "toolchain-" + dep.name + "-" + dep.version;
      var home := Join(outputFolder, pkg);
      && s.packageDir == pkg
      && |home| <= |s.dst| && s.dst[..|home|] == home
      && TarballPath(outputFolder, pkg) == Join(outputFolder, "RPM_HOME/rpmbuild/SOURCES/" + pkg + ".tar.gz")
      && |pkg| <= |ArchiveMember(s)| && ArchiveMember(s)[..|pkg|] == pkg
      && !IsAbsolute(s.strippedPrefix)
      && s.strippedPrefix == LStripSlash(if dep.prefix.Some? then dep.prefix.value else toolchainPrefix)
  {
    var s := Stage(dep, outputFolder, toolchainPrefix);
    var pkg := s.packageDir;
    var home := Join(outputFolder, pkg);
    assert !IsAbsolute(pkg) by {
      assert pkg[0] == 't';
    }
    assert |home| <= |s.dst| && s.dst[..|home|] == home by {
      if dep.prefix.None? {
        JoinKeepsComponents(home, s.strippedPrefix);
      }
    }
    assert |pkg| <= |ArchiveMember(s)| && ArchiveMember(s)[..|pkg|] == pkg by {
      JoinKeepsComponents(pkg, s.strippedPrefix);
    }
    TarballUnderSources(outputFolder, pkg);
  }

  /**
   * Where a deployed dependency's files land: assuming `copy` keeps each
   * selected file's relative path, a file selected by the copy lands
   * inside `<output>/<member>`, the very directory `tar` archives from
   * `--directory <output>`. With a `prefix` option only files below the
   * stripped prefix are selected, and they lie under the archived member
   * by what follows that prefix; without one every file is selected and
   * lies under the member by its whole path.
   */
  lemma {:induction false} FilesLandInArchivedTree(dep: Dependency, outputFolder: string, toolchainPrefix: string,
                                                   r: string)
    requires IsDeployed(dep)
    requires IsRelativeFile(r) && Matches(Stage(dep, outputFolder, toolchainPrefix).pattern, r)
    ensures var s := Stage(dep, outputFolder, toolchainPrefix);
      var argv := TarArgv(outputFolder, s);
      && (dep.prefix.Some? ==> |s.strippedPrefix| < |r| && r[..|s.strippedPrefix| + 1] == s.strippedPrefix + "/")
      && Landing(s.dst, r)
         == Join(Join(argv[6], argv[7]), if dep.prefix.Some? then r[|s.strippedPrefix| + 1..] else r)
  {
    var s := Stage(dep, outputFolder, toolchainPrefix);
    var pkg := s.packageDir;
    var np := s.strippedPrefix;
    assert TarArgv(outputFolder, s)[6] == outputFolder && TarArgv(outputFolder, s)[7] == Join(pkg, np);
    JoinAssoc(outputFolder, pkg, np);
    if dep.prefix.Some? {
      assert s.pattern == np + "/*" && s.dst == Join(outputFolder, pkg);
      SubtreeLanding(Join(outputFolder, pkg), np, r);
    }
  }

  /**
   * Which files the copy selects: every relative file when the dependency
   * has no `prefix` option, and otherwise exactly the files whose path
   * starts with the stripped prefix and a separator.
   */
  lemma CopySelectsBelowPrefix(dep: Dependency, outputFolder: string, toolchainPrefix: string, r: string)
    ensures var s := Stage(dep, outputFolder, toolchainPrefix);
      && (dep.prefix.None? ==> Matches(s.pattern, r))
      && (dep.prefix.Some? ==>
            (Matches(s.pattern, r) <==>
               |s.strippedPrefix| < |r| && r[..|s.strippedPrefix| + 1] == s.strippedPrefix + "/"))
  {
    var s := Stage(dep, outputFolder, toolchainPrefix);
    if dep.prefix.Some? {
      assert s.pattern[..|s.pattern| - 1] == s.strippedPrefix + "/";
      assert s.pattern[|s.pattern| - 2..] == "/*";
    }
  }
}
