# Conan toolchain deployers

A model of the two Conan custom deployers of the toolchain demo. Each
`deploy(graph, output_folder)` walks the root's dependencies in iteration
order and skips those without a package folder. For the others it picks an
install prefix: the dependency's own `prefix` option, or else a prefix the
deployer carries. It strips the prefix's leading separator and asks Conan to
copy files into a staging tree.

- The **RPM deployer** stages each package under
  `<output>/toolchain-<name>-<version>`. It then runs `tar` on the staged
  directory, writing into `rpmbuild/SOURCES` below a temporary `HOME`
  (`<output>/RPM_HOME`). Before the loop it sets that `HOME` up with
  `rpmdev-setuptree`, and after the loop it restores the original `HOME`.
- The **NFS deployer** merges every package into one tree under the output
  folder. A dependency without a `prefix` option is placed below the prefix
  carried over from the last deployed dependency that had one (the root's
  prefix at first). This deployer strips the prefix by dropping its first
  character, whatever that character is.

The model has five modules.

- `Paths` holds the string operations the scripts rely on:
  - POSIX `os.path.join`, with an absolute right operand discarding the left one;
  - `str.lstrip("/")`;
  - the slice `s[1:None]`.
- `Conan` holds the dependency list: name, version, optional package folder
  and optional `prefix` option.
- `Host` holds the process the deployer runs in, as a class `Process`:
  - its `environ` map;
  - a log of the effects it asks for: `mkdir`, `copy`, and child processes,
    each child recorded with the environment it inherits.
- `RpmDeployer` and `NfsDeployer` each model `deploy` as a method over a
  `Process`. That method loops over the dependencies exactly as the script
  does. It is proved against a specification function (`Plan`) that gives the
  whole log of actions.
- Lemmas state what the scripts promise about `Plan`:
  - the order of the actions;
  - skipped dependencies;
  - names of packages, archives and archive members;
  - destinations and excludes;
  - the environment child processes see;
  - the carried prefix.

## Model

| member | source | states |
|---|---|---|
| Paths.LStripSlash | src/demo/toolchain/rpm_deployer.py:79 | the stripped prefix never starts with `/`; it is a suffix of the input; only separators were removed; an input without a leading `/` is returned unchanged |
| Paths.DropFirst | src/demo/toolchain/nfs_deployer.py:39 | `[1:None]` removes exactly the first character, whatever it is: the result is empty for an empty prefix, and otherwise one shorter with the prefix equal to its first character followed by the result |
| Paths.DropFirstAgreesWithLStrip | src/demo/toolchain/nfs_deployer.py:49 | the NFS stripping agrees with `lstrip("/")` if and only if the prefix is empty or has exactly one leading separator |
| Paths.Join | src/demo/toolchain/rpm_deployer.py:48 | POSIX `os.path.join` of two components; a join of more components is the left fold of this one (`Paths.JoinKeepsComponents`, `Paths.JoinAssoc`) |
| Paths.JoinKeepsComponents | src/demo/toolchain/rpm_deployer.py:81 | `os.path.join(a, b)` is `b` when `b` is absolute; otherwise it begins with `a`, ends with `b` and adds at most one separator, exactly one when `a` is non-empty and does not end in `/` |
| Paths.JoinAssoc | src/demo/toolchain/rpm_deployer.py:101 | joining is associative, so a join of several components may be regrouped |
| Conan.Deployed | src/demo/toolchain/rpm_deployer.py:59-67 | the positions a deployer does not skip all hold a dependency with a package folder |
| Conan.DeployedAscending | src/demo/toolchain/rpm_deployer.py:59 | those positions come in iteration order |
| Conan.DeployedComplete | src/demo/toolchain/nfs_deployer.py:23-31 | every dependency with a package folder is among them |
| Host.SubtreeLanding | src/demo/toolchain/rpm_deployer.py:80-81 | a relative file selected by `<dir>/*` and copied into `x` with its relative path lands in `x/<dir>`, under what follows `<dir>/` |
| Host.Process.SetEnv | src/demo/toolchain/rpm_deployer.py:49 | `os.environ[key] = value` updates that one key and logs nothing |
| Host.Process.Mkdir | src/demo/toolchain/rpm_deployer.py:52-54 | `mkdir` logs one directory creation and leaves the environment alone |
| Host.Process.Copy | src/demo/toolchain/rpm_deployer.py:90-95 | `copy` logs one copy with its source, destination, pattern and excludes |
| Host.Process.Run | src/demo/toolchain/rpm_deployer.py:56 | `subprocess.run` logs one child process with the environment current at the call |
| RpmDeployer.PackageDir | src/demo/toolchain/rpm_deployer.py:72 | the package directory name `toolchain-<name>-<version>` (`RpmDeployer.PackageDirSharedByCopyAndTar`) |
| RpmDeployer.Stage | src/demo/toolchain/rpm_deployer.py:72-88 | the per-dependency choice of prefix, stripped prefix, copy pattern and destination in the two branches (`RpmDeployer.PackageDirSharedByCopyAndTar`, `RpmDeployer.CopySelectsBelowPrefix`) |
| RpmDeployer.RpmHome | src/demo/toolchain/rpm_deployer.py:48 | the temporary `HOME`, `<output>/RPM_HOME` (`RpmDeployer.PlanRunsUnderRpmHome`) |
| RpmDeployer.Redirected | src/demo/toolchain/rpm_deployer.py:49 | the environment with only `HOME` pointed at the temporary one (`RpmDeployer.RestoreHome`) |
| RpmDeployer.TarballPath | src/demo/toolchain/rpm_deployer.py:101 | the archive file below `rpmbuild/SOURCES` of the temporary `HOME` (`RpmDeployer.TarballUnderSources`) |
| RpmDeployer.ArchiveMember | src/demo/toolchain/rpm_deployer.py:103 | the one member `tar` archives, `<pkgname>/<stripped prefix>` (`RpmDeployer.FilesLandInArchivedTree`) |
| RpmDeployer.TarArgv | src/demo/toolchain/rpm_deployer.py:98-104 | the `tar` argument list (`RpmDeployer.FilesLandInArchivedTree`) |
| RpmDeployer.StepActions | src/demo/toolchain/rpm_deployer.py:66-104 | what one iteration logs: nothing for a skipped dependency, else its copy and its `tar` (`RpmDeployer.StepLength`, `RpmDeployer.StageAndArchive`) |
| RpmDeployer.LoopActions | src/demo/toolchain/rpm_deployer.py:59-104 | what the whole loop logs, iteration after iteration (`RpmDeployer.StageAll`, `RpmDeployer.LoopInOrder`) |
| RpmDeployer.SetUpActions | src/demo/toolchain/rpm_deployer.py:52-56 | the `mkdir` of the temporary `HOME` and `rpmdev-setuptree` run under it (`RpmDeployer.SetUpRpmHome`) |
| RpmDeployer.Plan | src/demo/toolchain/rpm_deployer.py:47-104 | everything `deploy` logs when `HOME` is set (`RpmDeployer.Deploy`, `RpmDeployer.PlanRunsUnderRpmHome`) |
| RpmDeployer.Deploy | src/demo/toolchain/rpm_deployer.py:39-115 | without `HOME` the call fails with `KeyError('HOME')` before any effect; otherwise it logs exactly the plan (set-up, then a copy and a `tar` per deployed dependency) and returns with the environment as it found it |
| RpmDeployer.SetUpRpmHome | src/demo/toolchain/rpm_deployer.py:47-56 | `HOME` is redirected to `<output>/RPM_HOME`, that directory is created and `rpmdev-setuptree` runs under it |
| RpmDeployer.StageAll | src/demo/toolchain/rpm_deployer.py:59-104 | the loop leaves the environment unchanged and logs the loop plan, in order |
| RpmDeployer.StageAndArchive | src/demo/toolchain/rpm_deployer.py:72-104 | one iteration logs the copy and the `tar` of its dependency |
| RpmDeployer.RestoreHome | src/demo/toolchain/rpm_deployer.py:115 | writing back the saved `HOME` gives back the original environment |
| RpmDeployer.StepLength | src/demo/toolchain/rpm_deployer.py:66-67 | an iteration logs two actions for a deployed dependency and none for a skipped one |
| RpmDeployer.LoopLength | src/demo/toolchain/rpm_deployer.py:59-104 | the loop logs exactly twice as many actions as there are deployed dependencies |
| RpmDeployer.LoopStepAt | src/demo/toolchain/rpm_deployer.py:72-104 | the `k`-th pair of loop actions is the copy and the `tar` of the `k`-th deployed dependency |
| RpmDeployer.LoopInOrder | src/demo/toolchain/rpm_deployer.py:59-104 | the loop logs exactly two actions per deployed dependency, in dependency order, each pair being that dependency's copy and `tar` |
| RpmDeployer.LoopKeepsConventions | src/demo/toolchain/rpm_deployer.py:90-104 | every loop action that is a child process runs in the loop's environment, and every copy excludes the two metadata files |
| RpmDeployer.PlanRunsUnderRpmHome | src/demo/toolchain/rpm_deployer.py:47-49 | every child process `deploy` starts sees `HOME` equal to `<output>/RPM_HOME` and the rest of the environment unchanged; every copy excludes exactly `conaninfo.txt` and `conanmanifest.txt` |
| RpmDeployer.LoopActionsAppend | src/demo/toolchain/rpm_deployer.py:59 | the loop over two lists in turn logs the two loops' actions one after the other |
| RpmDeployer.LoopSkip | src/demo/toolchain/rpm_deployer.py:66-67 | removing a dependency without a package folder leaves the loop's actions unchanged |
| RpmDeployer.SkippedDependencyChangesNothing | src/demo/toolchain/rpm_deployer.py:66-67 | removing a dependency without a package folder leaves the whole plan unchanged: it gets no copy and no `tar` |
| RpmDeployer.TarballUnderSources | src/demo/toolchain/rpm_deployer.py:101 | the archive is `<output>/RPM_HOME/rpmbuild/SOURCES/<pkgname>.tar.gz` |
| RpmDeployer.PackageDirSharedByCopyAndTar | src/demo/toolchain/rpm_deployer.py:72-103 | the package directory is `toolchain-<name>-<version>`. The copy destination, as a string, begins with `<output>/<pkgname>`, the archive is named after the package, and the archive member starts with the package name. The stripped prefix has no leading `/` and comes from the dependency's `prefix` option, or else from the root's |
| RpmDeployer.FilesLandInArchivedTree | src/demo/toolchain/rpm_deployer.py:74-104 | the path where every selected file lands is `<output>/<pkgname>/<stripped prefix>`, the member `tar` archives from `--directory <output>`, joined with the rest of the file's path; with a `prefix` option a selected file lies below the stripped prefix |
| RpmDeployer.CopySelectsBelowPrefix | src/demo/toolchain/rpm_deployer.py:74-88 | without a `prefix` option the pattern `*` selects every file; with one, the pattern selects a file if and only if its path starts with the stripped prefix and a separator |
| NfsDeployer.CarriedPrefix | src/demo/toolchain/nfs_deployer.py:20-36 | the value of `my_prefix` after the loop has gone through a list (`NfsDeployer.CarriedPrefixWithoutSetter`, `NfsDeployer.CarriedPrefixFromLatestSetter`) |
| NfsDeployer.StepActions | src/demo/toolchain/nfs_deployer.py:30-55 | what one iteration logs given `my_prefix`: nothing for a skipped dependency, else its one copy in the branch's form (`NfsDeployer.CopyOne`, `NfsDeployer.CopyTargets`) |
| NfsDeployer.Plan | src/demo/toolchain/nfs_deployer.py:23-55 | what the whole loop logs, with `my_prefix` carried between iterations (`NfsDeployer.Deploy`, `NfsDeployer.PlanInOrder`) |
| NfsDeployer.Deploy | src/demo/toolchain/nfs_deployer.py:15-55 | the environment is unchanged and the log grows by exactly the plan, with the prefix carried from iteration to iteration |
| NfsDeployer.CopyOne | src/demo/toolchain/nfs_deployer.py:33-55 | one iteration logs its dependency's copy and returns the new `my_prefix`: the dependency's own prefix when it has one, the old one otherwise |
| NfsDeployer.PlanSnoc | src/demo/toolchain/nfs_deployer.py:23-36 | one more dependency appends its own copy, made with the prefix carried so far, and updates the carried prefix only when it has a `prefix` option |
| NfsDeployer.CarriedPrefixWithoutSetter | src/demo/toolchain/nfs_deployer.py:20 | when no deployed dependency has a `prefix` option, `my_prefix` stays the root's prefix |
| NfsDeployer.CarriedPrefixFromLatestSetter | src/demo/toolchain/nfs_deployer.py:36 | otherwise `my_prefix` is the prefix of the last deployed dependency with a `prefix` option |
| NfsDeployer.CarriedPrefixKept | src/demo/toolchain/nfs_deployer.py:30-31 | a skipped dependency, or one without a `prefix` option, leaves `my_prefix` unchanged |
| NfsDeployer.CarriedPrefixAppend | src/demo/toolchain/nfs_deployer.py:23 | the loop over two lists in turn carries `my_prefix` from the first list into the second |
| NfsDeployer.PlanAppend | src/demo/toolchain/nfs_deployer.py:23 | the loop over two lists in turn logs the first list's copies, then the second list's made with the prefix the first left |
| NfsDeployer.SkippedDependencyChangesNothing | src/demo/toolchain/nfs_deployer.py:30-31 | removing a dependency without a package folder changes neither the copies nor the final `my_prefix` |
| NfsDeployer.PlanInOrder | src/demo/toolchain/nfs_deployer.py:23-55 | there is exactly one copy per deployed dependency, in dependency order, each made with `my_prefix` as the dependencies before it left it |
| NfsDeployer.CarriedPrefixIsKnown | src/demo/toolchain/nfs_deployer.py:20-36 | `my_prefix` is always the root's prefix or some dependency's `prefix` option |
| NfsDeployer.CopyTargets | src/demo/toolchain/nfs_deployer.py:40-55 | every action is a copy. It either goes to `output_folder` with no excludes, or uses pattern `*` and excludes `conan*.txt` to go to `output_folder/<prefix minus its first character>` for the root's or some dependency's prefix. No destination names a package |
| NfsDeployer.PlanIgnoresNames | src/demo/toolchain/nfs_deployer.py:43-53 | two dependency lists that differ only in names and versions give the same copies and the same carried prefix |
| NfsDeployer.WholeCopyDestination | src/demo/toolchain/nfs_deployer.py:49-54 | a whole-package copy takes the dependency's package folder to `output_folder/<my_prefix minus its first character>`, a string that begins with the output folder, unless the second character of `my_prefix` is `/` (as in `//opt`, `./opt`, `~/opt`): then the destination is the absolute path `my_prefix[1:]` |
| NfsDeployer.PrefixedFilesMerge | src/demo/toolchain/nfs_deployer.py:36-53 | a file below a dependency's own prefix lands in `output_folder/<prefix minus its first character>`, the same directory the next whole-package copy targets when it follows directly |

## Left out

- Conan's `copy` and `mkdir` are foreign calls. They are logged as actions, together with their arguments. Where the model needs a copy's result, it assumes that a matched file keeps its relative path below the destination (`Host.Landing`), and it decides which files match with `Host.Matches`, described below. It considers only the two pattern shapes the deployers use, `*` and `<dir>/*`.
- The child processes `rpmdev-setuptree` and `tar` are logged with their argument lists and inherited environment. Their effects, exit statuses and archive formats are not modelled.
- Exceptions raised by `copy` or by a child process are not modelled. On such a path `HOME` would stay redirected; the model claims restoration only on the normal path.
- The commented-out `ConanException` checks and the `rpmbuild` TODO are not modelled. They are not code.
- Option values are modelled as strings. `str()` of an option that is not set (giving `"None"`) is not modelled.
- Conan's graph construction and dependency resolution are not modelled. The dependency list is an input.
- src/demo/toolchain/conanfile.py is not part of this model. It is a declarative recipe.
- The NFS deployer's first-character stripping is kept as written, with its consequences stated by `Paths.DropFirstAgreesWithLStrip` and `NfsDeployer.WholeCopyDestination`. A prefix without a leading `/` loses a real character. A prefix whose second character is `/` (`//opt`, `./opt`, `~/opt`) yields an absolute destination outside the output folder. A `..` component in the prefix is another way out of the output folder, described below.
- Host.Matches: a copy pattern is matched literally and case-sensitively, as a prefix test on the relative path. Conan's `copy` uses `fnmatch`, which ignores case by default and treats `*`, `?` and `[` inside the prefix as glob characters. `RpmDeployer.FilesLandInArchivedTree`, `RpmDeployer.CopySelectsBelowPrefix`, `Host.SubtreeLanding` and `NfsDeployer.PrefixedFilesMerge` hold only under this literal matching. With Conan's matching, a file such as `OPT/Toolchain/bin/x` is also selected by the prefix `/opt/toolchain`, and it lands outside the archived member.
- The root's `prefix` option is assumed to be declared. Both scripts read it before anything else, and Conan raises when it is missing; the model takes it as a string.
- Paths are compared as strings, and `..` components are never resolved, exactly as neither `lstrip("/")`, `[1:None]` nor `os.path.join` resolves them. A destination that "begins with" a folder is therefore not necessarily inside it. A prefix with a `..` component sends a whole-package copy outside the output folder (NFS) or outside the package directory (RPM). For example, the root prefix `/../../etc` gives the RPM destination `<output>/toolchain-<name>-<version>/../../etc`.
