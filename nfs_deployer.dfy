/**
 * The NFS deployer: merges every deployed dependency into one tree under
 * the output folder. The prefix it strips for a dependency without a
 * `prefix` option is carried over from the last deployed dependency that
 * had one, so the result depends on the iteration order.
 */
module NfsDeployer {

  import opened Paths
  import opened Conan
  import opened Host

  /** Conan's bookkeeping files, left out of a whole-package copy. */
  const ConanFilesExclude: seq<string> := ["conan*.txt"]

  /** Whether a dependency overwrites `my_prefix` when the loop reaches it. */
  predicate SetsPrefix(dep: Dependency) {
    IsDeployed(dep) && dep.prefix.Some?
  }

  /** The value of `my_prefix` once the loop has gone through `deps`. */
  function CarriedPrefix(deps: seq<Dependency>, rootPrefix: string): string {
    if deps == [] then rootPrefix
    else
      var last := deps[|deps| - 1];
      if SetsPrefix(last) then last.prefix.value else CarriedPrefix(deps[..|deps| - 1], rootPrefix)
  }

  /**
   * What one iteration asks for, given `my_prefix` as it was before it: a
   * dependency with its own prefix has the subtree below that prefix (first
   * character dropped) merged straight into the output folder; one without
   * is copied whole below the carried prefix (first character dropped),
   * without Conan's bookkeeping files.
   */
  function StepActions(dep: Dependency, myPrefix: string, outputFolder: string): seq<Action> {
    if !IsDeployed(dep) then []
    else match dep.prefix
      case Some(p) => [CopyFiles(dep.packageFolder.value, outputFolder, DropFirst(p) + "/*", [])]
      case None => [CopyFiles(dep.packageFolder.value, Join(outputFolder, DropFirst(myPrefix)), "*", ConanFilesExclude)]
  }

  /** What the loop asks for, iteration after iteration. */
  function Plan(deps: seq<Dependency>, outputFolder: string, rootPrefix: string): seq<Action> {
    if deps == [] then []
    else
      var init := deps[..|deps| - 1];
      Plan(init, outputFolder, rootPrefix) + StepActions(deps[|deps| - 1], CarriedPrefix(init, rootPrefix), outputFolder)
  }

  lemma PlanSnoc(deps: seq<Dependency>, i: nat, outputFolder: string, rootPrefix: string)
    requires i < |deps|
    ensures Plan(deps[..i + 1], outputFolder, rootPrefix)
         == Plan(deps[..i], outputFolder, rootPrefix)
            + StepActions(deps[i], CarriedPrefix(deps[..i], rootPrefix), outputFolder)
    ensures CarriedPrefix(deps[..i + 1], rootPrefix)
         == if SetsPrefix(deps[i]) then deps[i].prefix.value else CarriedPrefix(deps[..i], rootPrefix)
  {
    assert deps[..i + 1][..i] == deps[..i];
  }

  /**
   * The body of the loop for a dependency that has a package folder;
   * returns the new `my_prefix`.
   */
  method CopyOne(host: Process, dep: Dependency, myPrefix: string, outputFolder: string) returns (newPrefix: string)
    requires IsDeployed(dep)
    modifies host
    ensures newPrefix == if dep.prefix.Some? then dep.prefix.value else myPrefix
    ensures host.environ == old(host.environ)
    ensures host.actions == old(host.actions) + StepActions(dep, myPrefix, outputFolder)
  {
    newPrefix := myPrefix;
    if dep.prefix.Some? {
      newPrefix := dep.prefix.value;
      var strippedPrefix := DropFirst(newPrefix);
      host.Copy(dep.packageFolder.value, outputFolder, strippedPrefix + "/*", []);
    } else {
      var strippedPrefix := DropFirst(newPrefix);
      host.Copy(dep.packageFolder.value, Join(outputFolder, strippedPrefix), "*", ConanFilesExclude);
    }
  }

  /**
   * `deploy(graph, output_folder)`: `rootPrefix` is the root's `prefix`
   * option and `deps` the root's dependencies in iteration order.
   */
  method Deploy(host: Process, deps: seq<Dependency>, outputFolder: string, rootPrefix: string)
    modifies host
    ensures host.environ == old(host.environ)
    ensures host.actions == old(host.actions) + Plan(deps, outputFolder, rootPrefix)
  {
    ghost var env, start := host.environ, host.actions;
    var myPrefix := rootPrefix;
    var i := 0;
    while i < |deps|
      invariant 0 <= i <= |deps|
      invariant myPrefix == CarriedPrefix(deps[..i], rootPrefix)
      invariant host.environ == env
      invariant host.actions == start + Plan(deps[..i], outputFolder, rootPrefix)
    {
      var dep := deps[i];
      ghost var done := Plan(deps[..i], outputFolder, rootPrefix);
      ghost var step := StepActions(dep, myPrefix, outputFolder);
      ghost var carried := if SetsPrefix(dep) then dep.prefix.value else myPrefix;
      assert Plan(deps[..i + 1], outputFolder, rootPrefix) == done + step
          && CarriedPrefix(deps[..i + 1], rootPrefix) == carried by {
        PlanSnoc(deps, i, outputFolder, rootPrefix);
      }
      if dep.packageFolder.Some? {
        myPrefix := CopyOne(host, dep, myPrefix, outputFolder);
        LogAppend(start, done, step);
      } else {
        assert step == [];
        LogAppend(start, done, step);
      }
      i := i + 1;
    }
    assert deps[..|deps|] == deps;
  }

  // ---------------------------------------------------------------------
  // Properties of the plan
  // ---------------------------------------------------------------------

  /** No dependency after position `j` overwrites `my_prefix`. */
  predicate NoneSetsPrefixAfter(deps: seq<Dependency>, j: int) {
    forall l :: j < l < |deps| && 0 <= l ==> !SetsPrefix(deps[l])
  }

  /** With no dependency that has a `prefix` option, `my_prefix` stays the root's. */
  lemma {:induction false} CarriedPrefixWithoutSetter(deps: seq<Dependency>, rootPrefix: string)
    requires NoneSetsPrefixAfter(deps, -1)
    ensures CarriedPrefix(deps, rootPrefix) == rootPrefix
  {
    if deps != [] {
      var init := deps[..|deps| - 1];
      assert NoneSetsPrefixAfter(init, -1) by {
        forall l | 0 <= l < |init| ensures !SetsPrefix(init[l]) {
          assert init[l] == deps[l];
        }
      }
      CarriedPrefixWithoutSetter(init, rootPrefix);
    }
  }

  /**
   * Otherwise `my_prefix` is the prefix of the last deployed dependency
   * that had a `prefix` option.
   */
  lemma {:induction false} CarriedPrefixFromLatestSetter(deps: seq<Dependency>, j: nat, rootPrefix: string)
    requires j < |deps| && SetsPrefix(deps[j]) && NoneSetsPrefixAfter(deps, j)
    ensures CarriedPrefix(deps, rootPrefix) == deps[j].prefix.value
  {
    var last := |deps| - 1;
    if j < last {
      var init := deps[..last];
      assert !SetsPrefix(deps[last]);
      assert init[j] == deps[j];
      assert NoneSetsPrefixAfter(init, j) by {
        forall l | j < l < |init| ensures !SetsPrefix(init[l]) {
          assert init[l] == deps[l];
        }
      }
      CarriedPrefixFromLatestSetter(init, j, rootPrefix);
    }
  }

  /** A skipped dependency, or one without a `prefix` option, leaves `my_prefix` alone. */
  lemma CarriedPrefixKept(deps: seq<Dependency>, dep: Dependency, rootPrefix: string)
    requires !SetsPrefix(dep)
    ensures CarriedPrefix(deps + [dep], rootPrefix) == CarriedPrefix(deps, rootPrefix)
  {
    assert (deps + [dep])[..|deps|] == deps;
  }

  /** Running the loop over two lists in turn carries `my_prefix` from the first into the second. */
  lemma {:induction false} CarriedPrefixAppend(xs: seq<Dependency>, ys: seq<Dependency>, rootPrefix: string)
    ensures CarriedPrefix(xs + ys, rootPrefix) == CarriedPrefix(ys, CarriedPrefix(xs, rootPrefix))
  {
    if ys == [] {
      assert xs + ys == xs;
    } else {
      var init := ys[..|ys| - 1];
      CarriedPrefixAppend(xs, init, rootPrefix);
      assert (xs + ys)[..|xs + ys| - 1] == xs + init;
    }
  }

  lemma {:induction false} PlanAppend(xs: seq<Dependency>, ys: seq<Dependency>, outputFolder: string, rootPrefix: string)
    ensures Plan(xs + ys, outputFolder, rootPrefix)
         == Plan(xs, outputFolder, rootPrefix) + Plan(ys, outputFolder, CarriedPrefix(xs, rootPrefix))
  {
    if ys == [] {
      assert xs + ys == xs;
    } else {
      var init, last := ys[..|ys| - 1], ys[|ys| - 1];
      var carried := CarriedPrefix(xs, rootPrefix);
      var step := StepActions(last, CarriedPrefix(init, carried), outputFolder);
      calc {
        Plan(xs + ys, outputFolder, rootPrefix);
        { assert (xs + ys)[..|xs + ys| - 1] == xs + init;
          assert (xs + ys)[|xs + ys| - 1] == last; }
        Plan(xs + init, outputFolder, rootPrefix) + StepActions(last, CarriedPrefix(xs + init, rootPrefix), outputFolder);
        { PlanAppend(xs, init, outputFolder, rootPrefix);
          CarriedPrefixAppend(xs, init, rootPrefix); }
        Plan(xs, outputFolder, rootPrefix) + Plan(init, outputFolder, carried) + step;
        { LogAppend(Plan(xs, outputFolder, rootPrefix), Plan(init, outputFolder, carried), step); }
        Plan(xs, outputFolder, rootPrefix) + (Plan(init, outputFolder, carried) + step);
        Plan(xs, outputFolder, rootPrefix) + Plan(ys, outputFolder, carried);
      }
    }
  }

  /**
   * A dependency without a package folder changes nothing: dropping it
   * leaves both the copies and `my_prefix` as they were.
   */
  lemma SkippedDependencyChangesNothing(deps: seq<Dependency>, i: nat, outputFolder: string, rootPrefix: string)
    requires i < |deps| && !IsDeployed(deps[i])
    ensures Plan(deps, outputFolder, rootPrefix) == Plan(deps[..i] + deps[i + 1..], outputFolder, rootPrefix)
    ensures CarriedPrefix(deps, rootPrefix) == CarriedPrefix(deps[..i] + deps[i + 1..], rootPrefix)
  {
    var a, d, b := deps[..i], [deps[i]], deps[i + 1..];
    assert deps == (a + d) + b;
    var carried := CarriedPrefix(a, rootPrefix);
    assert CarriedPrefix(a + d, rootPrefix) == carried by {
      CarriedPrefixKept(a, deps[i], rootPrefix);
    }
    assert Plan(a + d, outputFolder, rootPrefix) == Plan(a, outputFolder, rootPrefix) by {
      assert (a + d)[..|a|] == a;
      assert Plan(a + d, outputFolder, rootPrefix) == Plan(a, outputFolder, rootPrefix) + [];
    }
    PlanAppend(a + d, b, outputFolder, rootPrefix);
    PlanAppend(a, b, outputFolder, rootPrefix);
    CarriedPrefixAppend(a + d, b, rootPrefix);
    CarriedPrefixAppend(a, b, rootPrefix);
  }

  /**
   * The loop emits exactly one copy per deployed dependency, in dependency
   * order, each made with `my_prefix` as the dependencies before it left it.
   */
  lemma {:induction false} PlanInOrder(deps: seq<Dependency>, outputFolder: string, rootPrefix: string)
    ensures |Plan(deps, outputFolder, rootPrefix)| == |Deployed(deps)|
    ensures forall k :: 0 <= k < |Deployed(deps)| ==>
      [Plan(deps, outputFolder, rootPrefix)[k]]
        == StepActions(deps[Deployed(deps)[k]], CarriedPrefix(deps[..Deployed(deps)[k]], rootPrefix), outputFolder)
  {
    if deps != [] {
      var last := |deps| - 1;
      var init := deps[..last];
      PlanInOrder(init, outputFolder, rootPrefix);
      var before := Plan(init, outputFolder, rootPrefix);
      var step := StepActions(deps[last], CarriedPrefix(init, rootPrefix), outputFolder);
      var all := Plan(deps, outputFolder, rootPrefix);
      var positions := Deployed(deps);
      assert all == before + step;
      assert |step| == if IsDeployed(deps[last]) then 1 else 0;
      assert positions == Deployed(init) + (if IsDeployed(deps[last]) then [last] else []);
      forall k | 0 <= k < |positions|
        ensures [all[k]] == StepActions(deps[positions[k]], CarriedPrefix(deps[..positions[k]], rootPrefix), outputFolder)
      {
        if k < |Deployed(init)| {
          var j := Deployed(init)[k];
          assert all[k] == before[k];
          assert deps[positions[k]] == init[j] && deps[..positions[k]] == init[..j] by {
            assert positions[k] == j && j < |init|;
          }
        } else {
          assert positions[k] == last;
          assert [all[k]] == step;
        }
      }
    }
  }

  /** Where `my_prefix` can come from: the root's prefix or some dependency's own. */
  predicate IsKnownPrefix(q: string, deps: seq<Dependency>, rootPrefix: string) {
    q == rootPrefix || exists j :: 0 <= j < |deps| && deps[j].prefix == Some(q)
  }

  lemma {:induction false} CarriedPrefixIsKnown(deps: seq<Dependency>, rootPrefix: string)
    ensures IsKnownPrefix(CarriedPrefix(deps, rootPrefix), deps, rootPrefix)
  {
    if deps != [] {
      var last := |deps| - 1;
      var init := deps[..last];
      if !SetsPrefix(deps[last]) {
        CarriedPrefixIsKnown(init, rootPrefix);
        if CarriedPrefix(init, rootPrefix) != rootPrefix {
          var j :| 0 <= j < |init| && init[j].prefix == Some(CarriedPrefix(init, rootPrefix));
          assert deps[j] == init[j];
        }
      }
    }
  }

  /**
   * Every action is a copy, and every copy goes either straight into the
   * output folder (a dependency's own prefixed subtree, no excludes) or
   * into `output/<prefix minus its first character>` for the root's or some
   * dependency's prefix (a whole package, without Conan's files). No
   * destination names a package.
   */
  lemma {:induction false} CopyTargets(deps: seq<Dependency>, outputFolder: string, rootPrefix: string)
    ensures forall a :: a in Plan(deps, outputFolder, rootPrefix) ==>
      && a.CopyFiles?
      && (|| (a.dst == outputFolder && a.excludes == [])
          || (&& a.pattern == "*" && a.excludes == ["conan*.txt"]
              && exists q :: IsKnownPrefix(q, deps, rootPrefix) && a.dst == Join(outputFolder, DropFirst(q))))
  {
    if deps != [] {
      var last := |deps| - 1;
      var init := deps[..last];
      CopyTargets(init, outputFolder, rootPrefix);
      CarriedPrefixIsKnown(init, rootPrefix);
      var carried := CarriedPrefix(init, rootPrefix);
      assert IsKnownPrefix(carried, deps, rootPrefix) by {
        if carried != rootPrefix {
          var j :| 0 <= j < |init| && init[j].prefix == Some(carried);
          assert deps[j] == init[j];
        }
      }
      forall q | IsKnownPrefix(q, init, rootPrefix) ensures IsKnownPrefix(q, deps, rootPrefix) {
        if q != rootPrefix {
          var j :| 0 <= j < |init| && init[j].prefix == Some(q);
          assert deps[j] == init[j];
        }
      }
    }
  }

  /** Two dependency lists that differ only in names and versions. */
  predicate SameButNames(xs: seq<Dependency>, ys: seq<Dependency>) {
    |xs| == |ys| &&
    forall i :: 0 <= i < |xs| ==> xs[i].packageFolder == ys[i].packageFolder && xs[i].prefix == ys[i].prefix
  }

  /** Names and versions never reach the plan: the merged tree has no per-package directory. */
  lemma {:induction false} PlanIgnoresNames(xs: seq<Dependency>, ys: seq<Dependency>, outputFolder: string,
                                            rootPrefix: string)
    requires SameButNames(xs, ys)
    ensures Plan(xs, outputFolder, rootPrefix) == Plan(ys, outputFolder, rootPrefix)
    ensures CarriedPrefix(xs, rootPrefix) == CarriedPrefix(ys, rootPrefix)
  {
    if xs != [] {
      var last := |xs| - 1;
      assert SameButNames(xs[..last], ys[..last]) by {
        forall i | 0 <= i < last ensures xs[..last][i] == xs[i] && ys[..last][i] == ys[i] { }
      }
      PlanIgnoresNames(xs[..last], ys[..last], outputFolder, rootPrefix);
    }
  }

  /**
   * A copy of a whole package goes below the output folder, into
   * `<output>/<carried prefix minus its first character>`, unless the
   * carried prefix's second character is a separator (`//opt`, `./opt`,
   * `~/opt`): then the destination is absolute and the output folder is
   * discarded.
   */
  lemma {:induction false} WholeCopyDestination(dep: Dependency, myPrefix: string, outputFolder: string)
    requires IsDeployed(dep) && dep.prefix.None?
    ensures var a := StepActions(dep, myPrefix, outputFolder)[0];
      && a.src == dep.packageFolder.value
      && (!IsAbsolute(DropFirst(myPrefix)) ==>
            |outputFolder| <= |a.dst| && a.dst[..|outputFolder|] == outputFolder
            && a.dst[|a.dst| - |DropFirst(myPrefix)|..] == DropFirst(myPrefix))
      && (|myPrefix| >= 2 && myPrefix[1] == '/' ==> a.dst == myPrefix[1..])
  {
    JoinKeepsComponents(outputFolder, DropFirst(myPrefix));
    if |myPrefix| >= 2 {
      assert DropFirst(myPrefix)[0] == myPrefix[1];
    }
  }

  /**
   * The tree is merged: a file below a dependency's own prefix lands in
   * `<output>/<prefix minus its first character>`, under what follows the
   * prefix, which is where the next whole-package copy goes while that
   * prefix is the one carried.
   */
  lemma {:induction false} PrefixedFilesMerge(deps: seq<Dependency>, i: nat, outputFolder: string, rootPrefix: string,
                                              r: string)
    requires i < |deps| && SetsPrefix(deps[i])
    requires !IsAbsolute(DropFirst(deps[i].prefix.value))
    requires IsRelativeFile(r) && Matches(DropFirst(deps[i].prefix.value) + "/*", r)
    ensures var np := DropFirst(deps[i].prefix.value);
      var a := StepActions(deps[i], CarriedPrefix(deps[..i], rootPrefix), outputFolder)[0];
      && a.pattern == np + "/*"
      && Landing(a.dst, r) == Join(Join(outputFolder, np), r[|np| + 1..])
      && (i + 1 < |deps| && IsDeployed(deps[i + 1]) && deps[i + 1].prefix.None? ==>
            StepActions(deps[i + 1], CarriedPrefix(deps[..i + 1], rootPrefix), outputFolder)[0].dst
              == Join(outputFolder, np))
  {
    var np := DropFirst(deps[i].prefix.value);
    SubtreeLanding(outputFolder, np, r);
    if i + 1 < |deps| {
      PlanSnoc(deps, i, outputFolder, rootPrefix);
    }
  }
}
