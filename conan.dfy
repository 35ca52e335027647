/**
 * What a deployer sees of the Conan dependency graph: the root's
 * dependencies, in the order `conanfile.dependencies.items()` yields them.
 */
module Conan {

  datatype Option<+T> = None | Some(value: T)

  /**
   * One dependency of the root: its reference's name and version, its
   * package folder (`None` when Conan has not materialised one), and its
   * `prefix` option (`None` when the option is not declared).
   */
  datatype Dependency = Dependency(
    name: string,
    version: string,
    packageFolder: Option<string>,
    prefix: Option<string>)

  /** A deployer skips a dependency exactly when it has no package folder. */
  predicate IsDeployed(dep: Dependency) {
    dep.packageFolder.Some?
  }

  /**
   * The positions, in iteration order, of the dependencies a deployer does
   * not skip: every one is deployed (`DeployedAscending`: they come in
   * iteration order; `DeployedComplete`: every deployed position is present).
   */
  function Deployed(deps: seq<Dependency>): (r: seq<nat>)
    ensures forall k :: 0 <= k < |r| ==> r[k] < |deps| && IsDeployed(deps[r[k]])
  {
    if deps == [] then []
    else
      var last := |deps| - 1;
      Deployed(deps[..last]) + (if IsDeployed(deps[last]) then [last] else [])
  }

  /** `Deployed` lists positions in iteration order. */
  lemma {:induction false} DeployedAscending(deps: seq<Dependency>)
    ensures forall k, l :: 0 <= k < l < |Deployed(deps)| ==> Deployed(deps)[k] < Deployed(deps)[l]
  {
    if deps != [] {
      DeployedAscending(deps[..|deps| - 1]);
    }
  }

  /** No deployed dependency is missing from `Deployed`. */
  lemma {:induction false} DeployedComplete(deps: seq<Dependency>, i: nat)
    requires i < |deps| && IsDeployed(deps[i])
    ensures i in Deployed(deps)
  {
    var last := |deps| - 1;
    if i < last {
      DeployedComplete(deps[..last], i);
    }
  }
}
