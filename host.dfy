/**
 * The process a deployer runs in: its environment (`os.environ`) and the
 * log of effects it asks for. Conan's `copy` and `mkdir` and the child
 * processes started by `subprocess.run` are not executed here; each call
 * appends one abstract action, a child process together with the
 * environment it inherits.
 */
module Host {

  import opened Paths

  datatype Action =
    | MakeDirectory(path: string)
    | CopyFiles(src: string, dst: string, pattern: string, excludes: seq<string>)
    | RunProcess(argv: seq<string>, env: map<string, string>)

  /**
   * A path relative to a package folder as Conan's `copy` walks it: not
   * absolute and without empty components.
   */
  predicate IsRelativeFile(r: string) {
    !IsAbsolute(r) && forall i :: 0 <= i < |r| - 1 ==> !(r[i] == '/' && r[i + 1] == '/')
  }

  /**
   * Whether a copy pattern selects a relative path, for the two pattern
   * shapes the deployers use: a lone star selects everything; a directory,
   * a separator and a star select everything below that directory (a glob
   * star also matches separators).
   */
  predicate Matches(pattern: string, r: string) {
    pattern == "*" ||
    (|pattern| >= 2 && pattern[|pattern| - 2..] == "/*" &&
     |r| >= |pattern| - 1 && r[..|pattern| - 1] == pattern[..|pattern| - 1])
  }

  /** Where a copy puts a selected file: its relative path, below the destination. */
  function Landing(dst: string, r: string): string {
    Join(dst, r)
  }

  /** A relative file path never has two separators in a row. */
  lemma SeparatorNotDoubled(r: string, i: nat)
    requires IsRelativeFile(r) && i + 1 < |r|
    ensures r[i] == '/' ==> r[i + 1] != '/'
  {
  }

  /**
   * A file selected by a pattern naming a directory `np` (all below it)
   * and copied into `x` lands inside the directory `x/np`, under what
   * follows `np` and its separator.
   */
  lemma {:induction false} SubtreeLanding(x: string, np: string, r: string)
    requires !IsAbsolute(np) && IsRelativeFile(r) && Matches(np + "/*", r)
    ensures |np| < |r| && r[..|np| + 1] == np + "/"
    ensures Join(x, r) == Join(Join(x, np), r[|np| + 1..])
  {
    var pattern := np + "/*";
    assert pattern != "*" && pattern[..|pattern| - 1] == np + "/";
    assert r[..|np| + 1] == np + "/";
    assert r[|np|] == '/';
    assert np != [];
    assert r[|np| - 1] == np[|np| - 1];
    SeparatorNotDoubled(r, |np| - 1);
    var rest := r[|np| + 1..];
    assert r == np + "/" + rest;
    if |r| > |np| + 1 {
      SeparatorNotDoubled(r, |np|);
      assert rest[0] == r[|np| + 1];
    }
    var staged := x + Separator(x) + np;
    assert Join(x, np) == staged by {
      JoinRelative(x, np);
    }
    assert Separator(staged) == "/" by {
      assert staged[|staged| - 1] == np[|np| - 1];
    }
    calc {
      Join(x, r);
      { JoinRelative(x, r); }
      x + Separator(x) + r;
      staged + "/" + rest;
      { JoinRelative(staged, rest); }
      Join(staged, rest);
    }
  }

  /** Appending to a log in two steps is appending once. */
  lemma LogAppend(start: seq<Action>, done: seq<Action>, step: seq<Action>)
    ensures start + done + step == start + (done + step)
    ensures step == [] ==> start + (done + step) == start + done
  {
  }

  class Process {
    var environ: map<string, string>
    var actions: seq<Action>

    constructor (environ: map<string, string>)
      ensures this.environ == environ && actions == []
    {
      this.environ := environ;
      actions := [];
    }

    /** `os.environ[key] = value`. */
    method SetEnv(key: string, value: string)
      modifies this
      ensures environ == old(environ)[key := value]
      ensures actions == old(actions)
    {
      environ := environ[key := value];
    }

    /** Conan's `mkdir(conanfile, path)`. */
    method Mkdir(path: string)
      modifies this
      ensures actions == old(actions) + [MakeDirectory(path)]
      ensures environ == old(environ)
    {
      actions := actions + [MakeDirectory(path)];
    }

    /** Conan's `copy(conanfile, pattern, src, dst, excludes)`. */
    method Copy(src: string, dst: string, pattern: string, excludes: seq<string>)
      modifies this
      ensures actions == old(actions) + [CopyFiles(src, dst, pattern, excludes)]
      ensures environ == old(environ)
    {
      actions := actions + [CopyFiles(src, dst, pattern, excludes)];
    }

    /** `subprocess.run(argv)`: the child inherits the current environment. */
    method Run(argv: seq<string>)
      modifies this
      ensures actions == old(actions) + [RunProcess(argv, old(environ))]
      ensures environ == old(environ)
    {
      actions := actions + [RunProcess(argv, environ)];
    }
  }
}
