/** The build script's `main`: fetch the submodules, resolve and check
    qmake, compute the dependency folder, then run the three stages. */
module Build {
  import opened Text
  import opened Process

  // ---------------------------------------------------------------------
  // QMAKE_PATH resolution

  /** The name of the setting that locates the qmake binary. */
  const QmakeVariable := "QMAKE_PATH"

  /** The reason `main` fails with when neither source names qmake. */
  const QmakeUndefined :=
    "\"" + QmakeVariable + "\" was not defined. Please define the variable to point to the \"qmake\" binary"

  /** Each source is normalised so that an empty value counts as absent. */
  function NonEmpty(v: Option<string>): (r: Option<string>)
    ensures r.Some? <==> v.Some? && v.value != ""
    ensures r.Some? ==> r == v
  {
    match v
    case Some(path) => if path == "" then None else Some(path)
    case None => None
  }

  /** The qmake path `main` settles on: the value read at run time (after
      the `.env` file is loaded) overrides the one fixed at compile time,
      and an empty value from either source is ignored. */
  function QmakePath(compileTime: Option<string>, runtime: Option<string>): (r: Option<string>)
    ensures r.Some? <==> (compileTime.Some? && compileTime.value != "") || (runtime.Some? && runtime.value != "")
    ensures r.Some? ==> r.value != ""
    ensures runtime.Some? && runtime.value != "" ==> r == runtime
    ensures (runtime.None? || runtime.value == "") && compileTime.Some? && compileTime.value != "" ==> r == compileTime
  {
    NonEmpty(runtime).Or(NonEmpty(compileTime))
  }

  /** An empty value in either source resolves exactly as an absent one. */
  lemma EmptyIsAbsent(compileTime: Option<string>, runtime: Option<string>)
    ensures QmakePath(Some(""), runtime) == QmakePath(None, runtime)
    ensures QmakePath(compileTime, Some("")) == QmakePath(compileTime, None)
  {
  }

  /** The failure reason names the missing setting. */
  lemma QmakeUndefinedNamesVariable()
    ensures Contains(QmakeUndefined, QmakeVariable)
  {
    ContainsMiddle("\"", QmakeVariable,
      "\" was not defined. Please define the variable to point to the \"qmake\" binary");
  }

  // ---------------------------------------------------------------------
  // The dependency folder

  /** A POSIX `PathBuf::join` of a relative name: a separator is put in
      unless `base` is empty or already ends with one. */
  predicate NeedsSeparator(base: string) {
    base != "" && base[|base| - 1] != '/'
  }

  function Join(base: string, name: string): (r: string)
    ensures |r| == |base| + (if NeedsSeparator(base) then 1 else 0) + |name|
    ensures r[..|base|] == base
    ensures r[|r| - |name|..] == name
    ensures NeedsSeparator(base) ==> r[|base|] == '/'
  {
    if NeedsSeparator(base) then base + "/" + name else base + name
  }

  // ---------------------------------------------------------------------
  // The run

  const GitArgs: seq<string> := ["submodule", "update", "--init", "--recursive"]

  /** The first command `main` issues, unconditionally. */
  const GitSubmoduleUpdate := Invocation("git", GitArgs)

  /** The check that the resolved qmake answers a version query. */
  function QmakeVersion(path: string): Invocation {
    Invocation(path, ["--version"])
  }

  /** How a run of `main` ends: it returns after the stages, having
      computed the dependency folder, or it panics with a message. */
  datatype Exit = Finished(depsFolder: string) | Aborted(message: string)

  /** The spawns a run attempts, in order, and how it ends. */
  datatype Trace = Trace(issued: seq<Invocation>, exit: Exit)

  /** What `main` does, given the two QMAKE_PATH sources, the manifest
      directory and the host's answer to every spawn. */
  function Pipeline(compileTime: Option<string>, runtime: Option<string>, manifestDir: string,
                    oracle: Invocation -> SpawnResult): (t: Trace)
    ensures 1 <= |t.issued| <= 2 && t.issued[0] == GitSubmoduleUpdate
    ensures forall i :: 0 <= i < |t.issued| - 1 ==> Succeeded(oracle(t.issued[i]))
    ensures |t.issued| == 2 <==> Succeeded(oracle(GitSubmoduleUpdate)) && QmakePath(compileTime, runtime).Some?
    ensures |t.issued| == 2 ==> t.issued[1].program == QmakePath(compileTime, runtime).value
                                && t.issued[1].args == ["--version"]
    ensures t.exit.Finished? <==> |t.issued| == 2 && forall i :: 0 <= i < |t.issued| ==> Succeeded(oracle(t.issued[i]))
    ensures t.exit.Finished? ==> t.exit.depsFolder == Join(manifestDir, "deps")
    ensures t.exit.Aborted? ==> exists reason :: t.exit.message == Fail(reason).message
  {
    var git := Classify("git", oracle(GitSubmoduleUpdate));
    if git.Panicked? then
      Trace([GitSubmoduleUpdate], Aborted(git.message))
    else
      match QmakePath(compileTime, runtime)
      case None =>
        Trace([GitSubmoduleUpdate], Aborted(Fail(QmakeUndefined).message))
      case Some(path) =>
        var qmake := Classify("qmake", oracle(QmakeVersion(path)));
        if qmake.Panicked? then
          Trace([GitSubmoduleUpdate, QmakeVersion(path)], Aborted(qmake.message))
        else
          Trace([GitSubmoduleUpdate, QmakeVersion(path)], Finished(Join(manifestDir, "deps")))
  }

  /** A failed submodule update ends the run at once with run's report. */
  lemma GitFailureStopsRun(compileTime: Option<string>, runtime: Option<string>, manifestDir: string,
                           oracle: Invocation -> SpawnResult)
    requires !Succeeded(oracle(GitSubmoduleUpdate))
    ensures Pipeline(compileTime, runtime, manifestDir, oracle)
         == Trace([GitSubmoduleUpdate], Aborted(Classify("git", oracle(GitSubmoduleUpdate)).message))
  {
  }

  /** A qmake check that does not succeed ends the run with run's report
      for `qmake`, after exactly the two spawns. */
  lemma QmakeCheckFailureIsRunsReport(compileTime: Option<string>, runtime: Option<string>, manifestDir: string,
                                      oracle: Invocation -> SpawnResult, path: string)
    requires Succeeded(oracle(GitSubmoduleUpdate))
    requires QmakePath(compileTime, runtime) == Some(path)
    requires !Succeeded(oracle(QmakeVersion(path)))
    ensures Pipeline(compileTime, runtime, manifestDir, oracle)
         == Trace([GitSubmoduleUpdate, QmakeVersion(path)],
                  Aborted(Classify("qmake", oracle(QmakeVersion(path))).message))
  {
  }

  /** With no usable QMAKE_PATH the run stops after the submodule update,
      never runs qmake, and its message names the setting. */
  lemma MissingQmakePathStopsRun(compileTime: Option<string>, runtime: Option<string>, manifestDir: string,
                                 oracle: Invocation -> SpawnResult)
    requires Succeeded(oracle(GitSubmoduleUpdate))
    requires compileTime.None? || compileTime.value == ""
    requires runtime.None? || runtime.value == ""
    ensures Pipeline(compileTime, runtime, manifestDir, oracle).issued == [GitSubmoduleUpdate]
    ensures Pipeline(compileTime, runtime, manifestDir, oracle).exit.Aborted?
    ensures Contains(Pipeline(compileTime, runtime, manifestDir, oracle).exit.message, QmakeVariable)
  {
    QmakeUndefinedNamesVariable();
    ContainsTrans(Fail(QmakeUndefined).message, QmakeUndefined, QmakeVariable);
  }

  /** A qmake that cannot be found ends the run with the not-installed hint
      for `qmake`, after exactly the two spawns. */
  lemma QmakeNotFoundStopsRun(compileTime: Option<string>, runtime: Option<string>, manifestDir: string,
                              oracle: Invocation -> SpawnResult, path: string, e: string)
    requires Succeeded(oracle(GitSubmoduleUpdate))
    requires QmakePath(compileTime, runtime) == Some(path)
    requires oracle(QmakeVersion(path)) == SpawnError(NotFound, e)
    ensures Pipeline(compileTime, runtime, manifestDir, oracle).issued == [GitSubmoduleUpdate, QmakeVersion(path)]
    ensures Pipeline(compileTime, runtime, manifestDir, oracle).exit.Aborted?
    ensures Contains(Pipeline(compileTime, runtime, manifestDir, oracle).exit.message, "qmake")
    ensures Contains(Pipeline(compileTime, runtime, manifestDir, oracle).exit.message, NotInstalled)
  {
    NotFoundNamesProgram("qmake", e);
  }

  // ---------------------------------------------------------------------
  // The stages, whose bodies are empty in this version of the script

  /** Stage that would link deps/llvm/tools/clang to deps/clang: no effect. */
  method AddClangLink(host: Host, depsFolder: string)
    ensures host.issued == old(host.issued)
  {
  }

  /** Stage that would build the clang toolchain: no effect. */
  method CompileClang(host: Host, depsFolder: string)
    ensures host.issued == old(host.issued)
  {
  }

  /** Stage that would build Qt Creator: no effect. */
  method CompileQtcreator(host: Host, depsFolder: string)
    ensures host.issued == old(host.issued)
  {
  }

  /** `main`, step by step: every failure returns at once, so nothing is
      spawned after it. What it spawns and how it ends is `Pipeline`. */
  method BuildScript(host: Host, compileTimeQmake: Option<string>, runtimeQmake: Option<string>,
                     manifestDir: string) returns (exit: Exit)
    modifies host
    ensures host.issued == old(host.issued) + Pipeline(compileTimeQmake, runtimeQmake, manifestDir, host.oracle).issued
    ensures exit == Pipeline(compileTimeQmake, runtimeQmake, manifestDir, host.oracle).exit
  {
    var gitSubmoduleUpdate := new Command("git");
    gitSubmoduleUpdate.Args(["submodule", "update", "--init", "--recursive"]);
    assert gitSubmoduleUpdate.ToInvocation() == GitSubmoduleUpdate by {
      assert [] + GitArgs == GitArgs;
    }
    var o := Run(host, gitSubmoduleUpdate, "git");
    if o.Panicked? {
      return Aborted(o.message);
    }

    var qmakePath: string;
    match QmakePath(compileTimeQmake, runtimeQmake) {
      case Some(path) =>
        qmakePath := path;
      case None =>
        var f := Fail(QmakeUndefined);
        return Aborted(f.message);
    }

    var assertQmake := new Command(qmakePath);
    assertQmake.Arg("--version");
    assert assertQmake.ToInvocation() == QmakeVersion(qmakePath);
    o := Run(host, assertQmake, "qmake");
    if o.Panicked? {
      return Aborted(o.message);
    }

    var depsFolder := Join(manifestDir, "deps");
    AddClangLink(host, depsFolder);
    CompileClang(host, depsFolder);
    CompileQtcreator(host, depsFolder);
    return Finished(depsFolder);
  }
}
