/** What each stage of a build does, as a function of the builder's configuration.

    A `Config` is the value of a `BpfBuilder`'s fields. Each stage is a plan of
    external steps (`Effects.Step`); the build as a whole is `BuildEffect`. The
    imperative stages in module `Builder` are proved to perform exactly these. */
module Stages {
  import opened Effects
  import opened Flags
  import opened Artifacts
  import opened Lexicographic
  import opened Glob

  /** The fields of a `BpfBuilder`. `intf` is the (input header, output file)
      pair given to `enable_intf`, `skel` the (input source, skeleton name) pair
      given to `enable_skel`. */
  datatype Config = Config(
    clang: ClangInfo,
    cflags: seq<string>,
    outDir: string,
    sources: set<string>,
    intf: Option<(string, string)>,
    skel: Option<(string, string)>)

  /** The configuration `new` starts from: no sources and both features disabled. */
  function Initial(clang: ClangInfo, cflags: seq<string>, outDir: string): (c: Config)
    ensures c.sources == {} && c.intf.None? && c.skel.None?
    ensures c.clang == clang && c.cflags == cflags && c.outDir == outDir
  {
    Config(clang, cflags, outDir, {}, None, None)
  }

  // ---------------------------------------------------------------- bindings

  /** `bindgen_bpf_intf`: one bindgen run over the input header, with the
      compilation flags plus the BPF target, written to `out_dir/output`. */
  function IntfPlan(c: Config): seq<Step> {
    match c.intf
    case None => []
    case Some((input, output)) => [Bindgen(BindgenArgs(c.cflags), input, Join(c.outDir, output))]
  }

  /** `input_insert_deps`: the dependency the interface header contributes. */
  function IntfDeps(c: Config): set<string> {
    match c.intf
    case None => {}
    case Some((input, _)) => {input}
  }

  // ---------------------------------------------------------------- skeleton

  function WarningLine(diagnostic: string): string {
    "cargo:warning=" + diagnostic
  }

  function WarningLines(diagnostics: seq<string>): (lines: seq<string>)
    ensures |lines| == |diagnostics|
    ensures forall i :: 0 <= i < |diagnostics| ==> lines[i] == WarningLine(diagnostics[i])
  {
    seq(|diagnostics|, i requires 0 <= i < |diagnostics| => WarningLine(diagnostics[i]))
  }

  /** `gen_bpf_skel`'s generator call: compile the input into `{name}.bpf.o` and
      generate `{name}_skel.rs`, then forward each diagnostic line as a warning. */
  function SkelPlan(c: Config, tools: Tools): seq<Step> {
    match c.skel
    case None => []
    case Some((input, name)) =>
      [SkelBuildAndGenerate(input, ObjPath(c.outDir, name), c.clang.clang, c.cflags, SkelPath(c.outDir, name))]
      + Announce(WarningLines(tools.diagnostics))
  }

  /** `gen_bpf_skel`'s dependency scan: the `*.[hc]` entries of the directory
      holding the skeleton's input; an error when that path has no parent. */
  function SkelDeps(c: Config, fs: Fs): Result<set<string>> {
    match c.skel
    case None => Ok({})
    case Some((input, _)) =>
      match fs.parent(input)
      case None => Err(NoParentDir(input))
      case Some(dir) =>
        var paths := GlobHeaderOrSource(dir, fs.entries(dir));
        Ok(set p | p in paths)
  }

  // ---------------------------------------------------------------- reruns

  /** The lines announcing the environment variables whose change must rerun
      the build script, in the order they are printed. */
  const EnvRerunLines: seq<string> := [
    "cargo:rerun-if-env-changed=BPF_CLANG",
    "cargo:rerun-if-env-changed=BPF_CFLAGS",
    "cargo:rerun-if-env-changed=BPF_BASE_CFLAGS",
    "cargo:rerun-if-env-changed=BPF_EXTRA_CFLAGS_PRE_INCL",
    "cargo:rerun-if-env-changed=BPF_EXTRA_CFLAGS_POST_INCL"]

  function ChangedLine(path: string): string {
    "cargo:rerun-if-changed=" + path
  }

  function ChangedLines(paths: seq<string>): (lines: seq<string>)
    ensures |lines| == |paths|
    ensures forall i :: 0 <= i < |paths| ==> lines[i] == ChangedLine(paths[i])
  {
    seq(|paths|, i requires 0 <= i < |paths| => ChangedLine(paths[i]))
  }

  /** `gen_cargo_reruns`: the tracked variables, then the dependencies (when
      given) in ascending order, then the sources in ascending order. */
  ghost function RerunLines(deps: Option<set<string>>, sources: set<string>): seq<string> {
    EnvRerunLines
    + (match deps case None => [] case Some(d) => ChangedLines(Sorted(d)))
    + ChangedLines(Sorted(sources))
  }

  // ---------------------------------------------------------------- build

  /** The dependencies `build` collects before announcing them, when the scan succeeds. */
  function BuildDeps(c: Config, fs: Fs): set<string>
    requires SkelDeps(c, fs).Ok?
  {
    IntfDeps(c) + SkelDeps(c, fs).value
  }

  /** `gen_bpf_skel`: generate the skeleton, forward its diagnostics, then scan
      the input's directory, which fails when the input has no parent. */
  ghost function SkelEffect(c: Config, tools: Tools, fs: Fs): Effect {
    var skel := Run(SkelPlan(c, tools), tools);
    if skel.outcome.Fail? then skel
    else match SkelDeps(c, fs)
      case Err(e) => Effect(Fail(e), skel.steps)
      case Ok(_) => skel
  }

  /** `build`: record the interface header as a dependency, generate the
      interface bindings, generate the skeleton and scan its directory, then
      announce the rerun conditions; the first failure ends the build. */
  ghost function BuildEffect(c: Config, tools: Tools, fs: Fs): Effect {
    var intf := Run(IntfPlan(c), tools);
    var skel := SkelEffect(c, tools, fs);
    if intf.outcome.Fail? then intf
    else if skel.outcome.Fail? then Effect(skel.outcome, intf.steps + skel.steps)
    else
      assert SkelDeps(c, fs).Ok?;
      Effect(Pass, intf.steps + skel.steps + Announce(RerunLines(Some(BuildDeps(c, fs)), c.sources)))
  }

  // ---------------------------------------------------------------- compile and link

  /** For each source in turn: compile it into `obj`, then hand `obj` to the linker. */
  function SourceSteps(srcs: seq<string>, obj: string, clang: string, cflags: seq<string>): (steps: seq<Step>)
    ensures |steps| == 2 * |srcs|
    decreases |srcs|
  {
    if srcs == [] then []
    else [SkelBuild(srcs[0], obj, clang, cflags), LinkerAddFile(obj, srcs[0])] + SourceSteps(srcs[1..], obj, clang, cflags)
  }

  /** `compile_link_gen`: open a linker on `{name}.bpf.o`, compile and add every
      source in ascending order (all into the one path `SourceObjPath`), link,
      generate the interface bindings, generate the skeleton from the linked
      object, and announce the rerun conditions without dependencies. */
  ghost function LinkPlan(c: Config): seq<Step> {
    match c.skel
    case None => []
    case Some((_, name)) =>
      var linkObj := ObjPath(c.outDir, name);
      LinkSteps(c, name)
      + IntfPlan(c)
      + [SkelGenerate(linkObj, c.clang.clang, c.cflags, SkelPath(c.outDir, name))]
      + Announce(RerunLines(None, c.sources))
  }

  /** The linking part of `compile_link_gen`: open the linker, compile and add
      each source, link. */
  ghost function LinkSteps(c: Config, name: string): seq<Step> {
    [LinkerNew(ObjPath(c.outDir, name))]
    + SourceSteps(Sorted(c.sources), SourceObjPath(c.outDir, name), c.clang.clang, c.cflags)
    + [LinkerLink]
  }

  // ================================================================ lemmas

  /** Unconfigured features are no-ops: without `enable_intf` no bindgen runs and
      no dependency is recorded; without `enable_skel` nothing is compiled,
      linked or generated and nothing is scanned. */
  lemma UnconfiguredStagesAreNoOps(c: Config, tools: Tools, fs: Fs)
    ensures c.intf.None? ==> IntfPlan(c) == [] && IntfDeps(c) == {} && Run(IntfPlan(c), tools) == Effect(Pass, [])
    ensures c.skel.None? ==> SkelPlan(c, tools) == [] && SkelDeps(c, fs) == Ok({})
                             && Run(SkelPlan(c, tools), tools) == Effect(Pass, [])
    ensures c.skel.None? ==> LinkPlan(c) == [] && Run(LinkPlan(c), tools) == Effect(Pass, [])
  {
  }

  /** The active stages use the derived names: bindgen gets the compilation flags
      followed by `-target bpf` and writes `out_dir/output`; the skeleton stage
      writes `out_dir/{name}.bpf.o` and `out_dir/{name}_skel.rs`, then forwards
      each diagnostic line as a warning, in order. */
  lemma ActiveStagesUseDerivedNames(c: Config, tools: Tools)
    ensures c.intf.Some? ==>
              IntfPlan(c) == [Bindgen(c.cflags + ["-target", "bpf"], c.intf.value.0, c.outDir + "/" + c.intf.value.1)]
    ensures c.skel.Some? ==>
              && |SkelPlan(c, tools)| == 1 + |tools.diagnostics|
              && SkelPlan(c, tools)[0] ==
                   SkelBuildAndGenerate(c.skel.value.0, c.outDir + "/" + c.skel.value.1 + ".bpf.o", c.clang.clang,
                                        c.cflags, c.outDir + "/" + c.skel.value.1 + "_skel.rs")
              && SkelPlan(c, tools)[1..] == Announce(WarningLines(tools.diagnostics))
  {
  }

  lemma ChangedLineInjective(p: string, q: string)
    requires ChangedLine(p) == ChangedLine(q)
    ensures p == q
  {
    var prefix := "cargo:rerun-if-changed=";
    assert p == ChangedLine(p)[|prefix|..];
    assert q == ChangedLine(q)[|prefix|..];
  }

  /** A file rerun line is never a variable rerun line or a warning. */
  lemma ChangedLineDistinct(p: string)
    ensures ChangedLine(p) !in EnvRerunLines
    ensures !("cargo:warning=" <= ChangedLine(p))
  {
    assert ChangedLine(p)[15] == 'c';
    assert forall i :: 0 <= i < |EnvRerunLines| ==> EnvRerunLines[i][15] == 'e';
    assert ChangedLine(p)[6] == 'r';
  }

  lemma ChangedLinesMention(paths: seq<string>, p: string)
    ensures ChangedLine(p) in ChangedLines(paths) <==> p in paths
  {
    if ChangedLine(p) in ChangedLines(paths) {
      var i :| 0 <= i < |paths| && ChangedLines(paths)[i] == ChangedLine(p);
      ChangedLineInjective(paths[i], p);
    }
    if p in paths {
      var i :| 0 <= i < |paths| && paths[i] == p;
      assert ChangedLines(paths)[i] == ChangedLine(p);
    }
  }

  /** Rerun output: the five tracked variables come first, in their fixed order;
      then one line per dependency and one per source, so that a file is
      announced exactly when it is a source or a given dependency. */
  lemma {:induction false} RerunLinesAnnounce(deps: Option<set<string>>, sources: set<string>, p: string)
    ensures var lines := RerunLines(deps, sources);
            && |lines| == 5 + (if deps.Some? then |deps.value| else 0) + |sources|
            && lines[..5] == EnvRerunLines
            && (ChangedLine(p) in lines <==> p in sources || (deps.Some? && p in deps.value))
  {
    var env := EnvRerunLines;
    var mid := match deps case None => [] case Some(d) => ChangedLines(Sorted(d));
    var tail := ChangedLines(Sorted(sources));
    var lines := RerunLines(deps, sources);
    assert lines == env + mid + tail;
    assert lines[..5] == env;
    ChangedLineDistinct(p);
    ChangedLinesMention(Sorted(sources), p);
    if deps.Some? {
      ChangedLinesMention(Sorted(deps.value), p);
    }
  }

  /** Dependency set: what `build` collects is the interface header, when one is
      configured, together with exactly the entries of the skeleton input's
      directory whose names end in `.h` or `.c`. */
  lemma BuildDepsExact(c: Config, fs: Fs, p: string)
    requires SkelDeps(c, fs).Ok?
    ensures c.intf.Some? ==> c.intf.value.0 in BuildDeps(c, fs)
    ensures p in BuildDeps(c, fs) <==>
              || (c.intf.Some? && p == c.intf.value.0)
              || (&& c.skel.Some?
                  && var dir := fs.parent(c.skel.value.0).value;
                     exists e :: e in fs.entries(dir) && HasHeaderOrSourceSuffix(e) && p == dir + "/" + e)
  {
    if c.skel.Some? {
      var dir := fs.parent(c.skel.value.0).value;
      forall e | e in fs.entries(dir) ensures IsHeaderOrSource(e) <==> HasHeaderOrSourceSuffix(e) {
        HeaderOrSourceBySuffix(e);
      }
    }
  }

  /** Disabled-path no-op: with neither feature enabled the build runs no tool;
      it succeeds and only announces the tracked variables and the sources. */
  lemma BuildUnconfigured(c: Config, tools: Tools, fs: Fs)
    requires c.intf.None? && c.skel.None?
    ensures BuildEffect(c, tools, fs) == Effect(Pass, Announce(RerunLines(Some({}), c.sources)))
    ensures forall i :: 0 <= i < |BuildEffect(c, tools, fs).steps| ==> BuildEffect(c, tools, fs).steps[i].Cargo?
  {
    assert IntfPlan(c) == [] && SkelPlan(c, tools) == [];
    assert [] + [] + Announce(RerunLines(Some({} + {}), c.sources)) == Announce(RerunLines(Some({}), c.sources));
  }

  /** Stage order: a successful build performs the bindgen stage, then the
      skeleton stage with its warnings, then the rerun announcements, with the
      collected dependencies, and nothing else. */
  lemma BuildStageOrder(c: Config, tools: Tools, fs: Fs)
    requires BuildEffect(c, tools, fs).outcome.Pass?
    ensures SkelDeps(c, fs).Ok?
    ensures BuildEffect(c, tools, fs).steps ==
              IntfPlan(c) + SkelPlan(c, tools) + Announce(RerunLines(Some(BuildDeps(c, fs)), c.sources))
  {
    RunMeaning(IntfPlan(c), tools);
    RunMeaning(SkelPlan(c, tools), tools);
  }

  /** Before the rerun announcements, the stages print nothing but warnings. */
  lemma StagesPrintOnlyWarnings(c: Config, tools: Tools)
    ensures var front := IntfPlan(c) + SkelPlan(c, tools);
            forall i :: 0 <= i < |front| && front[i].Cargo? ==> "cargo:warning=" <= front[i].line
  {
    var front := IntfPlan(c) + SkelPlan(c, tools);
    forall i | 0 <= i < |front| && front[i].Cargo? ensures "cargo:warning=" <= front[i].line {
      var w := i - |IntfPlan(c)| - 1;
      assert 0 <= w < |tools.diagnostics| && front[i] == Cargo(WarningLine(tools.diagnostics[w]));
    }
  }

  lemma AnnouncedAfter(front: seq<Step>, lines: seq<string>, line: string)
    requires Cargo(line) !in front
    ensures Cargo(line) in front + Announce(lines) <==> line in lines
  {
    var steps := front + Announce(lines);
    if line in lines {
      var i :| 0 <= i < |lines| && lines[i] == line;
      assert steps[|front| + i] == Cargo(line);
    }
    if Cargo(line) in steps {
      var i :| 0 <= i < |steps| && steps[i] == Cargo(line);
      if i >= |front| {
        assert Announce(lines)[i - |front|] == Cargo(line);
      }
    }
  }

  /** A successful build announces a file exactly when it is a source or one of
      the collected dependencies. */
  lemma BuildAnnouncesDependencies(c: Config, tools: Tools, fs: Fs, p: string)
    requires BuildEffect(c, tools, fs).outcome.Pass?
    ensures SkelDeps(c, fs).Ok?
    ensures Cargo(ChangedLine(p)) in BuildEffect(c, tools, fs).steps <==> p in c.sources || p in BuildDeps(c, fs)
  {
    BuildStageOrder(c, tools, fs);
    StagesPrintOnlyWarnings(c, tools);
    var front := IntfPlan(c) + SkelPlan(c, tools);
    assert Cargo(ChangedLine(p)) !in front by {
      ChangedLineDistinct(p);
      assert !("cargo:warning=" <= ChangedLine(p));
    }
    var lines := RerunLines(Some(BuildDeps(c, fs)), c.sources);
    AnnouncedAfter(front, lines, ChangedLine(p));
    RerunLinesAnnounce(Some(BuildDeps(c, fs)), c.sources, p);
  }

  /** Fail-fast: a failed build stops at the failing stage and announces no
      rerun condition; the only lines it prints are forwarded warnings. */
  lemma BuildFailureAnnouncesNothing(c: Config, tools: Tools, fs: Fs)
    requires BuildEffect(c, tools, fs).outcome.Fail?
    ensures var steps := BuildEffect(c, tools, fs).steps;
            forall i :: 0 <= i < |steps| && steps[i].Cargo? ==> "cargo:warning=" <= steps[i].line
  {
    var steps := BuildEffect(c, tools, fs).steps;
    var front := IntfPlan(c) + SkelPlan(c, tools);
    assert steps <= front by {
      RunMeaning(IntfPlan(c), tools);
      RunMeaning(SkelPlan(c, tools), tools);
    }
    StagesPrintOnlyWarnings(c, tools);
    forall i | 0 <= i < |steps| && steps[i].Cargo? ensures "cargo:warning=" <= steps[i].line {
      assert steps[i] == front[i];
    }
  }

  /** The compile-and-link steps: one compilation and one linker input per
      source, in the order given, every one of them using the same object path. */
  lemma {:induction false} SourceStepsAt(srcs: seq<string>, obj: string, clang: string, cflags: seq<string>, k: nat)
    requires k < |srcs|
    ensures |SourceSteps(srcs, obj, clang, cflags)| == 2 * |srcs|
    ensures SourceSteps(srcs, obj, clang, cflags)[2 * k] == SkelBuild(srcs[k], obj, clang, cflags)
    ensures SourceSteps(srcs, obj, clang, cflags)[2 * k + 1] == LinkerAddFile(obj, srcs[k])
    decreases |srcs|
  {
    if |srcs| > 1 {
      SourceStepsAt(srcs[1..], obj, clang, cflags, if k > 0 then k - 1 else 0);
    } else {
      assert srcs[1..] == [];
    }
  }

  /** Taking the least remaining source first: its compilation and linker input
      come before those of all the others. */
  lemma SourceStepsLeastFirst(s: set<string>, m: string, obj: string, clang: string, cflags: seq<string>)
    requires IsLeast(m, s)
    ensures SourceSteps(Sorted(s), obj, clang, cflags) ==
              [SkelBuild(m, obj, clang, cflags), LinkerAddFile(obj, m)] + SourceSteps(Sorted(s - {m}), obj, clang, cflags)
  {
    SortedUnfold(s, m);
    SourceStepsCons(m, Sorted(s - {m}), obj, clang, cflags);
  }

  lemma SourceStepsCons(m: string, rest: seq<string>, obj: string, clang: string, cflags: seq<string>)
    ensures SourceSteps([m] + rest, obj, clang, cflags) ==
              [SkelBuild(m, obj, clang, cflags), LinkerAddFile(obj, m)] + SourceSteps(rest, obj, clang, cflags)
  {
    assert ([m] + rest)[0] == m && ([m] + rest)[1..] == rest;
  }

  lemma ChangedLinesLeastFirst(s: set<string>, m: string)
    requires IsLeast(m, s)
    ensures ChangedLines(Sorted(s)) == [ChangedLine(m)] + ChangedLines(Sorted(s - {m}))
  {
    SortedUnfold(s, m);
    ChangedLinesCons(m, Sorted(s - {m}));
  }

  lemma ChangedLinesCons(m: string, rest: seq<string>)
    ensures ChangedLines([m] + rest) == [ChangedLine(m)] + ChangedLines(rest)
  {
    var r := [m] + rest;
    forall i | 0 < i < |r| ensures ChangedLines(r)[i] == ChangedLines(rest)[i - 1] {
      assert r[i] == rest[i - 1];
    }
  }

  /** One step of compiling the sources in ascending order: the least remaining
      source is compiled and added next. */
  lemma SourceStepsStep(plan: seq<Step>, done: seq<Step>, s: set<string>, m: string,
                        obj: string, clang: string, cflags: seq<string>, after: seq<Step>)
    requires IsLeast(m, s) && plan == done + (SourceSteps(Sorted(s), obj, clang, cflags) + after)
    ensures var later := SourceSteps(Sorted(s - {m}), obj, clang, cflags) + after;
            && plan == done + ([SkelBuild(m, obj, clang, cflags)] + ([LinkerAddFile(obj, m)] + later))
            && plan == (done + [SkelBuild(m, obj, clang, cflags)]) + ([LinkerAddFile(obj, m)] + later)
            && plan == (done + [SkelBuild(m, obj, clang, cflags)] + [LinkerAddFile(obj, m)]) + later
  {
    SourceStepsLeastFirst(s, m, obj, clang, cflags);
    Regroup(done, SkelBuild(m, obj, clang, cflags), LinkerAddFile(obj, m),
            SourceSteps(Sorted(s - {m}), obj, clang, cflags), after);
  }

  /** One iteration of the loop over the sources in `compile_link_gen`, once the
      steps before it have succeeded: a failing compilation or linker input ends
      the run there; otherwise both have succeeded and the remaining sources follow. */
  lemma LinkLoopStep(plan: seq<Step>, done: seq<Step>, s: set<string>, m: string,
                     obj: string, clang: string, cflags: seq<string>, after: seq<Step>, tools: Tools)
    requires IsLeast(m, s) && AllSucceed(tools, done)
    requires plan == done + (SourceSteps(Sorted(s), obj, clang, cflags) + after)
    ensures var compile := SkelBuild(m, obj, clang, cflags);
            var add := LinkerAddFile(obj, m);
            && (!tools.succeeds(compile) ==>
                  Run(plan, tools) == Effect(Fail(StepFailed(compile)), done + [compile]))
            && (tools.succeeds(compile) && !tools.succeeds(add) ==>
                  Run(plan, tools) == Effect(Fail(StepFailed(add)), done + [compile] + [add]))
            && (tools.succeeds(compile) && tools.succeeds(add) ==>
                  && AllSucceed(tools, done + [compile] + [add])
                  && plan == (done + [compile] + [add]) + (SourceSteps(Sorted(s - {m}), obj, clang, cflags) + after))
  {
    var compile := SkelBuild(m, obj, clang, cflags);
    var add := LinkerAddFile(obj, m);
    var later := SourceSteps(Sorted(s - {m}), obj, clang, cflags) + after;
    SourceStepsStep(plan, done, s, m, obj, clang, cflags, after);
    if !tools.succeeds(compile) {
      RunStopsAt(done, compile, [add] + later, tools);
    } else {
      AllSucceedExtend(tools, done, compile);
      if !tools.succeeds(add) {
        RunStopsAt(done + [compile], add, later, tools);
      } else {
        AllSucceedExtend(tools, done + [compile], add);
      }
    }
  }

  lemma Regroup<T>(done: seq<T>, a: T, b: T, next: seq<T>, after: seq<T>)
    ensures done + (([a, b] + next) + after) == done + ([a] + ([b] + (next + after)))
    ensures done + (([a, b] + next) + after) == (done + [a]) + ([b] + (next + after))
    ensures done + (([a, b] + next) + after) == (done + [a] + [b]) + (next + after)
  {
    assert [a, b] == [a] + [b];
  }

  /** One step of announcing a set in ascending order: the least element's line
      comes next. */
  lemma ChangedLinesStep(whole: seq<string>, done: seq<string>, s: set<string>, m: string)
    requires IsLeast(m, s) && whole == done + ChangedLines(Sorted(s))
    ensures whole == (done + [ChangedLine(m)]) + ChangedLines(Sorted(s - {m}))
  {
    ChangedLinesLeastFirst(s, m);
  }

  /** In `compile_link_gen`, the k-th source in ascending order is compiled by
      step 2k+1 of the plan and its object added by step 2k+2; every object handed
      to the linker has the path derived from the skeleton name, which is never
      the linked object's path. */
  lemma LinkPlanCompilesEverySource(c: Config, k: nat)
    requires c.skel.Some? && k < |c.sources|
    ensures LinkSteps(c, c.skel.value.1) <= LinkPlan(c)
    ensures var name := c.skel.value.1;
            var steps := LinkSteps(c, name);
            var srcs := Sorted(c.sources);
            && |steps| == 2 + 2 * |srcs|
            && steps[0] == LinkerNew(ObjPath(c.outDir, name))
            && steps[1 + 2 * k] == SkelBuild(srcs[k], SourceObjPath(c.outDir, name), c.clang.clang, c.cflags)
            && steps[2 + 2 * k] == LinkerAddFile(SourceObjPath(c.outDir, name), srcs[k])
            && steps[1 + 2 * |srcs|] == LinkerLink
            && SourceObjPath(c.outDir, name) != ObjPath(c.outDir, name)
  {
    var name := c.skel.value.1;
    var srcs := Sorted(c.sources);
    var obj := SourceObjPath(c.outDir, name);
    var compile := SourceSteps(srcs, obj, c.clang.clang, c.cflags);
    SourceStepsAt(srcs, obj, c.clang.clang, c.cflags, k);
    SourceObjNeverLinkObj(c.outDir, name);
    var steps := [LinkerNew(ObjPath(c.outDir, name))] + compile + [LinkerLink];
    assert LinkSteps(c, name) == steps;
    assert steps[1 + 2 * k] == compile[2 * k];
    assert steps[2 + 2 * k] == compile[2 * k + 1];
    assert steps[1 + 2 * |srcs|] == LinkerLink;
    LinkStepsPrefix(c);
  }

  /** The linker inputs of two different sources are different steps: each is the
      shared object as just rewritten from its own source, so the linker may
      accept one source's object and reject another's. */
  lemma LinkAddsDiffer(c: Config, j: nat, k: nat)
    requires c.skel.Some? && j < k < |c.sources|
    ensures var steps := LinkSteps(c, c.skel.value.1);
            && steps[2 + 2 * j].LinkerAddFile? && steps[2 + 2 * k].LinkerAddFile?
            && steps[2 + 2 * j].obj == steps[2 + 2 * k].obj
            && steps[2 + 2 * j] != steps[2 + 2 * k]
  {
    var srcs := Sorted(c.sources);
    LinkPlanCompilesEverySource(c, j);
    LinkPlanCompilesEverySource(c, k);
    assert Less(srcs[j], srcs[k]);
    LessIrreflexive(srcs[j]);
  }

  lemma LinkStepsPrefix(c: Config)
    requires c.skel.Some?
    ensures LinkSteps(c, c.skel.value.1) <= LinkPlan(c)
  {
    var name := c.skel.value.1;
    var steps := LinkSteps(c, name);
    var rest := IntfPlan(c)
      + [SkelGenerate(ObjPath(c.outDir, name), c.clang.clang, c.cflags, SkelPath(c.outDir, name))]
      + Announce(RerunLines(None, c.sources));
    assert LinkPlan(c) == steps + rest;
  }

  /** One more diagnostic line forwarded as a warning. */
  lemma WarningsStep(diagnostics: seq<string>, i: nat)
    requires i < |diagnostics|
    ensures Announce(WarningLines(diagnostics[..i + 1])) ==
              Announce(WarningLines(diagnostics[..i])) + [Cargo(WarningLine(diagnostics[i]))]
  {
    assert diagnostics[..i + 1][..i] == diagnostics[..i];
  }

  lemma RemoveShrinks<T>(s: set<T>, m: T)
    requires m in s
    ensures |s - {m}| < |s|
  {
    assert s == (s - {m}) + {m};
  }
}
