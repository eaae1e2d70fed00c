/** `BpfBuilder`: the object a build script configures and then asks to build.

    The builder's fields are updated in place by the `enable_*` and `add_source`
    calls; every stage reads them and is proved to perform exactly the plan that
    module `Stages` gives for the builder's state. */
module Builder {
  import opened Effects
  import Tokens
  import opened Flags
  import opened Artifacts
  import opened Lexicographic
  import opened Glob
  import opened Stages

  /** A `BTreeSet<String>` of dependency paths, filled in by the stages. */
  class PathSet {
    var paths: set<string>

    constructor()
      ensures paths == {}
    {
      paths := {};
    }

    method Insert(p: string)
      modifies this
      ensures paths == old(paths) + {p}
    {
      paths := paths + {p};
    }
  }

  class BpfBuilder {
    const clang: ClangInfo
    const cflags: seq<string>
    const outDir: string
    var sources: set<string>
    var intfInputOutput: Option<(string, string)>
    var skelInputName: Option<(string, string)>

    /** The builder's fields as a value. */
    function State(): Config
      reads this
    {
      Config(clang, cflags, outDir, sources, intfInputOutput, skelInputName)
    }

    constructor(clang: ClangInfo, cflags: seq<string>, outDir: string)
      ensures State() == Initial(clang, cflags, outDir)
    {
      this.clang := clang;
      this.cflags := cflags;
      this.outDir := outDir;
      sources := {};
      intfInputOutput := None;
      skelInputName := None;
    }

    /** `new`: read OUT_DIR, probe clang, settle the flags (BPF_CFLAGS, when set,
        replaces every other flag source) and start with nothing enabled. */
    static method New(env: Env, probe: Option<ClangInfo>, tools: Tools) returns (r: Result<BpfBuilder>)
      ensures env.outDir.None? ==> r == Err(OutDirUnset)
      ensures env.outDir.Some? && probe.None? ==> r == Err(ClangProbeFailed)
      ensures env.outDir.Some? && probe.Some? && Resolve(env, probe.value, env.outDir.value, tools).Err? ==>
                r == Err(Resolve(env, probe.value, env.outDir.value, tools).error)
      ensures env.outDir.Some? && probe.Some? && Resolve(env, probe.value, env.outDir.value, tools).Ok? ==>
                && r.Ok? && fresh(r.value)
                && r.value.State() ==
                   Initial(probe.value, Resolve(env, probe.value, env.outDir.value, tools).value, env.outDir.value)
    {
      if env.outDir.None? {
        return Err(OutDirUnset);
      }
      var outDir := env.outDir.value;
      if probe.None? {
        return Err(ClangProbeFailed);
      }
      var clang := probe.value;
      var flags: seq<string>;
      match env.cflags {
        case Some(v) =>
          flags := Tokens.Split(v);
        case None =>
          var determined := DetermineCflags(env, clang, outDir, tools);
          if determined.Err? {
            return Err(determined.error);
          }
          flags := determined.value;
      }
      var b := new BpfBuilder(clang, flags, outDir);
      return Ok(b);
    }

    /** `enable_intf`: configure the bindings; nothing else changes. */
    method EnableIntf(input: string, output: string)
      modifies this
      ensures State() == old(State()).(intf := Some((input, output)))
    {
      intfInputOutput := Some((input, output));
    }

    /** `enable_skel`: configure the skeleton and register its input as a source;
        nothing else changes. */
    method EnableSkel(input: string, name: string)
      modifies this
      ensures State() == old(State()).(skel := Some((input, name)), sources := old(sources) + {input})
    {
      skelInputName := Some((input, name));
      sources := sources + {input};
    }

    /** `add_source`: register one more source; adding one already there changes nothing. */
    method AddSource(input: string)
      modifies this
      ensures State() == old(State()).(sources := old(sources) + {input})
      ensures input in old(sources) ==> State() == old(State())
    {
      sources := sources + {input};
    }

    /** `input_insert_deps`: add the interface header, if any, to `deps`. */
    method InputInsertDeps(deps: PathSet)
      modifies deps
      ensures deps.paths == old(deps.paths) + IntfDeps(State())
    {
      match intfInputOutput {
        case None =>
        case Some((input, _)) =>
          deps.Insert(input);
      }
    }

    /** `bindgen_bpf_intf`. */
    method BindgenBpfIntf(tools: Tools) returns (r: Outcome, steps: seq<Step>)
      ensures Effect(r, steps) == Run(IntfPlan(State()), tools)
    {
      match intfInputOutput {
        case None =>
          return Pass, [];
        case Some((input, output)) =>
          var bindings := Bindgen(cflags + ["-target", "bpf"], input, Join(outDir, output));
          steps := [bindings];
          if !tools.succeeds(bindings) {
            return Fail(StepFailed(bindings)), steps;
          }
          return Pass, steps;
      }
    }

    /** `gen_bpf_skel`: on success `deps` gains exactly the scanned files; on
        failure it is left as it was. */
    method GenBpfSkel(deps: PathSet, tools: Tools, fs: Fs) returns (r: Outcome, steps: seq<Step>)
      modifies deps
      ensures Effect(r, steps) == SkelEffect(State(), tools, fs)
      ensures r.Pass? ==> SkelDeps(State(), fs).Ok? && deps.paths == old(deps.paths) + SkelDeps(State(), fs).value
      ensures r.Fail? ==> deps.paths == old(deps.paths)
    {
      match skelInputName {
        case None =>
          return Pass, [];
        case Some((input, name)) =>
          var obj := ObjPath(outDir, name);
          var skelPath := SkelPath(outDir, name);
          var generate := SkelBuildAndGenerate(input, obj, clang.clang, cflags, skelPath);
          steps := [generate];
          if !tools.succeeds(generate) {
            RunFirstFails(generate, Announce(WarningLines(tools.diagnostics)), tools);
            return Fail(StepFailed(generate)), steps;
          }
          var i := 0;
          while i < |tools.diagnostics|
            invariant 0 <= i <= |tools.diagnostics|
            invariant steps == [generate] + Announce(WarningLines(tools.diagnostics[..i]))
            invariant deps.paths == old(deps.paths)
          {
            WarningsStep(tools.diagnostics, i);
            steps := steps + [Cargo("cargo:warning=" + tools.diagnostics[i])];
            i := i + 1;
          }
          assert tools.diagnostics[..i] == tools.diagnostics;
          assert steps == SkelPlan(State(), tools);
          RunEndsWithAnnouncements([generate], WarningLines(tools.diagnostics), tools);
          var dir := fs.parent(input);
          if dir.None? {
            return Fail(NoParentDir(input)), steps;
          }
          var paths := GlobHeaderOrSource(dir.value, fs.entries(dir.value));
          var j := 0;
          while j < |paths|
            invariant 0 <= j <= |paths|
            invariant deps.paths == old(deps.paths) + set p | p in paths[..j]
          {
            assert paths[..j + 1] == paths[..j] + [paths[j]];
            deps.Insert(paths[j]);
            j := j + 1;
          }
          assert paths[..j] == paths;
          assert SkelDeps(State(), fs) == Ok(set p | p in paths);
          return Pass, steps;
      }
    }

    /** The rerun lines for `files`, one per file, in ascending order. */
    static method AnnounceAscending(files: set<string>) returns (lines: seq<string>)
      ensures lines == ChangedLines(Sorted(files))
    {
      ghost var whole := ChangedLines(Sorted(files));
      var rest := files;
      lines := [];
      while rest != {}
        invariant whole == lines + ChangedLines(Sorted(rest))
        decreases |rest|
      {
        LeastExists(rest);
        var least :| least in rest && IsLeast(least, rest);
        ChangedLinesStep(whole, lines, rest, least);
        RemoveShrinks(rest, least);
        lines := lines + [ChangedLine(least)];
        rest := rest - {least};
      }
      assert Sorted(rest) == [];
      assert lines + [] == lines;
    }

    /** `gen_cargo_reruns`. */
    method GenCargoReruns(dependencies: Option<set<string>>) returns (lines: seq<string>)
      ensures lines == RerunLines(dependencies, sources)
    {
      lines := EnvRerunLines;
      match dependencies {
        case None =>
        case Some(deps) =>
          var depLines := AnnounceAscending(deps);
          lines := lines + depLines;
      }
      var sourceLines := AnnounceAscending(sources);
      lines := lines + sourceLines;
    }

    /** The linking part of `compile_link_gen`: open the linker on `{name}.bpf.o`,
        compile each source in ascending order and add its object, then link. */
    method LinkSources(tools: Tools, name: string) returns (r: Outcome, steps: seq<Step>)
      ensures Effect(r, steps) == Run(LinkSteps(State(), name), tools)
    {
      ghost var objs := SourceObjPath(outDir, name);
      ghost var plan := LinkSteps(State(), name);
      var open := LinkerNew(ObjPath(outDir, name));
      if !tools.succeeds(open) {
        RunStopsAt([], open, SourceSteps(Sorted(sources), objs, clang.clang, cflags) + [LinkerLink], tools);
        return Fail(StepFailed(open)), [open];
      }
      steps := [open];
      var rest := sources;
      while rest != {}
        invariant AllSucceed(tools, steps)
        invariant plan == steps + (SourceSteps(Sorted(rest), objs, clang.clang, cflags) + [LinkerLink])
        decreases |rest|
      {
        LeastExists(rest);
        var filename :| filename in rest && IsLeast(filename, rest);
        var obj := Join(outDir, Replace(name, ".bpf.c", ".bpf.o"));
        var compile := SkelBuild(filename, obj, clang.clang, cflags);
        var add := LinkerAddFile(obj, filename);
        assert obj == objs;
        LinkLoopStep(plan, steps, rest, filename, obj, clang.clang, cflags, [LinkerLink], tools);
        RemoveShrinks(rest, filename);
        if !tools.succeeds(compile) {
          return Fail(StepFailed(compile)), steps + [compile];
        }
        if !tools.succeeds(add) {
          return Fail(StepFailed(add)), steps + [compile] + [add];
        }
        steps := steps + [compile] + [add];
        rest := rest - {filename};
      }
      assert Sorted(rest) == [];
      var link := LinkerLink;
      assert plan == steps + ([link] + []);
      if !tools.succeeds(link) {
        RunStopsAt(steps, link, [], tools);
        return Fail(StepFailed(link)), steps + [link];
      }
      AllSucceedExtend(tools, steps, link);
      steps := steps + [link];
      RunAfterSuccesses(steps, [], tools);
      assert plan == steps + [];
      return Pass, steps;
    }

    /** `compile_link_gen`. */
    method CompileLinkGen(tools: Tools) returns (r: Outcome, steps: seq<Step>)
      ensures Effect(r, steps) == Run(LinkPlan(State()), tools)
    {
      match skelInputName {
        case None =>
          return Pass, [];
        case Some((_, name)) =>
          var generate := SkelGenerate(ObjPath(outDir, name), clang.clang, cflags, SkelPath(outDir, name));
          ghost var after := [generate] + Announce(RerunLines(None, sources));
          assert LinkPlan(State()) == LinkSteps(State(), name) + (IntfPlan(State()) + after);
          var linked, linkSteps := LinkSources(tools, name);
          RunAppend(LinkSteps(State(), name), IntfPlan(State()) + after, tools);
          if linked.Fail? {
            return linked, linkSteps;
          }
          RunMeaning(LinkSteps(State(), name), tools);
          var bound, bindSteps := BindgenBpfIntf(tools);
          RunAppend(IntfPlan(State()), after, tools);
          if bound.Fail? {
            return bound, linkSteps + bindSteps;
          }
          RunMeaning(IntfPlan(State()), tools);
          if !tools.succeeds(generate) {
            RunFirstFails(generate, Announce(RerunLines(None, sources)), tools);
            return Fail(StepFailed(generate)), linkSteps + (bindSteps + [generate]);
          }
          var lines := GenCargoReruns(None);
          assert AllSucceed(tools, [generate]);
          RunEndsWithAnnouncements([generate], lines, tools);
          return Pass, linkSteps + (bindSteps + ([generate] + Announce(lines)));
      }
    }

    /** `build`: the stages in order, each stopping the build when it fails. */
    method Build(tools: Tools, fs: Fs) returns (r: Outcome, steps: seq<Step>)
      ensures Effect(r, steps) == BuildEffect(State(), tools, fs)
    {
      var deps := new PathSet();
      InputInsertDeps(deps);
      var bound, bindSteps := BindgenBpfIntf(tools);
      if bound.Fail? {
        return bound, bindSteps;
      }
      var generated, skelSteps := GenBpfSkel(deps, tools, fs);
      if generated.Fail? {
        return generated, bindSteps + skelSteps;
      }
      var lines := GenCargoReruns(Some(deps.paths));
      return Pass, bindSteps + skelSteps + Announce(lines);
    }
  }
}
