/** How the builder settles the flags passed to clang for every BPF compilation. */
module Flags {
  import opened Effects
  import Tokens
  import opened Artifacts

  /** The environment variables the builder reads. `None` stands for a variable
      that is unset or whose value is not valid Unicode (`env::var` fails on both). */
  datatype Env = Env(
    outDir: Option<string>,       // OUT_DIR
    cflags: Option<string>,       // BPF_CFLAGS
    baseCflags: Option<string>,   // BPF_BASE_CFLAGS
    preIncl: Option<string>,      // BPF_EXTRA_CFLAGS_PRE_INCL
    postIncl: Option<string>)     // BPF_EXTRA_CFLAGS_POST_INCL

  /** What probing clang found: the clang command, the default base flags
      (`None` when deriving them fails) and the kernel target architecture
      (`None` when it cannot be determined). */
  datatype ClangInfo = ClangInfo(clang: string, baseCflags: Option<seq<string>>, kernelTarget: Option<string>)

  /** The directory, inside the output directory, that the bundled headers are unpacked into. */
  function BundleDir(outDir: string): string {
    Join(outDir, "scx_utils-bpf_h")
  }

  /** The include flags for the bundled headers, in search order: the
      architecture's own headers, the bundle root, the compatibility headers. */
  function BundledIncludes(bundle: string, target: string): seq<string> {
    ["-I" + bundle + "/arch/" + target, "-I" + bundle, "-I" + bundle + "/bpf-compat"]
  }

  /** The tokens of an optional flag variable; an unset variable contributes nothing. */
  function Layer(v: Option<string>): seq<string> {
    match v
    case None => []
    case Some(s) => Tokens.Split(s)
  }

  /** The flags that come before the include flags, if they can be had:
      BPF_BASE_CFLAGS when set, clang's defaults otherwise. */
  function BaseLayer(env: Env, clang: ClangInfo): Option<seq<string>> {
    match env.baseCflags
    case Some(s) => Some(Tokens.Split(s))
    case None => clang.baseCflags
  }

  /** The flags `determine_cflags` settles on: unpack the bundled headers, then
      lay out the base flags, the pre-include flags, the bundled include flags and
      the post-include flags, in that order. */
  function Layered(env: Env, clang: ClangInfo, outDir: string, tools: Tools): Result<seq<string>> {
    var bundle := BundleDir(outDir);
    if !tools.succeeds(InstallHeaders(bundle)) then Err(StepFailed(InstallHeaders(bundle)))
    else match BaseLayer(env, clang)
      case None => Err(BaseCflagsUnavailable)
      case Some(base) =>
        match clang.kernelTarget
        case None => Err(KernelTargetUnavailable)
        case Some(target) =>
          Ok(base + Layer(env.preIncl) + BundledIncludes(bundle, target) + Layer(env.postIncl))
  }

  /** The flags `new` settles on: BPF_CFLAGS, when set, replaces everything. */
  function Resolve(env: Env, clang: ClangInfo, outDir: string, tools: Tools): Result<seq<string>> {
    match env.cflags
    case Some(s) => Ok(Tokens.Split(s))
    case None => Layered(env, clang, outDir, tools)
  }

  /** `determine_cflags`: builds the flag list by appending one layer after another. */
  method DetermineCflags(env: Env, clang: ClangInfo, outDir: string, tools: Tools) returns (r: Result<seq<string>>)
    ensures r == Layered(env, clang, outDir, tools)
  {
    var bundle := Join(outDir, "scx_utils-bpf_h");
    if !tools.succeeds(InstallHeaders(bundle)) {
      return Err(StepFailed(InstallHeaders(bundle)));
    }
    var cflags: seq<string> := [];
    match env.baseCflags {
      case Some(s) =>
        cflags := cflags + Tokens.Split(s);
      case None =>
        match clang.baseCflags {
          case None => return Err(BaseCflagsUnavailable);
          case Some(base) => cflags := cflags + base;
        }
    }
    match env.preIncl {
      case Some(s) => cflags := cflags + Tokens.Split(s);
      case None =>
    }
    assert cflags == BaseLayer(env, clang).value + Layer(env.preIncl);
    if clang.kernelTarget.None? {
      return Err(KernelTargetUnavailable);
    }
    ghost var upToPre := cflags;
    cflags := cflags + ["-I" + bundle + "/arch/" + clang.kernelTarget.value];
    cflags := cflags + ["-I" + bundle];
    cflags := cflags + ["-I" + bundle + "/bpf-compat"];
    assert cflags == upToPre + BundledIncludes(bundle, clang.kernelTarget.value);
    match env.postIncl {
      case Some(s) => cflags := cflags + Tokens.Split(s);
      case None =>
    }
    assert cflags == upToPre + BundledIncludes(bundle, clang.kernelTarget.value) + Layer(env.postIncl);
    return Ok(cflags);
  }

  /** Full override: with BPF_CFLAGS set, the flags are exactly its tokens, whatever
      the other variables, the clang probe, the output directory and the header
      bundle are. */
  lemma FullOverride(env: Env, env': Env, clang: ClangInfo, clang': ClangInfo,
                     outDir: string, outDir': string, tools: Tools, tools': Tools)
    requires env.cflags.Some? && env'.cflags == env.cflags
    ensures Resolve(env, clang, outDir, tools) == Resolve(env', clang', outDir', tools')
    ensures Resolve(env, clang, outDir, tools) == Ok(Tokens.Split(env.cflags.value))
  {
  }

  /** Without BPF_CFLAGS, flag resolution fails exactly when the headers cannot be
      unpacked, no base flags can be had, or the kernel target is unknown, and the
      first of these to happen is the error reported. */
  lemma LayeredFailures(env: Env, clang: ClangInfo, outDir: string, tools: Tools)
    requires env.cflags.None?
    ensures var r := Resolve(env, clang, outDir, tools);
            && (r.Ok? <==> tools.succeeds(InstallHeaders(BundleDir(outDir)))
                           && (env.baseCflags.Some? || clang.baseCflags.Some?)
                           && clang.kernelTarget.Some?)
            && (!tools.succeeds(InstallHeaders(BundleDir(outDir))) ==>
                  r == Err(StepFailed(InstallHeaders(BundleDir(outDir)))))
            && (tools.succeeds(InstallHeaders(BundleDir(outDir))) && env.baseCflags.None? && clang.baseCflags.None? ==>
                  r == Err(BaseCflagsUnavailable))
            && (tools.succeeds(InstallHeaders(BundleDir(outDir))) && (env.baseCflags.Some? || clang.baseCflags.Some?)
                && clang.kernelTarget.None? ==>
                  r == Err(KernelTargetUnavailable))
  {
  }

  /** Layered ordering: without BPF_CFLAGS, the flags are the base flags, then the
      pre-include tokens, then the three bundled include flags (architecture,
      root, compatibility, under `out_dir/scx_utils-bpf_h`), then the
      post-include tokens; nothing else is added. */
  lemma LayeredOrdering(env: Env, clang: ClangInfo, outDir: string, tools: Tools)
    requires env.cflags.None? && Resolve(env, clang, outDir, tools).Ok?
    ensures var flags := Resolve(env, clang, outDir, tools).value;
            var base := BaseLayer(env, clang).value;
            var bundle := outDir + "/scx_utils-bpf_h";
            var k := |base| + |Layer(env.preIncl)|;
            && |flags| == k + 3 + |Layer(env.postIncl)|
            && flags[..|base|] == base
            && flags[|base|..k] == Layer(env.preIncl)
            && flags[k] == "-I" + bundle + "/arch/" + clang.kernelTarget.value
            && flags[k + 1] == "-I" + bundle
            && flags[k + 2] == "-I" + bundle + "/bpf-compat"
            && flags[k + 3..] == Layer(env.postIncl)
  {
    var base, pre, post := BaseLayer(env, clang).value, Layer(env.preIncl), Layer(env.postIncl);
    var inc := BundledIncludes(BundleDir(outDir), clang.kernelTarget.value);
    var flags := base + pre + inc + post;
    assert Resolve(env, clang, outDir, tools).value == flags;
    var k := |base| + |pre|;
    assert flags[..|base|] == base;
    assert flags[|base|..k] == pre;
    assert flags[k..k + 3] == inc;
    assert flags[k + 3..] == post;
  }

  /** BPF_BASE_CFLAGS, when set, takes the place of clang's default base flags,
      which then do not matter, not even when deriving them fails. */
  lemma BaseOverrideWins(env: Env, clang: ClangInfo, defaults: Option<seq<string>>, outDir: string, tools: Tools)
    requires env.baseCflags.Some?
    ensures Layered(env, clang, outDir, tools) == Layered(env, clang.(baseCflags := defaults), outDir, tools)
    ensures BaseLayer(env, clang) == Some(Tokens.Split(env.baseCflags.value))
  {
  }

  /** Every flag taken from an environment variable is a non-empty token free of
      whitespace. */
  lemma EnvironmentFlagsAreTokens(v: Option<string>)
    ensures forall i :: 0 <= i < |Layer(v)| ==> Tokens.IsToken(Layer(v)[i])
  {
  }
}
