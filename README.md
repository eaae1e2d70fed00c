# BpfBuilder: flag resolution, configuration and build stages

This project models `BpfBuilder` from the `scx_utils` crate. A Cargo build script uses it to compile the BPF part of a sched_ext scheduler. The script creates a builder, which settles the clang flags from the environment. It then enables interface bindings (`enable_intf`), a BPF skeleton (`enable_skel`) and extra sources (`add_source`). Finally it calls `build` or `compile_link_gen`.

`build` does four things:
- records the interface header as a dependency;
- runs bindgen;
- compiles the skeleton and collects the `*.[hc]` files beside its input;
- prints the `cargo:rerun-if-…` lines that tell Cargo when to rerun the script.

Every external tool call is an abstract `Step`:
- the header archive unpacking;
- bindgen;
- libbpf's skeleton builder and linker;
- each line printed to Cargo.

A `Tools` parameter decides which steps succeed and holds the diagnostic lines the skeleton generator prints. `Effects.Run` performs a plan of steps and stops at the first failure, as Rust's `?` does. The environment, the clang probe and the file system (a path's parent and a directory's entries) are parameters.

Modules:
- `Effects`: steps, errors, outcomes and `Run`.
- `Tokens`: `str::split_whitespace` over Unicode White_Space.
- `Lexicographic`: the iteration order of a `BTreeSet<String>`.
- `Glob`: the `*.[hc]` pattern.
- `Artifacts`: output paths, bindgen's arguments and `str::replace`.
- `Flags`: `determine_cflags` and the flag choice in `new`.
- `Stages`: the builder's fields as a value (`Config`) and the plan of each stage as a function of it.
- `Builder`: the `BpfBuilder` class, whose fields the configuration calls update in place. Each of its stage methods is proved to perform exactly the plan that `Stages` gives.

## Model

| member | source | states |
|---|---|---|
| Flags.DetermineCflags | rust/scx_utils/src/bpf_builder.rs:204-246 | Appending base, pre-include, the three bundled `-I` flags and post-include flags yields the layered flag list. It fails when unpacking the headers fails, when no base flags can be had, or when the kernel target is unknown, checked in that order. |
| Flags.FullOverride | rust/scx_utils/src/bpf_builder.rs:254-257 | With BPF_CFLAGS set, the flags are exactly its whitespace-split tokens. They do not depend on the other variables, the clang probe, the output directory or whether the headers unpack. |
| Flags.LayeredFailures | rust/scx_utils/src/bpf_builder.rs:208-234 | Without BPF_CFLAGS, resolution succeeds exactly when the headers unpack, some base flags exist and the kernel target is known. It names the first failure: the unpacking step, then `BaseCflagsUnavailable`, then `KernelTargetUnavailable`. |
| Flags.LayeredOrdering | rust/scx_utils/src/bpf_builder.rs:208-243 | Without BPF_CFLAGS the flags are base ++ pre ++ [`-I{b}/arch/{target}`, `-I{b}`, `-I{b}/bpf-compat`] ++ post, with `b` = `out_dir/scx_utils-bpf_h`, and nothing else. |
| Flags.BaseOverrideWins | rust/scx_utils/src/bpf_builder.rs:221-224 | BPF_BASE_CFLAGS, when set, supplies the base flags, and clang's defaults are ignored, even when deriving them fails. |
| Flags.EnvironmentFlagsAreTokens | rust/scx_utils/src/bpf_builder.rs:226-229 | Every flag taken from a pre- or post-include variable is non-empty and free of whitespace. |
| Tokens.Split | rust/scx_utils/src/bpf_builder.rs:222 | Every token `split_whitespace` yields is non-empty and contains no White_Space character. |
| Tokens.SplitKeepsCharacters | rust/scx_utils/src/bpf_builder.rs:255 | The tokens, concatenated, are the value's non-whitespace characters in their original order: nothing is lost or reordered. |
| Tokens.SplitJoin | rust/scx_utils/src/bpf_builder.rs:240 | Splitting tokens joined by single spaces gives back those tokens. |
| Tokens.SplitAtWhitespace | rust/scx_utils/src/bpf_builder.rs:222 | No token spans a whitespace character: splitting `t`, a whitespace character, then `u` gives the tokens of `t` followed by those of `u`. |
| Tokens.SplitToken | rust/scx_utils/src/bpf_builder.rs:222 | A run of non-whitespace characters is one token and is never cut into pieces. |
| Lexicographic.Sorted | rust/scx_utils/src/bpf_builder.rs:189 | A `BTreeSet<String>` iterates over each of its elements once, in strictly ascending order. |
| Lexicographic.SortedUnique | rust/scx_utils/src/bpf_builder.rs:428-430 | That order depends on the set's elements alone: any ascending sequence of exactly those elements is it. |
| Lexicographic.LessTotal | rust/scx_utils/src/bpf_builder.rs:189 | String order is total on distinct strings. |
| Glob.HeaderOrSourceBySuffix | rust/scx_utils/src/bpf_builder.rs:401 | A name matches `*.[hc]` exactly when it ends in `.h` or `.c`. |
| Glob.GlobHeaderOrSource | rust/scx_utils/src/bpf_builder.rs:401-407 | The glob yields `dir/e` for each directory entry `e` that matches the pattern, and nothing else. |
| Artifacts.BindgenArgs | rust/scx_utils/src/bpf_builder.rs:311-315 | bindgen's clang arguments are the compilation flags followed by `-target`, `bpf`. |
| Artifacts.ObjNeverSkel | rust/scx_utils/src/bpf_builder.rs:380-381 | The object `{name}.bpf.o` and a skeleton `{other}_skel.rs` never share a path. |
| Artifacts.ObjPathInjective | rust/scx_utils/src/bpf_builder.rs:340 | Different skeleton names give different object paths. |
| Artifacts.SourceObjNeverLinkObj | rust/scx_utils/src/bpf_builder.rs:340-344 | The object that every source is compiled into is never the linked object. |
| Artifacts.SourceObjPlainName | rust/scx_utils/src/bpf_builder.rs:344 | For a skeleton name without `.bpf.c`, every source is compiled into `out_dir/name` itself. |
| Effects.RunMeaning | rust/scx_utils/src/bpf_builder.rs:441-443 | A stage sequence passes exactly when every step succeeds, and then it has performed all of them. Otherwise it stops at, and reports, the first failing step, and every step before it succeeded. |
| Effects.RunAppend | rust/scx_utils/src/bpf_builder.rs:441-443 | Two stages in a row: the second runs only when the first passed. |
| Effects.AnnouncingSucceeds | rust/scx_utils/src/bpf_builder.rs:413-429 | Printing lines to Cargo never fails and prints them all. |
| Stages.UnconfiguredStagesAreNoOps | rust/scx_utils/src/bpf_builder.rs:291-305 | Without `enable_intf`, no bindgen runs and no dependency is recorded. Without `enable_skel`, nothing is compiled, scanned, linked or generated. Each such stage passes having done nothing. |
| Stages.ActiveStagesUseDerivedNames | rust/scx_utils/src/bpf_builder.rs:311-325 | bindgen gets cflags ++ [`-target`, `bpf`] and writes `out_dir/output`. The skeleton stage writes `out_dir/{name}.bpf.o` and `out_dir/{name}_skel.rs`, then prints one warning per diagnostic line. |
| Stages.WarningLines | rust/scx_utils/src/bpf_builder.rs:390-392 | One `cargo:warning=` line per diagnostic line, in order. |
| Stages.ChangedLineDistinct | rust/scx_utils/src/bpf_builder.rs:413-429 | A file rerun line is never one of the variable rerun lines, and never a warning. |
| Stages.RerunLinesAnnounce | rust/scx_utils/src/bpf_builder.rs:412-433 | The rerun output opens with the five fixed variable lines, then has one line per dependency (only when dependencies are given) and one per source. A file is announced exactly when it is a source or a given dependency. |
| Stages.BuildDepsExact | rust/scx_utils/src/bpf_builder.rs:394-407 | `build` collects the interface header exactly when one is configured. It also collects exactly the entries of the skeleton input's directory whose names end in `.h` or `.c`, as `dir/entry`. |
| Stages.BuildUnconfigured | rust/scx_utils/src/bpf_builder.rs:436-445 | With neither feature enabled, `build` runs no tool, passes, and prints only the variable lines and the sources. |
| Stages.BuildStageOrder | rust/scx_utils/src/bpf_builder.rs:436-445 | A successful build performs the bindgen stage, then the skeleton stage with its warnings, then the rerun lines with the collected dependencies, and nothing else. |
| Stages.BuildAnnouncesDependencies | rust/scx_utils/src/bpf_builder.rs:436-445 | A successful build tells Cargo to watch a file exactly when it is a source or a collected dependency. |
| Stages.BuildFailureAnnouncesNothing | rust/scx_utils/src/bpf_builder.rs:441-443 | A failed build prints no rerun line; only forwarded warnings. |
| Stages.SourceSteps | rust/scx_utils/src/bpf_builder.rs:343-356 | There are two steps per source. |
| Stages.SourceStepsAt | rust/scx_utils/src/bpf_builder.rs:343-356 | For the k-th source, the source is compiled into the shared object, and then that object, as just rebuilt from the k-th source, is added to the linker. |
| Stages.LinkPlanCompilesEverySource | rust/scx_utils/src/bpf_builder.rs:334-356 | `compile_link_gen` opens the linker on `{name}.bpf.o`. It compiles the k-th source in ascending order at step 2k+1 and adds its object at step 2k+2, then links. Every source goes to the same object path, which is not the linked object. |
| Stages.LinkAddsDiffer | rust/scx_utils/src/bpf_builder.rs:343-354 | The linker inputs of two different sources name one object path but are different steps, because each holds what its own source was just compiled into. The linker can therefore accept one and reject another. |
| Stages.LinkStepsPrefix | rust/scx_utils/src/bpf_builder.rs:334-372 | Linking comes first in `compile_link_gen`, before bindgen and skeleton generation. |
| Stages.LinkLoopStep | rust/scx_utils/src/bpf_builder.rs:343-356 | In the loop over the sources, a failing compilation or linker input ends `compile_link_gen` right there. Otherwise both succeeded and the remaining sources come next. |
| Builder.PathSet.Insert | rust/scx_utils/src/bpf_builder.rs:298 | Inserting into the dependency set adds exactly that path. |
| Builder.BpfBuilder.constructor | rust/scx_utils/src/bpf_builder.rs:261-269 | A new builder has no sources and neither feature enabled. |
| Builder.BpfBuilder.New | rust/scx_utils/src/bpf_builder.rs:250-270 | `new` fails without OUT_DIR, then if the clang probe fails, then for the reason flag resolution fails. Otherwise it returns a fresh builder in the initial state holding the resolved flags. |
| Builder.BpfBuilder.EnableIntf | rust/scx_utils/src/bpf_builder.rs:276-279 | Only the interface configuration changes. |
| Builder.BpfBuilder.EnableSkel | rust/scx_utils/src/bpf_builder.rs:284-289 | The skeleton configuration is set and its input joins the sources; nothing else changes. |
| Builder.BpfBuilder.AddSource | rust/scx_utils/src/bpf_builder.rs:329-332 | Only the sources change, gaining the input. Adding a source already present changes nothing. |
| Builder.BpfBuilder.InputInsertDeps | rust/scx_utils/src/bpf_builder.rs:291-299 | The dependency set gains the interface header if one is configured, and nothing otherwise. |
| Builder.BpfBuilder.BindgenBpfIntf | rust/scx_utils/src/bpf_builder.rs:301-327 | Performs exactly the bindgen stage's plan. |
| Builder.BpfBuilder.GenBpfSkel | rust/scx_utils/src/bpf_builder.rs:374-410 | Performs the generator call and the warnings, and fails when the input has no parent. On success the dependency set gains exactly the scanned files; on failure it is unchanged. |
| Builder.BpfBuilder.AnnounceAscending | rust/scx_utils/src/bpf_builder.rs:420-430 | Looping over a set yields one rerun line per element, in ascending order. |
| Builder.BpfBuilder.GenCargoReruns | rust/scx_utils/src/bpf_builder.rs:412-433 | Returns exactly the rerun lines: variables, dependencies if given, sources. |
| Builder.BpfBuilder.LinkSources | rust/scx_utils/src/bpf_builder.rs:340-356 | Opens the linker, compiles and adds every source in ascending order, then links, stopping at the first failure. |
| Builder.BpfBuilder.CompileLinkGen | rust/scx_utils/src/bpf_builder.rs:334-372 | Performs exactly the `compile_link_gen` plan: link, bindgen, skeleton generation from the linked object, then rerun lines without dependencies. |
| Builder.BpfBuilder.Build | rust/scx_utils/src/bpf_builder.rs:436-445 | Performs exactly `BuildEffect`: record dependencies, bindgen, skeleton and scan, rerun lines, stopping at the first failure. |

## Left out

- Unpacking the embedded header archive (`install_bpf_h`, `BPF_H_TAR`) is one `InstallHeaders` step; the archive's contents are not modelled.
- `ClangInfo::new`, `determine_base_cflags` and `kernel_target` live in a file that is not part of this model. Their results are inputs: a probe that may fail, optional base flags, an optional target. The source unwraps the kernel target; the model reports `KernelTargetUnavailable` where the source would panic.
- The `to_str` conversion of `out_dir/scx_utils-bpf_h` is not modelled. It cannot fail, because OUT_DIR was read as a Unicode string.
- bindgen, `SkeletonBuilder` and `Linker` are abstract steps whose success is a parameter. bindgen's generate and write are one step, so the two error messages are one error.
- The `.debug(true)` setting of the per-source compilation in `compile_link_gen` is not recorded in its step.
- bindgen's `CargoCallbacks` print rerun lines for included headers; that output is not modelled.
- The `scx_utils:clang=…` line that `new` prints is not modelled.
- Paths are text. `PathBuf::join` is `dir/name`, and a path's parent comes from the file-system parameter. OS path rules are not reimplemented.
- Stages.BuildDepsExact: what `dir` is comes from the file-system parameter. For a skeleton input with no directory part, such as `main.bpf.c`, `Path::parent` gives the empty path. Line 401 then globs `/*.[hc]`, which scans the file-system root rather than the input's own directory. The model does not show this, because `Fs.parent` can return any directory.
- Glob.GlobHeaderOrSource: the directory is a parameter. A glob pattern error from metacharacters in the directory name is not modelled, nor are entries the `filter_map(Result::ok)` drops, nor the non-UTF-8 path errors of `gen_bpf_skel`.
- The skeleton generator's diagnostic output is given as a sequence of lines. `from_utf8_lossy` decoding and line splitting are not modelled.
- Printing to Cargo never fails. A `Cargo` step always succeeds.
- The `#[cfg(test)]` tests (rust/scx_utils/src/bpf_builder.rs:448-500) inspect the real archive and clang; they are not modelled.
