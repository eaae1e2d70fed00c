/** Outcomes of the builder's operations and the external actions it performs.

    Every call into a tool the builder cannot see (the header archive unpacker,
    bindgen, the libbpf skeleton builder and linker) is a `Step` value. Whether a
    step succeeds is decided by the `Tools` parameter, and `Run` performs a plan of
    steps in order, stopping at the first one that fails, as the `?` operator does
    in the builder. Lines printed to cargo are `Cargo` steps; printing never fails. */
module Effects {

  datatype Option<+T> = None | Some(value: T)

  /** One externally observable action. */
  datatype Step =
    | InstallHeaders(dest: string)
    | Bindgen(clangArgs: seq<string>, header: string, output: string)
    | SkelBuildAndGenerate(source: string, obj: string, clang: string, clangArgs: seq<string>, skel: string)
    | SkelBuild(source: string, obj: string, clang: string, clangArgs: seq<string>)
    | LinkerNew(obj: string)
    | LinkerAddFile(obj: string, builtFrom: string)   // the object as just rewritten from `builtFrom`
    | LinkerLink
    | SkelGenerate(obj: string, clang: string, clangArgs: seq<string>, skel: string)
    | Cargo(line: string)

  datatype Error =
    | OutDirUnset               // OUT_DIR is not set
    | ClangProbeFailed          // ClangInfo::new failed
    | BaseCflagsUnavailable     // ClangInfo::determine_base_cflags failed
    | KernelTargetUnavailable   // ClangInfo::kernel_target failed (the source unwraps it)
    | StepFailed(step: Step)    // an external tool reported an error
    | NoParentDir(source: string)

  datatype Outcome = Pass | Fail(error: Error)

  datatype Result<+T> = Ok(value: T) | Err(error: Error)

  /** The external tools: which steps succeed, and the diagnostic lines the
      skeleton generator writes to its standard error. */
  datatype Tools = Tools(succeeds: Step -> bool, diagnostics: seq<string>)

  /** The file system as the dependency scan sees it: the parent directory of a
      path, if it has one, and the names of the entries of a directory. */
  datatype Fs = Fs(parent: string -> Option<string>, entries: string -> seq<string>)

  predicate Succeeds(tools: Tools, s: Step) {
    s.Cargo? || tools.succeeds(s)
  }

  predicate AllSucceed(tools: Tools, steps: seq<Step>) {
    forall i :: 0 <= i < |steps| ==> Succeeds(tools, steps[i])
  }

  /** What an operation did: its outcome and the steps it performed, in order. */
  datatype Effect = Effect(outcome: Outcome, steps: seq<Step>)

  /** Performs `plan` in order and stops right after the first step that fails. */
  function Run(plan: seq<Step>, tools: Tools): Effect
    decreases |plan|
  {
    if plan == [] then Effect(Pass, [])
    else if !Succeeds(tools, plan[0]) then Effect(Fail(StepFailed(plan[0])), [plan[0]])
    else
      var rest := Run(plan[1..], tools);
      Effect(rest.outcome, [plan[0]] + rest.steps)
  }

  /** What running a plan means: a plan passes exactly when every step succeeds,
      and then it has performed the whole plan; otherwise it has performed a
      prefix of the plan whose last step is the first one that failed, and it
      reports that step. */
  lemma {:induction false} RunMeaning(plan: seq<Step>, tools: Tools)
    ensures Run(plan, tools).steps <= plan
    ensures Run(plan, tools).outcome.Pass? <==> AllSucceed(tools, plan)
    ensures Run(plan, tools).outcome.Pass? ==> Run(plan, tools).steps == plan
    ensures Run(plan, tools).outcome.Fail? ==>
              var done := Run(plan, tools).steps;
              && |done| > 0
              && Run(plan, tools).outcome == Fail(StepFailed(done[|done| - 1]))
              && !Succeeds(tools, done[|done| - 1])
              && AllSucceed(tools, done[..|done| - 1])
    decreases |plan|
  {
    if plan != [] && Succeeds(tools, plan[0]) {
      RunMeaning(plan[1..], tools);
      var rest := Run(plan[1..], tools);
      assert Run(plan, tools) == Effect(rest.outcome, [plan[0]] + rest.steps);
      assert plan == [plan[0]] + plan[1..];
      if AllSucceed(tools, plan[1..]) {
        forall i | 0 <= i < |plan| ensures Succeeds(tools, plan[i]) {
          if i > 0 { assert plan[i] == plan[1..][i - 1]; }
        }
      }
      if rest.outcome.Fail? {
        var done := [plan[0]] + rest.steps;
        assert done[..|done| - 1] == [plan[0]] + rest.steps[..|rest.steps| - 1];
        forall i | 0 <= i < |done| - 1 ensures Succeeds(tools, done[i]) {
          if i > 0 { assert done[i] == rest.steps[i - 1]; }
        }
      }
    }
  }

  /** Once a prefix of a plan has succeeded, the rest of the plan runs as if alone. */
  lemma {:induction false} RunAfterSuccesses(done: seq<Step>, rest: seq<Step>, tools: Tools)
    requires AllSucceed(tools, done)
    ensures Run(done + rest, tools) == Effect(Run(rest, tools).outcome, done + Run(rest, tools).steps)
    decreases |done|
  {
    if done == [] {
      assert done + rest == rest;
    } else {
      var plan := done + rest;
      assert plan[0] == done[0];
      assert Succeeds(tools, done[0]);
      assert plan[1..] == done[1..] + rest;
      assert AllSucceed(tools, done[1..]) by {
        forall i | 0 <= i < |done[1..]| ensures Succeeds(tools, done[1..][i]) {
          assert done[1..][i] == done[i + 1];
        }
      }
      RunAfterSuccesses(done[1..], rest, tools);
      var tail := Run(plan[1..], tools);
      assert Run(plan, tools) == Effect(tail.outcome, [plan[0]] + tail.steps);
      assert [done[0]] + (done[1..] + Run(rest, tools).steps) == done + Run(rest, tools).steps;
    }
  }

  /** A plan whose first step fails performs that step and nothing more. */
  lemma RunFirstFails(s: Step, more: seq<Step>, tools: Tools)
    requires !Succeeds(tools, s)
    ensures Run([s] + more, tools) == Effect(Fail(StepFailed(s)), [s])
  {
    assert ([s] + more)[0] == s;
  }

  lemma AllSucceedExtend(tools: Tools, done: seq<Step>, s: Step)
    requires AllSucceed(tools, done) && Succeeds(tools, s)
    ensures AllSucceed(tools, done + [s])
  {
    forall i | 0 <= i < |done| + 1 ensures Succeeds(tools, (done + [s])[i]) {
      if i < |done| { assert (done + [s])[i] == done[i]; }
    }
  }

  /** Once a prefix has succeeded, a failing step ends the run right there. */
  lemma RunStopsAt(done: seq<Step>, s: Step, more: seq<Step>, tools: Tools)
    requires AllSucceed(tools, done) && !Succeeds(tools, s)
    ensures Run(done + ([s] + more), tools) == Effect(Fail(StepFailed(s)), done + [s])
  {
    RunAfterSuccesses(done, [s] + more, tools);
    RunFirstFails(s, more, tools);
  }

  /** Running two plans back to back: the second runs only if the first passed. */
  lemma RunAppend(a: seq<Step>, b: seq<Step>, tools: Tools)
    ensures Run(a + b, tools) ==
              if Run(a, tools).outcome.Pass? then Effect(Run(b, tools).outcome, a + Run(b, tools).steps)
              else Run(a, tools)
  {
    var ra := Run(a, tools);
    RunMeaning(a, tools);
    if ra.outcome.Pass? {
      RunAfterSuccesses(a, b, tools);
    } else {
      var k := |ra.steps| - 1;
      var done := ra.steps[..k];
      assert ra.steps == a[..k + 1];
      assert a[k] == ra.steps[k];
      assert AllSucceed(tools, done);
      assert a == done + ([a[k]] + a[k + 1..]);
      assert a + b == done + ([a[k]] + (a[k + 1..] + b));
      RunFirstFails(a[k], a[k + 1..] + b, tools);
      RunFirstFails(a[k], a[k + 1..], tools);
      RunAfterSuccesses(done, [a[k]] + (a[k + 1..] + b), tools);
      RunAfterSuccesses(done, [a[k]] + a[k + 1..], tools);
      assert done + [a[k]] == ra.steps;
    }
  }

  /** The `Cargo` steps announcing `lines`, one per line, in order. */
  function Announce(lines: seq<string>): (steps: seq<Step>)
    ensures |steps| == |lines|
    ensures forall i :: 0 <= i < |lines| ==> steps[i] == Cargo(lines[i])
  {
    seq(|lines|, i requires 0 <= i < |lines| => Cargo(lines[i]))
  }

  /** Printing never fails: a plan of announcements always runs to the end. */
  lemma AnnouncingSucceeds(lines: seq<string>, tools: Tools)
    ensures AllSucceed(tools, Announce(lines))
    ensures Run(Announce(lines), tools) == Effect(Pass, Announce(lines))
  {
    RunMeaning(Announce(lines), tools);
  }

  /** Once a prefix has succeeded, the announcements that follow complete the run. */
  lemma RunEndsWithAnnouncements(done: seq<Step>, lines: seq<string>, tools: Tools)
    requires AllSucceed(tools, done)
    ensures Run(done + Announce(lines), tools) == Effect(Pass, done + Announce(lines))
  {
    AnnouncingSucceeds(lines, tools);
    RunAfterSuccesses(done, Announce(lines), tools);
  }
}
