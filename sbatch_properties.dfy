/** What the rendered scripts look like, line by line: the order of the
    base directives, what the generator without -N leaves out, where each
    preset's trailer goes, and two concrete scripts. */
module SbatchProperties {
  import opened PyValues
  import opened SbatchRender

  lemma SbatchIsDirective(d: string)
    ensures IsDirective(Sbatch(d))
  {
    assert (DirectivePrefix + d)[..|DirectivePrefix|] == DirectivePrefix;
  }

  /** Lines written by write_sbatch after a well-formed script keep it
      well-formed, and what was there stays the prefix. */
  lemma AppendKeepsWellFormed(s: seq<string>, ds: seq<string>)
    requires WellFormed(s)
    ensures WellFormed(s + SbatchAll(ds))
    ensures (s + SbatchAll(ds))[..|s|] == s
  {
    var t := s + SbatchAll(ds);
    forall i | 1 <= i < |t|
      ensures IsDirective(t[i])
    {
      if i >= |s| {
        SbatchAllAt(ds, i - |s|);
        SbatchIsDirective(ds[i - |s|]);
      }
    }
  }

  /** The base constructor's directives before the keyword arguments:
      --time, --tasks, --cpus-per-task, -N (only with emitN), --output,
      --error, and --array only for a truthy array spec. */
  lemma FixedLayout(job: Job, emitN: bool)
    ensures var f := FixedDirectives(job, emitN);
            var names := CheckLogError(job.log, job.error, job.arraySpec, job.nodes);
            var k := if emitN then 4 else 3;
            var a := if Truthy(job.arraySpec) then 1 else 0;
            && |f| == k + 2 + a
            && f[0] == "--time=" + job.time
            && f[1] == "--tasks=" + IntToString(job.tasks)
            && f[2] == "--cpus-per-task=" + IntToString(job.cpu)
            && (emitN ==> f[3] == "-N " + IntToString(job.nodes))
            && f[k] == "--output " + Show(names.0)
            && f[k + 1] == "--error " + Show(names.1)
            && (Truthy(job.arraySpec) && Truthy(job.throttle) ==>
                  f[k + 2] == "--array=" + job.arraySpec.value + "%" + job.throttle.value)
            && (Truthy(job.arraySpec) && !Truthy(job.throttle) ==>
                  f[k + 2] == "--array=" + job.arraySpec.value)
  {
  }

  lemma FixedLength(job: Job, emitN: bool)
    ensures |FixedDirectives(job, emitN)| == (if emitN then 6 else 5) + (if Truthy(job.arraySpec) then 1 else 0)
  {
  }

  /** Line j + 1 of a script is the j-th directive written after the
      header. */
  lemma HeaderLine(ds: seq<string>, j: int)
    requires 0 <= j < |ds|
    ensures |[Header] + SbatchAll(ds)| == |ds| + 1
    ensures ([Header] + SbatchAll(ds))[j + 1] == Sbatch(ds[j])
  {
    SbatchAllAt(ds, j);
  }

  lemma IndexOfSecond(f: seq<string>, e: seq<string>, i: int)
    requires 0 <= i < |e|
    ensures (f + e)[|f| + i] == e[i]
  {
  }

  /** Line j + 1 of the base output is the j-th directive. */
  lemma BaseScriptLine(job: Job, emitN: bool, j: int)
    requires 0 <= j < |BaseDirectives(job, emitN)|
    ensures |BaseScript(job, emitN)| == |BaseDirectives(job, emitN)| + 1
    ensures BaseScript(job, emitN)[j + 1] == Sbatch(BaseDirectives(job, emitN)[j])
  {
    HeaderLine(BaseDirectives(job, emitN), j);
  }

  /** The i-th keyword argument is written on line k + 2 + a + i, right
      after the fixed directives. */
  lemma BaseScriptExtraLine(job: Job, emitN: bool, i: int)
    requires 0 <= i < |job.extras|
    ensures var k := if emitN then 5 else 4;
            var a := if Truthy(job.arraySpec) then 1 else 0;
            && |BaseScript(job, emitN)| == k + 2 + a + |job.extras|
            && BaseScript(job, emitN)[k + 2 + a + i] == Sbatch(Extra(job.extras[i]))
  {
    var f := FixedDirectives(job, emitN);
    var e := ExtraDirectives(job.extras);
    FixedLength(job, emitN);
    ExtraDirectivesAt(job.extras, i);
    IndexOfSecond(f, e, i);
    HeaderLine(f + e, |f| + i);
  }

  /** The base constructor's output, line by line: the header, --time,
      --tasks, --cpus-per-task, -N (only with emitN), --output, --error,
      --array (only for a truthy array spec) and one line per keyword
      argument in call order. */
  lemma BaseScriptLayout(job: Job, emitN: bool)
    ensures var s := BaseScript(job, emitN);
            var names := CheckLogError(job.log, job.error, job.arraySpec, job.nodes);
            var k := if emitN then 5 else 4;
            var a := if Truthy(job.arraySpec) then 1 else 0;
            && |s| == k + 2 + a + |job.extras|
            && s[0] == Header
            && s[1] == Sbatch("--time=" + job.time)
            && s[2] == Sbatch("--tasks=" + IntToString(job.tasks))
            && s[3] == Sbatch("--cpus-per-task=" + IntToString(job.cpu))
            && (emitN ==> s[4] == Sbatch("-N " + IntToString(job.nodes)))
            && s[k] == Sbatch("--output " + Show(names.0))
            && s[k + 1] == Sbatch("--error " + Show(names.1))
            && (Truthy(job.arraySpec) && Truthy(job.throttle) ==>
                  s[k + 2] == Sbatch("--array=" + job.arraySpec.value + "%" + job.throttle.value))
            && (Truthy(job.arraySpec) && !Truthy(job.throttle) ==>
                  s[k + 2] == Sbatch("--array=" + job.arraySpec.value))
            && (forall i :: 0 <= i < |job.extras| ==> s[k + 2 + a + i] == Sbatch(Extra(job.extras[i])))
  {
    var s := BaseScript(job, emitN);
    var f := FixedDirectives(job, emitN);
    var k := if emitN then 5 else 4;
    var a := if Truthy(job.arraySpec) then 1 else 0;
    FixedLayout(job, emitN);
    forall j | 0 <= j < |f|
      ensures s[j + 1] == Sbatch(f[j])
    {
      assert BaseDirectives(job, emitN)[j] == f[j];
      BaseScriptLine(job, emitN, j);
    }
    forall i | 0 <= i < |job.extras|
      ensures s[k + 2 + a + i] == Sbatch(Extra(job.extras[i]))
    {
      BaseScriptExtraLine(job, emitN, i);
    }
  }

  /** Every generator's base output starts with the interpreter line and
      has a #SBATCH directive on every later line. */
  lemma BaseScriptWellFormed(job: Job, emitN: bool)
    ensures WellFormed(BaseScript(job, emitN))
  {
    AppendKeepsWellFormed([Header], BaseDirectives(job, emitN));
  }

  /** NewSbatchGenerator's directives are SbatchGenerator's without -N. */
  lemma FixedDropsNode(job: Job)
    ensures var f := FixedDirectives(job, true);
            |f| >= 4 && f[3] == "-N " + IntToString(job.nodes)
            && FixedDirectives(job, false) == f[..3] + f[4..]
  {
    var names := CheckLogError(job.log, job.error, job.arraySpec, job.nodes);
    var h := ["--time=" + job.time, "--tasks=" + IntToString(job.tasks), "--cpus-per-task=" + IntToString(job.cpu)];
    var r := ["--output " + Show(names.0), "--error " + Show(names.1)] + ArrayDirective(job.arraySpec, job.throttle);
    var f := FixedDirectives(job, true);
    assert f == h + ["-N " + IntToString(job.nodes)] + r;
    assert FixedDirectives(job, false) == h + r;
    assert f[..3] == h && f[4..] == r;
  }

  /** NewSbatchGenerator writes exactly SbatchGenerator's lines without the
      -N line, and N still picks the default names. */
  lemma NewGeneratorDropsNodeLine(job: Job)
    ensures var s := BaseScript(job, true);
            && |s| >= 5
            && s[4] == Sbatch("-N " + IntToString(job.nodes))
            && BaseScript(job, false) == s[..4] + s[5..]
  {
    var s := BaseScript(job, true);
    var t := BaseScript(job, false);
    var f := FixedDirectives(job, true);
    var d := BaseDirectives(job, true);
    var e := BaseDirectives(job, false);
    FixedDropsNode(job);
    assert d[3] == f[3];
    BaseScriptLine(job, true, 3);
    var u := s[..4] + s[5..];
    assert |t| == |u|;
    forall i | 0 <= i < |t|
      ensures t[i] == u[i]
    {
      if i >= 1 {
        var j := if i < 4 then i - 1 else i;
        BaseScriptLine(job, true, j);
        BaseScriptLine(job, false, i - 1);
        assert e[i - 1] == d[j];
      }
    }
  }

  /** With N below 1 and no name supplied there is no default: the line
      carries Python's rendering of None. */
  lemma NoDefaultNameBelowOneNode(job: Job, emitN: bool)
    requires job.nodes < 1 && job.log == None && job.error == None
    ensures var k := if emitN then 5 else 4;
            var s := BaseScript(job, emitN);
            k + 1 < |s| && s[k] == Sbatch("--output None") && s[k + 1] == Sbatch("--error None")
  {
    var k := if emitN then 4 else 3;
    FixedLayout(job, emitN);
    BaseScriptLine(job, emitN, k);
    BaseScriptLine(job, emitN, k + 1);
  }

  // ---------------------------------------------------------------------
  // Presets: the base output untouched, then the trailer, in order
  // ---------------------------------------------------------------------

  lemma AppendThree(b: seq<string>, x: string, y: string, z: string)
    ensures (b + [x, y]) + [z] == b + [x, y, z]
  {
  }

  /** SbatchGeneratorCPU: the base lines, then the CPU partition. */
  lemma CpuLayout(job: Job)
    ensures CpuScript(job) == BaseScript(job, true) + [Sbatch("-p htc-el8")]
    ensures WellFormed(CpuScript(job))
  {
    assert "-p " + CpuQueue == "-p htc-el8";
    SbatchAll1("-p " + CpuQueue);
    BaseScriptWellFormed(job, true);
    AppendKeepsWellFormed(BaseScript(job, true), CpuTrailer());
  }

  /** SbatchGeneratorGPU: the base lines, then --gres=gpu:<gpu> and the GPU
      partition. */
  lemma GpuLayout(job: Job, gpu: int)
    ensures GpuScript(job, gpu)
            == BaseScript(job, true) + [Sbatch("--gres=gpu:" + IntToString(gpu)), Sbatch("-p gpu-el8")]
    ensures WellFormed(GpuScript(job, gpu))
  {
    assert "-p " + GpuQueue == "-p gpu-el8";
    SbatchAll2("--gres=gpu:" + IntToString(gpu), "-p " + GpuQueue);
    BaseScriptWellFormed(job, true);
    AppendKeepsWellFormed(BaseScript(job, true), GpuTrailer(gpu));
  }

  lemma A100MemText()
    ensures Extra(("mem", A100Mem)) == "--mem=128789"
  {
  }

  lemma A40MemText()
    ensures Extra(("mem", A40Mem)) == "--mem=514286"
  {
  }

  /** SbatchGeneratorA100: one task on one node with 14 CPUs, --mem=128789
      as the first keyword directive, then the GPU trailer and the A100
      constraint. */
  lemma A100Layout(time: string, gpu: int, log: Option<string>, error: Option<string>,
                   arraySpec: Option<string>, throttle: Option<string>, extras: seq<(string, string)>)
    ensures var job := A100Job(time, log, error, arraySpec, throttle, extras);
            job.tasks == 1 && job.cpu == 14 && job.nodes == 1
    ensures var base := BaseScript(A100Job(time, log, error, arraySpec, throttle, extras), true);
            var a := if Truthy(arraySpec) then 1 else 0;
            |base| > 7 + a && base[7 + a] == Sbatch("--mem=128789")
    ensures A100Script(time, gpu, log, error, arraySpec, throttle, extras)
            == BaseScript(A100Job(time, log, error, arraySpec, throttle, extras), true)
               + [Sbatch("--gres=gpu:" + IntToString(gpu)), Sbatch("-p gpu-el8"), Sbatch("-C gpu=A100")]
    ensures WellFormed(A100Script(time, gpu, log, error, arraySpec, throttle, extras))
  {
    var job := A100Job(time, log, error, arraySpec, throttle, extras);
    assert job.extras[0] == ("mem", A100Mem);
    BaseScriptExtraLine(job, true, 0);
    A100MemText();
    GpuLayout(job, gpu);
    SbatchAll1("-C gpu=A100");
    AppendThree(BaseScript(job, true), Sbatch("--gres=gpu:" + IntToString(gpu)), Sbatch("-p gpu-el8"), Sbatch("-C gpu=A100"));
    AppendKeepsWellFormed(GpuScript(job, gpu), ["-C gpu=A100"]);
  }

  /** SbatchGeneratorA40: one task on one node with 64 CPUs, --mem=514286
      as the first keyword directive, then the GPU trailer and the A40
      constraint. */
  lemma A40Layout(time: string, gpu: int, log: Option<string>, error: Option<string>,
                  arraySpec: Option<string>, throttle: Option<string>, extras: seq<(string, string)>)
    ensures var job := A40Job(time, log, error, arraySpec, throttle, extras);
            job.tasks == 1 && job.cpu == 64 && job.nodes == 1
    ensures var base := BaseScript(A40Job(time, log, error, arraySpec, throttle, extras), true);
            var a := if Truthy(arraySpec) then 1 else 0;
            |base| > 7 + a && base[7 + a] == Sbatch("--mem=514286")
    ensures A40Script(time, gpu, log, error, arraySpec, throttle, extras)
            == BaseScript(A40Job(time, log, error, arraySpec, throttle, extras), true)
               + [Sbatch("--gres=gpu:" + IntToString(gpu)), Sbatch("-p gpu-el8"), Sbatch("-C gpu=A40")]
    ensures WellFormed(A40Script(time, gpu, log, error, arraySpec, throttle, extras))
  {
    var job := A40Job(time, log, error, arraySpec, throttle, extras);
    assert job.extras[0] == ("mem", A40Mem);
    BaseScriptExtraLine(job, true, 0);
    A40MemText();
    GpuLayout(job, gpu);
    SbatchAll1("-C gpu=A40");
    AppendThree(BaseScript(job, true), Sbatch("--gres=gpu:" + IntToString(gpu)), Sbatch("-p gpu-el8"), Sbatch("-C gpu=A40"));
    AppendKeepsWellFormed(GpuScript(job, gpu), ["-C gpu=A40"]);
  }

  /** SbatchGenerator3090: the base lines, then one 3090, its per-GPU
      memory and the GPU partition. */
  lemma Rtx3090Layout(job: Job)
    ensures Rtx3090Script(job)
            == BaseScript(job, true) + [Sbatch("--gres=gpu:3090:1"), Sbatch("--mem-per-gpu=64283"), Sbatch("-p gpu-el8")]
    ensures WellFormed(Rtx3090Script(job))
  {
    assert "-p " + GpuQueue == "-p gpu-el8";
    SbatchAll3("--gres=gpu:3090:1", "--mem-per-gpu=64283", "-p " + GpuQueue);
    BaseScriptWellFormed(job, true);
    AppendKeepsWellFormed(BaseScript(job, true), Rtx3090Trailer());
  }

  /** SbatchGeneratormaxL40: the lines without -N, then the per-GPU memory,
      the L40s constraint, the GPU partition and one GPU. */
  lemma MaxL40Layout(job: Job, memPerGpu: int)
    ensures var t := MaxL40Trailer(memPerGpu);
            && t == ["--mem-per-gpu=" + IntToString(memPerGpu), "-C genoa,gpu=L40s", "-p gpu-el8", "-G 1"]
            && MaxL40Script(job, memPerGpu) == BaseScript(job, false) + SbatchAll(t)
            && SbatchAll(t) == [Sbatch(t[0]), Sbatch(t[1]), Sbatch(t[2]), Sbatch(t[3])]
    ensures WellFormed(MaxL40Script(job, memPerGpu))
  {
    assert "-p " + GpuQueue == "-p gpu-el8";
    var t := MaxL40Trailer(memPerGpu);
    SbatchAll4(t[0], t[1], t[2], t[3]);
    BaseScriptWellFormed(job, false);
    AppendKeepsWellFormed(BaseScript(job, false), t);
  }

  /** SbatchGeneratorMiniGPU: the lines without -N, then the GPU partition,
      one GPU and the memory, written with a space. */
  lemma MiniGpuLayout(job: Job, mem: string)
    ensures MiniGpuScript(job, mem)
            == BaseScript(job, false) + [Sbatch("-p gpu-el8"), Sbatch("-G 1"), Sbatch("--mem " + mem)]
    ensures WellFormed(MiniGpuScript(job, mem))
  {
    assert "-p " + GpuQueue == "-p gpu-el8";
    SbatchAll3("-p " + GpuQueue, "-G 1", "--mem " + mem);
    BaseScriptWellFormed(job, false);
    AppendKeepsWellFormed(BaseScript(job, false), MiniGpuTrailer(mem));
  }
}
