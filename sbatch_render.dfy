/** The text the sbatch generators write, as pure functions: the default
    output/error file names, the base directive list every generator
    writes, each preset's trailer, and the whole script as a sequence of
    lines. The mutating writers in module SbatchFile are proved to leave
    exactly these lines behind. */
module SbatchRender {
  import opened PyValues

  const Header: string := "#!/bin/bash"
  const DirectivePrefix: string := "#SBATCH "
  const CpuQueue: string := "htc-el8"
  const GpuQueue: string := "gpu-el8"
  const OutSuffix: string := ".out.txt"
  const ErrSuffix: string := ".err.txt"

  /** The line write_sbatch writes for the directive d. */
  function Sbatch(d: string): string {
    DirectivePrefix + d
  }

  predicate IsDirective(line: string) {
    |DirectivePrefix| <= |line| && line[..|DirectivePrefix|] == DirectivePrefix
  }

  /** The lines successive write_sbatch calls write for ds, in order. */
  function SbatchAll(ds: seq<string>): (r: seq<string>)
    ensures |r| == |ds|
  {
    if ds == [] then [] else SbatchAll(ds[..|ds| - 1]) + [Sbatch(ds[|ds| - 1])]
  }

  /** The i-th line written is the line of the i-th directive. */
  lemma {:induction false} SbatchAllAt(ds: seq<string>, i: int)
    requires 0 <= i < |ds|
    ensures SbatchAll(ds)[i] == Sbatch(ds[i])
    decreases |ds|
  {
    if i < |ds| - 1 {
      SbatchAllAt(ds[..|ds| - 1], i);
    }
  }

  lemma SbatchAllSnoc(ds: seq<string>, d: string)
    ensures SbatchAll(ds + [d]) == SbatchAll(ds) + [Sbatch(d)]
  {
    assert (ds + [d])[..|ds|] == ds;
  }

  lemma AppendAssoc(a: seq<string>, b: seq<string>, c: seq<string>)
    ensures (a + b) + c == a + (b + c)
  {
  }

  lemma SbatchAll1(a: string)
    ensures SbatchAll([a]) == [Sbatch(a)]
  {
  }

  lemma SbatchAll2(a: string, b: string)
    ensures SbatchAll([a, b]) == [Sbatch(a), Sbatch(b)]
  {
    assert [a, b][..1] == [a];
  }

  lemma SbatchAll3(a: string, b: string, c: string)
    ensures SbatchAll([a, b, c]) == [Sbatch(a), Sbatch(b), Sbatch(c)]
  {
    assert [a, b, c][..2] == [a, b];
    SbatchAll2(a, b);
  }

  lemma SbatchAll4(a: string, b: string, c: string, d: string)
    ensures SbatchAll([a, b, c, d]) == [Sbatch(a), Sbatch(b), Sbatch(c), Sbatch(d)]
  {
    assert [a, b, c, d][..3] == [a, b, c];
    SbatchAll3(a, b, c);
  }

  /** Successive write_sbatch calls after the lines h. */
  lemma Written1(h: seq<string>, a: string)
    ensures h + [Sbatch(a)] == h + SbatchAll([a])
  {
    SbatchAll1(a);
  }

  lemma Written2(h: seq<string>, a: string, b: string)
    ensures h + [Sbatch(a)] + [Sbatch(b)] == h + SbatchAll([a, b])
  {
    SbatchAll2(a, b);
  }

  lemma Written3(h: seq<string>, a: string, b: string, c: string)
    ensures h + [Sbatch(a)] + [Sbatch(b)] + [Sbatch(c)] == h + SbatchAll([a, b, c])
  {
    SbatchAll3(a, b, c);
  }

  lemma Written4(h: seq<string>, a: string, b: string, c: string, d: string)
    ensures h + [Sbatch(a)] + [Sbatch(b)] + [Sbatch(c)] + [Sbatch(d)] == h + SbatchAll([a, b, c, d])
  {
    SbatchAll4(a, b, c, d);
  }

  /** One more write_sbatch after the lines of h and ds. */
  lemma SbatchStep(h: seq<string>, ds: seq<string>, d: string)
    ensures (h + SbatchAll(ds)) + [Sbatch(d)] == h + SbatchAll(ds + [d])
  {
    SbatchAllSnoc(ds, d);
    AppendAssoc(h, SbatchAll(ds), [Sbatch(d)]);
  }

  lemma SbatchNoStep(h: seq<string>, ds: seq<string>)
    ensures h + SbatchAll(ds) == h + SbatchAll(ds + [])
  {
    assert ds + [] == ds;
  }

  /** Writing two directive lists one after the other writes their
      concatenation. */
  lemma {:induction false} SbatchAllAppend(a: seq<string>, b: seq<string>)
    ensures SbatchAll(a + b) == SbatchAll(a) + SbatchAll(b)
    decreases |b|
  {
    if b != [] {
      var b' := b[..|b| - 1];
      var d := b[|b| - 1];
      assert b == b' + [d];
      assert a + b == (a + b') + [d];
      SbatchAllSnoc(a + b', d);
      SbatchAllAppend(a, b');
      SbatchAllSnoc(b', d);
    } else {
      assert a + b == a;
    }
  }

  // ---------------------------------------------------------------------
  // Default output and error names (check_log, check_error)
  // ---------------------------------------------------------------------

  /** check_log: the --output name; the four ifs run one after another, so
      the first default that fires makes the later tests false. */
  function CheckLog(log: Option<string>, arraySpec: Option<string>, n: int): (r: Option<string>)
    ensures Truthy(log) ==> r == log
    ensures !Truthy(log) && n < 1 ==> r == log
    ensures !Truthy(log) && !Truthy(arraySpec) && n == 1 ==> r == Some("slurm-%j-%N.out.txt")
    ensures !Truthy(log) && !Truthy(arraySpec) && n > 1 ==> r == Some("slurm-%j.out.txt")
    ensures !Truthy(log) && Truthy(arraySpec) && n == 1 ==> r == Some("slurm-%A_%a_%N.out.txt")
    ensures !Truthy(log) && Truthy(arraySpec) && n > 1 ==> r == Some("slurm-%A_%a.out.txt")
  {
    var l1 := if !Truthy(log) && !Truthy(arraySpec) && n == 1 then Some("slurm-%j-%N.out.txt") else log;
    var l2 := if !Truthy(l1) && !Truthy(arraySpec) && n > 1 then Some("slurm-%j.out.txt") else l1;
    var l3 := if !Truthy(l2) && Truthy(arraySpec) && n == 1 then Some("slurm-%A_%a_%N.out.txt") else l2;
    if !Truthy(l3) && Truthy(arraySpec) && n > 1 then Some("slurm-%A_%a.out.txt") else l3
  }

  /** check_error: the --error name, by the same four tests as check_log. */
  function CheckError(error: Option<string>, arraySpec: Option<string>, n: int): (r: Option<string>)
    ensures Truthy(error) ==> r == error
    ensures !Truthy(error) && n < 1 ==> r == error
    ensures !Truthy(error) && !Truthy(arraySpec) && n == 1 ==> r == Some("slurm-%j-%N.err.txt")
    ensures !Truthy(error) && !Truthy(arraySpec) && n > 1 ==> r == Some("slurm-%j.err.txt")
    ensures !Truthy(error) && Truthy(arraySpec) && n == 1 ==> r == Some("slurm-%A_%a_%N.err.txt")
    ensures !Truthy(error) && Truthy(arraySpec) && n > 1 ==> r == Some("slurm-%A_%a.err.txt")
  {
    var e1 := if !Truthy(error) && !Truthy(arraySpec) && n == 1 then Some("slurm-%j-%N.err.txt") else error;
    var e2 := if !Truthy(e1) && !Truthy(arraySpec) && n > 1 then Some("slurm-%j.err.txt") else e1;
    var e3 := if !Truthy(e2) && Truthy(arraySpec) && n == 1 then Some("slurm-%A_%a_%N.err.txt") else e2;
    if !Truthy(e3) && Truthy(arraySpec) && n > 1 then Some("slurm-%A_%a.err.txt") else e3
  }

  predicate HasSuffix(s: string, suffix: string) {
    |suffix| <= |s| && s[|s| - |suffix|..] == suffix
  }

  /** The error file name that goes with an output file name. */
  function ErrName(out: string): string
    requires HasSuffix(out, OutSuffix)
  {
    out[..|out| - |OutSuffix|] + ErrSuffix
  }

  /** The default name without its suffix, built from its two parts: the job
      tokens (%A_%a for a job array, %j otherwise), then the node token %N only
      for a single-node job. */
  function DefaultStem(isArray: bool, singleNode: bool): string {
    (if isArray then "slurm-%A_%a" else "slurm-%j")
    + (if !singleNode then "" else if isArray then "_%N" else "-%N")
  }

  lemma ErrNameOfStem(stem: string)
    ensures HasSuffix(stem + OutSuffix, OutSuffix)
    ensures ErrName(stem + OutSuffix) == stem + ErrSuffix
  {
    var s := stem + OutSuffix;
    assert s[|s| - |OutSuffix|..] == OutSuffix;
    assert s[..|s| - |OutSuffix|] == stem;
  }

  /** Both defaults are one stem with the .out.txt or .err.txt suffix; the
      stem depends only on whether there is an array and whether N is 1. */
  lemma DefaultNamesFollowStem(log: Option<string>, error: Option<string>, arraySpec: Option<string>, n: int)
    requires !Truthy(log) && !Truthy(error) && n >= 1
    ensures CheckLog(log, arraySpec, n) == Some(DefaultStem(Truthy(arraySpec), n == 1) + OutSuffix)
    ensures CheckError(error, arraySpec, n) == Some(DefaultStem(Truthy(arraySpec), n == 1) + ErrSuffix)
  {
    if Truthy(arraySpec) && n == 1 {
      assert "slurm-%A_%a" + "_%N" + OutSuffix == "slurm-%A_%a_%N.out.txt";
      assert "slurm-%A_%a" + "_%N" + ErrSuffix == "slurm-%A_%a_%N.err.txt";
    } else if Truthy(arraySpec) {
      assert "slurm-%A_%a" + "" + OutSuffix == "slurm-%A_%a.out.txt";
      assert "slurm-%A_%a" + "" + ErrSuffix == "slurm-%A_%a.err.txt";
    } else if n == 1 {
      assert "slurm-%j" + "-%N" + OutSuffix == "slurm-%j-%N.out.txt";
      assert "slurm-%j" + "-%N" + ErrSuffix == "slurm-%j-%N.err.txt";
    } else {
      assert "slurm-%j" + "" + OutSuffix == "slurm-%j.out.txt";
      assert "slurm-%j" + "" + ErrSuffix == "slurm-%j.err.txt";
    }
  }

  /** check_log_error: both names, each supplied one unchanged, and for
      N >= 1 a matching pair of defaults. */
  function CheckLogError(log: Option<string>, error: Option<string>, arraySpec: Option<string>, n: int)
    : (r: (Option<string>, Option<string>))
    ensures Truthy(log) ==> r.0 == log
    ensures Truthy(error) ==> r.1 == error
    ensures n < 1 ==> r == (log, error)
    ensures n >= 1 ==> Truthy(r.0) && Truthy(r.1)
  {
    (CheckLog(log, arraySpec, n), CheckError(error, arraySpec, n))
  }

  /** With neither name supplied and N >= 1, the default error name is the
      default output name with .err.txt in place of .out.txt. */
  lemma DefaultErrorFollowsOutput(log: Option<string>, error: Option<string>, arraySpec: Option<string>, n: int)
    requires !Truthy(log) && !Truthy(error) && n >= 1
    ensures var r := CheckLogError(log, error, arraySpec, n);
            r.0.Some? && HasSuffix(r.0.value, OutSuffix) && r.1 == Some(ErrName(r.0.value))
  {
    DefaultNamesFollowStem(log, error, arraySpec, n);
    ErrNameOfStem(DefaultStem(Truthy(arraySpec), n == 1));
  }

  // ---------------------------------------------------------------------
  // The base directives (SbatchGenerator / NewSbatchGenerator __init__)
  // ---------------------------------------------------------------------

  /** The parameters of one generator call; extras are the **kwargs in
      call order. */
  datatype Job = Job(time: string, tasks: int, cpu: int, nodes: int,
                     log: Option<string>, error: Option<string>,
                     arraySpec: Option<string>, throttle: Option<string>,
                     extras: seq<(string, string)>)

  /** The --array directive: present only for a truthy array spec, with
      %throttle only for a truthy throttle. */
  function ArrayDirective(arraySpec: Option<string>, throttle: Option<string>): seq<string> {
    if !Truthy(arraySpec) then []
    else if Truthy(throttle) then ["--array=" + arraySpec.value + "%" + throttle.value]
    else ["--array=" + arraySpec.value]
  }

  function Extra(kv: (string, string)): string {
    "--" + kv.0 + "=" + kv.1
  }

  /** One --key=value directive per keyword argument, in order. */
  function ExtraDirectives(extras: seq<(string, string)>): (r: seq<string>)
    ensures |r| == |extras|
  {
    if extras == [] then [] else ExtraDirectives(extras[..|extras| - 1]) + [Extra(extras[|extras| - 1])]
  }

  /** The i-th keyword argument gives the i-th directive. */
  lemma {:induction false} ExtraDirectivesAt(extras: seq<(string, string)>, i: int)
    requires 0 <= i < |extras|
    ensures ExtraDirectives(extras)[i] == Extra(extras[i])
    decreases |extras|
  {
    if i < |extras| - 1 {
      ExtraDirectivesAt(extras[..|extras| - 1], i);
    }
  }

  /** The directives the base constructor writes before the keyword
      arguments; emitN selects SbatchGenerator (true) or
      NewSbatchGenerator (false). */
  function FixedDirectives(job: Job, emitN: bool): seq<string> {
    var names := CheckLogError(job.log, job.error, job.arraySpec, job.nodes);
    ["--time=" + job.time, "--tasks=" + IntToString(job.tasks), "--cpus-per-task=" + IntToString(job.cpu)]
    + (if emitN then ["-N " + IntToString(job.nodes)] else [])
    + ["--output " + Show(names.0), "--error " + Show(names.1)]
    + ArrayDirective(job.arraySpec, job.throttle)
  }

  /** FixedDirectives as the base constructor writes it, one directive at
      a time. */
  lemma FixedDirectivesInWriteOrder(job: Job, emitN: bool)
    ensures var names := CheckLogError(job.log, job.error, job.arraySpec, job.nodes);
      FixedDirectives(job, emitN)
      == [] + ["--time=" + job.time] + ["--tasks=" + IntToString(job.tasks)]
         + ["--cpus-per-task=" + IntToString(job.cpu)]
         + (if emitN then ["-N " + IntToString(job.nodes)] else [])
         + ["--output " + Show(names.0)] + ["--error " + Show(names.1)]
         + ArrayDirective(job.arraySpec, job.throttle)
  {
  }

  /** Every directive the base constructor writes after the header. */
  function BaseDirectives(job: Job, emitN: bool): seq<string> {
    FixedDirectives(job, emitN) + ExtraDirectives(job.extras)
  }

  /** The file as the base constructor leaves it. */
  function BaseScript(job: Job, emitN: bool): seq<string> {
    [Header] + SbatchAll(BaseDirectives(job, emitN))
  }

  // ---------------------------------------------------------------------
  // Presets: the base script followed by a fixed trailer
  // ---------------------------------------------------------------------

  const A100Mem: string := "128789"
  const A40Mem: string := "514286"

  /** Keyword arguments the A100 and A40 presets pass to the GPU preset
      themselves; the caller repeating one of them is a TypeError. */
  const FixedByGpuPresets: set<string> := {"cpu", "tasks", "N", "mem"}

  predicate UsesKey(extras: seq<(string, string)>, keys: set<string>) {
    exists i :: 0 <= i < |extras| && extras[i].0 in keys
  }

  function CpuTrailer(): seq<string> {
    ["-p " + CpuQueue]
  }

  function GpuTrailer(gpu: int): seq<string> {
    ["--gres=gpu:" + IntToString(gpu), "-p " + GpuQueue]
  }

  function Rtx3090Trailer(): seq<string> {
    ["--gres=gpu:3090:1", "--mem-per-gpu=64283", "-p " + GpuQueue]
  }

  function MaxL40Trailer(memPerGpu: int): seq<string> {
    ["--mem-per-gpu=" + IntToString(memPerGpu), "-C genoa,gpu=L40s", "-p " + GpuQueue, "-G 1"]
  }

  function MiniGpuTrailer(mem: string): seq<string> {
    ["-p " + GpuQueue, "-G 1", "--mem " + mem]
  }

  /** SbatchGeneratorCPU */
  function CpuScript(job: Job): seq<string> {
    BaseScript(job, true) + SbatchAll(CpuTrailer())
  }

  /** SbatchGeneratorGPU */
  function GpuScript(job: Job, gpu: int): seq<string> {
    BaseScript(job, true) + SbatchAll(GpuTrailer(gpu))
  }

  /** The job the A100 preset hands to the GPU preset: one task on one node
      with 14 CPUs, and mem first among the keyword arguments. */
  function A100Job(time: string, log: Option<string>, error: Option<string>,
                   arraySpec: Option<string>, throttle: Option<string>,
                   extras: seq<(string, string)>): Job {
    Job(time, 1, 14, 1, log, error, arraySpec, throttle, [("mem", A100Mem)] + extras)
  }

  /** SbatchGeneratorA100: the GPU preset, then the A100 constraint. */
  function A100Script(time: string, gpu: int, log: Option<string>, error: Option<string>,
                      arraySpec: Option<string>, throttle: Option<string>,
                      extras: seq<(string, string)>): seq<string> {
    GpuScript(A100Job(time, log, error, arraySpec, throttle, extras), gpu) + SbatchAll(["-C gpu=A100"])
  }

  /** The job the A40 preset hands to the GPU preset: one task on one node
      with 64 CPUs, and mem first among the keyword arguments. */
  function A40Job(time: string, log: Option<string>, error: Option<string>,
                  arraySpec: Option<string>, throttle: Option<string>,
                  extras: seq<(string, string)>): Job {
    Job(time, 1, 64, 1, log, error, arraySpec, throttle, [("mem", A40Mem)] + extras)
  }

  /** SbatchGeneratorA40: the GPU preset, then the A40 constraint. */
  function A40Script(time: string, gpu: int, log: Option<string>, error: Option<string>,
                     arraySpec: Option<string>, throttle: Option<string>,
                     extras: seq<(string, string)>): seq<string> {
    GpuScript(A40Job(time, log, error, arraySpec, throttle, extras), gpu) + SbatchAll(["-C gpu=A40"])
  }

  /** SbatchGenerator3090 */
  function Rtx3090Script(job: Job): seq<string> {
    BaseScript(job, true) + SbatchAll(Rtx3090Trailer())
  }

  /** SbatchGeneratormaxL40: built on the generator without -N. */
  function MaxL40Script(job: Job, memPerGpu: int): seq<string> {
    BaseScript(job, false) + SbatchAll(MaxL40Trailer(memPerGpu))
  }

  /** SbatchGeneratorMiniGPU: built on the generator without -N. */
  function MiniGpuScript(job: Job, mem: string): seq<string> {
    BaseScript(job, false) + SbatchAll(MiniGpuTrailer(mem))
  }

  /** What every generator leaves behind: the interpreter line first, and
      a #SBATCH directive on every line after it. */
  predicate WellFormed(s: seq<string>) {
    |s| >= 1 && s[0] == Header && forall i :: 1 <= i < |s| ==> IsDirective(s[i])
  }
}
