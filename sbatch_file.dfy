/** The script file and the generators that write it. The file is its
    sequence of lines; every write is an append except the header, which
    opens the file for writing and so replaces whatever it held. Each
    generator's constructor is a method that leaves exactly the lines the
    matching function of SbatchRender describes. */
module SbatchFile {
  import opened PyValues
  import opened SbatchRender

  /** The two open() modes the writers use: "a" and "w". */
  datatype Mode = Append | Truncate

  /** The argument of write_list: one str, or a list of lines. */
  datatype LineList = Single(line: string) | Many(items: seq<string>)

  function ListLines(l: LineList): seq<string> {
    match l
    case Single(s) => [s]
    case Many(items) => items
  }

  class ScriptFile {
    const filename: string
    /** The lines of the file at filename, in order. */
    var lines: seq<string>

    /** FileGenerator.__init__ records the path and writes nothing: the file
        still holds whatever was there before. */
    constructor (filename: string, onDisk: seq<string>)
      ensures this.filename == filename && lines == onDisk
    {
      this.filename := filename;
      lines := onDisk;
    }

    /** write_line: the line and a newline, appended or (mode "w") on an
        emptied file. */
    method WriteLine(line: string, mode: Mode := Append)
      modifies this
      ensures lines == (if mode == Truncate then [] else old(lines)) + [line]
    {
      if mode == Truncate {
        lines := [];
      }
      lines := lines + [line];
    }

    /** write_list: one str becomes one line; a list becomes one line per
        element, in order. */
    method WriteList(list: LineList)
      modifies this
      ensures lines == old(lines) + ListLines(list)
    {
      match list
      case Single(s) =>
        WriteLine(s);
      case Many(items) =>
        for i := 0 to |items|
          invariant lines == old(lines) + items[..i]
        {
          WriteLine(items[i]);
        }
    }

    /** write_sbatch */
    method WriteSbatch(d: string)
      modifies this
      ensures lines == old(lines) + [Sbatch(d)]
    {
      WriteLine(Sbatch(d));
    }

    /** write_header: the interpreter line, in mode "w". */
    method WriteHeader()
      modifies this
      ensures lines == [Header]
    {
      WriteLine(Header, Truncate);
    }

    /** SbatchGenerator.__init__ (emitN) and NewSbatchGenerator.__init__
        (not emitN), with the same defaults. */
    method Init(emitN: bool, time: string := "1-00:00:00", tasks: int := 1, cpu: int := 1, n: int := 1,
                log: Option<string> := None, error: Option<string> := None,
                arraySpec: Option<string> := None, throttle: Option<string> := None,
                extras: seq<(string, string)> := [])
      modifies this
      ensures lines == BaseScript(Job(time, tasks, cpu, n, log, error, arraySpec, throttle, extras), emitN)
    {
      ghost var job := Job(time, tasks, cpu, n, log, error, arraySpec, throttle, extras);
      ghost var done: seq<string> := [];
      WriteHeader();
      assert lines == [Header] + SbatchAll(done);
      WriteSbatch("--time=" + time);
      SbatchStep([Header], done, "--time=" + time);
      done := done + ["--time=" + time];
      WriteSbatch("--tasks=" + IntToString(tasks));
      SbatchStep([Header], done, "--tasks=" + IntToString(tasks));
      done := done + ["--tasks=" + IntToString(tasks)];
      WriteSbatch("--cpus-per-task=" + IntToString(cpu));
      SbatchStep([Header], done, "--cpus-per-task=" + IntToString(cpu));
      done := done + ["--cpus-per-task=" + IntToString(cpu)];
      if emitN {
        WriteSbatch("-N " + IntToString(n));
        SbatchStep([Header], done, "-N " + IntToString(n));
      } else {
        SbatchNoStep([Header], done);
      }
      done := done + (if emitN then ["-N " + IntToString(n)] else []);
      var names := CheckLogError(log, error, arraySpec, n);
      WriteSbatch("--output " + Show(names.0));
      SbatchStep([Header], done, "--output " + Show(names.0));
      done := done + ["--output " + Show(names.0)];
      WriteSbatch("--error " + Show(names.1));
      SbatchStep([Header], done, "--error " + Show(names.1));
      done := done + ["--error " + Show(names.1)];
      if Truthy(arraySpec) {
        if Truthy(throttle) {
          WriteSbatch("--array=" + arraySpec.value + "%" + throttle.value);
          SbatchStep([Header], done, "--array=" + arraySpec.value + "%" + throttle.value);
        } else {
          WriteSbatch("--array=" + arraySpec.value);
          SbatchStep([Header], done, "--array=" + arraySpec.value);
        }
      } else {
        SbatchNoStep([Header], done);
      }
      done := done + ArrayDirective(arraySpec, throttle);
      FixedDirectivesInWriteOrder(job, emitN);
      assert done == FixedDirectives(job, emitN);
      ghost var fixedLines := SbatchAll(done);
      WriteExtras(extras);
      SbatchAllAppend(done, ExtraDirectives(extras));
      AppendAssoc([Header], fixedLines, SbatchAll(ExtraDirectives(extras)));
    }

    /** The loop over **kwargs in the base constructors: one --key=value
        directive per keyword argument, in call order. */
    method WriteExtras(extras: seq<(string, string)>)
      modifies this
      ensures lines == old(lines) + SbatchAll(ExtraDirectives(extras))
    {
      for i := 0 to |extras|
        invariant lines == old(lines) + SbatchAll(ExtraDirectives(extras[..i]))
      {
        WriteSbatch(Extra(extras[i]));
        assert extras[..i + 1][..i] == extras[..i];
        SbatchAllSnoc(ExtraDirectives(extras[..i]), Extra(extras[i]));
      }
      assert extras[..|extras|] == extras;
    }

    /** SbatchGeneratorCPU.__init__ */
    method InitCpu(time: string := "1-00:00", tasks: int := 1, cpu: int := 1, n: int := 1,
                   log: Option<string> := None, error: Option<string> := None,
                   arraySpec: Option<string> := None, throttle: Option<string> := None,
                   extras: seq<(string, string)> := [])
      modifies this
      ensures lines == CpuScript(Job(time, tasks, cpu, n, log, error, arraySpec, throttle, extras))
    {
      Init(true, time, tasks, cpu, n, log, error, arraySpec, throttle, extras);
      ghost var base := lines;
      WriteSbatch("-p " + CpuQueue);
      Written1(base, "-p " + CpuQueue);
    }

    /** SbatchGeneratorGPU.__init__ */
    method InitGpu(time: string := "1-00:00", tasks: int := 1, cpu: int := 1, gpu: int := 1, n: int := 1,
                   log: Option<string> := None, error: Option<string> := None,
                   arraySpec: Option<string> := None, throttle: Option<string> := None,
                   extras: seq<(string, string)> := [])
      modifies this
      ensures lines == GpuScript(Job(time, tasks, cpu, n, log, error, arraySpec, throttle, extras), gpu)
    {
      Init(true, time, tasks, cpu, n, log, error, arraySpec, throttle, extras);
      ghost var base := lines;
      WriteSbatch("--gres=gpu:" + IntToString(gpu));
      WriteSbatch("-p " + GpuQueue);
      Written2(base, "--gres=gpu:" + IntToString(gpu), "-p " + GpuQueue);
    }

    /** SbatchGeneratorA100.__init__: fails with a TypeError, writing
        nothing, when the keyword arguments repeat one the preset fixes. */
    method InitA100(time: string := "7-00:00", gpu: int := 1,
                    log: Option<string> := None, error: Option<string> := None,
                    arraySpec: Option<string> := None, throttle: Option<string> := None,
                    extras: seq<(string, string)> := [])
      returns (ok: bool)
      modifies this
      ensures ok == !UsesKey(extras, FixedByGpuPresets)
      ensures ok ==> lines == A100Script(time, gpu, log, error, arraySpec, throttle, extras)
      ensures !ok ==> lines == old(lines)
    {
      ok := !UsesKey(extras, FixedByGpuPresets);
      if ok {
        InitGpu(time, tasks := 1, cpu := 14, gpu := gpu, n := 1, log := log, error := error,
                arraySpec := arraySpec, throttle := throttle, extras := [("mem", A100Mem)] + extras);
        ghost var gpuLines := lines;
        WriteSbatch("-C gpu=A100");
        Written1(gpuLines, "-C gpu=A100");
      }
    }

    /** SbatchGeneratorA40.__init__: fails with a TypeError, writing
        nothing, when the keyword arguments repeat one the preset fixes. */
    method InitA40(time: string := "7-00:00", gpu: int := 1,
                   log: Option<string> := None, error: Option<string> := None,
                   arraySpec: Option<string> := None, throttle: Option<string> := None,
                   extras: seq<(string, string)> := [])
      returns (ok: bool)
      modifies this
      ensures ok == !UsesKey(extras, FixedByGpuPresets)
      ensures ok ==> lines == A40Script(time, gpu, log, error, arraySpec, throttle, extras)
      ensures !ok ==> lines == old(lines)
    {
      ok := !UsesKey(extras, FixedByGpuPresets);
      if ok {
        InitGpu(time, tasks := 1, cpu := 64, gpu := gpu, n := 1, log := log, error := error,
                arraySpec := arraySpec, throttle := throttle, extras := [("mem", A40Mem)] + extras);
        ghost var gpuLines := lines;
        WriteSbatch("-C gpu=A40");
        Written1(gpuLines, "-C gpu=A40");
      }
    }

    /** SbatchGenerator3090.__init__ */
    method Init3090(time: string := "1-00:00", tasks: int := 1, cpu: int := 16, n: int := 1,
                    log: Option<string> := None, error: Option<string> := None,
                    arraySpec: Option<string> := None, throttle: Option<string> := None,
                    extras: seq<(string, string)> := [])
      modifies this
      ensures lines == Rtx3090Script(Job(time, tasks, cpu, n, log, error, arraySpec, throttle, extras))
    {
      Init(true, time, tasks, cpu, n, log, error, arraySpec, throttle, extras);
      ghost var base := lines;
      WriteSbatch("--gres=gpu:3090:1");
      WriteSbatch("--mem-per-gpu=64283");
      WriteSbatch("-p " + GpuQueue);
      Written3(base, "--gres=gpu:3090:1", "--mem-per-gpu=64283", "-p " + GpuQueue);
    }

    /** SbatchGeneratormaxL40.__init__: on the generator without -N. */
    method InitMaxL40(time: string := "1-00:00:00", tasks: int := 1, cpu: int := 4, n: int := 1,
                      log: Option<string> := None, error: Option<string> := None,
                      arraySpec: Option<string> := None, throttle: Option<string> := None,
                      memPerGpu: int := 48300, extras: seq<(string, string)> := [])
      modifies this
      ensures lines == MaxL40Script(Job(time, tasks, cpu, n, log, error, arraySpec, throttle, extras), memPerGpu)
    {
      Init(false, time, tasks, cpu, n, log, error, arraySpec, throttle, extras);
      ghost var base := lines;
      WriteSbatch("--mem-per-gpu=" + IntToString(memPerGpu));
      WriteSbatch("-C genoa,gpu=L40s");
      WriteSbatch("-p " + GpuQueue);
      WriteSbatch("-G 1");
      Written4(base, "--mem-per-gpu=" + IntToString(memPerGpu), "-C genoa,gpu=L40s", "-p " + GpuQueue, "-G 1");
    }

    /** SbatchGeneratorMiniGPU.__init__: on the generator without -N. */
    method InitMiniGpu(time: string := "1-00:00:00", tasks: int := 1, cpu: int := 4, n: int := 1,
                       log: Option<string> := None, error: Option<string> := None,
                       arraySpec: Option<string> := None, throttle: Option<string> := None,
                       mem: string := "20G", extras: seq<(string, string)> := [])
      modifies this
      ensures lines == MiniGpuScript(Job(time, tasks, cpu, n, log, error, arraySpec, throttle, extras), mem)
    {
      Init(false, time, tasks, cpu, n, log, error, arraySpec, throttle, extras);
      ghost var base := lines;
      WriteSbatch("-p " + GpuQueue);
      WriteSbatch("-G 1");
      WriteSbatch("--mem " + mem);
      Written3(base, "-p " + GpuQueue, "-G 1", "--mem " + mem);
    }
  }
}
