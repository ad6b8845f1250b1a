/** Concrete uses of the generators: rewriting the header, the usage
    example of the generator module (a GPU script, one more directive,
    then shell commands), and two scripts written out in full. */
module SbatchExamples {
  import opened PyValues
  import opened SbatchRender
  import opened SbatchProperties
  import opened SbatchFile

  /** Writing the header, a line and the header again leaves the header
      alone, whatever the file held before the first write. */
  method HeaderResetsFile(filename: string, onDisk: seq<string>, line: string) returns (content: seq<string>)
    ensures content == [Header]
  {
    var f := new ScriptFile(filename, onDisk);
    f.WriteHeader();
    f.WriteLine(line);
    f.WriteHeader();
    content := f.lines;
  }

  /** The module's usage example: a GPU script, one more directive, then
      shell commands, which end up after every directive in input order. */
  method UsageExample(onDisk: seq<string>, cmds: seq<string>) returns (content: seq<string>)
    ensures var job := Job("1:00", 5, 2, 1, Some("log_file.txt"), None, None, None, [("mem", "1024")]);
            var directives := GpuScript(job, 1) + [Sbatch("-e error.txt")];
            && content == directives + cmds
            && WellFormed(directives)
  {
    var f := new ScriptFile("submit.sbatch", onDisk);
    f.InitGpu(time := "1:00", cpu := 2, tasks := 5, log := Some("log_file.txt"), extras := [("mem", "1024")]);
    f.WriteSbatch("-e error.txt");
    f.WriteList(Many(cmds));
    content := f.lines;
    ghost var job := Job("1:00", 5, 2, 1, Some("log_file.txt"), None, None, None, [("mem", "1024")]);
    GpuLayout(job, 1);
    SbatchAll1("-e error.txt");
    AppendKeepsWellFormed(GpuScript(job, 1), ["-e error.txt"]);
  }

  // ---------------------------------------------------------------------
  // Two concrete scripts
  // ---------------------------------------------------------------------

  /** Writing the directives a and then b after the lines h. */
  lemma ScriptAppend(h: seq<string>, a: seq<string>, b: seq<string>)
    ensures (h + SbatchAll(a)) + SbatchAll(b) == h + SbatchAll(a + b)
  {
    SbatchAllAppend(a, b);
    AppendAssoc(h, SbatchAll(a), SbatchAll(b));
  }

  /** SbatchGenerator's fixed directives, flattened. */
  lemma FixedWithNode(job: Job)
    ensures var names := CheckLogError(job.log, job.error, job.arraySpec, job.nodes);
            FixedDirectives(job, true)
            == ["--time=" + job.time, "--tasks=" + IntToString(job.tasks),
                "--cpus-per-task=" + IntToString(job.cpu), "-N " + IntToString(job.nodes),
                "--output " + Show(names.0), "--error " + Show(names.1)]
               + ArrayDirective(job.arraySpec, job.throttle)
  {
    var names := CheckLogError(job.log, job.error, job.arraySpec, job.nodes);
    Flatten6("--time=" + job.time, "--tasks=" + IntToString(job.tasks),
             "--cpus-per-task=" + IntToString(job.cpu), "-N " + IntToString(job.nodes),
             "--output " + Show(names.0), "--error " + Show(names.1),
             ArrayDirective(job.arraySpec, job.throttle));
  }

  lemma Flatten6(a: string, b: string, c: string, d: string, e: string, f: string, r: seq<string>)
    ensures [a, b, c] + [d] + [e, f] + r == [a, b, c, d, e, f] + r
  {
  }

  lemma AppendNothing(s: seq<string>)
    ensures s + [] == s
  {
  }

  lemma IntToString1()
    ensures IntToString(1) == "1"
  {
  }

  lemma IntToString2()
    ensures IntToString(2) == "2"
  {
  }

  lemma IntToString14()
    ensures IntToString(14) == "14"
  {
    assert IntToString(14) == [DigitChar(1), DigitChar(4)];
  }

  lemma A100ExampleNames()
    ensures CheckLogError(None, None, None, 1) == (Some("slurm-%j-%N.out.txt"), Some("slurm-%j-%N.err.txt"))
  {
  }

  lemma A100ExampleTimeText()
    ensures "--time=" + "7-00:00" == "--time=7-00:00"
  {
  }

  lemma A100ExampleCountTexts()
    ensures "--tasks=" + IntToString(1) == "--tasks=1"
    ensures "--cpus-per-task=" + IntToString(14) == "--cpus-per-task=14"
    ensures "-N " + IntToString(1) == "-N 1"
  {
    IntToString1();
    IntToString14();
  }

  lemma A100ExampleOutputText()
    ensures "--output " + Show(Some("slurm-%j-%N.out.txt")) == "--output slurm-%j-%N.out.txt"
  {
  }

  lemma A100ExampleErrorText()
    ensures "--error " + Show(Some("slurm-%j-%N.err.txt")) == "--error slurm-%j-%N.err.txt"
  {
  }

  lemma A100ExampleDirectives()
    ensures FixedDirectives(A100Job("7-00:00", None, None, None, None, []), true)
            == ["--time=7-00:00", "--tasks=1", "--cpus-per-task=14", "-N 1",
                "--output slurm-%j-%N.out.txt", "--error slurm-%j-%N.err.txt"]
  {
    var job := A100Job("7-00:00", None, None, None, None, []);
    FixedWithNode(job);
    A100ExampleNames();
    A100ExampleTimeText();
    A100ExampleCountTexts();
    A100ExampleOutputText();
    A100ExampleErrorText();
    assert ArrayDirective(None, None) == [];
    AppendNothing(["--time=7-00:00", "--tasks=1", "--cpus-per-task=14", "-N 1",
                   "--output slurm-%j-%N.out.txt", "--error slurm-%j-%N.err.txt"]);
  }

  lemma A100ExampleTrailer()
    ensures GpuTrailer(2) == ["--gres=gpu:2", "-p gpu-el8"]
  {
    IntToString2();
    assert "--gres=gpu:" + "2" == "--gres=gpu:2";
    assert "-p " + GpuQueue == "-p gpu-el8";
  }

  lemma Join10(a: string, b: string, c: string, d: string, e: string, f: string,
               m: string, g: string, q: string, x: string)
    ensures [a, b, c, d, e, f] + [m] + [g, q] + [x] == [a, b, c, d, e, f, m, g, q, x]
  {
  }

  /** An A100 job with two GPUs and nothing else supplied: the header, then
      these ten directives. */
  lemma A100Example()
    ensures A100Script("7-00:00", 2, None, None, None, None, [])
            == [Header] + SbatchAll(["--time=7-00:00", "--tasks=1", "--cpus-per-task=14", "-N 1",
                                     "--output slurm-%j-%N.out.txt", "--error slurm-%j-%N.err.txt",
                                     "--mem=128789", "--gres=gpu:2", "-p gpu-el8", "-C gpu=A100"])
  {
    var job := A100Job("7-00:00", None, None, None, None, []);
    var base := BaseDirectives(job, true);
    assert ExtraDirectives(job.extras) == ["--mem=128789"] by {
      A100MemText();
      assert job.extras == [("mem", A100Mem)];
    }
    A100ExampleDirectives();
    ScriptAppend([Header], base, GpuTrailer(2));
    ScriptAppend([Header], base + GpuTrailer(2), ["-C gpu=A100"]);
    A100ExampleTrailer();
    Join10("--time=7-00:00", "--tasks=1", "--cpus-per-task=14", "-N 1",
           "--output slurm-%j-%N.out.txt", "--error slurm-%j-%N.err.txt",
           "--mem=128789", "--gres=gpu:2", "-p gpu-el8", "-C gpu=A100");
  }

  lemma CpuArrayExampleNames()
    ensures CheckLogError(None, None, Some("0-9"), 1)
            == (Some("slurm-%A_%a_%N.out.txt"), Some("slurm-%A_%a_%N.err.txt"))
  {
  }

  lemma CpuArrayExampleTimeText()
    ensures "--time=" + "1-00:00" == "--time=1-00:00"
  {
  }

  lemma CpuArrayExampleCountTexts()
    ensures "--tasks=" + IntToString(1) == "--tasks=1"
    ensures "--cpus-per-task=" + IntToString(1) == "--cpus-per-task=1"
    ensures "-N " + IntToString(1) == "-N 1"
  {
    IntToString1();
  }

  lemma CpuArrayExampleOutputText()
    ensures "--output " + Show(Some("slurm-%A_%a_%N.out.txt")) == "--output slurm-%A_%a_%N.out.txt"
  {
  }

  lemma CpuArrayExampleErrorText()
    ensures "--error " + Show(Some("slurm-%A_%a_%N.err.txt")) == "--error slurm-%A_%a_%N.err.txt"
  {
  }

  lemma CpuArrayExampleArray()
    ensures ArrayDirective(Some("0-9"), Some("2")) == ["--array=0-9%2"]
  {
    assert "--array=" + "0-9" + "%" + "2" == "--array=0-9%2";
  }

  lemma CpuArrayExampleDirectives()
    ensures FixedDirectives(Job("1-00:00", 1, 1, 1, None, None, Some("0-9"), Some("2"), []), true)
            == ["--time=1-00:00", "--tasks=1", "--cpus-per-task=1", "-N 1",
                "--output slurm-%A_%a_%N.out.txt", "--error slurm-%A_%a_%N.err.txt"] + ["--array=0-9%2"]
  {
    var job := Job("1-00:00", 1, 1, 1, None, None, Some("0-9"), Some("2"), []);
    FixedWithNode(job);
    CpuArrayExampleNames();
    CpuArrayExampleTimeText();
    CpuArrayExampleCountTexts();
    CpuArrayExampleOutputText();
    CpuArrayExampleErrorText();
    CpuArrayExampleArray();
  }

  lemma Join8(a: string, b: string, c: string, d: string, e: string, f: string, r: string, q: string)
    ensures [a, b, c, d, e, f] + [r] + [] + [q] == [a, b, c, d, e, f, r, q]
  {
  }

  /** A CPU job array 0-9 with at most two tasks at a time: the array
      directive comes after the per-task names and before the partition. */
  lemma CpuArrayExample()
    ensures CpuScript(Job("1-00:00", 1, 1, 1, None, None, Some("0-9"), Some("2"), []))
            == [Header] + SbatchAll(["--time=1-00:00", "--tasks=1", "--cpus-per-task=1", "-N 1",
                                     "--output slurm-%A_%a_%N.out.txt", "--error slurm-%A_%a_%N.err.txt",
                                     "--array=0-9%2", "-p htc-el8"])
  {
    var job := Job("1-00:00", 1, 1, 1, None, None, Some("0-9"), Some("2"), []);
    var base := BaseDirectives(job, true);
    assert ExtraDirectives(job.extras) == [];
    CpuArrayExampleDirectives();
    ScriptAppend([Header], base, CpuTrailer());
    assert CpuTrailer() == ["-p htc-el8"] by {
      assert "-p " + CpuQueue == "-p htc-el8";
    }
    Join8("--time=1-00:00", "--tasks=1", "--cpus-per-task=1", "-N 1",
          "--output slurm-%A_%a_%N.out.txt", "--error slurm-%A_%a_%N.err.txt",
          "--array=0-9%2", "-p htc-el8");
  }
}
