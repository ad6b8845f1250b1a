# sbatch script renderer

A Dafny model of `sbatch.py`, a small Python module that writes Slurm
batch scripts.

A script starts with the `#!/bin/bash` header. The base generator then
writes a fixed, ordered list of `#SBATCH` directives:

- `--time`, `--tasks` and `--cpus-per-task`;
- `-N`, except in the newer generator;
- `--output` and `--error`;
- `--array`, if an array spec is given;
- one `--key=value` line per extra keyword argument.

Each preset (CPU, GPU, A100, A40, 3090, maxL40, MiniGPU) calls a base
generator and then appends its own fixed trailer. When no file name is
supplied, the base generators pick default output and error names from two
things: whether the job is an array, and how `N` compares with 1. The Slurm
tokens `%j`, `%N`, `%A` and `%a` are copied into the names literally.

The model has five modules:

- `PyValues` (`py_values.dfy`): the Python values the lines are built
  from.
  - An optional `str` parameter is `Option<string>`.
  - `Truthy` is Python's `if x:`, so `None` and `""` are both false.
  - `Show` is what an f-string prints. `None` prints as `None`.
  - `IntToString` is `str()` of an `int`, proved to read back as the same
    number.
- `SbatchRender` (`sbatch_render.dfy`): pure functions.
  - `CheckLog`, `CheckError` and `CheckLogError` choose the default names.
  - `FixedDirectives`, `ExtraDirectives` and `BaseScript` give the lines a
    base constructor writes.
  - Each preset's trailer and whole script is a function too.
- `SbatchFile` (`sbatch_file.dfy`): the file is class `ScriptFile`,
  holding its lines in a `seq<string>` field.
  - `WriteLine`, `WriteList`, `WriteSbatch` and `WriteHeader` change that
    field the way the Python writers change the file.
  - Each generator's `__init__` is an `Init…` method. Its `ensures` clause
    says the file ends up holding exactly the lines of the matching
    `SbatchRender` function.
  - `Init` covers both base generators. `emitN` is true for
    `SbatchGenerator`, which writes `-N`, and false for
    `NewSbatchGenerator`, which does not.
- `SbatchProperties` (`sbatch_properties.dfy`): what those scripts look like.
  - The base output, line by line.
  - Every line after the header is a `#SBATCH` directive.
  - The newer generator is the older one minus its `-N` line.
  - Each preset is the base output followed by its trailer, in order.
- `SbatchExamples` (`sbatch_examples.dfy`) holds the concrete cases:
  - the header resetting the file;
  - the module's own usage example;
  - an A100 script and a CPU job-array script, written out in full.

The A100 and A40 presets pass `cpu`, `tasks`, `N` and `mem` to the GPU
preset themselves. A caller who passes one of these again gets a
`TypeError` before anything is written. `InitA100` and `InitA40` model
this: they return `ok == false` and leave the file unchanged.

The source's own docstring example passes `time=1:00`, which Python cannot
parse. `UsageExample` passes the string `"1:00"` instead.

## Model

| member | source | states |
|---|---|---|
| PyValues.IntToString | sbatch.py:59-61 | str() of an int parameter is non-empty, starts with '-' exactly when the number is negative, and is decimal digits after any sign |
| PyValues.IntToStringRoundTrip | sbatch.py:59-61 | the --tasks, --cpus-per-task and -N values lose nothing: reading the digits back gives the number written |
| SbatchRender.SbatchAllAt | sbatch.py:100-101 | the i-th line of a run of write_sbatch calls is "#SBATCH " followed by the i-th directive |
| SbatchRender.SbatchAllAppend | sbatch.py:100-101 | writing two lists of directives one after the other writes the lines of their concatenation |
| SbatchRender.CheckLog | sbatch.py:89-98 | a supplied (truthy) log name is returned unchanged; without one, N < 1 leaves it as it was; otherwise the default is slurm-%j-%N.out.txt, slurm-%j.out.txt, slurm-%A_%a_%N.out.txt or slurm-%A_%a.out.txt, chosen by array/no array and N == 1 / N > 1 |
| SbatchRender.CheckError | sbatch.py:78-87 | the same four-way table for the error name with .err.txt; a supplied name is unchanged; N < 1 with no name gives no default |
| SbatchRender.CheckLogError | sbatch.py:73-76 | each supplied name is kept; for N < 1 both names come back as given; for N >= 1 both names are truthy |
| SbatchRender.DefaultNamesFollowStem | sbatch.py:78-98 | with no names supplied and N >= 1, both defaults are one stem plus .out.txt or .err.txt; the stem is slurm-%A_%a or slurm-%j, followed by _%N or -%N only when N is 1 |
| SbatchRender.DefaultErrorFollowsOutput | sbatch.py:78-98 | the default error name is the default output name with its .out.txt suffix replaced by .err.txt |
| SbatchRender.ExtraDirectivesAt | sbatch.py:70-71 | the i-th extra keyword argument (key, value) becomes the i-th directive --key=value |
| SbatchFile.ScriptFile.constructor | sbatch.py:22-23 | FileGenerator records the file name and writes nothing; the file keeps whatever it held |
| SbatchFile.ScriptFile.WriteLine | sbatch.py:25-27 | in append mode the file gains exactly one line at the end and every earlier line is kept; in "w" mode it holds only the new line |
| SbatchFile.ScriptFile.WriteList | sbatch.py:29-34 | a single str appends exactly that one line; a list appends its elements in order, so the file grows by exactly its length |
| SbatchFile.ScriptFile.WriteSbatch | sbatch.py:100-101 | appends the one line "#SBATCH " + directive |
| SbatchFile.ScriptFile.WriteHeader | sbatch.py:103-104 | afterwards the file is exactly ["#!/bin/bash"], whatever it held before |
| SbatchFile.ScriptFile.Init | sbatch.py:43-71 | the base constructor leaves exactly BaseScript: the header, then the fixed directives, then the keyword directives; -N only when emitN |
| SbatchFile.ScriptFile.WriteExtras | sbatch.py:70-71 | the kwargs loop appends one --key=value directive per keyword argument, in call order, after what was there |
| SbatchFile.ScriptFile.InitCpu | sbatch.py:184-198 | SbatchGeneratorCPU leaves the base script followed by -p htc-el8 |
| SbatchFile.ScriptFile.InitGpu | sbatch.py:201-217 | SbatchGeneratorGPU leaves the base script followed by --gres=gpu:{gpu} and -p gpu-el8 |
| SbatchFile.ScriptFile.InitA100 | sbatch.py:220-223 | a keyword argument repeating cpu, tasks, N or mem is a TypeError and writes nothing; otherwise the GPU script for 1 task, 14 CPUs, N=1 and mem=128789 first among the kwargs, followed by -C gpu=A100 |
| SbatchFile.ScriptFile.InitA40 | sbatch.py:226-229 | the same for 64 CPUs, mem=514286 and -C gpu=A40 |
| SbatchFile.ScriptFile.Init3090 | sbatch.py:231-236 | SbatchGenerator3090 (16 CPUs by default) leaves the base script followed by --gres=gpu:3090:1, --mem-per-gpu=64283 and -p gpu-el8 |
| SbatchFile.ScriptFile.InitMaxL40 | sbatch.py:239-246 | SbatchGeneratormaxL40 leaves the script without -N followed by --mem-per-gpu={mem_per_gpu}, -C genoa,gpu=L40s, -p gpu-el8 and -G 1 |
| SbatchFile.ScriptFile.InitMiniGpu | sbatch.py:248-254 | SbatchGeneratorMiniGPU leaves the script without -N followed by -p gpu-el8, -G 1 and --mem {mem} |
| SbatchProperties.SbatchIsDirective | sbatch.py:100-101 | every line write_sbatch writes begins with "#SBATCH " |
| SbatchProperties.AppendKeepsWellFormed | sbatch.py:100-101 | appending write_sbatch lines to a script keeps the header first and every later line a directive, and leaves the earlier lines untouched |
| SbatchProperties.FixedLayout | sbatch.py:58-69 | the directives before the kwargs are --time, --tasks, --cpus-per-task, -N (only with emitN), --output {log}, --error {error}, then --array={array} with %{throttle} only for a truthy throttle, and --array only for a truthy array spec |
| SbatchProperties.BaseScriptExtraLine | sbatch.py:70-71 | the i-th keyword directive sits right after the fixed directives, at line k + 2 + a + i (k = 5 with -N and 4 without; a = 1 when there is an --array line) |
| SbatchProperties.BaseScriptLayout | sbatch.py:56-71 | the base output line by line: its length, the header, each fixed directive at its position with a space after --output/--error, the optional --array line, and each keyword directive in order |
| SbatchProperties.BaseScriptWellFormed | sbatch.py:100-104 | every base output starts with #!/bin/bash and every later line is a #SBATCH directive |
| SbatchProperties.FixedDropsNode | sbatch.py:128-139 | NewSbatchGenerator's fixed directives are SbatchGenerator's with the fourth one (-N {N}) removed |
| SbatchProperties.NewGeneratorDropsNodeLine | sbatch.py:126-141 | NewSbatchGenerator writes exactly SbatchGenerator's lines without line 4 (-N), with the same names chosen from N |
| SbatchProperties.NoDefaultNameBelowOneNode | sbatch.py:62-64 | with N < 1 and no names, the script carries "--output None" and "--error None" |
| SbatchProperties.CpuLayout | sbatch.py:197-198 | the CPU script is the base output kept intact plus -p htc-el8, and is well-formed |
| SbatchProperties.GpuLayout | sbatch.py:215-217 | the GPU script is the base output plus --gres=gpu:{gpu} then -p gpu-el8, and is well-formed |
| SbatchProperties.A100Layout | sbatch.py:221-223 | A100 fixes 1 task, 14 CPUs and N=1; --mem=128789 is the first keyword line; the GPU trailer and then -C gpu=A100 follow the base output; well-formed |
| SbatchProperties.A40Layout | sbatch.py:227-229 | A40 fixes 1 task, 64 CPUs and N=1; --mem=514286 is the first keyword line; the GPU trailer and then -C gpu=A40 follow; well-formed |
| SbatchProperties.Rtx3090Layout | sbatch.py:233-236 | the 3090 script is the base output plus its three trailer lines in order, and is well-formed |
| SbatchProperties.MaxL40Layout | sbatch.py:241-246 | the maxL40 script is the output without -N plus its four trailer lines in order, and is well-formed |
| SbatchProperties.MiniGpuLayout | sbatch.py:250-254 | the MiniGPU script is the output without -N plus -p gpu-el8, -G 1, --mem {mem}, and is well-formed |
| SbatchExamples.HeaderResetsFile | sbatch.py:103-104 | after header, line, header, the file is just the header, whatever it held at the start |
| SbatchExamples.UsageExample | sbatch.py:8-12 | the docstring's usage: the GPU script, then -e error.txt, then the commands in input order; the directive part is well-formed |
| SbatchExamples.A100Example | sbatch.py:220-223 | an A100 job with two GPUs and nothing else: the header and ten named directives, in order |
| SbatchExamples.CpuArrayExample | sbatch.py:184-198 | a CPU job array 0-9 throttled to 2: the per-task names slurm-%A_%a_%N, then --array=0-9%2, then -p htc-el8 |

## Left out

- submit_script (sbatch.py:38-39, 106-111) runs the external sbatch program through subprocess; external process execution is not modelled.
- The file is an in-memory sequence of lines. Opening, writing, permission and path errors are not modelled.
- A line containing a newline is kept as one line. Writing it to disk would split it into several.
- Only the open() modes "a" and "w" are modelled, as the Mode datatype. They are the only modes the writers use.
- The write_lines alias (sbatch.py:36), the module-level aliases and the __main__ print (sbatch.py:258-269) are names for members already modelled, or a message.
- Optional parameters are None or a str. Truthiness of other Python values, such as array=0, is not modelled.
- int parameters (tasks, cpu, N, gpu, mem_per_gpu) are Dafny ints rendered by str(). Other values an f-string could print are not modelled.
- MiniGPU's mem is a string, as its default '20G' is, despite its int annotation.
- Extra keyword arguments are an ordered sequence of (key, value) pairs. A Python call cannot repeat a key or use a key that names a parameter, for example log, time or gpu. The model does not exclude such sequences.
- array_throttle reaches the base constructor through **kwargs in every preset except the base generators. The model gives every Init… method an explicit throttle parameter, which has the same effect.
- The A40 gpu count likewise reaches the GPU preset through **kwargs. InitA40 takes it as an explicit gpu parameter with the same default, 1.
- CheckLogError: the relation between the two default names is stated by the lemma DefaultErrorFollowsOutput, not in the function's own ensures.
- The presets are methods of one ScriptFile class, not subclasses, so Python's dynamic dispatch between generator classes is not modelled.
