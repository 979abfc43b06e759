# mfsbench drivers in Dafny

This project models the small drivers that mfsbench uses to set up and run
its many-core file-system benchmarks, and it proves their properties:

- **set_cpus.py** handles the CPU-range codec and core hot-plugging:
  - `parse_cores` reads taskset-style text such as `0-12,13-15,18` into a set of core ids;
  - `shorten_cores` (with `find_max_continous_sequence`) writes a set back as the shortest range text;
  - `set_cpu`, `set_cpus` and `reset` switch cores on and off through their sysfs `online` files.

  In `CpuRanges.dfy` the parser is a loop proved against a reference function. The formatter is a loop proved against the run decomposition of the sorted cores. Their round trip is proved for every non-empty set. In `CpuControl.dfy` the sysfs files become a `CpuTable` class that holds a map from core to online state.
- **macros/test_filebench.py** runs filebench workers (`Filebench.dfy`):
  - one worker per (disk, directory) pair gets a generated job script;
  - each worker scans the tool's output for its first `Summary:` line and publishes that line's IOPS and throughput;
  - the runner joins the workers, then drains and sums the queue.

  The ram-disk layout it shares with postmark is in `Layout.dfy`.
- **macros/test_postmark.py** builds postmark tests (`Postmark.dfy`):
  - a `PostMarkTest` class builds one postmark configuration per (disk, directory) pair;
  - it launches one pinned postmark task per pair and names each run's output prefix;
  - the NUMA and scalability sweeps create tests and run them in a fixed order.
- **micros/directio.cpp** is the I/O micro-benchmark (`DirectIo.dfy`):
  - a `Worker` class holds the `cur_offset` cursor, and `next_offset` moves it with C's truncating `/` and `%`;
  - `main` checks its parameters, collects the files and their sizes, and binds threads to workers.

Shared pieces are in three more files. `Text.dfy` holds the Python string operations the scripts use (`isdigit`, `int`, `'%d'`, `split`, `os.path.join`). `Wrappers.dfy` holds `Option` and `Result`. `Arith.dfy` holds a monotonicity lemma for products.

Every outside effect becomes a parameter:
- the filebench and postmark processes;
- `float()` and `get_cpu_id`;
- `SysInfo::get_size`, `open` and the random draws.

Launching a process is recorded as a value (`Launch`, `Job`) instead of being performed.

## Model

| member | source | states |
|---|---|---|
| Text.Split | set_cpus.py:37 | `str.split(sep)` never returns an empty list, no piece holds the separator, and joining the pieces gives back the input |
| Text.SplitJoin | set_cpus.py:37 | Splitting undoes joining when no piece holds the separator |
| Text.Decimal | set_cpus.py:80-82 | `'%d' % n` is a non-empty digit string with a leading zero only for 0 |
| Text.DecimalValue | set_cpus.py:42 | `int('%d' % n) == n` |
| Text.DecimalInjective | set_cpus.py:80-82 | Two different numbers never print the same |
| Text.Fields | macros/test_filebench.py:62 | `line.split()` gives non-empty fields with no whitespace, and the first field starts with the line's first character |
| Text.FieldsWordThen | macros/test_filebench.py:62 | A word followed by whitespace or by the end of the line is one field, and splitting carries on after it |
| Text.FieldsWord | macros/test_filebench.py:62 | A single word splits into itself |
| Text.FieldsJoin | macros/test_filebench.py:62 | Splitting words joined by a whitespace character gives the words back |
| Text.FieldsEmptyIffBlank | macros/test_filebench.py:62 | `line.split()` is empty exactly when the line is all whitespace |
| CpuRanges.RangeSet | set_cpus.py:48 | `range(lo, hi + 1)` holds exactly the cores `lo <= c <= hi`, and nothing when `hi < lo` |
| CpuRanges.ParseCores | set_cpus.py:29-49 | The loop computes the reference parse. It succeeds exactly when every comma token is well formed, and then yields exactly the cores some token names |
| CpuRanges.ParseTokensStep | set_cpus.py:38-48 | One more loop round combines the result so far with the next token's cores or error |
| CpuRanges.ParseTokensPrefixError | set_cpus.py:40-47 | Once a token raises, the whole parse raises the same error |
| CpuRanges.ParseTokensMeaning | set_cpus.py:36-49 | A list of tokens parses exactly when every token is well formed, and the result is the union of the tokens' cores |
| CpuRanges.ParseTokensFirstError | set_cpus.py:38-47 | The first malformed token decides which `ValueError` is raised |
| CpuRanges.ParseOrderIrrelevant | set_cpus.py:36-49 | Reordering or repeating tokens changes neither success nor the parsed set |
| CpuRanges.ParseTokensAppend | set_cpus.py:38-48 | Parsing a concatenation of token lists combines the parses of its parts |
| CpuRanges.ParseTokensCons | set_cpus.py:38-48 | Parsing a token list combines its head token with the rest |
| CpuRanges.LeastOf | set_cpus.py:71 | A non-empty set has a smallest core (constructive) |
| CpuRanges.Least | set_cpus.py:71 | The smallest core of a non-empty set is in the set and below every other |
| CpuRanges.SortedCores | set_cpus.py:71 | `sorted(list(cores))` is strictly increasing and holds exactly the set's cores |
| CpuRanges.SortedCoresEmpty | set_cpus.py:71-73 | The sorted list is empty exactly when the set is |
| CpuRanges.RunEnd | set_cpus.py:58-62 | The scan stops after `start` and no later than the end of the list |
| CpuRanges.RunEndMaximal | set_cpus.py:58-65 | The run is consecutive, and the scan stops only where the next value breaks it |
| CpuRanges.RunValues | set_cpus.py:58-62 | The k-th value of a run is its first value plus k |
| CpuRanges.FindMaxContinuousSequence | set_cpus.py:52-65 | Returns the maximal run of consecutive integers from `start` (empty past the end). It is a non-empty slice of the input that cannot be extended |
| CpuRanges.RunTokens | set_cpus.py:76-82 | There is at least one token while cores remain |
| CpuRanges.PrefixedAppend | set_cpus.py:80-82 | Each round appends `,` and the round's token to the buffer |
| CpuRanges.PrefixedJoin | set_cpus.py:83 | Dropping the leading comma of the buffer gives the tokens joined by commas |
| CpuRanges.AppendRun | set_cpus.py:77-82 | One round appends `,lo-hi` for a run of several cores or `,lo` for one, and moves `start` past the run |
| CpuRanges.EmitRun | set_cpus.py:76-82 | A round moves exactly one run token from the pending to the emitted tokens |
| CpuRanges.RunTokensNonEmpty | set_cpus.py:83 | The joined text is non-empty while cores remain |
| CpuRanges.ShortenCores | set_cpus.py:68-83 | The loop produces the reference format, which is `''` exactly for the empty set |
| CpuRanges.RunIsRange | set_cpus.py:79-80 | A run holds exactly the cores from its first to its last value |
| CpuRanges.RangeTokenParses | set_cpus.py:44-48 | `lo-hi` parses back to the cores `lo..hi` and holds no comma |
| CpuRanges.SingleTokenParses | set_cpus.py:39-42 | A lone number parses back to that single core and holds no comma |
| CpuRanges.RunTextParses | set_cpus.py:79-82 | Each run's token parses back to exactly the run's cores |
| CpuRanges.RunTokensParse | set_cpus.py:76-82 | The tokens from any run onwards parse back to the cores from there on |
| CpuRanges.FormatParseRoundTrip | set_cpus.py:68-83 | `parse_cores(shorten_cores(s)) == s` for every non-empty set of cores |
| CpuRanges.EmptySetDoesNotRoundTrip | set_cpus.py:72-73 | The empty set formats as `''`, and `parse_cores('')` raises "is not digital" |
| CpuRanges.TrailingCommaRejected | set_cpus.py:37-41 | A trailing comma leaves an empty token that raises |
| CpuRanges.ReversedRangeIsEmpty | set_cpus.py:48 | A reversed range such as `5-3` is accepted and names no core |
| CpuControl.Written | set_cpus.py:93-102 | Writing a state to a set of cores keeps the table's keys (the possible CPUs) |
| CpuControl.WrittenNothing | set_cpus.py:132-135 | Writing to no core leaves the table unchanged |
| CpuControl.WrittenOneMore | set_cpus.py:132-135 | Writing one more core changes only that core, and only when it has a file and is not core 0 |
| CpuControl.SetCpusOutcome | set_cpus.py:125-135 | After the two loops: core 0 is unchanged, named cores are online, cores switched off are offline and the others are untouched |
| CpuControl.CpuTable.constructor | set_cpus.py:14-26 | The table starts with the possible CPUs as its keys and their current states |
| CpuControl.CpuTable.SetCpu | set_cpus.py:86-102 | Fails exactly when asked to switch core 0 off. Otherwise it writes the new state of `core`, except for core 0, a dry run or a core without a file |
| CpuControl.CpuTable.SetCpus | set_cpus.py:125-135 | A malformed text raises with nothing written. Otherwise named cores go online and unnamed ones offline. It fails exactly when core 0 is possible but not named, and then only the cores already switched off have changed |
| CpuControl.CpuTable.SwitchOn | set_cpus.py:132-133 | Every named core that has a file goes online (nothing on a dry run) |
| CpuControl.CpuTable.SwitchOff | set_cpus.py:134-135 | Switches the unnamed cores off in some order. It fails exactly when core 0 is among them, having switched off a subset of the others |
| CpuControl.CpuTable.Reset | set_cpus.py:105-109 | Every possible core other than core 0 is online afterwards |
| Layout.PathJoinSuffix | macros/test_filebench.py:92-93 | `os.path.join(a, b)` with a relative `b` is `a`, a separator if needed, then `b` |
| Layout.RamDiskDirShape | macros/test_filebench.py:92-93 | The test directory is the base's join prefix followed by `ram<disk>/test<dir>` |
| Layout.RamDiskDirSuffix | macros/test_filebench.py:92-93 | Every test directory ends in `ram<disk>/test<dir>`, whatever the base |
| Layout.Row | macros/test_filebench.py:91 | The inner loop visits `(disk, 0) .. (disk, dirs - 1)` in order |
| Layout.DiskDirPairs | macros/test_filebench.py:90-91 | The nested loops visit `disks * dirs` pairs, all in range |
| Layout.DiskDirPairsAt | macros/test_filebench.py:90-91 | Pair `(d, k)` is visited at position `d * dirs + k` |
| Layout.PairsStep | macros/test_filebench.py:91-97 | One inner-loop step appends the pair `(disk, dir)` |
| Filebench.JobScriptLines | macros/test_filebench.py:47-55 | Filebench reads back the job script's lines (`load`, the five settings, `$meanappendsize=4k`, `run 10`) in order, provided no argument holds a newline |
| Filebench.JobLinesHaveNoNewline | macros/test_filebench.py:47-55 | No line of the job script holds a newline |
| Filebench.DigitRunEnd | macros/test_filebench.py:64 | `\d+` matches the longest run of digits |
| Filebench.FirstDigitFrom | macros/test_filebench.py:64 | The search finds the first digit, or none exactly when no digit follows |
| Filebench.NumberSpan | macros/test_filebench.py:64 | `re.search(r'\d+(\.\d+)?', s)` fails exactly when `s` has no digit. Otherwise the match starts at the first digit, is a numeral and cannot be extended |
| Filebench.DottedNumeral | macros/test_filebench.py:64 | Digits, a dot and more digits form a numeral |
| Filebench.NumberText | macros/test_filebench.py:64 | The matched text is a numeral, and there is none exactly when `s` has no digit |
| Filebench.NumberTextExample | macros/test_filebench.py:64 | `123.45MB/s` gives `123.45`, `7mb/s` gives `7`, `x1.y` gives `1` and `mb/s` gives no match |
| Filebench.FirstSummary | macros/test_filebench.py:59-61 | Finds the first line containing `Summary:`, or none exactly when no line contains it |
| Filebench.ExtractResult | macros/test_filebench.py:62-66 | IOPS is `float(fields[6])` and throughput is the first numeral of `fields[10]`. Too few fields, a bad float or no number raise |
| Filebench.FirstSummaryDecides | macros/test_filebench.py:59-68 | Only the first summary line counts; every later line is ignored |
| Filebench.SilentIffNoSummary | macros/test_filebench.py:59-68 | A worker publishes nothing and raises nothing exactly when no line is a summary line |
| Filebench.FilebenchTask | macros/test_filebench.py:44-68 | The scan loop ends the way the reference outcome says: one result, silence, or the exception of the first summary line |
| Filebench.Jobs | macros/test_filebench.py:90-95 | `start_filebench` launches `ndisks * ndirs` workers |
| Filebench.JobsOf | macros/test_filebench.py:90-97 | One job per (disk, dir) pair |
| Filebench.JobsOfAt | macros/test_filebench.py:92-95 | Job `i` is the job for pair `i` |
| Filebench.JobsAt | macros/test_filebench.py:90-95 | Job `disk * ndirs + dir` runs in `basedir/ram<disk>/test<dir>` with 1000 files, one process, one thread and `4k` I/O |
| Filebench.PublishedResults | macros/test_filebench.py:67 | The queue holds at most one result per worker |
| Filebench.PublishedFromJobs | macros/test_filebench.py:67 | Every result on the queue was published by one of the launched jobs |
| Filebench.PublishedAppend | macros/test_filebench.py:90-99 | Launching more workers appends their results to the queue |
| Filebench.JobsOfAppend | macros/test_filebench.py:90-97 | The jobs of concatenated pair lists are the concatenated jobs |
| Filebench.TotalAppend | macros/test_filebench.py:100-104 | The sum of a concatenation is the sum of the sums |
| Filebench.TotalRemove | macros/test_filebench.py:101-104 | Taking one result off the queue takes it out of the sum |
| Filebench.TotalPermutation | macros/test_filebench.py:100-104 | The counters do not depend on the order in which workers published |
| Filebench.StartTask | macros/test_filebench.py:94-96 | One worker leaves at most one result on the queue: its own outcome's result |
| Filebench.Drain | macros/test_filebench.py:100-104 | The drain loop's counters are the element-wise sum of the queue |
| Filebench.LaunchDisk | macros/test_filebench.py:91-97 | The inner loop launches the jobs of one disk's row, and the queue gains their results |
| Filebench.LaunchAll | macros/test_filebench.py:90-97 | The loops launch exactly the jobs in disk-major order, and the queue holds their results |
| Filebench.StartFilebench | macros/test_filebench.py:80-106 | The counters are the sum of what the launched jobs published, and zero when none published |
| Postmark.LinesOfFour | macros/test_postmark.py:54-57 | Four newline-terminated writes are the four lines joined by newlines, with an empty last piece |
| Postmark.ConfigTextLines | macros/test_postmark.py:54-57 | Postmark reads back `set number N`, `set location L`, `run` and `quit`, in that order |
| Postmark.WriteConfig | macros/test_postmark.py:49-58 | The `StringIO` buffer holds the configuration text |
| Postmark.Configurations | macros/test_postmark.py:46-58 | There is one configuration per (disk, dir) pair |
| Postmark.ConfigurationsAt | macros/test_postmark.py:46-58 | Entry `disk * num_dirs + dir` is the configuration for `BASE_DIR/ram<disk>/test<dir>` |
| Postmark.RunPrefixFields | macros/test_postmark.py:63-64 | The run prefix splits on `_` back into fstype, disks, dirs, NUMA configuration and iteration |
| Postmark.ScalePrefixFields | macros/test_postmark.py:78-79 | The scalability prefix splits into `scale`, fstype, disks, dirs and iteration |
| Postmark.RunOutputsDistinct | macros/test_postmark.py:72-73 | The launches of one run write pairwise distinct outputs |
| Postmark.PostMarkTest.constructor | macros/test_postmark.py:23-34 | A new test has its constants, no configurations and no launches |
| Postmark.PostMarkTest.PrepareConfigurations | macros/test_postmark.py:42-58 | Rebuilds the list from scratch, so the list depends only on the test and `num` |
| Postmark.PostMarkTest.Run | macros/test_postmark.py:60-75 | Sets the run prefix and rebuilds the configurations. Then it appends one launch per configuration, on core `get_cpu_id(numa_conf, t)` and fed configuration `t` |
| Postmark.PostMarkTest.StartRunTasks | macros/test_postmark.py:69-74 | The launch loop appends exactly the run's launches, in order |
| Postmark.PostMarkTest.RunScalability | macros/test_postmark.py:77-87 | The same with the `scale_` prefix: task `t` runs on core `t` and writes `scale_result` |
| Postmark.PostMarkTest.StartScaleTasks | macros/test_postmark.py:83-86 | The launch loop appends exactly the scalability launches, in order |
| Postmark.RunTaskInput | macros/test_postmark.py:69-74 | The launch for pair `(disk, dir)` reads the configuration for that pair's own directory |
| Postmark.RunLaunchAt | macros/test_postmark.py:69-74 | Launch `t` takes configuration `t` and runs on core `get_cpu_id(numa_conf, t)` |
| Postmark.NumaPrefixes | macros/test_postmark.py:91-93 | `run_one_test` performs four runs per iteration |
| Postmark.NumaPrefixesAt | macros/test_postmark.py:91-93 | Run `c * iterations + i` is iteration `i` of the c-th NUMA configuration (`die`, `package`, `near`, `far`) |
| Postmark.IterationLaunchesLength | macros/test_postmark.py:69-74 | Every iteration launches one task per configuration |
| Postmark.IterationLaunchesAt | macros/test_postmark.py:63-74 | With `C` configurations, launch `i * C + t` of a NUMA configuration's iterations is task `t` of iteration `i`: core `get_cpu_id(numa_conf, t)`, output `result_th_t` under that iteration's prefix, configuration `t` |
| Postmark.NumaLaunchesLength | macros/test_postmark.py:89-93 | With `C` configurations, `run_one_test` launches `4 * iterations * C` tasks |
| Postmark.NumaLaunchesAt | macros/test_postmark.py:89-93 | Block `k` of the launches of `run_one_test` is the launches of the k-th NUMA configuration's iterations |
| Postmark.RunOneTest | macros/test_postmark.py:89-93 | The runs happen with the prefixes of the product order, configuration outer and iteration inner. The launch log grows by exactly the four NUMA blocks of launches, and the test is left with the last run's prefix and configurations |
| Postmark.RunIterations | macros/test_postmark.py:91-93 | The inner rounds run iterations `0 .. n - 1` of one NUMA configuration. The launch log grows by exactly those iterations' launches, in order |
| Postmark.NumaSweep | macros/test_postmark.py:101-104 | The sweep performs one `run_one_test` block per directory count |
| Postmark.NumaSweepBlock | macros/test_postmark.py:101-104 | Block `k` of the sweep is the two-disk test with `k + 1` directories |
| Postmark.RunTests | macros/test_postmark.py:95-104 | `run_tests` runs 2 disks with 1 to 4 directories, in that order. Its launches are the four `run_one_test` launch blocks of those tests, in the same order |
| Postmark.ScaleRound | macros/test_postmark.py:116-119 | One sweep point runs iterations `0 .. n - 1` of the one-disk, one-directory test |
| Postmark.ScaleRoundLaunches | macros/test_postmark.py:112-119 | Every launch of a sweep point runs on core 0 and writes `scale_result` |
| Postmark.Repeat | macros/test_postmark.py:114 | Repeating a block n times gives n times its length and nothing new |
| Postmark.RepeatBlock | macros/test_postmark.py:114-119 | Every repetition equals the first block |
| Postmark.RunScalabilityTests | macros/test_postmark.py:106-119 | The eight sweep points launch the same one task per iteration. The thread count is never used |
| DirectIo.CRem | micros/directio.cpp:139 | C's `%` takes the sign of the dividend and stays below the divisor in size |
| DirectIo.CDivRem | micros/directio.cpp:152 | `(a / b) * b + a % b == a` with C's truncating operators |
| DirectIo.ParseIoType | micros/directio.cpp:185-193 | Only `sequential`, `random` and `random_block` are accepted, and any other value is reported back |
| DirectIo.ParseIoTypeName | micros/directio.cpp:185-193 | Each I/O type is selected by its own name |
| DirectIo.SeqStepInRange | micros/directio.cpp:139 | With a non-negative I/O size the cursor stays in `[0, file_size)` |
| DirectIo.NegativeIoSizeLeavesRange | micros/directio.cpp:139 | A negative `--iosize` drives the cursor below zero |
| DirectIo.SeqCursorClosedForm | micros/directio.cpp:137-140 | After k sequential steps from 0 the cursor is `k * iosize` wrapped into the file |
| DirectIo.RoundDown1024 | micros/directio.cpp:152 | `ret / 1024 * 1024` is a multiple of 1024 within 1024 of `ret`, rounding toward zero |
| DirectIo.RoundDownBlock | micros/directio.cpp:146-152 | A block-aligned random offset is unchanged by rounding |
| DirectIo.Worker.OnFile | micros/directio.cpp:68-74 | A file worker has its thread id, descriptor and size, and starts at offset 0 |
| DirectIo.Worker.InRam | micros/directio.cpp:76-82 | A RAM worker has descriptor 0 and the buffer size, and starts at offset 0 |
| DirectIo.Worker.NextOffset | micros/directio.cpp:133-154 | Returns the old cursor or the draw, rounded down to a multiple of 1024. Only the sequential walk advances the cursor |
| DirectIo.Worker.RunRequests | micros/directio.cpp:88-100 | Request `i` uses the offset of its position in the walk, and the cursor ends where k steps leave it |
| DirectIo.RequestOffset | micros/directio.cpp:133-154 | Every request offset is a multiple of 1024 |
| DirectIo.SequentialOffsets | micros/directio.cpp:137-152 | A fresh sequential worker issues `i * iosize` wrapped and rounded, always inside the file |
| DirectIo.CollectFiles | micros/directio.cpp:221-226 | Succeeds exactly when every FILE has a positive size, returning the files and their sizes. Otherwise it reports the first file without one |
| DirectIo.NoFilePassesCheck | micros/directio.cpp:195-197 | As written, a file run with no FILE passes the parameter check and leaves the file list empty |
| DirectIo.MissingParametersIffNoFile | micros/directio.cpp:195-197 | The intended check fires exactly when a file run has no FILE |
| DirectIo.PlanRun | micros/directio.cpp:185-241 | Rejects a wrong I/O type, then missing parameters. It succeeds exactly when all checks pass: a RAM run of 512 MiB, or the first file with its positive size and non-negative descriptor |
| DirectIo.FileThreadsShareLastWorker | micros/directio.cpp:246-257 | As written, every thread of a file run drives the last worker |
| DirectIo.SpawnWorkers | micros/directio.cpp:205-210 | Creates distinct fresh workers `0 .. n - 1` with cursor 0 and the plan's descriptor and size. It binds thread `i` to worker `i`, so every worker is driven by exactly one thread |
| DirectIo.TargetsAreOneToOne | micros/directio.cpp:255-257 | With the intended binding each of the `n` workers is driven by exactly one thread, and no thread drives a missing worker |

## Left out

- Process launching, `Popen`/`communicate`, `os.system`, `os.makedirs`, mounting and `call`:
  - the filebench output is a parameter function of the job script;
  - each postmark launch is recorded as a `Launch` value;
  - a sysfs write is an update of the `CpuTable` map, and a write to a core without a file changes nothing.
- Concurrency:
  - filebench workers run to completion one after another in the model, so the queue is in launch order; `TotalPermutation` shows that the sum does not depend on that order;
  - directio threads are bound to workers but do not run concurrently.
- Python's `float()` is a parameter, and the counters are exact reals with no rounding.
- `isdigit` and `\d` are modelled on the ASCII digits only. `str.split()` uses Python's full whitespace set (`IsSpace`).
- `all_possible_cpus` (the sysfs glob) is a parameter of the `CpuTable` constructor.
- `list_cpus`, the Python `main` functions, option parsing and the dry-run messages are not modelled. They are I/O around the modelled functions.
- The `main` of directio is modelled up to the start of the threads, by `PlanRun` and `SpawnWorkers`. Joining the threads and reporting are not modelled.
- `prepare_disks`, `test_run` and `run_filebench` (profilers and mounting) are not modelled, and neither are `NumaRamDiskTest`, `pre_test`, `post_test` and `get_output_file`:
  - they belong to a base class or to plotting and I/O helpers that are not part of this model;
  - `get_cpu_id` is the parameter `cpuOf`, and `BASE_DIR` a constructor argument;
  - an output file is recorded by its name alone.
- The `options.debug` and progress `print`s are not modelled.
- Postmark.PostMarkTest.constructor: `base_output_file` is not set by `__init__`; the model starts it as `""`.
- DirectIo.Worker.RunRequests: the `pread`/`pwrite`/`memcpy` calls, `is_read`, the read ratio, the timing and `report()` are not modelled, only the offsets.
- `rand_r`, the `seed` global and the floating-point draw are not modelled. The draw is the integer parameter `draw`, already truncated, as `RawOffset` describes.
- `off_t` is unbounded in the model, so the 64-bit overflow of `cur_offset + iosize` on huge files is not modelled.
- `FLAGS_directio` only chooses `O_DIRECT` when the file is opened, so `open` is one parameter.
- `posix_memalign` failures are not modelled.
- Filebench.JobScript: the script is its ten lines joined by newlines. This is the same text as the template in `filebench_task`.
- A reversed range such as `5-3` is accepted and adds no core (`ReversedRangeIsEmpty`).
- The parse of `5-3`, the empty set, formats as `''`, and parsing `''` raises, so formatting and parsing do not round-trip on it (`EmptySetDoesNotRoundTrip`).
- The drivers have no checkpoint, deadline or retry, so none is modelled.
- Filebench.StartFilebench: takes all four of `workload`, `ndisks`, `ndirs` and `basedir` as arguments. The defaults `'fileserver'`, 4, 1 and `'ramdisks'` (macros/test_filebench.py:83-86) are not modelled, because the only caller passes all four.
- DirectIo.PlanRun: uses the corrected missing-FILE check `argc < 2` rather than the `!argc` the code has. The code as written is `NoFilePassesCheck`, listed under Findings.
- DirectIo.SpawnWorkers: binds thread `i` to worker `i` in a file run too, rather than to `workers.back()` as the code does. The code as written is `FileThreadsShareLastWorker`, listed under Findings.
- `run_scalability_tests` never passes `num_threads` on. The model states this behaviour (`RunScalabilityTests`) rather than a thread count the code does not use.

## Findings

| source | as written | input that shows it | evidently intended | confidence | as-written member | corrected member |
|---|---|---|---|---|---|---|
| micros/directio.cpp:195 | `!FLAGS_ramio && !argc` fires only when `argc` is 0, which never happens because `argc` counts the program name | `directio --io_type=sequential` with no FILE: the check passes, the file list stays empty and `files[0]` is read out of range | a file run without `--ramio` needs at least one FILE (`argc < 2`) | not executed; read from the code | DirectIo.NoFilePassesCheck | DirectIo.PlanRun |
| micros/directio.cpp:256 | every thread of a file run is bound to `workers.back()`, since all workers were added before the threads start | `--num_threads=2` with one FILE: both threads drive worker 1 and share its cursor, and worker 0 never runs | thread `i` drives worker `i`, as in the RAM branch at line 210 | not executed; read from the code | DirectIo.FileThreadsShareLastWorker | DirectIo.SpawnWorkers |
