/**
 * The I/O micro-benchmark of micros/directio.cpp. Each `Worker` issues a
 * fixed number of requests against one file (or one RAM buffer); the offset
 * of each request comes from `next_offset`, which walks the file
 * sequentially or draws a random position, and always rounds the offset down
 * to a multiple of 1024. `main` parses the I/O type, checks the file sizes,
 * builds the workers and starts one thread per worker.
 *
 * C's `/` and `%` truncate toward zero; they are written out as `CDiv` and
 * `CRem`. The command-line flags (`--io_type`, `--iosize`, `--ramio`, ...)
 * and the random draws are parameters.
 */
module DirectIo {
  import opened Wrappers
  import opened Arith

  // ---------------------------------------------------------------------------
  // C integer division.

  /** C's `a / b` for `b > 0`: the quotient truncated toward zero. */
  function CDiv(a: int, b: int): int
    requires b > 0
  {
    if a >= 0 then a / b else -((-a) / b)
  }

  /** C's `a % b` for `b > 0`: the remainder takes the sign of `a`. */
  function CRem(a: int, b: int): (r: int)
    requires b > 0
    ensures a >= 0 ==> 0 <= r < b
    ensures a < 0 ==> -b < r <= 0
  {
    if a >= 0 then a % b else -((-a) % b)
  }

  /** The C identity `(a / b) * b + a % b == a`. */
  lemma CDivRem(a: int, b: int)
    requires b > 0
    ensures CDiv(a, b) * b + CRem(a, b) == a
  {
    if a < 0 {
      assert (-a) / b * b + (-a) % b == -a;
    }
  }

  // ---------------------------------------------------------------------------
  // The I/O type flag.

  datatype IoType = Sequential | Random | RandomBlock

  /** The flag value that selects each I/O type. */
  function IoTypeName(t: IoType): string {
    match t
    case Sequential => "sequential"
    case Random => "random"
    case RandomBlock => "random_block"
  }

  /**
   * The `--io_type` check of `main`: one of the three names, or a fatal
   * "Wrong io type" error carrying the rejected value.
   */
  function ParseIoType(flag: string): (r: Result<IoType, string>)
    ensures r.Ok? <==> flag == "sequential" || flag == "random" || flag == "random_block"
    ensures r.Ok? ==> IoTypeName(r.value) == flag
    ensures r.Err? ==> r.error == flag
  {
    if flag == "sequential" then Ok(Sequential)
    else if flag == "random" then Ok(Random)
    else if flag == "random_block" then Ok(RandomBlock)
    else Err(flag)
  }

  /** Every I/O type is selected by its own name. */
  lemma ParseIoTypeName(t: IoType)
    ensures ParseIoType(IoTypeName(t)) == Ok(t)
  {
  }

  // ---------------------------------------------------------------------------
  // Offsets.

  /** The sequential walk: `(cur_offset + iosize) % file_size`. */
  function SeqStep(cur: int, iosize: int, fileSize: int): int
    requires fileSize > 0
  {
    CRem(cur + iosize, fileSize)
  }

  /** With a non-negative I/O size the cursor never leaves `[0, file_size)`. */
  lemma SeqStepInRange(cur: int, iosize: int, fileSize: int)
    requires fileSize > 0 && 0 <= cur < fileSize && iosize >= 0
    ensures 0 <= SeqStep(cur, iosize, fileSize) < fileSize
  {
  }

  /**
   * Nothing checks `--iosize`: a negative size drives the cursor below zero,
   * so the next sequential offset is negative.
   */
  lemma NegativeIoSizeLeavesRange()
    ensures SeqStep(0, -4096, 1048576) == -4096
  {
  }

  /** The cursor after `k` sequential requests. */
  function SeqCursor(start: int, iosize: int, fileSize: int, k: nat): int
    requires fileSize > 0
  {
    if k == 0 then start else SeqStep(SeqCursor(start, iosize, fileSize, k - 1), iosize, fileSize)
  }

  /** Euclidean `%` is determined by any quotient/remainder split. */
  lemma DivModUnique(y: int, q: int, r: int, n: int)
    requires n > 0 && y == q * n + r && 0 <= r < n
    ensures y % n == r
  {
    var q', r' := y / n, y % n;
    assert y == q' * n + r';
    var d := q - q';
    assert d * n == r' - r;
    if d >= 1 {
      MulLe(1, d, n);
      assert false;
    } else if d <= -1 {
      assert false;
    }
  }

  lemma ModAddMultiple(x: nat, m: nat, n: nat)
    requires n > 0
    ensures (x + m * n) % n == x % n
  {
    var q := x / n;
    assert x == q * n + x % n;
    assert x + m * n == (q + m) * n + x % n;
    DivModUnique(x + m * n, q + m, x % n, n);
  }

  lemma ModOfSum(a: nat, b: nat, n: nat)
    requires n > 0
    ensures (a % n + b) % n == (a + b) % n
  {
    var q := a / n;
    assert a == q * n + a % n;
    ModAddMultiple(a % n + b, q, n);
    assert a % n + b + q * n == a + b;
  }

  /**
   * From a fresh worker (cursor 0) with a non-negative I/O size, the `k`-th
   * sequential offset before rounding is `k * iosize` wrapped into the file.
   */
  lemma {:induction false} SeqCursorClosedForm(iosize: int, fileSize: int, k: nat)
    requires fileSize > 0 && iosize >= 0
    ensures SeqCursor(0, iosize, fileSize, k) == (k * iosize) % fileSize
  {
    if k > 0 {
      SeqCursorClosedForm(iosize, fileSize, k - 1);
      ModOfSum((k - 1) * iosize, iosize, fileSize);
      assert (k - 1) * iosize + iosize == k * iosize;
    }
  }

  /** `ret / 1024 * 1024` in C. */
  function RoundDown1024(raw: int): (r: int)
    ensures r % 1024 == 0
    ensures raw >= 0 ==> raw - 1024 < r <= raw
    ensures raw < 0 ==> raw <= r < raw + 1024
  {
    CDivRem(raw, 1024);
    CDiv(raw, 1024) * 1024
  }

  /** A block-aligned random offset is already a multiple of 1024 and is kept as is. */
  lemma RoundDownBlock(block: int)
    ensures RoundDown1024(block * 4096) == block * 4096
  {
    CDivRem(block * 4096, 1024);
    assert block * 4096 == (block * 4) * 1024;
    if block >= 0 {
      assert CRem(block * 4096, 1024) == 0;
    } else {
      assert (-(block * 4096)) == (-block * 4) * 1024;
      assert CRem(block * 4096, 1024) == 0;
    }
  }

  /**
   * The offset before rounding. `draw` is the random part computed from
   * `rand_r` in floating point: the truncated offset itself for `random`, the
   * truncated block number for `random_block`.
   */
  function RawOffset(ioType: IoType, cur: int, draw: int): int {
    match ioType
    case Sequential => cur
    case Random => draw
    case RandomBlock => draw * 4096
  }

  // ---------------------------------------------------------------------------
  // Workers.

  /** One benchmark thread's state. */
  class Worker {
    const threadId: int
    const fd: int
    const fileSize: int
    /** Whether the worker does its I/O in the shared RAM buffer instead of the file. */
    const inRam: bool
    var curOffset: int

    /** `Worker(thd_id, file_desc, fsize)`: I/O on an open file. */
    constructor OnFile(thdId: int, fileDesc: int, fsize: int)
      ensures threadId == thdId && fd == fileDesc && fileSize == fsize && !inRam
      ensures curOffset == 0
    {
      threadId := thdId;
      fd := fileDesc;
      fileSize := fsize;
      inRam := false;
      curOffset := 0;
    }

    /** `Worker(thd_id, ram, buf_size)`: I/O in RAM; the descriptor is 0. */
    constructor InRam(thdId: int, bufSize: int)
      ensures threadId == thdId && fd == 0 && fileSize == bufSize && inRam
      ensures curOffset == 0
    {
      threadId := thdId;
      fd := 0;
      fileSize := bufSize;
      inRam := true;
      curOffset := 0;
    }

    /**
     * `next_offset`: the old cursor (sequential) or the draw (random), rounded
     * down to a multiple of 1024; only the sequential walk moves the cursor.
     */
    method NextOffset(ioType: IoType, iosize: int, draw: int) returns (ret: int)
      requires fileSize > 0
      modifies this`curOffset
      ensures ret == RoundDown1024(RawOffset(ioType, old(curOffset), draw))
      ensures curOffset == if ioType == Sequential then SeqStep(old(curOffset), iosize, fileSize) else old(curOffset)
      ensures ret % 1024 == 0
    {
      ret := 0;
      match ioType {
        case Sequential =>
          ret := curOffset;
          curOffset := CRem(curOffset + iosize, fileSize);
        case Random =>
          ret := draw;
        case RandomBlock =>
          ret := draw * 4096;
      }
      ret := CDiv(ret, 1024) * 1024;
    }

    /**
     * The request loop of `operator()`: one offset per request, request `i`
     * using `draws[i]`. The reads, writes and timing are not modelled.
     */
    method RunRequests(ioType: IoType, iosize: int, draws: seq<int>) returns (offsets: seq<int>)
      requires fileSize > 0
      modifies this`curOffset
      ensures |offsets| == |draws|
      ensures forall i :: 0 <= i < |draws| ==>
        offsets[i] == RequestOffset(ioType, old(curOffset), iosize, fileSize, draws[i], i)
      ensures curOffset == CursorAfter(ioType, old(curOffset), iosize, fileSize, |draws|)
    {
      ghost var start := curOffset;
      offsets := [];
      var i := 0;
      while i < |draws|
        invariant 0 <= i <= |draws|
        invariant |offsets| == i
        invariant forall j :: 0 <= j < i ==> offsets[j] == RequestOffset(ioType, start, iosize, fileSize, draws[j], j)
        invariant curOffset == CursorAfter(ioType, start, iosize, fileSize, i)
      {
        var offset := NextOffset(ioType, iosize, draws[i]);
        offsets := offsets + [offset];
        i := i + 1;
      }
    }
  }

  /** The cursor after `k` requests: only the sequential walk moves it. */
  function CursorAfter(ioType: IoType, start: int, iosize: int, fileSize: int, k: nat): int
    requires fileSize > 0
  {
    if ioType == Sequential then SeqCursor(start, iosize, fileSize, k) else start
  }

  /** The offset of request `i` of a worker whose cursor started at `start`. */
  function RequestOffset(ioType: IoType, start: int, iosize: int, fileSize: int, draw: int, i: nat): (r: int)
    requires fileSize > 0
    ensures r % 1024 == 0
  {
    RoundDown1024(RawOffset(ioType, CursorAfter(ioType, start, iosize, fileSize, i), draw))
  }

  /**
   * A fresh worker walking sequentially with a non-negative I/O size issues
   * offsets `0, iosize, 2 * iosize, ...` wrapped into the file and rounded
   * down to 1024, all inside the file.
   */
  lemma SequentialOffsets(iosize: int, fileSize: int, i: nat)
    requires fileSize > 0 && iosize >= 0
    ensures RequestOffset(Sequential, 0, iosize, fileSize, 0, i) == RoundDown1024((i * iosize) % fileSize)
    ensures 0 <= RoundDown1024((i * iosize) % fileSize) < fileSize
  {
    SeqCursorClosedForm(iosize, fileSize, i);
  }

  // ---------------------------------------------------------------------------
  // main.

  /** `RAMFILE_SIZE`: the shared buffer of `--ramio` runs, 512 MiB. */
  const RamFileSize: int := 512 * 1024 * 1024

  /** The FILE arguments: everything after the program name. */
  function FileArguments(argv: seq<string>): seq<string> {
    if |argv| == 0 then [] else argv[1..]
  }

  /**
   * The file loop of `main`: every argument after the program name is a
   * target file, and its size (`sizeOf`, i.e. `SysInfo::get_size`) must be
   * positive, otherwise the run aborts on that file.
   */
  method CollectFiles(argv: seq<string>, sizeOf: string -> int)
    returns (r: Result<(seq<string>, seq<int>), string>)
    ensures r.Ok? <==> forall i :: 1 <= i < |argv| ==> sizeOf(argv[i]) > 0
    ensures r.Ok? ==> r.value.0 == FileArguments(argv)
    ensures r.Ok? ==> |r.value.1| == |r.value.0|
                      && forall i :: 0 <= i < |r.value.1| ==> r.value.1[i] == sizeOf(r.value.0[i]) > 0
    ensures r.Err? ==> exists i :: 1 <= i < |argv| && sizeOf(argv[i]) <= 0 && r.error == argv[i]
                                  && forall j :: 1 <= j < i ==> sizeOf(argv[j]) > 0
  {
    if |argv| == 0 {
      // The loop from 1 to argc does not run.
      return Ok(([], []));
    }
    var files: seq<string> := [];
    var sizes: seq<int> := [];
    var i := 1;
    while i < |argv|
      invariant 1 <= i <= |argv|
      invariant forall j :: 1 <= j < i ==> sizeOf(argv[j]) > 0
      invariant files == argv[1..i]
      invariant |sizes| == |files|
      invariant forall j :: 0 <= j < |sizes| ==> sizes[j] == sizeOf(files[j]) > 0
    {
      files := files + [argv[i]];
      var fileSize := sizeOf(argv[i]);
      if !(fileSize > 0) {
        return Err(argv[i]);
      }
      sizes := sizes + [fileSize];
      i := i + 1;
    }
    r := Ok((files, sizes));
  }

  /**
   * The "Missing parameters" check of `main` as written, `!FLAGS_ramio && !argc`:
   * it fires only when `argc` is 0.
   */
  predicate MissingParametersAsWritten(ramio: bool, argc: nat) {
    !ramio && argc == 0
  }

  /**
   * Without `--ramio` and without any FILE (`argc` is 1, the program name
   * alone), the check as written lets the run go on with an empty file list,
   * and `files[0]` is then read out of range.
   */
  lemma NoFilePassesCheck()
    ensures !MissingParametersAsWritten(false, |["directio"]|)
    ensures FileArguments(["directio"]) == []
  {
  }

  /** The check as intended: a file run needs at least one FILE after the program name. */
  predicate MissingParameters(ramio: bool, argc: nat) {
    !ramio && argc < 2
  }

  /** The intended check fires exactly when a file run has no file to open. */
  lemma MissingParametersIffNoFile(ramio: bool, argv: seq<string>)
    ensures MissingParameters(ramio, |argv|) <==> !ramio && |FileArguments(argv)| == 0
  {
  }

  /** What `main` sets up before starting the threads. */
  datatype RunPlan =
    | RamRun(ioType: IoType, bufSize: int)
    | FileRun(ioType: IoType, file: string, fd: int, fileSize: int)

  /**
   * `main` up to the thread start, with the intended parameter check: the I/O
   * type, the parameter check, then either the RAM buffer or the files, their
   * sizes, and the descriptor of the first file (`open` is a parameter; a
   * negative descriptor ends the run).
   */
  method PlanRun(ioTypeFlag: string, ramio: bool, argv: seq<string>, sizeOf: string -> int,
                 open: string -> int)
    returns (r: Result<RunPlan, string>)
    ensures ParseIoType(ioTypeFlag).Err? ==> r == Err("Wrong io type: " + ioTypeFlag)
    ensures ParseIoType(ioTypeFlag).Ok? && MissingParameters(ramio, |argv|) ==> r == Err("Missing parameters!")
    ensures r.Ok? <==> && ParseIoType(ioTypeFlag).Ok? && !MissingParameters(ramio, |argv|)
                       && (ramio || ((forall i :: 1 <= i < |argv| ==> sizeOf(argv[i]) > 0) && open(argv[1]) >= 0))
    ensures r.Ok? ==> r.value.ioType == ParseIoType(ioTypeFlag).value
    ensures r.Ok? && ramio ==> r.value == RamRun(r.value.ioType, RamFileSize)
    ensures r.Ok? && !ramio ==> r.value.FileRun? && |argv| >= 2 && r.value.file == argv[1]
                                && r.value.fileSize == sizeOf(argv[1]) > 0
                                && r.value.fd == open(argv[1]) >= 0
  {
    var parsed := ParseIoType(ioTypeFlag);
    if parsed.Err? {
      return Err("Wrong io type: " + ioTypeFlag);
    }
    var ioType := parsed.value;
    if MissingParameters(ramio, |argv|) {
      return Err("Missing parameters!");
    }
    if ramio {
      return Ok(RamRun(ioType, RamFileSize));
    }
    var collected := CollectFiles(argv, sizeOf);
    if collected.Err? {
      return Err("file size of " + collected.error + " is not positive");
    }
    var (files, sizes) := collected.value;
    assert files[0] == argv[1];
    var fd := open(files[0]);
    if fd < 0 {
      return Err("Failed to open file");
    }
    r := Ok(FileRun(ioType, files[0], fd, sizes[0]));
  }

  /**
   * The worker thread `i` drives, as written. A RAM run binds each thread
   * right after adding its worker, so `workers.back()` is worker `i`; a file
   * run adds every worker first, so `workers.back()` is always the last one.
   */
  function ThreadTargetAsWritten(ramio: bool, numThreads: nat, i: nat): nat {
    if ramio then i else if numThreads == 0 then 0 else numThreads - 1
  }

  /**
   * In a file run with two or more threads, every thread drives the last
   * worker: worker 0 never runs, and the last worker's cursor is shared by
   * all threads.
   */
  lemma FileThreadsShareLastWorker(numThreads: nat, i: nat)
    requires numThreads >= 2 && i < numThreads
    ensures ThreadTargetAsWritten(false, numThreads, i) == numThreads - 1
    ensures ThreadTargetAsWritten(false, numThreads, 0) != 0
  {
  }

  /**
   * The workers and thread bindings of `main`, with each thread bound to its
   * own worker as intended (`workers[i]`, which is also what a RAM run does):
   * `numThreads` fresh workers, worker `i` with thread id `i` and cursor 0,
   * and thread `i` driving worker `i`.
   */
  method SpawnWorkers(plan: RunPlan, numThreads: nat) returns (workers: seq<Worker>, targets: seq<nat>)
    ensures |workers| == numThreads && |targets| == numThreads
    ensures forall i :: 0 <= i < numThreads ==> fresh(workers[i])
    ensures forall i :: 0 <= i < numThreads ==>
      targets[i] == i && workers[i].threadId == i && workers[i].curOffset == 0
      && workers[i].inRam == plan.RamRun?
      && workers[i].fileSize == (if plan.RamRun? then plan.bufSize else plan.fileSize)
      && workers[i].fd == (if plan.RamRun? then 0 else plan.fd)
    ensures forall i, j :: 0 <= i < j < numThreads ==> workers[i] != workers[j]
    ensures targets == WorkerIds(numThreads)
    ensures forall w :: 0 <= w < numThreads ==> multiset(targets)[w] == 1
  {
    workers := [];
    targets := [];
    for i := 0 to numThreads
      invariant |workers| == i && |targets| == i
      invariant forall k :: 0 <= k < i ==> fresh(workers[k])
      invariant forall k :: 0 <= k < i ==>
        targets[k] == k && workers[k].threadId == k && workers[k].curOffset == 0
        && workers[k].inRam == plan.RamRun?
        && workers[k].fileSize == (if plan.RamRun? then plan.bufSize else plan.fileSize)
        && workers[k].fd == (if plan.RamRun? then 0 else plan.fd)
      invariant forall k, l :: 0 <= k < l < i ==> workers[k] != workers[l]
      invariant targets == WorkerIds(i)
    {
      var w: Worker;
      if plan.RamRun? {
        w := new Worker.InRam(i, plan.bufSize);
      } else {
        w := new Worker.OnFile(i, plan.fd, plan.fileSize);
      }
      workers := workers + [w];
      targets := targets + [i];
    }
    forall w | 0 <= w < numThreads
      ensures multiset(targets)[w] == 1
    {
      TargetsAreOneToOne(numThreads, w);
    }
  }

  /** The worker each of the first `n` threads drives under the intended binding: thread `i` drives worker `i`. */
  function WorkerIds(n: nat): (ids: seq<nat>)
    ensures |ids| == n
  {
    if n == 0 then [] else WorkerIds(n - 1) + [n - 1]
  }

  /** With the intended binding every worker is driven by exactly one thread, and no thread drives a missing worker. */
  lemma {:induction false} TargetsAreOneToOne(n: nat, w: nat)
    ensures multiset(WorkerIds(n))[w] == (if w < n then 1 else 0)
  {
    if n > 0 {
      TargetsAreOneToOne(n - 1, w);
      assert WorkerIds(n) == WorkerIds(n - 1) + [n - 1];
    }
  }
}
