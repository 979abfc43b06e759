/**
 * The filebench driver of macros/test_filebench.py: one worker per
 * (disk, directory) pair runs filebench on a generated job script and
 * publishes the IOPS and throughput of the first `Summary:` line of its
 * output; the runner joins every worker, then drains and sums the results.
 */
module Filebench {
  import opened Wrappers
  import opened Text
  import opened Layout

  /** The arguments of one `filebench_task` process. */
  datatype Job = Job(workload: string, testdir: string, nfiles: nat, nproc: nat, nthread: nat, iosize: string)

  /** What one worker publishes on the queue. */
  datatype WorkerResult = WorkerResult(iops: real, throughput: real)

  /** The exceptions that end a worker before it publishes. */
  datatype TaskError =
    | FieldMissing        // IndexError: the summary line has too few fields
    | NotAFloat(text: string)  // ValueError from float()
    | NoNumber            // re.search found nothing: AttributeError on .group()

  /** How a worker ends: one result on the queue, nothing, or an exception (also nothing on the queue). */
  datatype TaskOutcome = Published(result: WorkerResult) | Silent | Raised(error: TaskError)

  /** The ten lines of the job script. */
  function JobLines(job: Job): seq<string> {
    [ "", "load " + job.workload, "set $dir=" + job.testdir,
      "set $nfiles=" + Decimal(job.nfiles), "set $nprocesses=" + Decimal(job.nproc),
      "set $nthreads=" + Decimal(job.nthread), "set $iosize=" + job.iosize,
      "set $meanappendsize=4k", "run 10", "" ]
  }

  /**
   * The job script piped to filebench's standard input: the template of
   * `filebench_task` (it starts with a newline and ends with one), written
   * as its lines joined by newlines.
   */
  function JobScript(job: Job): string {
    Join(JobLines(job), '\n')
  }

  /**
   * Filebench reads back exactly these lines, in this order: an empty line, `load`, the settings of
   * `$dir`, `$nfiles`, `$nprocesses`, `$nthreads`, `$iosize` and
   * `$meanappendsize=4k`, then `run 10` and the final newline.
   */
  lemma JobScriptLines(job: Job)
    requires '\n' !in job.workload && '\n' !in job.testdir && '\n' !in job.iosize
    ensures Split(JobScript(job), '\n') == JobLines(job)
  {
    JobLinesHaveNoNewline(job);
    SplitJoin(JobLines(job), '\n');
  }

  lemma JobLinesHaveNoNewline(job: Job)
    requires '\n' !in job.workload && '\n' !in job.testdir && '\n' !in job.iosize
    ensures forall i :: 0 <= i < |JobLines(job)| ==> '\n' !in JobLines(job)[i]
  {
    DecimalAvoids(job.nfiles, '\n');
    DecimalAvoids(job.nproc, '\n');
    DecimalAvoids(job.nthread, '\n');
  }

  // ---------------------------------------------------------------------------
  // The throughput pattern `\d+(\.\d+)?`, searched leftmost and greedy.

  /** A numeral the pattern can match: digits, optionally `.` and more digits. */
  predicate IsNumeral(t: string) {
    IsDigits(t) || exists k :: 0 < k < |t| - 1 && t[k] == '.' && IsDigits(t[..k]) && IsDigits(t[k + 1..])
  }

  /** The end of the run of digits that starts at `i`. */
  function DigitRunEnd(s: string, i: nat): (r: nat)
    requires i <= |s|
    ensures i <= r <= |s|
    ensures forall j :: i <= j < r ==> IsDigit(s[j])
    ensures r == |s| || !IsDigit(s[r])
    decreases |s| - i
  {
    if i < |s| && IsDigit(s[i]) then DigitRunEnd(s, i + 1) else i
  }

  /** The index of the first digit at or after `i`, if any. */
  function FirstDigitFrom(s: string, i: nat): (r: Option<nat>)
    requires i <= |s|
    ensures r.None? <==> forall j :: i <= j < |s| ==> !IsDigit(s[j])
    ensures r.Some? ==> i <= r.value < |s| && IsDigit(s[r.value])
                        && forall j :: i <= j < r.value ==> !IsDigit(s[j])
    decreases |s| - i
  {
    if i == |s| then None
    else if IsDigit(s[i]) then Some(i)
    else FirstDigitFrom(s, i + 1)
  }

  /**
   * `re.search(r'\d+(\.\d+)?', s)` as the span `(start, end)` of the match:
   * no match exactly when `s` holds no digit; otherwise the match starts at
   * the first digit, is a numeral, and cannot be extended.
   */
  function NumberSpan(s: string): (r: Option<(nat, nat)>)
    ensures r.None? <==> forall j :: 0 <= j < |s| ==> !IsDigit(s[j])
    ensures r.Some? ==>
      var (p, q) := r.value;
      p < q <= |s| && IsNumeral(s[p..q])
      && (forall j :: 0 <= j < p ==> !IsDigit(s[j]))
      && (q == |s| || !IsDigit(s[q]))
      && ('.' !in s[p..q] ==> !(q + 1 < |s| && s[q] == '.' && IsDigit(s[q + 1])))
  {
    match FirstDigitFrom(s, 0)
    case None => None
    case Some(p) =>
      var q := DigitRunEnd(s, p);
      assert IsDigits(s[p..q]);
      if q + 1 < |s| && s[q] == '.' && IsDigit(s[q + 1]) then
        var e := DigitRunEnd(s, q + 1);
        DottedNumeral(s, p, q, e);
        Some((p, e))
      else
        Some((p, q))
  }

  /** Digits, a `.` and more digits make a numeral. */
  lemma DottedNumeral(s: string, p: nat, q: nat, e: nat)
    requires p < q && q + 1 < e <= |s| && s[q] == '.'
    requires forall j :: p <= j < q ==> IsDigit(s[j])
    requires forall j :: q + 1 <= j < e ==> IsDigit(s[j])
    ensures IsNumeral(s[p..e])
  {
    var t := s[p..e];
    var k := q - p;
    assert t[..k] == s[p..q];
    assert t[k + 1..] == s[q + 1..e];
    assert 0 < k < |t| - 1 && t[k] == '.' && IsDigits(t[..k]) && IsDigits(t[k + 1..]);
  }

  /** `re.search(...).group()`: the matched text, if any. */
  function NumberText(s: string): (r: Option<string>)
    ensures r.Some? ==> IsNumeral(r.value)
    ensures r.None? <==> forall j :: 0 <= j < |s| ==> !IsDigit(s[j])
  {
    match NumberSpan(s)
    case None => None
    case Some((p, q)) => Some(s[p..q])
  }

  lemma NumberTextExample()
    ensures NumberText("123.45MB/s") == Some("123.45")
    ensures NumberText("7mb/s") == Some("7")
    ensures NumberText("x1.y") == Some("1")
    ensures NumberText("mb/s") == None
  {
    var s := "123.45MB/s";
    assert DigitRunEnd(s, 6) == 6;
    assert DigitRunEnd(s, 4) == 6;
    assert DigitRunEnd(s, 3) == 3;
    assert DigitRunEnd(s, 0) == 3;
    assert NumberSpan(s) == Some((0, 6));
    assert s[0..6] == "123.45";
    var u := "7mb/s";
    assert DigitRunEnd(u, 0) == 1;
    assert NumberSpan(u) == Some((0, 1));
    assert u[0..1] == "7";
    var w := "x1.y";
    assert FirstDigitFrom(w, 0) == Some(1);
    assert DigitRunEnd(w, 1) == 2;
    assert NumberSpan(w) == Some((1, 2));
    assert w[1..2] == "1";
  }

  // ---------------------------------------------------------------------------
  // The summary line and the two numbers taken from it.

  /** `'Summary:' in line` */
  predicate IsSummaryLine(line: string) {
    Contains(line, "Summary:")
  }

  /** The index of the first summary line, if there is one. */
  function FirstSummary(lines: seq<string>): (r: Option<nat>)
    ensures r.None? <==> forall j :: 0 <= j < |lines| ==> !IsSummaryLine(lines[j])
    ensures r.Some? ==> r.value < |lines| && IsSummaryLine(lines[r.value])
                        && forall j :: 0 <= j < r.value ==> !IsSummaryLine(lines[j])
  {
    if lines == [] then None
    else if IsSummaryLine(lines[0]) then Some(0)
    else match FirstSummary(lines[1..])
      case None => None
      case Some(i) => Some(i + 1)
  }

  /**
   * The result read off one summary line: IOPS is whitespace field 6 and
   * throughput the first numeral inside field 10. `float` is Python's
   * `float()` on a string (`None` where it raises).
   */
  function ExtractResult(line: string, float: string -> Option<real>): (r: Result<WorkerResult, TaskError>)
    ensures var fields := Fields(line);
      r.Ok? <==> |fields| > 10 && float(fields[6]).Some? && NumberText(fields[10]).Some?
                 && float(NumberText(fields[10]).value).Some?
    ensures var fields := Fields(line);
      r.Ok? ==> r.value.iops == float(fields[6]).value
                && r.value.throughput == float(NumberText(fields[10]).value).value
    ensures |Fields(line)| <= 6 ==> r == Err(FieldMissing)
    ensures (|Fields(line)| > 10 && float(Fields(line)[6]).Some?
             && forall j :: 0 <= j < |Fields(line)[10]| ==> !IsDigit(Fields(line)[10][j]))
            ==> r == Err(NoNumber)
  {
    var fields := Fields(line);
    if |fields| <= 6 then Err(FieldMissing)
    else match float(fields[6])
      case None => Err(NotAFloat(fields[6]))
      case Some(iops) =>
        if |fields| <= 10 then Err(FieldMissing)
        else match NumberText(fields[10])
          case None => Err(NoNumber)
          case Some(number) =>
            match float(number)
            case None => Err(NotAFloat(number))
            case Some(throughput) => Ok(WorkerResult(iops, throughput))
  }

  /** How a worker ends once its summary line is chosen. */
  function LineOutcome(line: string, float: string -> Option<real>): TaskOutcome {
    match ExtractResult(line, float)
    case Ok(result) => Published(result)
    case Err(e) => Raised(e)
  }

  /** How a worker ends, given the lines filebench printed. */
  function LinesOutcome(lines: seq<string>, float: string -> Option<real>): TaskOutcome {
    match FirstSummary(lines)
    case None => Silent
    case Some(i) => LineOutcome(lines[i], float)
  }

  /**
   * How the worker for `job` ends, where `filebench` maps the script on
   * standard input to what the tool prints.
   */
  function TaskOutcomeOf(job: Job, filebench: string -> string, float: string -> Option<real>): TaskOutcome {
    LinesOutcome(Split(filebench(JobScript(job)), '\n'), float)
  }

  /** Only the first summary line counts; whatever follows it is ignored. */
  lemma FirstSummaryDecides(before: seq<string>, line: string, after: seq<string>, float: string -> Option<real>)
    requires forall j :: 0 <= j < |before| ==> !IsSummaryLine(before[j])
    requires IsSummaryLine(line)
    ensures LinesOutcome(before + [line] + after, float) == LineOutcome(line, float)
  {
    var lines := before + [line] + after;
    assert lines[|before|] == line;
    assert forall j :: 0 <= j < |before| ==> lines[j] == before[j];
  }

  /** A worker stays silent exactly when no line is a summary line. */
  lemma SilentIffNoSummary(lines: seq<string>, float: string -> Option<real>)
    ensures LinesOutcome(lines, float).Silent? <==> forall j :: 0 <= j < |lines| ==> !IsSummaryLine(lines[j])
  {
  }

  /**
   * `filebench_task`: writes the job script to filebench, then scans the
   * output line by line and publishes the numbers of the first summary line.
   */
  method FilebenchTask(job: Job, filebench: string -> string, float: string -> Option<real>)
    returns (outcome: TaskOutcome)
    ensures outcome == TaskOutcomeOf(job, filebench, float)
  {
    var conf := JobScript(job);
    var output := filebench(conf);
    var lines := Split(output, '\n');
    var i := 0;
    while i < |lines|
      invariant 0 <= i <= |lines|
      invariant forall j :: 0 <= j < i ==> !IsSummaryLine(lines[j])
    {
      var line := lines[i];
      if !IsSummaryLine(line) {
        i := i + 1;
        continue;
      }
      assert FirstSummary(lines) == Some(i);
      var fields := Fields(line);
      if |fields| <= 6 {
        return Raised(FieldMissing);
      }
      var iops := float(fields[6]);
      if iops.None? {
        return Raised(NotAFloat(fields[6]));
      }
      if |fields| <= 10 {
        return Raised(FieldMissing);
      }
      var number := NumberText(fields[10]);
      if number.None? {
        return Raised(NoNumber);
      }
      var throughput := float(number.value);
      if throughput.None? {
        return Raised(NotAFloat(number.value));
      }
      return Published(WorkerResult(iops.value, throughput.value));
    }
    outcome := Silent;
  }

  // ---------------------------------------------------------------------------
  // Fan-out, join, drain.

  /** The job of the worker for the pair `(disk, dir)`. */
  function TaskJob(workload: string, basedir: string, pair: (nat, nat)): Job {
    Job(workload, RamDiskDir(basedir, pair.0, pair.1), 1000, 1, 1, "4k")
  }

  /** The jobs `start_filebench` launches, in launch order. */
  function Jobs(workload: string, ndisks: nat, ndirs: nat, basedir: string): (jobs: seq<Job>)
    ensures |jobs| == ndisks * ndirs
  {
    JobsOf(workload, basedir, DiskDirPairs(ndisks, ndirs))
  }

  /** The jobs for a sequence of (disk, dir) pairs, in the same order. */
  function JobsOf(workload: string, basedir: string, pairs: seq<(nat, nat)>): (jobs: seq<Job>)
    ensures |jobs| == |pairs|
  {
    if pairs == [] then []
    else JobsOf(workload, basedir, pairs[..|pairs| - 1]) + [TaskJob(workload, basedir, pairs[|pairs| - 1])]
  }

  /** Job `i` is the job for pair `i`. */
  lemma {:induction false} JobsOfAt(workload: string, basedir: string, pairs: seq<(nat, nat)>, i: nat)
    requires i < |pairs|
    ensures JobsOf(workload, basedir, pairs)[i] == TaskJob(workload, basedir, pairs[i])
  {
    if i < |pairs| - 1 {
      var init := pairs[..|pairs| - 1];
      JobsOfAt(workload, basedir, init, i);
      assert init[i] == pairs[i];
    }
  }

  /** Job `disk * ndirs + dir` runs in `basedir/ram<disk>/test<dir>` with the fixed sizes. */
  lemma JobsAt(workload: string, ndisks: nat, ndirs: nat, basedir: string, disk: nat, dir: nat)
    requires disk < ndisks && dir < ndirs
    ensures FlatIndex(disk, ndirs, dir) < |Jobs(workload, ndisks, ndirs, basedir)|
    ensures Jobs(workload, ndisks, ndirs, basedir)[FlatIndex(disk, ndirs, dir)]
            == Job(workload, RamDiskDir(basedir, disk, dir), 1000, 1, 1, "4k")
  {
    var i := FlatIndex(disk, ndirs, dir);
    var pairs := DiskDirPairs(ndisks, ndirs);
    assert i < |pairs| && pairs[i] == (disk, dir) by {
      DiskDirPairsAt(ndisks, ndirs, disk, dir);
    }
    JobsOfAt(workload, basedir, pairs, i);
  }

  /** The results on the queue once every worker has finished, in launch order. */
  function PublishedResults(jobs: seq<Job>, filebench: string -> string, float: string -> Option<real>)
    : (rs: seq<WorkerResult>)
    ensures |rs| <= |jobs|
  {
    if jobs == [] then []
    else
      var earlier := PublishedResults(jobs[..|jobs| - 1], filebench, float);
      match TaskOutcomeOf(jobs[|jobs| - 1], filebench, float)
      case Published(r) => earlier + [r]
      case _ => earlier
  }

  /** Every result on the queue was published by one of the jobs. */
  lemma {:induction false} PublishedFromJobs(jobs: seq<Job>, filebench: string -> string,
                                             float: string -> Option<real>, r: WorkerResult)
    requires r in PublishedResults(jobs, filebench, float)
    ensures exists j :: j in jobs && TaskOutcomeOf(j, filebench, float) == Published(r)
  {
    var last := jobs[|jobs| - 1];
    var init := jobs[..|jobs| - 1];
    if TaskOutcomeOf(last, filebench, float) == Published(r) {
      assert last in jobs;
    } else {
      PublishedFromJobs(init, filebench, float, r);
      var j :| j in init && TaskOutcomeOf(j, filebench, float) == Published(r);
      assert j in jobs;
    }
  }

  /** The `Counter` of `start_filebench`, read at its two keys (a missing key reads 0). */
  datatype Counters = Counters(iops: real, throughput: real)

  /** The element-wise sum of the results. */
  function Total(rs: seq<WorkerResult>): Counters {
    if rs == [] then Counters(0.0, 0.0)
    else
      var c := Total(rs[..|rs| - 1]);
      Counters(c.iops + rs[|rs| - 1].iops, c.throughput + rs[|rs| - 1].throughput)
  }

  lemma {:induction false} TotalAppend(a: seq<WorkerResult>, b: seq<WorkerResult>)
    ensures Total(a + b).iops == Total(a).iops + Total(b).iops
    ensures Total(a + b).throughput == Total(a).throughput + Total(b).throughput
    decreases |b|
  {
    if b == [] {
      assert a + b == a;
    } else {
      var b' := b[..|b| - 1];
      assert (a + b)[..|a + b| - 1] == a + b';
      TotalAppend(a, b');
    }
  }

  /** Taking one result out of the queue takes it out of the sum. */
  lemma TotalRemove(b: seq<WorkerResult>, k: nat)
    requires k < |b|
    ensures Total(b).iops == Total(b[..k] + b[k + 1..]).iops + b[k].iops
    ensures Total(b).throughput == Total(b[..k] + b[k + 1..]).throughput + b[k].throughput
  {
    var x := b[k];
    assert b == b[..k] + [x] + b[k + 1..];
    TotalAppend(b[..k] + [x], b[k + 1..]);
    TotalAppend(b[..k], [x]);
    TotalAppend(b[..k], b[k + 1..]);
    assert Total([x]) == Counters(0.0 + x.iops, 0.0 + x.throughput);
  }

  lemma MultisetRemove(a: seq<WorkerResult>, b: seq<WorkerResult>, k: nat)
    requires multiset(a) == multiset(b) && a != [] && k < |b| && b[k] == a[|a| - 1]
    ensures multiset(a[..|a| - 1]) == multiset(b[..k] + b[k + 1..])
  {
    var x := b[k];
    assert a == a[..|a| - 1] + [x];
    assert b == b[..k] + [x] + b[k + 1..];
    assert multiset(a[..|a| - 1]) == multiset(a) - multiset([x]);
    assert multiset(b[..k] + b[k + 1..]) == multiset(b) - multiset([x]);
  }

  /**
   * The sum does not depend on the order in which the workers happened to
   * publish: any reordering of the queue gives the same counters.
   */
  lemma {:induction false} TotalPermutation(a: seq<WorkerResult>, b: seq<WorkerResult>)
    requires multiset(a) == multiset(b)
    ensures Total(a) == Total(b)
    decreases |a|
  {
    if a == [] {
      assert |b| == |multiset(b)| == 0;
    } else {
      var x := a[|a| - 1];
      assert x in multiset(b);
      var k :| 0 <= k < |b| && b[k] == x;
      MultisetRemove(a, b, k);
      TotalPermutation(a[..|a| - 1], b[..k] + b[k + 1..]);
      TotalRemove(b, k);
    }
  }

  /** Launching more jobs appends their results to the queue. */
  lemma {:induction false} PublishedAppend(a: seq<Job>, b: seq<Job>, filebench: string -> string,
                                           float: string -> Option<real>)
    ensures PublishedResults(a + b, filebench, float)
            == PublishedResults(a, filebench, float) + PublishedResults(b, filebench, float)
    decreases |b|
  {
    if b == [] {
      assert a + b == a;
    } else {
      var b' := b[..|b| - 1];
      assert (a + b)[..|a + b| - 1] == a + b';
      assert (a + b)[|a + b| - 1] == b[|b| - 1];
      PublishedAppend(a, b', filebench, float);
    }
  }

  /**
   * One worker, from `task.start()` to its end: what it leaves on the queue,
   * which is nothing or exactly one result.
   */
  method StartTask(job: Job, filebench: string -> string, float: string -> Option<real>)
    returns (published: seq<WorkerResult>)
    ensures published == PublishedResults([job], filebench, float)
    ensures |published| <= 1
  {
    var outcome := FilebenchTask(job, filebench, float);
    assert [job][..0] == [];
    if outcome.Published? {
      published := [outcome.result];
    } else {
      published := [];
    }
  }

  /** The drain loop: takes results off the queue in order and adds them up. */
  method Drain(queue: seq<WorkerResult>) returns (counters: Counters)
    ensures counters == Total(queue)
  {
    counters := Counters(0.0, 0.0);
    var drained := 0;
    while drained < |queue|
      invariant 0 <= drained <= |queue|
      invariant counters == Total(queue[..drained])
    {
      var rst := queue[drained];
      assert queue[..drained + 1][..drained] == queue[..drained];
      counters := Counters(counters.iops + rst.iops, counters.throughput + rst.throughput);
      drained := drained + 1;
    }
    assert queue[..drained] == queue;
  }

  lemma {:induction false} JobsOfAppend(workload: string, basedir: string, a: seq<(nat, nat)>, b: seq<(nat, nat)>)
    ensures JobsOf(workload, basedir, a + b) == JobsOf(workload, basedir, a) + JobsOf(workload, basedir, b)
    decreases |b|
  {
    if b == [] {
      assert a + b == a;
    } else {
      var b' := b[..|b| - 1];
      assert (a + b)[..|a + b| - 1] == a + b';
      assert (a + b)[|a + b| - 1] == b[|b| - 1];
      JobsOfAppend(workload, basedir, a, b');
    }
  }

  /** The inner launch loop of `start_filebench`: the workers of one disk, directory by directory. */
  method LaunchDisk(workload: string, disk: nat, ndirs: nat, basedir: string,
                    filebench: string -> string, float: string -> Option<real>)
    returns (row: seq<Job>, published: seq<WorkerResult>)
    ensures row == JobsOf(workload, basedir, Row(disk, ndirs))
    ensures published == PublishedResults(row, filebench, float)
  {
    row := [];
    published := [];
    for dir := 0 to ndirs
      invariant row == JobsOf(workload, basedir, Row(disk, dir))
      invariant published == PublishedResults(row, filebench, float)
    {
      var job := Job(workload, RamDiskDir(basedir, disk, dir), 1000, 1, 1, "4k");
      var result := StartTask(job, filebench, float);
      published := published + result;
      PublishedAppend(row, [job], filebench, float);
      assert Row(disk, dir + 1) == Row(disk, dir) + [(disk, dir)];
      JobsOfAppend(workload, basedir, Row(disk, dir), [(disk, dir)]);
      row := row + [job];
    }
  }

  /**
   * The launch loop of `start_filebench`: one worker per (disk, dir) pair,
   * disk-major. Each worker runs to completion when launched, so what is on
   * the queue afterwards is the published results in launch order.
   */
  method LaunchAll(workload: string, ndisks: nat, ndirs: nat, basedir: string,
                   filebench: string -> string, float: string -> Option<real>)
    returns (tasks: seq<Job>, queue: seq<WorkerResult>)
    ensures tasks == Jobs(workload, ndisks, ndirs, basedir)
    ensures queue == PublishedResults(tasks, filebench, float)
  {
    queue := [];
    tasks := [];
    for disk := 0 to ndisks
      invariant tasks == JobsOf(workload, basedir, DiskDirPairs(disk, ndirs))
      invariant queue == PublishedResults(tasks, filebench, float)
    {
      var row, published := LaunchDisk(workload, disk, ndirs, basedir, filebench, float);
      queue := queue + published;
      PublishedAppend(tasks, row, filebench, float);
      JobsOfAppend(workload, basedir, DiskDirPairs(disk, ndirs), Row(disk, ndirs));
      tasks := tasks + row;
    }
  }

  /**
   * `start_filebench`: launches the workers, joins every one of them, and only
   * then drains the queue and sums what was published. The model's queue is in
   * launch order; `TotalPermutation` shows the counters are the same in any order.
   */
  method StartFilebench(workload: string, ndisks: nat, ndirs: nat, basedir: string,
                        filebench: string -> string, float: string -> Option<real>)
    returns (tasks: seq<Job>, counters: Counters)
    ensures tasks == Jobs(workload, ndisks, ndirs, basedir)
    ensures counters == Total(PublishedResults(tasks, filebench, float))
    ensures PublishedResults(tasks, filebench, float) == [] ==> counters == Counters(0.0, 0.0)
  {
    var queue;
    tasks, queue := LaunchAll(workload, ndisks, ndirs, basedir, filebench, float);
    // Every task has been joined; now drain.
    counters := Drain(queue);
  }
}
