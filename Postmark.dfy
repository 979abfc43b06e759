/**
 * The postmark driver of macros/test_postmark.py. A `PostMarkTest` holds one
 * postmark configuration text per (disk, directory) pair and launches one
 * postmark process per pair, each pinned to a core and fed its configuration
 * on standard input. Two sweep drivers create tests and run them in a fixed
 * order. Process launching belongs to a base class that is not part of this
 * model; each launch is recorded as a `Launch` value instead.
 */
module Postmark {
  import opened Text
  import opened Layout
  import opened Arith

  /** One `run_task_at_cpu(core, command, output, input=...)` call. */
  datatype Launch = Launch(core: nat, command: string, prefix: string, outputName: string, input: string)

  /** The four `buffer.write` calls of `prepare_configurations`, concatenated. */
  function ConfigText(num: int, location: string): string {
    ("set number " + SignedDecimal(num) + "\n") + ("set location " + location + "\n") + "run\n" + "quit\n"
  }

  /** The lines postmark reads from a configuration. */
  function ConfigLines(num: int, location: string): seq<string> {
    ["set number " + SignedDecimal(num), "set location " + location, "run", "quit", ""]
  }

  lemma LinesOfFour(a: string, b: string, c: string, d: string)
    ensures (a + "\n") + (b + "\n") + (c + "\n") + (d + "\n") == Join([a, b, c, d, ""], '\n')
  {
    var ps := [a, b, c, d, ""];
    assert ps[1..][1..][1..][1..] == [""];
    assert Join([d, ""], '\n') == d + "\n";
    assert Join([c, d, ""], '\n') == c + "\n" + (d + "\n");
    assert Join([b, c, d, ""], '\n') == b + "\n" + (c + "\n" + (d + "\n"));
  }

  /**
   * Postmark reads back exactly four commands, `set number N`, `set location L`,
   * `run` and `quit`, in that order, provided the location holds no newline.
   */
  lemma ConfigTextLines(num: int, location: string)
    requires '\n' !in location
    ensures Split(ConfigText(num, location), '\n') == ConfigLines(num, location)
  {
    var n := "set number " + SignedDecimal(num);
    LinesOfFour(n, "set location " + location, "run", "quit");
    assert "run" + "\n" == "run\n" && "quit" + "\n" == "quit\n";
    assert n + "\n" == "set number " + SignedDecimal(num) + "\n";
    DecimalAvoids(if num < 0 then -num else num, '\n');
    assert '\n' !in n;
    var lines := ConfigLines(num, location);
    assert forall i :: 0 <= i < |lines| ==> '\n' !in lines[i];
    SplitJoin(lines, '\n');
  }

  /** The configurations of a test, one per (disk, dir) pair, disk-major. */
  function Configurations(baseDir: string, numDisks: nat, numDirs: nat, num: int): (cs: seq<string>)
    ensures |cs| == numDisks * numDirs
  {
    var pairs := DiskDirPairs(numDisks, numDirs);
    seq(|pairs|, i requires 0 <= i < |pairs| => ConfigText(num, RamDiskDir(baseDir, pairs[i].0, pairs[i].1)))
  }

  /** Entry `disk * numDirs + dir` is the configuration for `BASE_DIR/ram<disk>/test<dir>`. */
  lemma ConfigurationsAt(baseDir: string, numDisks: nat, numDirs: nat, num: int, disk: nat, dir: nat)
    requires disk < numDisks && dir < numDirs
    ensures FlatIndex(disk, numDirs, dir) < |Configurations(baseDir, numDisks, numDirs, num)|
    ensures Configurations(baseDir, numDisks, numDirs, num)[FlatIndex(disk, numDirs, dir)]
            == ConfigText(num, RamDiskDir(baseDir, disk, dir))
  {
    var i := FlatIndex(disk, numDirs, dir);
    var pairs := DiskDirPairs(numDisks, numDirs);
    assert i < |pairs| && pairs[i] == (disk, dir) by {
      DiskDirPairsAt(numDisks, numDirs, disk, dir);
    }
  }

  /** `"%s_%d_%d_%s_%d" % (fstype, num_disks, num_dirs, numa_conf, iteration)` */
  function RunPrefix(fstype: string, numDisks: nat, numDirs: nat, numaConf: string, iteration: nat): string {
    Join([fstype, Decimal(numDisks), Decimal(numDirs), numaConf, Decimal(iteration)], '_')
  }

  /** `"scale_%s_%d_%d_%d" % (fstype, num_disks, num_dirs, iteration)` */
  function ScalePrefix(fstype: string, numDisks: nat, numDirs: nat, iteration: nat): string {
    Join(["scale", fstype, Decimal(numDisks), Decimal(numDirs), Decimal(iteration)], '_')
  }

  /**
   * Splitting a run prefix on `_` gives back its five fields in order, as long
   * as neither the file system name nor the NUMA configuration holds `_`.
   */
  lemma RunPrefixFields(fstype: string, numDisks: nat, numDirs: nat, numaConf: string, iteration: nat)
    requires '_' !in fstype && '_' !in numaConf
    ensures Split(RunPrefix(fstype, numDisks, numDirs, numaConf, iteration), '_')
            == [fstype, Decimal(numDisks), Decimal(numDirs), numaConf, Decimal(iteration)]
  {
    DecimalAvoids(numDisks, '_');
    DecimalAvoids(numDirs, '_');
    DecimalAvoids(iteration, '_');
    var fields := [fstype, Decimal(numDisks), Decimal(numDirs), numaConf, Decimal(iteration)];
    assert forall i :: 0 <= i < |fields| ==> '_' !in fields[i];
    SplitJoin(fields, '_');
  }

  /** The same for a scalability prefix: `scale`, then its four fields. */
  lemma ScalePrefixFields(fstype: string, numDisks: nat, numDirs: nat, iteration: nat)
    requires '_' !in fstype
    ensures Split(ScalePrefix(fstype, numDisks, numDirs, iteration), '_')
            == ["scale", fstype, Decimal(numDisks), Decimal(numDirs), Decimal(iteration)]
  {
    DecimalAvoids(numDisks, '_');
    DecimalAvoids(numDirs, '_');
    DecimalAvoids(iteration, '_');
    var fields := ["scale", fstype, Decimal(numDisks), Decimal(numDirs), Decimal(iteration)];
    assert forall i :: 0 <= i < |fields| ==> '_' !in fields[i];
    SplitJoin(fields, '_');
  }

  /** The launches of one `run`: task `t` on core `cpuOf(numaConf, t)` with configuration `t`. */
  function RunLaunches(configurations: seq<string>, numaConf: string, prefix: string,
                       cpuOf: (string, nat) -> nat): seq<Launch>
  {
    seq(|configurations|, t requires 0 <= t < |configurations| =>
      Launch(cpuOf(numaConf, t), "postmark", prefix, "result_th_" + Decimal(t), configurations[t]))
  }

  /** The launches of one `run_scalability`: task `t` on core `t`, all writing `scale_result`. */
  function ScaleLaunches(configurations: seq<string>, prefix: string): seq<Launch> {
    seq(|configurations|, t requires 0 <= t < |configurations| =>
      Launch(t, "postmark", prefix, "scale_result", configurations[t]))
  }

  /** The output names of the launches of one `run` are pairwise distinct. */
  lemma RunOutputsDistinct(configurations: seq<string>, numaConf: string, prefix: string,
                           cpuOf: (string, nat) -> nat, s: nat, t: nat)
    requires s < t < |configurations|
    ensures RunLaunches(configurations, numaConf, prefix, cpuOf)[s].outputName
            != RunLaunches(configurations, numaConf, prefix, cpuOf)[t].outputName
  {
    var ls := RunLaunches(configurations, numaConf, prefix, cpuOf);
    if ls[s].outputName == ls[t].outputName {
      var a, b := Decimal(s), Decimal(t);
      assert "result_th_" + a == "result_th_" + b;
      assert a == ("result_th_" + a)[10..] == ("result_th_" + b)[10..] == b;
      DecimalInjective(s, t);
    }
  }

  /** The `StringIO` buffer of `prepare_configurations`, written line by line. */
  method WriteConfig(num: int, location: string) returns (buffer: string)
    ensures buffer == ConfigText(num, location)
  {
    buffer := "";
    buffer := buffer + ("set number " + SignedDecimal(num) + "\n");
    buffer := buffer + ("set location " + location + "\n");
    buffer := buffer + "run\n";
    buffer := buffer + "quit\n";
    assert "" + ("set number " + SignedDecimal(num) + "\n") == "set number " + SignedDecimal(num) + "\n";
  }

  /** The test object; `launches` logs every task it started, oldest first. */
  class PostMarkTest {
    const outputDir: string
    const fstype: string
    const numDisks: nat
    const numDirs: nat
    /** `BASE_DIR`, the mount root set up by the base class. */
    const baseDir: string
    var configurations: seq<string>
    var baseOutputFile: string
    var launches: seq<Launch>

    constructor (outputDir: string, fstype: string, numDisks: nat, numDirs: nat, baseDir: string)
      ensures this.outputDir == outputDir && this.fstype == fstype
      ensures this.numDisks == numDisks && this.numDirs == numDirs && this.baseDir == baseDir
      ensures configurations == [] && baseOutputFile == "" && launches == []
    {
      this.outputDir := outputDir;
      this.fstype := fstype;
      this.numDisks := numDisks;
      this.numDirs := numDirs;
      this.baseDir := baseDir;
      configurations := [];
      baseOutputFile := "";
      launches := [];
    }

    /**
     * `prepare_configurations`: rebuilds the list from scratch, so its result
     * depends only on the test's constants and `num`; calling it twice gives
     * the same list.
     */
    method PrepareConfigurations(num: int)
      modifies this`configurations
      ensures configurations == Configurations(baseDir, numDisks, numDirs, num)
    {
      configurations := [];
      ghost var pairs: seq<(nat, nat)> := [];
      for diskId := 0 to numDisks
        invariant pairs == DiskDirPairs(diskId, numDirs)
        invariant |configurations| == |pairs|
        invariant forall i :: 0 <= i < |configurations| ==>
          configurations[i] == ConfigText(num, RamDiskDir(baseDir, pairs[i].0, pairs[i].1))
      {
        for dirId := 0 to numDirs
          invariant pairs == DiskDirPairs(diskId, numDirs) + Row(diskId, dirId)
          invariant |configurations| == |pairs|
          invariant forall i :: 0 <= i < |configurations| ==>
            configurations[i] == ConfigText(num, RamDiskDir(baseDir, pairs[i].0, pairs[i].1))
        {
          var location := RamDiskDir(baseDir, diskId, dirId);
          var buffer := WriteConfig(num, location);
          configurations := configurations + [buffer];
          PairsStep(diskId, numDirs, dirId);
          pairs := pairs + [(diskId, dirId)];
        }
      }
    }

    /**
     * `run`: names the output prefix after the run, rebuilds the
     * configurations and starts task `t` for every pair on the core
     * `get_cpu_id(numa_conf, t)` (here `cpuOf`), feeding it configuration `t`.
     */
    method Run(numaConf: string, iteration: nat, num: int, cpuOf: (string, nat) -> nat)
      modifies this`configurations, this`baseOutputFile, this`launches
      ensures baseOutputFile == RunPrefix(fstype, numDisks, numDirs, numaConf, iteration)
      ensures configurations == Configurations(baseDir, numDisks, numDirs, num)
      ensures launches == old(launches) + RunLaunches(configurations, numaConf, baseOutputFile, cpuOf)
    {
      baseOutputFile := RunPrefix(fstype, numDisks, numDirs, numaConf, iteration);
      PrepareConfigurations(num);
      StartRunTasks(numaConf, cpuOf);
    }

    /** The launch loop of `run`: one launch per configuration, in order. */
    method StartRunTasks(numaConf: string, cpuOf: (string, nat) -> nat)
      modifies this`launches
      ensures launches == old(launches) + RunLaunches(configurations, numaConf, baseOutputFile, cpuOf)
    {
      var command := "postmark";
      ghost var all := RunLaunches(configurations, numaConf, baseOutputFile, cpuOf);
      var started: seq<Launch> := [];
      for threadId := 0 to |configurations|
        invariant launches == old(launches) + started
        invariant |started| == threadId && forall k :: 0 <= k < threadId ==> started[k] == all[k]
      {
        var core := cpuOf(numaConf, threadId);
        var confContent := configurations[threadId];
        var task := Launch(core, command, baseOutputFile, "result_th_" + Decimal(threadId), confContent);
        launches := launches + [task];
        started := started + [task];
      }
      assert started == all;
    }

    /**
     * `run_scalability`: the same, with the `scale_` prefix, task `t` pinned
     * to core `t` and every task writing the output `scale_result`.
     */
    method RunScalability(iteration: nat, num: int)
      modifies this`configurations, this`baseOutputFile, this`launches
      ensures baseOutputFile == ScalePrefix(fstype, numDisks, numDirs, iteration)
      ensures configurations == Configurations(baseDir, numDisks, numDirs, num)
      ensures launches == old(launches) + ScaleLaunches(configurations, baseOutputFile)
    {
      baseOutputFile := ScalePrefix(fstype, numDisks, numDirs, iteration);
      PrepareConfigurations(num);
      StartScaleTasks();
    }

    /** The launch loop of `run_scalability`: one launch per configuration, in order. */
    method StartScaleTasks()
      modifies this`launches
      ensures launches == old(launches) + ScaleLaunches(configurations, baseOutputFile)
    {
      var command := "postmark";
      ghost var all := ScaleLaunches(configurations, baseOutputFile);
      var started: seq<Launch> := [];
      for threadId := 0 to |configurations|
        invariant launches == old(launches) + started
        invariant |started| == threadId && forall k :: 0 <= k < threadId ==> started[k] == all[k]
      {
        var confContent := configurations[threadId];
        var task := Launch(threadId, command, baseOutputFile, "scale_result", confContent);
        launches := launches + [task];
        started := started + [task];
      }
      assert started == all;
    }
  }

  /** Task `t` of a `run` gets configuration `t`, i.e. the one for its own (disk, dir) pair. */
  lemma RunTaskInput(baseDir: string, numDisks: nat, numDirs: nat, num: int, numaConf: string, prefix: string,
                     cpuOf: (string, nat) -> nat, disk: nat, dir: nat)
    requires disk < numDisks && dir < numDirs
    ensures var ls := RunLaunches(Configurations(baseDir, numDisks, numDirs, num), numaConf, prefix, cpuOf);
            FlatIndex(disk, numDirs, dir) < |ls|
            && ls[FlatIndex(disk, numDirs, dir)].input == ConfigText(num, RamDiskDir(baseDir, disk, dir))
            && ls[FlatIndex(disk, numDirs, dir)].core == cpuOf(numaConf, FlatIndex(disk, numDirs, dir))
  {
    ConfigurationsAt(baseDir, numDisks, numDirs, num, disk, dir);
    RunLaunchAt(Configurations(baseDir, numDisks, numDirs, num), numaConf, prefix, cpuOf, FlatIndex(disk, numDirs, dir));
  }

  /** Launch `t` of a `run` takes configuration `t` and runs on core `cpuOf(numaConf, t)`. */
  lemma RunLaunchAt(configurations: seq<string>, numaConf: string, prefix: string,
                    cpuOf: (string, nat) -> nat, t: nat)
    requires t < |configurations|
    ensures |RunLaunches(configurations, numaConf, prefix, cpuOf)| == |configurations|
    ensures RunLaunches(configurations, numaConf, prefix, cpuOf)[t].input == configurations[t]
    ensures RunLaunches(configurations, numaConf, prefix, cpuOf)[t].core == cpuOf(numaConf, t)
  {
  }

  /** The NUMA configurations `run_one_test` walks, in order. */
  const NumaConfs: seq<string> := ["die", "package", "near", "far"]

  /** The prefixes of the runs of `run_one_test`: configuration outer, iteration inner. */
  function NumaPrefixes(fstype: string, numDisks: nat, numDirs: nat, iterations: nat): (ps: seq<string>)
    ensures |ps| == 4 * iterations
  {
    var pairs := DiskDirPairs(|NumaConfs|, iterations);
    seq(|pairs|, j requires 0 <= j < |pairs| =>
      RunPrefix(fstype, numDisks, numDirs, NumaConfs[pairs[j].0], pairs[j].1))
  }

  /** Run `c * iterations + i` is iteration `i` of the `c`-th NUMA configuration. */
  lemma NumaPrefixesAt(fstype: string, numDisks: nat, numDirs: nat, iterations: nat, c: nat, i: nat)
    requires c < 4 && i < iterations
    ensures FlatIndex(c, iterations, i) < |NumaPrefixes(fstype, numDisks, numDirs, iterations)|
    ensures NumaPrefixes(fstype, numDisks, numDirs, iterations)[FlatIndex(c, iterations, i)]
            == RunPrefix(fstype, numDisks, numDirs, NumaConfs[c], i)
  {
    DiskDirPairsAt(|NumaConfs|, iterations, c, i);
  }

  /**
   * The launches of `run(numa_conf, i)` for `i` in `0 .. n - 1` on a test whose
   * configurations are `confs`, in order.
   */
  function IterationLaunches(confs: seq<string>, fstype: string, numDisks: nat, numDirs: nat, numaConf: string,
                             n: nat, cpuOf: (string, nat) -> nat): seq<Launch>
  {
    if n == 0 then []
    else IterationLaunches(confs, fstype, numDisks, numDirs, numaConf, n - 1, cpuOf)
         + RunLaunches(confs, numaConf, RunPrefix(fstype, numDisks, numDirs, numaConf, n - 1), cpuOf)
  }

  /** Appending one more iteration's launches to a log that ends with the first `n` iterations. */
  lemma IterationLaunchesExtend(log: seq<Launch>, confs: seq<string>, fstype: string, numDisks: nat, numDirs: nat,
                                numaConf: string, n: nat, cpuOf: (string, nat) -> nat)
    ensures (log + IterationLaunches(confs, fstype, numDisks, numDirs, numaConf, n, cpuOf))
            + RunLaunches(confs, numaConf, RunPrefix(fstype, numDisks, numDirs, numaConf, n), cpuOf)
            == log + IterationLaunches(confs, fstype, numDisks, numDirs, numaConf, n + 1, cpuOf)
  {
  }

  /** Every iteration launches one task per configuration. */
  lemma {:induction false} IterationLaunchesLength(confs: seq<string>, fstype: string, numDisks: nat, numDirs: nat,
                                                   numaConf: string, n: nat, cpuOf: (string, nat) -> nat)
    ensures |IterationLaunches(confs, fstype, numDisks, numDirs, numaConf, n, cpuOf)| == n * |confs|
  {
    if n > 0 {
      IterationLaunchesLength(confs, fstype, numDisks, numDirs, numaConf, n - 1, cpuOf);
      MulSucc(n - 1, |confs|);
    }
  }

  /**
   * Launch `i * |confs| + t` is thread `t` of iteration `i`: on core
   * `cpuOf(numaConf, t)`, with iteration `i`'s prefix, output `result_th_<t>`
   * and configuration `t`.
   */
  lemma {:induction false} IterationLaunchesAt(confs: seq<string>, fstype: string, numDisks: nat, numDirs: nat,
                                               numaConf: string, n: nat, cpuOf: (string, nat) -> nat, i: nat, t: nat)
    requires i < n && t < |confs|
    ensures FlatIndex(i, |confs|, t) < |IterationLaunches(confs, fstype, numDisks, numDirs, numaConf, n, cpuOf)|
    ensures IterationLaunches(confs, fstype, numDisks, numDirs, numaConf, n, cpuOf)[FlatIndex(i, |confs|, t)]
            == Launch(cpuOf(numaConf, t), "postmark", RunPrefix(fstype, numDisks, numDirs, numaConf, i),
                      "result_th_" + Decimal(t), confs[t])
  {
    var prev := IterationLaunches(confs, fstype, numDisks, numDirs, numaConf, n - 1, cpuOf);
    IterationLaunchesLength(confs, fstype, numDisks, numDirs, numaConf, n, cpuOf);
    IterationLaunchesLength(confs, fstype, numDisks, numDirs, numaConf, n - 1, cpuOf);
    MulLe(n - 1, n, |confs|);
    if i < n - 1 {
      IterationLaunchesAt(confs, fstype, numDisks, numDirs, numaConf, n - 1, cpuOf, i, t);
    } else {
      assert FlatIndex(i, |confs|, t) == |prev| + t;
    }
  }

  /** The launches of the first `c` NUMA configurations of `run_one_test`, each over every iteration. */
  function NumaLaunches(confs: seq<string>, fstype: string, numDisks: nat, numDirs: nat, iterations: nat,
                        c: nat, cpuOf: (string, nat) -> nat): seq<Launch>
    requires c <= |NumaConfs|
  {
    if c == 0 then []
    else NumaLaunches(confs, fstype, numDisks, numDirs, iterations, c - 1, cpuOf)
         + IterationLaunches(confs, fstype, numDisks, numDirs, NumaConfs[c - 1], iterations, cpuOf)
  }

  /** Appending one more NUMA configuration's launches to a log that ends with the first `c` configurations. */
  lemma NumaLaunchesExtend(log: seq<Launch>, confs: seq<string>, fstype: string, numDisks: nat, numDirs: nat,
                           iterations: nat, c: nat, cpuOf: (string, nat) -> nat)
    requires c < |NumaConfs|
    ensures (log + NumaLaunches(confs, fstype, numDisks, numDirs, iterations, c, cpuOf))
            + IterationLaunches(confs, fstype, numDisks, numDirs, NumaConfs[c], iterations, cpuOf)
            == log + NumaLaunches(confs, fstype, numDisks, numDirs, iterations, c + 1, cpuOf)
  {
  }

  /** Each NUMA configuration contributes one block of `iterations * |confs|` launches. */
  lemma {:induction false} NumaLaunchesLength(confs: seq<string>, fstype: string, numDisks: nat, numDirs: nat,
                                              iterations: nat, c: nat, cpuOf: (string, nat) -> nat)
    requires c <= |NumaConfs|
    ensures |NumaLaunches(confs, fstype, numDisks, numDirs, iterations, c, cpuOf)| == c * (iterations * |confs|)
  {
    if c > 0 {
      NumaLaunchesLength(confs, fstype, numDisks, numDirs, iterations, c - 1, cpuOf);
      IterationLaunchesLength(confs, fstype, numDisks, numDirs, NumaConfs[c - 1], iterations, cpuOf);
      MulSucc(c - 1, iterations * |confs|);
    }
  }

  /** Block `k` of the launches of `run_one_test` holds the iterations of the `k`-th NUMA configuration. */
  lemma {:induction false} NumaLaunchesAt(confs: seq<string>, fstype: string, numDisks: nat, numDirs: nat,
                                          iterations: nat, c: nat, cpuOf: (string, nat) -> nat, k: nat, j: nat)
    requires k < c <= |NumaConfs| && j < iterations * |confs|
    ensures FlatIndex(k, iterations * |confs|, j) < |NumaLaunches(confs, fstype, numDisks, numDirs, iterations, c, cpuOf)|
    ensures && j < |IterationLaunches(confs, fstype, numDisks, numDirs, NumaConfs[k], iterations, cpuOf)|
            && NumaLaunches(confs, fstype, numDisks, numDirs, iterations, c, cpuOf)[FlatIndex(k, iterations * |confs|, j)]
               == IterationLaunches(confs, fstype, numDisks, numDirs, NumaConfs[k], iterations, cpuOf)[j]
  {
    var block := iterations * |confs|;
    var prev := NumaLaunches(confs, fstype, numDisks, numDirs, iterations, c - 1, cpuOf);
    NumaLaunchesLength(confs, fstype, numDisks, numDirs, iterations, c, cpuOf);
    NumaLaunchesLength(confs, fstype, numDisks, numDirs, iterations, c - 1, cpuOf);
    MulLe(c - 1, c, block);
    IterationLaunchesLength(confs, fstype, numDisks, numDirs, NumaConfs[k], iterations, cpuOf);
    if k < c - 1 {
      NumaLaunchesAt(confs, fstype, numDisks, numDirs, iterations, c - 1, cpuOf, k, j);
    } else {
      assert FlatIndex(k, block, j) == |prev| + j;
    }
  }

  /**
   * `run_one_test`: `postmark.run(numa_conf, i)` for every NUMA configuration
   * and every iteration, configuration outer. Returns the output prefix of
   * each run in the order the runs happen; the test's log gains the launches
   * of every run in that order, and the last run's prefix and configurations
   * stay behind.
   */
  method RunOneTest(postmark: PostMarkTest, iterations: nat, num: int, cpuOf: (string, nat) -> nat)
    returns (prefixes: seq<string>)
    modifies postmark
    ensures prefixes == NumaPrefixes(postmark.fstype, postmark.numDisks, postmark.numDirs, iterations)
    ensures postmark.launches
            == old(postmark.launches)
               + NumaLaunches(Configurations(postmark.baseDir, postmark.numDisks, postmark.numDirs, num),
                              postmark.fstype, postmark.numDisks, postmark.numDirs, iterations, |NumaConfs|, cpuOf)
    ensures iterations > 0 ==>
              && postmark.configurations == Configurations(postmark.baseDir, postmark.numDisks, postmark.numDirs, num)
              && postmark.baseOutputFile
                 == RunPrefix(postmark.fstype, postmark.numDisks, postmark.numDirs, NumaConfs[|NumaConfs| - 1], iterations - 1)
    ensures iterations == 0 ==>
              postmark.configurations == old(postmark.configurations) && postmark.baseOutputFile == old(postmark.baseOutputFile)
  {
    prefixes := [];
    ghost var pairs: seq<(nat, nat)> := [];
    ghost var confs := Configurations(postmark.baseDir, postmark.numDisks, postmark.numDirs, num);
    for c := 0 to |NumaConfs|
      invariant pairs == DiskDirPairs(c, iterations)
      invariant |prefixes| == |pairs|
      invariant forall j :: 0 <= j < |prefixes| ==>
        pairs[j].0 < 4 && prefixes[j] == RunPrefix(postmark.fstype, postmark.numDisks, postmark.numDirs, NumaConfs[pairs[j].0], pairs[j].1)
      invariant postmark.launches
                == old(postmark.launches)
                   + NumaLaunches(confs, postmark.fstype, postmark.numDisks, postmark.numDirs, iterations, c, cpuOf)
      invariant c > 0 && iterations > 0 ==>
                  && postmark.configurations == confs
                  && postmark.baseOutputFile
                     == RunPrefix(postmark.fstype, postmark.numDisks, postmark.numDirs, NumaConfs[c - 1], iterations - 1)
      invariant c == 0 || iterations == 0 ==>
                  postmark.configurations == old(postmark.configurations) && postmark.baseOutputFile == old(postmark.baseOutputFile)
    {
      NumaLaunchesExtend(old(postmark.launches), confs, postmark.fstype, postmark.numDisks, postmark.numDirs,
                         iterations, c, cpuOf);
      var round := RunIterations(postmark, c, iterations, num, cpuOf);
      PrefixesStep(postmark.fstype, postmark.numDisks, postmark.numDirs, iterations, c, prefixes, round);
      prefixes := prefixes + round;
      pairs := DiskDirPairs(c + 1, iterations);
    }
  }

  /** One more NUMA configuration appends its iterations' prefixes to those of the configurations before it. */
  lemma PrefixesStep(fstype: string, numDisks: nat, numDirs: nat, iterations: nat, c: nat,
                     prefixes: seq<string>, round: seq<string>)
    requires c < |NumaConfs|
    requires |prefixes| == |DiskDirPairs(c, iterations)|
    requires forall j :: 0 <= j < |prefixes| ==>
      DiskDirPairs(c, iterations)[j].0 < 4
      && prefixes[j] == RunPrefix(fstype, numDisks, numDirs, NumaConfs[DiskDirPairs(c, iterations)[j].0],
                                  DiskDirPairs(c, iterations)[j].1)
    requires |round| == iterations
    requires forall i :: 0 <= i < iterations ==> round[i] == RunPrefix(fstype, numDisks, numDirs, NumaConfs[c], i)
    ensures |prefixes + round| == |DiskDirPairs(c + 1, iterations)|
    ensures forall j :: 0 <= j < |prefixes + round| ==>
      DiskDirPairs(c + 1, iterations)[j].0 < 4
      && (prefixes + round)[j] == RunPrefix(fstype, numDisks, numDirs, NumaConfs[DiskDirPairs(c + 1, iterations)[j].0],
                                            DiskDirPairs(c + 1, iterations)[j].1)
  {
    var pairs, pairs' := DiskDirPairs(c, iterations), DiskDirPairs(c + 1, iterations);
    assert pairs' == pairs + Row(c, iterations);
    forall j | 0 <= j < |prefixes + round|
      ensures pairs'[j].0 < 4
      ensures (prefixes + round)[j] == RunPrefix(fstype, numDisks, numDirs, NumaConfs[pairs'[j].0], pairs'[j].1)
    {
      if j < |prefixes| {
        assert pairs'[j] == pairs[j];
      } else {
        assert pairs'[j] == (c, j - |prefixes|);
      }
    }
  }

  /**
   * The inner loop of `run_one_test`: `postmark.run(numa_conf, i)` for every
   * iteration `i` of one NUMA configuration.
   */
  method RunIterations(postmark: PostMarkTest, c: nat, iterations: nat, num: int, cpuOf: (string, nat) -> nat)
    returns (round: seq<string>)
    requires c < |NumaConfs|
    modifies postmark
    ensures |round| == iterations
    ensures forall i :: 0 <= i < iterations ==>
      round[i] == RunPrefix(postmark.fstype, postmark.numDisks, postmark.numDirs, NumaConfs[c], i)
    ensures postmark.launches
            == old(postmark.launches)
               + IterationLaunches(Configurations(postmark.baseDir, postmark.numDisks, postmark.numDirs, num),
                                   postmark.fstype, postmark.numDisks, postmark.numDirs, NumaConfs[c], iterations, cpuOf)
    ensures iterations > 0 ==>
              && postmark.configurations == Configurations(postmark.baseDir, postmark.numDisks, postmark.numDirs, num)
              && postmark.baseOutputFile
                 == RunPrefix(postmark.fstype, postmark.numDisks, postmark.numDirs, NumaConfs[c], iterations - 1)
    ensures iterations == 0 ==>
              postmark.configurations == old(postmark.configurations) && postmark.baseOutputFile == old(postmark.baseOutputFile)
  {
    round := [];
    ghost var confs := Configurations(postmark.baseDir, postmark.numDisks, postmark.numDirs, num);
    for i := 0 to iterations
      invariant |round| == i
      invariant forall k :: 0 <= k < i ==>
        round[k] == RunPrefix(postmark.fstype, postmark.numDisks, postmark.numDirs, NumaConfs[c], k)
      invariant postmark.launches
                == old(postmark.launches)
                   + IterationLaunches(confs, postmark.fstype, postmark.numDisks, postmark.numDirs, NumaConfs[c], i, cpuOf)
      invariant i > 0 ==>
                  && postmark.configurations == confs
                  && postmark.baseOutputFile
                     == RunPrefix(postmark.fstype, postmark.numDisks, postmark.numDirs, NumaConfs[c], i - 1)
      invariant i == 0 ==>
                  postmark.configurations == old(postmark.configurations) && postmark.baseOutputFile == old(postmark.baseOutputFile)
    {
      IterationLaunchesExtend(old(postmark.launches), confs, postmark.fstype, postmark.numDisks, postmark.numDirs,
                              NumaConfs[c], i, cpuOf);
      postmark.Run(NumaConfs[c], i, num, cpuOf);
      round := round + [postmark.baseOutputFile];
    }
  }

  /**
   * The prefixes of `run_tests`, with `num_disks = 2` and `num_dirs` running
   * from 1 up to `upTo`: one `run_one_test` block per directory count, in order.
   */
  function NumaSweep(fstype: string, iterations: nat, upTo: nat): (ps: seq<string>)
    ensures |ps| == upTo * (4 * iterations)
  {
    if upTo == 0 then [] else NumaSweep(fstype, iterations, upTo - 1) + NumaPrefixes(fstype, 2, upTo, iterations)
  }

  /** Block `k` of the sweep (runs `k * 4 * iterations` onwards) is the test with `k + 1` directories. */
  lemma {:induction false} NumaSweepBlock(fstype: string, iterations: nat, upTo: nat, k: nat, j: nat)
    requires k < upTo && j < 4 * iterations
    ensures k * (4 * iterations) + j < |NumaSweep(fstype, iterations, upTo)|
    ensures NumaSweep(fstype, iterations, upTo)[k * (4 * iterations) + j]
            == NumaPrefixes(fstype, 2, k + 1, iterations)[j]
  {
    var n := 4 * iterations;
    var prev := NumaSweep(fstype, iterations, upTo - 1);
    assert |prev| == (upTo - 1) * n;
    if k < upTo - 1 {
      NumaSweepBlock(fstype, iterations, upTo - 1, k, j);
      MulLe(k + 1, upTo - 1, n);
    } else {
      assert k * n == |prev|;
    }
  }

  /**
   * The launches of `run_tests` up to `upTo` directories: one `run_one_test`
   * block per directory count, each on a fresh two-disk test.
   */
  function SweepLaunches(baseDir: string, fstype: string, iterations: nat, num: int,
                         cpuOf: (string, nat) -> nat, upTo: nat): seq<Launch>
  {
    if upTo == 0 then []
    else SweepLaunches(baseDir, fstype, iterations, num, cpuOf, upTo - 1)
         + NumaLaunches(Configurations(baseDir, 2, upTo, num), fstype, 2, upTo, iterations, |NumaConfs|, cpuOf)
  }

  /**
   * `run_tests`: a fresh test with 2 disks and 1, 2, 3, then 4 directories,
   * each run through `run_one_test`. Returns the output prefixes and the
   * launches of every run, in order.
   */
  method RunTests(outputDir: string, fstype: string, baseDir: string, iterations: nat, num: int,
                  cpuOf: (string, nat) -> nat)
    returns (prefixes: seq<string>, launches: seq<Launch>)
    ensures prefixes == NumaSweep(fstype, iterations, 4)
    ensures launches == SweepLaunches(baseDir, fstype, iterations, num, cpuOf, 4)
  {
    prefixes := [];
    launches := [];
    var numDisks := 2;
    for numDirs := 1 to 5
      invariant prefixes == NumaSweep(fstype, iterations, numDirs - 1)
      invariant launches == SweepLaunches(baseDir, fstype, iterations, num, cpuOf, numDirs - 1)
    {
      var postmark := new PostMarkTest(outputDir, fstype, numDisks, numDirs, baseDir);
      var ps := RunOneTest(postmark, iterations, num, cpuOf);
      ghost var block := NumaLaunches(Configurations(baseDir, 2, numDirs, num), fstype, 2, numDirs, iterations,
                                      |NumaConfs|, cpuOf);
      assert postmark.launches == block;
      assert SweepLaunches(baseDir, fstype, iterations, num, cpuOf, numDirs) == launches + block;
      prefixes := prefixes + ps;
      launches := launches + postmark.launches;
    }
  }

  /** The thread counts `range(6, 49, 6)` that `run_scalability_tests` sweeps. */
  const ThreadCounts: seq<nat> := [6, 12, 18, 24, 30, 36, 42, 48]

  /** The prefixes of one sweep point: iterations `0 .. n - 1` of the one-disk, one-directory test. */
  function ScaleRound(fstype: string, n: nat): (ps: seq<string>)
    ensures |ps| == n
    ensures forall i :: 0 <= i < n ==> ps[i] == ScalePrefix(fstype, 1, 1, i)
  {
    if n == 0 then [] else ScaleRound(fstype, n - 1) + [ScalePrefix(fstype, 1, 1, n - 1)]
  }

  /**
   * The launches of one sweep point: one per iteration, since a one-disk,
   * one-directory test has a single configuration. Every launch is on core 0,
   * writes `scale_result` and reads the configuration of `BASE_DIR/ram0/test0`.
   */
  function ScaleRoundLaunches(baseDir: string, fstype: string, n: nat, num: int): (ls: seq<Launch>)
    ensures |ls| == n
    ensures forall l :: l in ls ==> l.core == 0 && l.outputName == "scale_result"
                                    && l.input == ConfigText(num, RamDiskDir(baseDir, 0, 0))
  {
    if n == 0 then []
    else
      var confs := Configurations(baseDir, 1, 1, num);
      ConfigurationsAt(baseDir, 1, 1, num, 0, 0);
      ScaleRoundLaunches(baseDir, fstype, n - 1, num) + ScaleLaunches(confs, ScalePrefix(fstype, 1, 1, n - 1))
  }

  /** `s` repeated `n` times. */
  function Repeat<T>(s: seq<T>, n: nat): (r: seq<T>)
    ensures |r| == n * |s|
    ensures forall x :: x in r ==> x in s
  {
    if n == 0 then [] else Repeat(s, n - 1) + s
  }

  /** Every sweep point repeats the same runs: block `k` equals block 0 whatever its thread count. */
  lemma {:induction false} RepeatBlock<T>(s: seq<T>, n: nat, k: nat, i: nat)
    requires k < n && i < |s|
    ensures k * |s| + i < |Repeat(s, n)| && Repeat(s, n)[k * |s| + i] == s[i]
  {
    var prev := Repeat(s, n - 1);
    if k < n - 1 {
      RepeatBlock(s, n - 1, k, i);
      MulLe(k + 1, n - 1, |s|);
    } else {
      assert k * |s| == |prev|;
    }
  }

  /**
   * `run_scalability_tests`: for each of the eight thread counts a fresh
   * one-disk, one-directory test runs every iteration. The thread count is never
   * passed on, so each sweep point launches one task per iteration and all
   * sweep points are identical. Returns the prefixes and the launches of every run.
   */
  method RunScalabilityTests(outputDir: string, fstype: string, baseDir: string, iterations: nat, num: int)
    returns (prefixes: seq<string>, launches: seq<Launch>)
    ensures prefixes == Repeat(ScaleRound(fstype, iterations), |ThreadCounts|)
    ensures launches == Repeat(ScaleRoundLaunches(baseDir, fstype, iterations, num), |ThreadCounts|)
    ensures |launches| == |ThreadCounts| * iterations
  {
    prefixes := [];
    launches := [];
    var numDisks, numDirs := 1, 1;
    for k := 0 to |ThreadCounts|
      invariant prefixes == Repeat(ScaleRound(fstype, iterations), k)
      invariant launches == Repeat(ScaleRoundLaunches(baseDir, fstype, iterations, num), k)
    {
      var numThreads := ThreadCounts[k];
      var postmark := new PostMarkTest(outputDir, fstype, numDisks, numDirs, baseDir);
      var round: seq<string> := [];
      for i := 0 to iterations
        invariant round == ScaleRound(fstype, i)
        invariant postmark.launches == ScaleRoundLaunches(baseDir, fstype, i, num)
      {
        postmark.RunScalability(i, num);
        round := round + [postmark.baseOutputFile];
      }
      prefixes := prefixes + round;
      launches := launches + postmark.launches;
    }
  }
}
