/**
 * Switching cores on and off in set_cpus.py. The sysfs files
 * `/sys/devices/system/cpu/cpu<N>/online` are modelled as a table from core
 * id to online state whose keys are `POSSIBLE_CPUS`; writing to a core with
 * no such file has no effect (the shell's failure is ignored).
 */
module CpuControl {
  import opened Wrappers
  import opened CpuRanges

  datatype CpuError =
    | Malformed(cause: ParseError)  // `parse_cores` rejected the text
    | ProtectedCore                 // "Can not set cpu0 offline"

  /** The table after writing `value` to every core of `cores` that has a file, except core 0. */
  function Written(table: map<nat, bool>, cores: set<nat>, value: bool): (r: map<nat, bool>)
    ensures r.Keys == table.Keys
  {
    map c | c in table :: if c in cores && c != 0 then value else table[c]
  }

  lemma WrittenNothing(table: map<nat, bool>, value: bool)
    ensures Written(table, {}, value) == table
  {
  }

  lemma WrittenOneMore(table: map<nat, bool>, done: set<nat>, c: nat, value: bool)
    ensures Written(table, done + {c}, value)
            == if c in table && c != 0 then Written(table, done, value)[c := value]
               else Written(table, done, value)
  {
  }

  /** What `set_cpus` leaves behind, core by core, when `off` of the unnamed cores were switched off. */
  lemma SetCpusOutcome(start: map<nat, bool>, wanted: set<nat>, off: set<nat>, c: nat)
    requires off !! wanted && c in start
    ensures var t := Written(Written(start, wanted, true), off, false);
            && (c == 0 ==> t[c] == start[c])
            && (c != 0 && c in wanted ==> t[c])
            && (c != 0 && c in off ==> !t[c])
            && (c !in wanted && c !in off ==> t[c] == start[c])
  {
  }

  class CpuTable {
    /** `POSSIBLE_CPUS`, found once at start-up. */
    const possible: set<nat>
    /** The content of each core's `online` file. */
    var online: map<nat, bool>

    ghost predicate Valid()
      reads this
    {
      online.Keys == possible
    }

    constructor (possible: set<nat>, initial: map<nat, bool>)
      requires initial.Keys == possible
      ensures Valid() && this.possible == possible && online == initial
    {
      this.possible := possible;
      online := initial;
    }

    /**
     * `set_cpu(core, online, dry=dry)`: refuses to switch core 0 off, leaves
     * core 0 alone when switching it on, writes nothing on a dry run, and
     * otherwise writes the new state of `core`.
     */
    method SetCpu(core: nat, value: bool, dry: bool) returns (r: Result<(), CpuError>)
      requires Valid()
      modifies this`online
      ensures Valid()
      ensures r.Err? <==> core == 0 && !value
      ensures r.Err? ==> r.error == ProtectedCore
      ensures online == if core == 0 || dry || core !in possible then old(online)
                        else old(online)[core := value]
    {
      if core == 0 {
        if !value {
          return Err(ProtectedCore);
        }
        return Ok(());
      }
      if dry {
        return Ok(());
      }
      if core in online {
        online := online[core := value];
      }
      r := Ok(());
    }

    /**
     * `set_cpus(core_str, dry=dry)`: parse the text, switch every named core
     * on, then switch every other possible core off. Core 0 is never switched
     * off: if it is possible but not named, the call fails once the cores
     * have been switched on, after switching off any number of the other
     * cores (set iteration order is not fixed).
     */
    method SetCpus(coreStr: string, dry: bool) returns (r: Result<(), CpuError>)
      requires Valid()
      modifies this`online
      ensures Valid()
      ensures ParseSpec(coreStr).Err? ==> r == Err(Malformed(ParseSpec(coreStr).error)) && online == old(online)
      ensures ParseSpec(coreStr).Ok? ==>
                var wanted := ParseSpec(coreStr).value;
                && (r.Err? <==> 0 in possible && 0 !in wanted)
                && (r.Err? ==> r.error == ProtectedCore)
                && forall c :: c in online ==>
                     && (c == 0 || dry ==> online[c] == old(online)[c])
                     && (c != 0 && !dry && c in wanted ==> online[c])
                     && (c != 0 && !dry && c !in wanted ==> !online[c] || (r.Err? && online[c] == old(online)[c]))
    {
      var parsed := ParseCores(coreStr);
      if parsed.Err? {
        return Err(Malformed(parsed.error));
      }
      var onlineCores := parsed.value;
      var offlineCores := possible - onlineCores;
      ghost var start := online;
      SwitchOn(onlineCores, dry);
      ghost var off;
      r, off := SwitchOff(offlineCores, dry);
      if !dry {
        forall k | k in online { SetCpusOutcome(start, onlineCores, off, k); }
      }
    }

    /** The first loop of `set_cpus`: `set_cpu(c, True)` for every named core. */
    method SwitchOn(cores: set<nat>, dry: bool)
      requires Valid()
      modifies this`online
      ensures Valid()
      ensures online == if dry then old(online) else Written(old(online), cores, true)
    {
      WrittenNothing(online, true);
      var todo := cores;
      while todo != {}
        invariant Valid()
        invariant todo <= cores
        invariant online == if dry then old(online) else Written(old(online), cores - todo, true)
        decreases todo
      {
        var c :| c in todo;
        WrittenOneMore(old(online), cores - todo, c, true);
        assert cores - (todo - {c}) == (cores - todo) + {c};
        var _ := SetCpu(c, true, dry);
        todo := todo - {c};
      }
      assert cores - todo == cores;
    }

    /**
     * The second loop of `set_cpus`: `set_cpu(c, False)` for every other
     * possible core, in no fixed order, until core 0 comes up. `off` is the
     * set of cores switched off before the loop ended.
     */
    method SwitchOff(cores: set<nat>, dry: bool) returns (r: Result<(), CpuError>, ghost off: set<nat>)
      requires Valid()
      modifies this`online
      ensures Valid()
      ensures r.Err? <==> 0 in cores
      ensures r.Err? ==> r.error == ProtectedCore
      ensures off <= cores && (r.Ok? ==> off == cores) && 0 !in off
      ensures online == if dry then old(online) else Written(old(online), off, false)
    {
      WrittenNothing(online, false);
      var todo := cores;
      while todo != {}
        invariant Valid()
        invariant todo <= cores
        invariant 0 in cores ==> 0 in todo
        invariant online == if dry then old(online) else Written(old(online), cores - todo, false)
        decreases todo
      {
        var c :| c in todo;
        var res := SetCpu(c, false, dry);
        if res.Err? {
          return res, cores - todo;
        }
        WrittenOneMore(old(online), cores - todo, c, false);
        assert cores - (todo - {c}) == (cores - todo) + {c};
        todo := todo - {c};
      }
      assert cores - todo == cores;
      r, off := Ok(()), cores;
    }

    /** `reset()`: switch every possible core on; core 0 is left as it is. */
    method Reset()
      requires Valid()
      modifies this`online
      ensures Valid()
      ensures online == Written(old(online), possible, true)
      ensures forall c :: c in online && c != 0 ==> online[c]
    {
      WrittenNothing(online, true);
      var todo := possible;
      while todo != {}
        invariant Valid()
        invariant todo <= possible
        invariant online == Written(old(online), possible - todo, true)
        decreases todo
      {
        var c :| c in todo;
        WrittenOneMore(old(online), possible - todo, c, true);
        assert possible - (todo - {c}) == (possible - todo) + {c};
        var _ := SetCpu(c, true, false);
        todo := todo - {c};
      }
      assert possible - todo == possible;
    }
  }
}
