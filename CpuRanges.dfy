/**
 * The CPU-range codec of set_cpus.py: `parse_cores` reads taskset(1)-style
 * text such as `0-12,13-15,18` into a set of core ids, and `shorten_cores`
 * (with `find_max_continous_sequence`) writes a set back as the shortest
 * comma/range text.
 */
module CpuRanges {
  import opened Wrappers
  import opened Text

  /** The two `ValueError`s `parse_cores` raises. */
  datatype ParseError =
    | NotDigital(token: string)  // a token without '-' that is not all digits
    | CoreRangeError             // a token with '-' that is not `digits-digits`

  /** The cores `lo..hi` inclusive: `range(lo, hi + 1)`, empty when `hi < lo`. */
  function RangeSet(lo: nat, hi: nat): (r: set<nat>)
    ensures forall c :: c in r <==> lo <= c <= hi
    decreases hi
  {
    if hi < lo then {} else if hi == lo then {lo} else RangeSet(lo, hi - 1) + {hi}
  }

  /** What one comma-separated token contributes, or the error it raises. */
  function TokenCores(token: string): Result<set<nat>, ParseError> {
    if '-' !in token then
      if IsDigits(token) then Ok({DigitsValue(token)}) else Err(NotDigital(token))
    else
      var bounds := Split(token, '-');
      if |bounds| != 2 || !IsDigits(bounds[0]) || !IsDigits(bounds[1]) then Err(CoreRangeError)
      else Ok(RangeSet(DigitsValue(bounds[0]), DigitsValue(bounds[1])))
  }

  /** Token `t` is well formed and names core `c`. */
  predicate Covers(t: string, c: nat) {
    TokenCores(t).Ok? && c in TokenCores(t).value
  }

  /** Parse `x` then `y`: the first error wins, otherwise the union. */
  function Combine(x: Result<set<nat>, ParseError>, y: Result<set<nat>, ParseError>): Result<set<nat>, ParseError> {
    match x
    case Err(e) => Err(e)
    case Ok(a) =>
      match y
      case Err(e) => Err(e)
      case Ok(b) => Ok(a + b)
  }

  /** Tokens processed left to right: the union so far, or the first token's error. */
  function ParseTokens(tokens: seq<string>): Result<set<nat>, ParseError> {
    if tokens == [] then Ok({})
    else Combine(ParseTokens(tokens[..|tokens| - 1]), TokenCores(tokens[|tokens| - 1]))
  }

  /** The meaning of `parse_cores(text)`. */
  function ParseSpec(text: string): Result<set<nat>, ParseError> {
    ParseTokens(Split(text, ','))
  }

  /**
   * `parse_cores`: split on ',' and add each token's cores to `result`, raising
   * on the first malformed token. The result is the union over all tokens;
   * it fails exactly when some token is malformed.
   */
  method ParseCores(cores: string) returns (r: Result<set<nat>, ParseError>)
    ensures r == ParseSpec(cores)
    ensures r.Ok? <==> forall t :: t in Split(cores, ',') ==> TokenCores(t).Ok?
    ensures r.Ok? ==> forall c :: c in r.value <==> exists t :: t in Split(cores, ',') && Covers(t, c)
  {
    var result: set<nat> := {};
    var sequences := Split(cores, ',');
    var i := 0;
    while i < |sequences|
      invariant 0 <= i <= |sequences|
      invariant ParseTokens(sequences[..i]) == Ok(result)
    {
      var sq := sequences[i];
      ParseTokensStep(sequences, i);
      if '-' !in sq {
        if !IsDigits(sq) {
          ParseTokensPrefixError(sequences, i + 1);
          return Err(NotDigital(sq));
        }
        result := result + {DigitsValue(sq)};
      } else {
        var coreRange := Split(sq, '-');
        if |coreRange| != 2 || !IsDigits(coreRange[0]) || !IsDigits(coreRange[1]) {
          ParseTokensPrefixError(sequences, i + 1);
          return Err(CoreRangeError);
        }
        result := result + RangeSet(DigitsValue(coreRange[0]), DigitsValue(coreRange[1]));
      }
      i := i + 1;
    }
    assert sequences[..i] == sequences;
    r := Ok(result);
    ParseTokensMeaning(sequences);
  }

  /** One more token: the prefix's result combined with that token's. */
  lemma ParseTokensStep(tokens: seq<string>, i: nat)
    requires i < |tokens|
    ensures ParseTokens(tokens[..i + 1]) == Combine(ParseTokens(tokens[..i]), TokenCores(tokens[i]))
  {
    assert tokens[..i + 1][..i] == tokens[..i];
  }

  /** Once a prefix of the tokens fails, the whole list fails with the same error. */
  lemma {:induction false} ParseTokensPrefixError(tokens: seq<string>, n: nat)
    requires n <= |tokens| && ParseTokens(tokens[..n]).Err?
    ensures ParseTokens(tokens) == ParseTokens(tokens[..n])
    decreases |tokens| - n
  {
    if n < |tokens| {
      assert tokens[..n + 1][..n] == tokens[..n];
      ParseTokensPrefixError(tokens, n + 1);
    } else {
      assert tokens[..n] == tokens;
    }
  }

  /**
   * Parsing succeeds exactly when every token is well formed, and then yields
   * the union of the tokens' cores: duplicates and overlaps merge.
   */
  lemma {:induction false} ParseTokensMeaning(tokens: seq<string>)
    ensures ParseTokens(tokens).Ok? <==> forall t :: t in tokens ==> TokenCores(t).Ok?
    ensures ParseTokens(tokens).Ok? ==>
              forall c :: c in ParseTokens(tokens).value <==> exists t :: t in tokens && Covers(t, c)
  {
    if tokens != [] {
      var init, last := tokens[..|tokens| - 1], tokens[|tokens| - 1];
      assert tokens == init + [last];
      ParseTokensMeaning(init);
      forall t | t in tokens ensures t in init || t == last { }
      if ParseTokens(tokens).Ok? {
        forall c ensures c in ParseTokens(tokens).value <==> exists t :: t in tokens && Covers(t, c) {
          if c in ParseTokens(init).value {
            var t :| t in init && Covers(t, c);
            assert t in tokens;
          }
          if c in TokenCores(last).value {
            assert Covers(last, c);
          }
        }
      }
    }
  }

  /** The first malformed token decides the error. */
  lemma {:induction false} ParseTokensFirstError(tokens: seq<string>, i: nat)
    requires i < |tokens| && TokenCores(tokens[i]).Err?
    requires forall j :: 0 <= j < i ==> TokenCores(tokens[j]).Ok?
    ensures ParseTokens(tokens) == Err(TokenCores(tokens[i]).error)
  {
    var pre := tokens[..i];
    ParseTokensMeaning(pre);
    assert tokens[..i + 1][..i] == pre;
    ParseTokensPrefixError(tokens, i + 1);
  }

  /** Token order does not matter: any reordering, repetition or merge of the same tokens parses alike. */
  lemma ParseOrderIrrelevant(a: seq<string>, b: seq<string>)
    requires forall t :: t in a <==> t in b
    ensures ParseTokens(a).Ok? == ParseTokens(b).Ok?
    ensures ParseTokens(a).Ok? ==> ParseTokens(a).value == ParseTokens(b).value
  {
    ParseTokensMeaning(a);
    ParseTokensMeaning(b);
  }

  // ---------------------------------------------------------------------------
  // Formatting

  predicate StrictlyIncreasing(q: seq<nat>) {
    forall i, j :: 0 <= i < j < |q| ==> q[i] < q[j]
  }

  lemma {:induction false} LeastOf(s: set<nat>) returns (m: nat)
    requires s != {}
    ensures m in s && forall c :: c in s ==> m <= c
  {
    var x :| x in s;
    if s == {x} {
      m := x;
    } else {
      var r := LeastOf(s - {x});
      m := if x < r then x else r;
      forall c | c in s ensures m <= c {
        if c != x { assert c in s - {x}; }
      }
    }
  }

  lemma LeastExists(s: set<nat>)
    requires s != {}
    ensures exists m :: m in s && forall c :: c in s ==> m <= c
  {
    var m := LeastOf(s);
  }

  /** The smallest core of a non-empty set. */
  function Least(s: set<nat>): (m: nat)
    requires s != {}
    ensures m in s && forall c :: c in s ==> m <= c
  {
    LeastExists(s);
    var m :| m in s && forall c :: c in s ==> m <= c;
    m
  }

  /** `sorted(list(cores))`: the cores in ascending order, each once. */
  function SortedCores(s: set<nat>): (q: seq<nat>)
    ensures StrictlyIncreasing(q)
    ensures forall c :: c in q <==> c in s
    decreases s
  {
    if s == {} then []
    else
      var m := Least(s);
      var rest := SortedCores(s - {m});
      var q := [m] + rest;
      assert StrictlyIncreasing(q) by {
        forall i, j | 0 <= i < j < |q| ensures q[i] < q[j] {
          assert q[j] == rest[j - 1] && q[j] in s - {m};
          if i > 0 {
            assert q[i] == rest[i - 1];
          }
        }
      }
      assert forall c :: c in q <==> c in s by {
        forall c ensures c in q <==> c in s {
          assert c in q <==> c == m || c in rest;
        }
      }
      q
  }

  /** The end (exclusive) of the maximal run of consecutive integers that starts at `start`. */
  function RunEnd(q: seq<nat>, start: nat): (end: nat)
    requires start < |q|
    ensures start < end <= |q|
    decreases |q| - start
  {
    if start + 1 < |q| && q[start] + 1 == q[start + 1] then RunEnd(q, start + 1) else start + 1
  }

  /** The run is consecutive and cannot be extended. */
  lemma {:induction false} RunEndMaximal(q: seq<nat>, start: nat)
    requires start < |q|
    ensures forall i, j :: start <= i && j == i + 1 && j < RunEnd(q, start) ==> q[i] + 1 == q[j]
    ensures RunEnd(q, start) < |q| ==> q[RunEnd(q, start) - 1] + 1 != q[RunEnd(q, start)]
    decreases |q| - start
  {
    if start + 1 < |q| && q[start] + 1 == q[start + 1] {
      RunEndMaximal(q, start + 1);
    }
  }

  /**
   * `find_max_continous_sequence(array, start)` (here `ids`): the slice from `start` up to
   * the end of its run of consecutive integers; empty when `start` is past the end.
   */
  method FindMaxContinuousSequence(ids: seq<nat>, start: nat) returns (run: seq<nat>)
    ensures start >= |ids| ==> run == []
    ensures start < |ids| ==> run == ids[start..RunEnd(ids, start)]
    ensures start < |ids| ==> 0 < |run| && run == ids[start..start + |run|]
    ensures forall i, j :: 0 <= i && j == i + 1 && j < |run| ==> run[i] + 1 == run[j]
    ensures start < |ids| && start + |run| < |ids| ==> run[|run| - 1] + 1 != ids[start + |run|]
  {
    if start >= |ids| {
      return [];
    }
    var pos := start;
    while pos + 1 < |ids| && ids[pos] + 1 == ids[pos + 1]
      invariant start <= pos < |ids|
      invariant RunEnd(ids, pos) == RunEnd(ids, start)
      invariant forall i, j :: start <= i && j == i + 1 && j <= pos ==> ids[i] + 1 == ids[j]
    {
      pos := pos + 1;
    }
    if pos + 1 == |ids| {
      run := ids[start..];
    } else {
      run := ids[start..pos + 1];
    }
  }

  /** The token for the run `q[start..end]`: `lo-hi`, or `lo` alone for a run of one. */
  function RunText(q: seq<nat>, start: nat, end: nat): string
    requires start < end <= |q|
  {
    if end - start > 1 then Decimal(q[start]) + "-" + Decimal(q[end - 1]) else Decimal(q[start])
  }

  /** The tokens of the runs from `start` on, left to right. */
  function RunTokens(q: seq<nat>, start: nat): (tokens: seq<string>)
    requires start <= |q|
    ensures start < |q| ==> |tokens| > 0
    decreases |q| - start
  {
    if start == |q| then []
    else [RunText(q, start, RunEnd(q, start))] + RunTokens(q, RunEnd(q, start))
  }

  /** The text `shorten_cores` produces for a set of cores. */
  function FormatSpec(cores: set<nat>): string {
    var q := SortedCores(cores);
    if |q| == 0 then "" else Join(RunTokens(q, 0), ',')
  }

  /** `',' + t` for each token, concatenated: the buffer `shorten_cores` builds. */
  function Prefixed(tokens: seq<string>): string {
    if tokens == [] then "" else "," + tokens[0] + Prefixed(tokens[1..])
  }

  lemma {:induction false} PrefixedAppend(tokens: seq<string>, t: string)
    ensures Prefixed(tokens + [t]) == Prefixed(tokens) + ("," + t)
  {
    if tokens != [] {
      assert (tokens + [t])[1..] == tokens[1..] + [t];
      PrefixedAppend(tokens[1..], t);
    }
  }

  lemma {:induction false} PrefixedJoin(tokens: seq<string>)
    requires |tokens| > 0
    ensures Prefixed(tokens) == "," + Join(tokens, ',')
  {
    if |tokens| > 1 {
      PrefixedJoin(tokens[1..]);
    } else {
      assert tokens[1..] == [];
    }
  }

  /**
   * `shorten_cores`: sort the cores, then append each maximal run as `,lo-hi`
   * or `,lo` and drop the leading comma; `''` for no cores.
   */
  method ShortenCores(cores: set<nat>) returns (text: string)
    ensures text == FormatSpec(cores)
    ensures cores == {} <==> text == ""
  {
    var sorted := SortedCores(cores);
    if |sorted| == 0 {
      SortedCoresEmpty(cores);
      return "";
    }
    var buffer := "";
    var start := 0;
    ghost var emitted: seq<string> := [];
    while start < |sorted|
      invariant 0 <= start <= |sorted|
      invariant emitted + RunTokens(sorted, start) == RunTokens(sorted, 0)
      invariant buffer == Prefixed(emitted)
      decreases |sorted| - start
    {
      var piece, next := AppendRun(sorted, start);
      ghost var token := RunText(sorted, start, next);
      EmitRun(sorted, start, emitted);
      PrefixedAppend(emitted, token);
      buffer := buffer + piece;
      start := next;
      emitted := emitted + [token];
    }
    assert emitted == RunTokens(sorted, 0);
    PrefixedJoin(emitted);
    text := buffer[1..];
    SortedCoresEmpty(cores);
    RunTokensNonEmpty(sorted, 0);
  }

  /**
   * One round of the `shorten_cores` loop: the run at `start`, the text it
   * appends (`,lo-hi` or `,lo`) and the index after it.
   */
  method AppendRun(sorted: seq<nat>, start: nat) returns (piece: string, next: nat)
    requires start < |sorted|
    ensures next == RunEnd(sorted, start)
    ensures piece == "," + RunText(sorted, start, next)
  {
    var run := FindMaxContinuousSequence(sorted, start);
    next := start + |run|;
    if |run| > 1 {
      piece := "," + Decimal(run[0]) + "-" + Decimal(run[|run| - 1]);
    } else {
      piece := "," + Decimal(run[0]);
    }
    assert run[0] == sorted[start] && run[|run| - 1] == sorted[next - 1];
  }

  lemma SortedCoresEmpty(cores: set<nat>)
    ensures SortedCores(cores) == [] <==> cores == {}
  {
    var q := SortedCores(cores);
    if cores != {} {
      var c :| c in cores;
      assert c in q;
    }
    if q != [] {
      assert q[0] in cores;
    }
  }

  /** Emitting the run at `start` moves one token from the pending runs to the emitted ones. */
  lemma EmitRun(q: seq<nat>, start: nat, emitted: seq<string>)
    requires start < |q|
    requires emitted + RunTokens(q, start) == RunTokens(q, 0)
    ensures emitted + [RunText(q, start, RunEnd(q, start))] + RunTokens(q, RunEnd(q, start)) == RunTokens(q, 0)
  {
    assert RunTokens(q, start) == [RunText(q, start, RunEnd(q, start))] + RunTokens(q, RunEnd(q, start));
  }

  lemma RunTokensNonEmpty(q: seq<nat>, start: nat)
    requires start < |q|
    ensures |Join(RunTokens(q, start), ',')| > 0
  {
    var ts := RunTokens(q, start);
    assert |ts[0]| > 0;
    if |ts| > 1 {
      assert Join(ts, ',') == ts[0] + [','] + Join(ts[1..], ',');
    }
  }

  // ---------------------------------------------------------------------------
  // The round trip `parse_cores(shorten_cores(s)) == s`

  lemma {:induction false} ParseTokensAppend(a: seq<string>, b: seq<string>)
    ensures ParseTokens(a + b) == Combine(ParseTokens(a), ParseTokens(b))
    decreases |b|
  {
    if b == [] {
      assert a + b == a;
      if ParseTokens(a).Ok? {
        assert ParseTokens(a).value + {} == ParseTokens(a).value;
      }
    } else {
      var init := b[..|b| - 1];
      assert (a + b)[..|a + b| - 1] == a + init;
      ParseTokensAppend(a, init);
      var x, y, z := ParseTokens(a), ParseTokens(init), TokenCores(b[|b| - 1]);
      if x.Ok? && y.Ok? && z.Ok? {
        assert x.value + y.value + z.value == x.value + (y.value + z.value);
      }
    }
  }

  lemma ParseTokensCons(t: string, rest: seq<string>)
    ensures ParseTokens([t] + rest) == Combine(TokenCores(t), ParseTokens(rest))
  {
    ParseTokensAppend([t], rest);
    assert [t][..0] == [];
    if TokenCores(t).Ok? {
      assert {} + TokenCores(t).value == TokenCores(t).value;
    }
  }

  /** The values `q[i..j]` as a set. */
  function Elems(q: seq<nat>, i: nat, j: nat): set<nat>
    requires i <= j <= |q|
  {
    set k | i <= k < j :: q[k]
  }

  lemma {:induction false} RunValues(q: seq<nat>, start: nat, k: nat)
    requires start < |q| && start <= k < RunEnd(q, start)
    ensures q[k] == q[start] + (k - start)
    decreases k - start
  {
    RunEndMaximal(q, start);
    if k > start {
      RunValues(q, start, k - 1);
    }
  }

  /** A run holds exactly the cores from its first to its last value. */
  lemma RunIsRange(q: seq<nat>, start: nat)
    requires start < |q|
    ensures Elems(q, start, RunEnd(q, start)) == RangeSet(q[start], q[RunEnd(q, start) - 1])
  {
    var e := RunEnd(q, start);
    var lo, hi := q[start], q[e - 1];
    RunValues(q, start, e - 1);
    forall c ensures c in RangeSet(lo, hi) <==> c in Elems(q, start, e) {
      if lo <= c <= hi {
        RunValues(q, start, start + (c - lo));
      }
      if c in Elems(q, start, e) {
        var k :| start <= k < e && q[k] == c;
        RunValues(q, start, k);
      }
    }
  }

  /** `lo-hi` parses back to the cores `lo..hi` and holds no comma. */
  lemma RangeTokenParses(lo: nat, hi: nat)
    ensures TokenCores(Decimal(lo) + "-" + Decimal(hi)) == Ok(RangeSet(lo, hi))
    ensures ',' !in Decimal(lo) + "-" + Decimal(hi)
  {
    var dl, dh := Decimal(lo), Decimal(hi);
    var t := dl + "-" + dh;
    DecimalAvoids(lo, '-');
    DecimalAvoids(hi, '-');
    DecimalAvoids(lo, ',');
    DecimalAvoids(hi, ',');
    DecimalValue(lo);
    DecimalValue(hi);
    assert '-' in t by {
      assert t[|dl|] == '-';
    }
    assert Split(t, '-') == [dl, dh] by {
      assert Join([dl, dh], '-') == t;
      SplitJoin([dl, dh], '-');
    }
  }

  /** `n` alone parses back to the single core `n` and holds no comma. */
  lemma SingleTokenParses(n: nat)
    ensures TokenCores(Decimal(n)) == Ok({n})
    ensures ',' !in Decimal(n)
  {
    DecimalAvoids(n, '-');
    DecimalAvoids(n, ',');
    DecimalValue(n);
  }

  /** A run's token parses back to exactly the run's cores. */
  lemma RunTextParses(q: seq<nat>, start: nat)
    requires start < |q|
    ensures TokenCores(RunText(q, start, RunEnd(q, start))) == Ok(Elems(q, start, RunEnd(q, start)))
    ensures ',' !in RunText(q, start, RunEnd(q, start))
  {
    var e := RunEnd(q, start);
    RunIsRange(q, start);
    if e - start > 1 {
      RangeTokenParses(q[start], q[e - 1]);
    } else {
      SingleTokenParses(q[start]);
      assert Elems(q, start, e) == {q[start]};
    }
  }

  /** The run tokens from `start` on parse back to the cores from `start` on. */
  lemma {:induction false} RunTokensParse(q: seq<nat>, start: nat)
    requires start <= |q|
    ensures ParseTokens(RunTokens(q, start)) == Ok(Elems(q, start, |q|))
    ensures forall i :: 0 <= i < |RunTokens(q, start)| ==> ',' !in RunTokens(q, start)[i]
    decreases |q| - start
  {
    if start < |q| {
      var e := RunEnd(q, start);
      var t := RunText(q, start, e);
      RunTextParses(q, start);
      RunTokensParse(q, e);
      ParseTokensCons(t, RunTokens(q, e));
      assert Elems(q, start, e) + Elems(q, e, |q|) == Elems(q, start, |q|);
      var ts := RunTokens(q, start);
      forall i | 0 <= i < |ts| ensures ',' !in ts[i] {
        if i > 0 { assert ts[i] == RunTokens(q, e)[i - 1]; }
      }
    } else {
      assert Elems(q, start, |q|) == {};
    }
  }

  /**
   * Round trip: every non-empty set of cores survives `shorten_cores` then
   * `parse_cores` unchanged.
   */
  lemma FormatParseRoundTrip(cores: set<nat>)
    requires cores != {}
    ensures ParseSpec(FormatSpec(cores)) == Ok(cores)
  {
    var q := SortedCores(cores);
    SortedCoresEmpty(cores);
    var ts := RunTokens(q, 0);
    RunTokensParse(q, 0);
    SplitJoin(ts, ',');
    assert Elems(q, 0, |q|) == cores by {
      forall c | c in cores ensures c in Elems(q, 0, |q|) {
        assert c in q;
      }
    }
  }

  /** The empty set does not round-trip: it formats as `''`, which `parse_cores` rejects. */
  lemma EmptySetDoesNotRoundTrip()
    ensures FormatSpec({}) == ""
    ensures ParseSpec("") == Err(NotDigital(""))
  {
    SortedCoresEmpty({});
    assert Split("", ',') == [""];
  }

  /** A trailing comma leaves an empty token, which is rejected. */
  lemma TrailingCommaRejected()
    ensures ParseSpec("1,") == Err(NotDigital(""))
  {
    SplitJoin(["1", ""], ',');
    assert Join(["1", ""], ',') == "1,";
    assert TokenCores("1").Ok?;
    ParseTokensFirstError(["1", ""], 1);
  }

  /** A reversed range `hi-lo` is accepted and names no core. */
  lemma ReversedRangeIsEmpty()
    ensures ParseSpec("5-3") == Ok({})
  {
    var t := "5-3";
    assert Split(t, ',') == [t] by {
      assert ',' !in t;
      SplitJoin([t], ',');
    }
    assert TokenCores(t) == Ok(RangeSet(5, 3)) by {
      assert Decimal(5) + "-" + Decimal(3) == t;
      RangeTokenParses(5, 3);
    }
    ParseTokensCons(t, []);
    assert RangeSet(5, 3) + {} == {};
  }
}
