// SystemMonitor: the telemetry record filled from one `tegrastats` output
// line, and the warning rules of the spoken status brief.
module SystemMonitoring {
  import opened Wrappers
  import opened Text
  import opened Patterns

  /** The `self.telemetry` dictionary. Clock readings are whole seconds. */
  datatype Telemetry = Telemetry(
    cpuUsage: real,
    cpuPerCore: seq<nat>,
    gpuUsage: real,
    ramUsedMb: nat,
    ramTotalMb: nat,
    ramUsage: real,
    swapUsedMb: nat,
    swapTotalMb: nat,
    cpuTemp: real,
    gpuTemp: real,
    socTemp: real,
    tjTemp: real,
    powerTotalMw: nat,
    powerCpuGpuMw: nat,
    powerSocMw: nat,
    timestamp: int)

  /** The dictionary `__init__` starts from. */
  const InitialTelemetry := Telemetry(0.0, [], 0.0, 0, 0, 0.0, 0, 0, 0.0, 0.0, 0.0, 0.0, 0, 0, 0, 0)

  // The regular expressions of `_parse_tegrastats_line`.
  const RamPattern := [Lit("RAM "), Run(Digit), Lit("/"), Run(Digit), Lit("MB")]
  const SwapPattern := [Lit("SWAP "), Run(Digit), Lit("/"), Run(Digit), Lit("MB")]
  const CpuPattern := [Lit("CPU ["), Run(CpuField), Lit("]")]
  const PercentPattern := [Run(Digit), Lit("%")]
  const GpuPattern := [Lit("GR3D_FREQ "), Run(Digit), Lit("%")]
  const TempPattern := [Run(Word), Lit("@"), Run(DigitOrDot), Lit("C")]
  const VddInPattern := [Lit("VDD_IN "), Run(Digit), Lit("mW")]
  const VddCpuGpuPattern := [Lit("VDD_CPU_GPU_CV "), Run(Digit), Lit("mW")]
  const VddSocPattern := [Lit("VDD_SOC "), Run(Digit), Lit("mW")]

  function Group(groups: seq<string>, k: nat): string
  {
    if k < |groups| then groups[k] else ""
  }

  /** The two integers of a `RAM u/tMB` or `SWAP u/tMB` field, if present. */
  function PairReading(line: string, p: seq<Tok>): Option<(nat, nat)>
  {
    match Search(line, p, 0)
    case None => None
    case Some(f) => Some((GroupValue(f.groups, 0), GroupValue(f.groups, 1)))
  }

  /** The integer of a single-number field such as `GR3D_FREQ n%`, if present. */
  function NumberReading(line: string, p: seq<Tok>): Option<nat>
  {
    match Search(line, p, 0)
    case None => None
    case Some(f) => Some(GroupValue(f.groups, 0))
  }

  function PercentValues(found: seq<seq<string>>): (r: seq<nat>)
    ensures |r| == |found|
    ensures forall k | 0 <= k < |found| :: r[k] == GroupValue(found[k], 0)
  {
    if found == [] then [] else [GroupValue(found[0], 0)] + PercentValues(found[1..])
  }

  /** The per-core percentages inside `CPU [...]`, in order, if the bracket is present. */
  function CpuReading(line: string): Option<seq<nat>>
  {
    match Search(line, CpuPattern, 0)
    case None => None
    case Some(f) =>
      var inner := Group(f.groups, 0);
      Some(PercentValues(FindAll(inner, PercentPattern, 0)))
  }

  /** A `name@valueC` temperature entry, value still as text. */
  datatype TempReading = TempReading(name: string, text: string)

  function TempReadingsOf(found: seq<seq<string>>): (r: seq<TempReading>)
    ensures |r| == |found|
  {
    if found == [] then []
    else [TempReading(Group(found[0], 0), Group(found[0], 1))] + TempReadingsOf(found[1..])
  }

  function TempReadings(line: string): seq<TempReading>
  {
    TempReadingsOf(FindAll(line, TempPattern, 0))
  }

  function Pow10(n: nat): (r: nat)
    ensures r >= 1
  {
    if n == 0 then 1 else 10 * Pow10(n - 1)
  }

  function FirstDot(s: string): (r: Option<nat>)
    ensures r.Some? ==> r.value < |s| && s[r.value] == '.'
    ensures r.Some? ==> forall j | 0 <= j < r.value :: s[j] != '.'
    ensures r.None? ==> forall j | 0 <= j < |s| :: s[j] != '.'
    decreases |s|
  {
    if |s| == 0 then None
    else if s[0] == '.' then Some(0)
    else
      match FirstDot(s[1..])
      case None => None
      case Some(k) => Some(k + 1)
  }

  /**
   * Python `float(s)` for a string of digits and dots, with the value read
   * exactly: it fails unless there is at most one dot and at least one digit.
   */
  function ParseDecimal(s: string): Option<real>
  {
    match FirstDot(s)
    case None => if |s| > 0 then Some(DigitsValue(s) as real) else None
    case Some(d) =>
      var whole := s[..d];
      var frac := s[d + 1..];
      if FirstDot(frac).Some? || (|whole| == 0 && |frac| == 0) then None
      else Some(DigitsValue(whole) as real + DigitsValue(frac) as real / Pow10(|frac|) as real)
  }

  predicate ReadingValid(r: TempReading)
  {
    ParseDecimal(r.text).Some?
  }

  function ReadingValue(r: TempReading): real
  {
    ParseDecimal(r.text).GetOr(0.0)
  }

  /** The index of the first entry whose value `float` rejects, or the length. */
  function FirstInvalid(rs: seq<TempReading>): (k: nat)
    ensures k <= |rs|
    ensures forall j | 0 <= j < k :: ReadingValid(rs[j])
    ensures k < |rs| ==> !ReadingValid(rs[k])
  {
    if rs == [] then 0 else if !ReadingValid(rs[0]) then 0 else 1 + FirstInvalid(rs[1..])
  }

  /** The value the loop leaves in a field fed by entries called `name`. */
  function LastNamed(rs: seq<TempReading>, name: string, previous: real): real
  {
    if rs == [] then previous
    else if rs[|rs| - 1].name == name then ReadingValue(rs[|rs| - 1])
    else LastNamed(rs[..|rs| - 1], name, previous)
  }

  /** Entries whose name starts with `soc` (none of cpu, gpu, tj does). */
  function SocValues(rs: seq<TempReading>): seq<real>
  {
    if rs == [] then []
    else
      var rest := SocValues(rs[..|rs| - 1]);
      var last := rs[|rs| - 1];
      if "soc" <= last.name then rest + [ReadingValue(last)] else rest
  }

  function Sum(xs: seq<real>): real
  {
    if xs == [] then 0.0 else Sum(xs[..|xs| - 1]) + xs[|xs| - 1]
  }

  function NatsAsReals(xs: seq<nat>): (r: seq<real>)
    ensures |r| == |xs|
  {
    if xs == [] then [] else NatsAsReals(xs[..|xs| - 1]) + [xs[|xs| - 1] as real]
  }

  /** `sum(xs) / len(xs)`, or 0.0 for an empty list. */
  function Mean(xs: seq<real>): real
  {
    if xs == [] then 0.0 else Sum(xs) / |xs| as real
  }

  /** The parse succeeds unless RAM total is 0 or some temperature is malformed. */
  predicate RamDivides(line: string)
  {
    PairReading(line, RamPattern).None? || PairReading(line, RamPattern).value.1 != 0
  }

  predicate TemperaturesParse(line: string)
  {
    FirstInvalid(TempReadings(line)) == |TempReadings(line)|
  }

  /** The readings the temperature loop applies before it stops. */
  function AppliedReadings(line: string): seq<TempReading>
  {
    TempReadings(line)[..FirstInvalid(TempReadings(line))]
  }

  /** A field changes only if its pattern matched and the parse got that far. */
  function Updated<T>(reached: bool, reading: Option<T>, previous: T): T
  {
    if reached && reading.Some? then reading.value else previous
  }

  class SystemMonitor {
    var telemetry: Telemetry

    constructor ()
      ensures telemetry == InitialTelemetry
    {
      telemetry := InitialTelemetry;
    }

    /** `get_telemetry()`: a copy of the record. */
    function GetTelemetry(): Telemetry
      reads this
    {
      telemetry
    }

    /**
     * The temperature loop of `_parse_tegrastats_line`: entries are applied
     * in order until `float` rejects one; `soc_temp` is written only after a
     * complete pass that saw at least one soc entry.
     */
    method ApplyTemperatures(rs: seq<TempReading>) returns (complete: bool)
      modifies this
      ensures complete == (FirstInvalid(rs) == |rs|)
      ensures telemetry == WithTemperatures(old(telemetry), rs)
    {
      var start := telemetry;
      var socs: seq<real> := [];
      var i := 0;
      while i < |rs|
        invariant 0 <= i <= |rs|
        invariant forall j | 0 <= j < i :: ReadingValid(rs[j])
        invariant socs == SocValues(rs[..i])
        invariant telemetry == start.(
          cpuTemp := LastNamed(rs[..i], "cpu", start.cpuTemp),
          gpuTemp := LastNamed(rs[..i], "gpu", start.gpuTemp),
          tjTemp := LastNamed(rs[..i], "tj", start.tjTemp))
        decreases |rs| - i
      {
        var r := rs[i];
        var value := ParseDecimal(r.text);
        if value.None? {
          FirstInvalidAt(rs, i);
          return false;
        }
        assert rs[..i + 1][..i] == rs[..i];
        assert rs[..i + 1][i] == r;
        if r.name == "cpu" || r.name == "gpu" || r.name == "tj" {
          assert !("soc" <= r.name) by { assert r.name[0] != 's'; }
        }
        if r.name == "cpu" {
          telemetry := telemetry.(cpuTemp := value.value);
        } else if r.name == "gpu" {
          telemetry := telemetry.(gpuTemp := value.value);
        } else if r.name == "tj" {
          telemetry := telemetry.(tjTemp := value.value);
        } else if "soc" <= r.name {
          socs := socs + [value.value];
        }
        i := i + 1;
      }
      assert rs[..|rs|] == rs;
      FirstInvalidAt(rs, |rs|);
      if socs != [] {
        telemetry := telemetry.(socTemp := Mean(socs));
      }
      return true;
    }

    /**
     * `_parse_tegrastats_line(line)` at clock time `now`: the fields are
     * written in the source's order, and a failure leaves the writes made
     * before it in place.
     */
    method ParseTegrastatsLine(line: string, now: int) returns (ok: bool)
      modifies this
      ensures ok == (RamDivides(line) && TemperaturesParse(line))
      ensures telemetry == ParsedTelemetry(old(telemetry), line, now)
    {
      var divides := ApplyRam(line);
      if !divides {
        // ZeroDivisionError, caught by the handler around the whole parse.
        return false;
      }
      ApplyCounters(line);
      var complete := ApplyTemperatures(TempReadings(line));
      if !complete {
        // ValueError from `float(temp)`.
        return false;
      }
      ApplyPower(line, now);
      return true;
    }

    /** The RAM writes; `divides` is false when the total is 0 and the percentage raises. */
    method ApplyRam(line: string) returns (divides: bool)
      modifies this
      ensures divides == RamDivides(line)
      ensures telemetry == WithRam(old(telemetry), line)
    {
      var ram := PairReading(line, RamPattern);
      if ram.Some? {
        telemetry := telemetry.(ramUsedMb := ram.value.0, ramTotalMb := ram.value.1);
        if ram.value.1 == 0 {
          return false;
        }
        telemetry := telemetry.(ramUsage := ram.value.0 as real / ram.value.1 as real * 100.0);
      }
      return true;
    }

    /** The SWAP, CPU and GR3D writes. */
    method ApplyCounters(line: string)
      modifies this
      ensures telemetry == WithCounters(old(telemetry), line)
    {
      var swap := PairReading(line, SwapPattern);
      if swap.Some? {
        telemetry := telemetry.(swapUsedMb := swap.value.0, swapTotalMb := swap.value.1);
      }
      var cpu := CpuReading(line);
      if cpu.Some? {
        telemetry := telemetry.(cpuPerCore := cpu.value, cpuUsage := Mean(NatsAsReals(cpu.value)));
      }
      var gpu := NumberReading(line, GpuPattern);
      if gpu.Some? {
        telemetry := telemetry.(gpuUsage := gpu.value as real);
      }
    }

    /** The VDD writes and the timestamp. */
    method ApplyPower(line: string, now: int)
      modifies this
      ensures telemetry == WithPower(old(telemetry), line, now)
    {
      var vddIn := NumberReading(line, VddInPattern);
      if vddIn.Some? {
        telemetry := telemetry.(powerTotalMw := vddIn.value);
      }
      var vddCpuGpu := NumberReading(line, VddCpuGpuPattern);
      if vddCpuGpu.Some? {
        telemetry := telemetry.(powerCpuGpuMw := vddCpuGpu.value);
      }
      var vddSoc := NumberReading(line, VddSocPattern);
      if vddSoc.Some? {
        telemetry := telemetry.(powerSocMw := vddSoc.value);
      }
      telemetry := telemetry.(timestamp := now);
    }
  }

  /** The RAM writes: used and total, then the percentage unless total is 0. */
  function WithRam(t: Telemetry, line: string): Telemetry
  {
    match PairReading(line, RamPattern)
    case None => t
    case Some(ram) =>
      var t1 := t.(ramUsedMb := ram.0, ramTotalMb := ram.1);
      if ram.1 == 0 then t1 else t1.(ramUsage := ram.0 as real / ram.1 as real * 100.0)
  }

  /** The SWAP, CPU and GR3D writes. */
  function WithCounters(t: Telemetry, line: string): Telemetry
  {
    var t1 := match PairReading(line, SwapPattern)
              case None => t
              case Some(sw) => t.(swapUsedMb := sw.0, swapTotalMb := sw.1);
    var t2 := match CpuReading(line)
              case None => t1
              case Some(cores) => t1.(cpuPerCore := cores, cpuUsage := Mean(NatsAsReals(cores)));
    match NumberReading(line, GpuPattern)
    case None => t2
    case Some(g) => t2.(gpuUsage := g as real)
  }

  /** The temperature writes, up to the first malformed value. */
  function WithTemperatures(t: Telemetry, rs: seq<TempReading>): Telemetry
  {
    var done := rs[..FirstInvalid(rs)];
    var complete := FirstInvalid(rs) == |rs|;
    t.(cpuTemp := LastNamed(done, "cpu", t.cpuTemp),
       gpuTemp := LastNamed(done, "gpu", t.gpuTemp),
       tjTemp := LastNamed(done, "tj", t.tjTemp),
       socTemp := if complete && SocValues(rs) != [] then Mean(SocValues(rs)) else t.socTemp)
  }

  /** The VDD writes and the timestamp. */
  function WithPower(t: Telemetry, line: string, now: int): Telemetry
  {
    t.(powerTotalMw := Updated(true, NumberReading(line, VddInPattern), t.powerTotalMw),
       powerCpuGpuMw := Updated(true, NumberReading(line, VddCpuGpuPattern), t.powerCpuGpuMw),
       powerSocMw := Updated(true, NumberReading(line, VddSocPattern), t.powerSocMw),
       timestamp := now)
  }

  /** The record `_parse_tegrastats_line` leaves behind, failure paths included. */
  function ParsedTelemetry(t: Telemetry, line: string, now: int): Telemetry
  {
    var t1 := WithRam(t, line);
    if !RamDivides(line) then t1
    else
      var t3 := WithTemperatures(WithCounters(t1, line), TempReadings(line));
      if !TemperaturesParse(line) then t3 else WithPower(t3, line, now)
  }

  /**
   * The RAM fields: used and total take the RAM reading whenever the pattern
   * is present, even when the total is 0 (the division then fails), and the
   * percentage only when the total is non-zero.
   */
  lemma ParsedRamFields(t: Telemetry, line: string, now: int)
    ensures var r := ParsedTelemetry(t, line, now);
      var ram := PairReading(line, RamPattern);
      && r.ramUsedMb == (if ram.Some? then ram.value.0 else t.ramUsedMb)
      && r.ramTotalMb == (if ram.Some? then ram.value.1 else t.ramTotalMb)
      && r.ramUsage == (if ram.Some? && ram.value.1 != 0
                        then ram.value.0 as real / ram.value.1 as real * 100.0 else t.ramUsage)
  {
    assert WithTemperatures(WithCounters(WithRam(t, line), line), TempReadings(line)).ramUsage
           == WithRam(t, line).ramUsage;
  }

  /**
   * The SWAP, CPU and GR3D fields take their readings when the parse gets
   * past the RAM division and the pattern is present, and keep their value
   * otherwise.
   */
  lemma ParsedCounterFields(t: Telemetry, line: string, now: int)
    ensures var r := ParsedTelemetry(t, line, now);
      var reached := RamDivides(line);
      && (r.swapUsedMb, r.swapTotalMb) == Updated(reached, PairReading(line, SwapPattern), (t.swapUsedMb, t.swapTotalMb))
      && r.cpuPerCore == Updated(reached, CpuReading(line), t.cpuPerCore)
      && r.cpuUsage == (if reached && CpuReading(line).Some?
                        then Mean(NatsAsReals(CpuReading(line).value)) else t.cpuUsage)
      && r.gpuUsage == (if reached && NumberReading(line, GpuPattern).Some?
                        then NumberReading(line, GpuPattern).value as real else t.gpuUsage)
  {
  }

  /**
   * The temperatures: cpu, gpu and tj take the last of their readings parsed
   * before the first malformed one; soc takes the mean of all soc readings,
   * and only when every reading parses.
   */
  lemma ParsedTemperatureFields(t: Telemetry, line: string, now: int)
    ensures var r := ParsedTelemetry(t, line, now);
      var reached := RamDivides(line);
      var ok := RamDivides(line) && TemperaturesParse(line);
      && r.cpuTemp == LastNamed(if reached then AppliedReadings(line) else [], "cpu", t.cpuTemp)
      && r.gpuTemp == LastNamed(if reached then AppliedReadings(line) else [], "gpu", t.gpuTemp)
      && r.tjTemp == LastNamed(if reached then AppliedReadings(line) else [], "tj", t.tjTemp)
      && r.socTemp == (if ok && SocValues(TempReadings(line)) != []
                       then Mean(SocValues(TempReadings(line))) else t.socTemp)
  {
  }

  /**
   * A malformed temperature stops the parse before any power field or the
   * timestamp is written; otherwise each VDD field takes its reading when
   * present and the timestamp becomes `now`.
   */
  lemma ParsedPowerFields(t: Telemetry, line: string, now: int)
    ensures var r := ParsedTelemetry(t, line, now);
      var ok := RamDivides(line) && TemperaturesParse(line);
      && r.powerTotalMw == Updated(ok, NumberReading(line, VddInPattern), t.powerTotalMw)
      && r.powerCpuGpuMw == Updated(ok, NumberReading(line, VddCpuGpuPattern), t.powerCpuGpuMw)
      && r.powerSocMw == Updated(ok, NumberReading(line, VddSocPattern), t.powerSocMw)
      && r.timestamp == (if ok then now else t.timestamp)
  {
    var t3 := WithTemperatures(WithCounters(WithRam(t, line), line), TempReadings(line));
    assert (t3.powerTotalMw, t3.powerCpuGpuMw, t3.powerSocMw, t3.timestamp)
           == (t.powerTotalMw, t.powerCpuGpuMw, t.powerSocMw, t.timestamp);
  }

  lemma FirstInvalidAt(rs: seq<TempReading>, i: nat)
    requires i <= |rs|
    requires forall j | 0 <= j < i :: ReadingValid(rs[j])
    requires i == |rs| || !ReadingValid(rs[i])
    ensures FirstInvalid(rs) == i
  {
  }

  /** The warnings of `get_status_brief`, in the order they are checked. */
  function BriefWarnings(t: Telemetry): seq<string>
  {
    (if t.cpuTemp > 70.0 then ["CPU temperature elevated"] else [])
    + (if t.gpuTemp > 70.0 then ["GPU temperature elevated"] else [])
    + (if t.ramUsage > 85.0 then ["RAM usage high"] else [])
    + (if t.powerTotalMw > 15000 then ["High power consumption"] else [])
  }

  /** The text `get_status_brief` appends after its numeric summary. */
  function BriefSuffix(t: Telemetry): string
  {
    var w := BriefWarnings(t);
    if w == [] then "" else " Warnings: " + Join(w, ", ") + "."
  }

  /** The four warning texts, in the order `get_status_brief` tests them. */
  const BriefWarningOrder := ["CPU temperature elevated", "GPU temperature elevated",
                              "RAM usage high", "High power consumption"]

  /** A sub-list of `of`, keeping its order. */
  predicate Subsequence(w: seq<string>, of: seq<string>)
    decreases |of|
  {
    w == [] || (of != [] && ((w[0] == of[0] && Subsequence(w[1..], of[1..])) || Subsequence(w, of[1..])))
  }

  /** Prepending the head of `of`, or not, keeps a sub-list of its tail a sub-list. */
  lemma SubsequenceStep(take: bool, w: seq<string>, of: seq<string>)
    requires |of| > 0 && Subsequence(w, of[1..])
    ensures Subsequence((if take then [of[0]] else []) + w, of)
  {
    if take {
      assert ([of[0]] + w)[1..] == w;
    } else {
      assert [] + w == w;
    }
  }

  /** Each warning is present exactly when its threshold is exceeded. */
  lemma BriefWarningRules(t: Telemetry)
    ensures "CPU temperature elevated" in BriefWarnings(t) <==> t.cpuTemp > 70.0
    ensures "GPU temperature elevated" in BriefWarnings(t) <==> t.gpuTemp > 70.0
    ensures "RAM usage high" in BriefWarnings(t) <==> t.ramUsage > 85.0
    ensures "High power consumption" in BriefWarnings(t) <==> t.powerTotalMw > 15000
  {
  }

  /**
   * The warnings keep the fixed order, and a suffix appears exactly when at
   * least one threshold is exceeded.
   */
  lemma BriefWarningOrdered(t: Telemetry)
    ensures Subsequence(BriefWarnings(t), BriefWarningOrder)
    ensures BriefSuffix(t) == "" <==>
      !(t.cpuTemp > 70.0 || t.gpuTemp > 70.0 || t.ramUsage > 85.0 || t.powerTotalMw > 15000)
  {
    var o := BriefWarningOrder;
    var d := if t.powerTotalMw > 15000 then [o[3]] else [];
    var cd := (if t.ramUsage > 85.0 then [o[2]] else []) + d;
    var bcd := (if t.gpuTemp > 70.0 then [o[1]] else []) + cd;
    assert BriefWarnings(t) == (if t.cpuTemp > 70.0 then [o[0]] else []) + bcd;
    assert o[3..][1..] == [];
    SubsequenceStep(t.powerTotalMw > 15000, [], o[3..]);
    assert o[2..][1..] == o[3..];
    SubsequenceStep(t.ramUsage > 85.0, d, o[2..]);
    assert o[1..][1..] == o[2..];
    SubsequenceStep(t.gpuTemp > 70.0, cd, o[1..]);
    SubsequenceStep(t.cpuTemp > 70.0, bcd, o);
    if BriefWarnings(t) != [] {
      assert BriefSuffix(t)[0] == ' ';
    }
  }
}
