/**
 * The MagnetoShield PID example for CircuitPython: a preset reference
 * trajectory is followed section by section, one PID step per sample,
 * and the experiment ends after len(R) * T - 1 samples by switching the
 * magnet off, optionally dumping the logged outputs and inputs, and
 * stopping. The shield's sensor, the PID algorithm's output and the CPU
 * frequency are inputs; the magnet and the serial port are logs.
 */
module MagnetoShieldPid {

  /** One line sent to the serial port: a live sample (r, y, u) or a logged pair (y, u) dumped at the end. */
  datatype Line = Sample(r: real, y: real, u: real) | Pair(y: real, u: real)

  /** The preset reference trajectory and section length. */
  const DefaultReferences: seq<real> := [14.0, 13.0, 14.0, 15.0, 14.0]
  const DefaultSectionLength: int := 1000
  /** The slower board's trajectory and section length. */
  const FallbackReferences: seq<real> := [14.0, 14.0]
  const FallbackSectionLength: int := 2500

  // ---------------------------------------------------------------------
  // Integer division facts
  // ---------------------------------------------------------------------

  /** Multiplying by a positive number keeps the sign and does not shrink a non-zero integer. */
  lemma MulMonotone(x: int, t: int)
    requires t > 0
    ensures x >= 1 ==> x * t >= t
    ensures x >= 0 ==> x * t >= 0
    ensures x <= -1 ==> x * t <= -t
  {
  }

  /** A quotient is pinned by the interval its dividend lies in. */
  lemma DivBetween(a: int, t: int, q: int)
    requires t > 0 && q * t <= a < q * t + t
    ensures a / t == q
  {
    var d, m := a / t, a % t;
    assert a == d * t + m && 0 <= m < t;
    assert (d - q) * t == d * t - q * t;
    MulMonotone(d - q, t);
  }

  /** Within one multiple of m, k is divisible by m only at the end. */
  lemma ModBetween(k: int, m: int)
    requires 0 < k <= m
    ensures k % m == 0 <==> k == m
  {
    if k < m {
      DivBetween(k, m, 0);
    } else {
      DivBetween(k, m, 1);
    }
  }

  // ---------------------------------------------------------------------
  // The reference schedule
  // ---------------------------------------------------------------------

  /**
   * Before sample k (counted from 1) the section counter i and the
   * reference r are those of the section k falls in: k lies after i - 1
   * full sections of t samples and within the i-th, and r is the i-th
   * reference.
   */
  predicate Scheduled(refs: seq<real>, t: int, k: int, i: int, r: real)
  {
    t > 0 && 1 <= i <= |refs| && (i - 1) * t < k <= i * t && r == refs[i - 1]
  }

  /** Where k stands within section i of length t: its end is the only multiple of t * i, and k / t is i there, i - 1 before. */
  lemma WithinSection(t: int, k: int, i: int)
    requires t > 0 && i >= 1 && (i - 1) * t < k <= i * t
    ensures k % (t * i) == 0 <==> k == t * i
    ensures k == t * i ==> k / t == i
    ensures k != t * i ==> k / t == i - 1
  {
    MulMonotone(i - 1, t);
    assert i * t == (i - 1) * t + t;
    ModBetween(k, t * i);
    if k == t * i {
      DivBetween(k, t, i);
    } else {
      DivBetween(k, t, i - 1);
    }
  }

  /** A section that ends before sample len * t is not the last one. */
  lemma NotLastSection(t: int, i: int, len: int)
    requires t > 0 && t * i <= len * t - 1
    ensures i < len
  {
    assert t * i - len * t == (i - len) * t;
    MulMonotone(i - len, t);
  }

  /**
   * The section test of one running sample k (k at most len(R) * T - 1):
   * k % (T * i) is zero exactly when k ends section i; the next reference
   * R[i] then exists; and k / T names the section the next sample falls
   * in.
   */
  lemma SectionBoundary(refs: seq<real>, t: int, k: int, i: int, r: real)
    requires Scheduled(refs, t, k, i, r) && k <= |refs| * t - 1
    ensures k % (t * i) == 0 <==> k == t * i
    ensures k == t * i ==> i < |refs| && k / t == i
    ensures k != t * i ==> k / t == i - 1
    ensures k == t * i ==> i < |refs| && Scheduled(refs, t, k + 1, i + 1, refs[i])
    ensures k != t * i ==> Scheduled(refs, t, k + 1, i, r)
  {
    WithinSection(t, k, i);
    if k == t * i {
      NotLastSection(t, i, |refs|);
      assert (i + 1 - 1) * t == i * t;
      assert (i + 1) * t == i * t + t;
    }
  }

  /**
   * One running sample's reference update, as the example writes it:
   * at the end of section i the reference becomes R[i] and the counter
   * moves on. The result is the schedule of the next sample.
   */
  function Advance(refs: seq<real>, t: int, k: int, i: int, r: real): (next: (int, real))
    requires Scheduled(refs, t, k, i, r) && k <= |refs| * t - 1
    ensures Scheduled(refs, t, k + 1, next.0, next.1)
  {
    SectionBoundary(refs, t, k, i, r);
    if k % (t * i) == 0 then (i + 1, refs[i]) else (i, r)
  }

  /** After running sample k the reference is R[k / T], whatever the counter's history. */
  lemma AdvanceClosedForm(refs: seq<real>, t: int, k: int, i: int, r: real)
    requires Scheduled(refs, t, k, i, r) && k <= |refs| * t - 1
    ensures 0 <= k / t < |refs|
    ensures Advance(refs, t, k, i, r) == (k / t + 1, refs[k / t])
  {
    SectionBoundary(refs, t, k, i, r);
  }

  /** The counter and reference after the running samples 1..n, from the initial section. */
  function Schedule(refs: seq<real>, t: int, n: nat): (state: (int, real))
    requires t > 0 && |refs| > 0 && n <= |refs| * t - 1
    ensures Scheduled(refs, t, n + 1, state.0, state.1)
    decreases n
  {
    if n == 0 then (1, refs[0])
    else
      var prev := Schedule(refs, t, n - 1);
      Advance(refs, t, n, prev.0, prev.1)
  }

  /**
   * The reference in force after running sample n is R[n / T]: each
   * reference holds for T samples (the first for T - 1, as samples are
   * counted from 1), in the order of the trajectory.
   */
  lemma ScheduleClosedForm(refs: seq<real>, t: int, n: nat)
    requires t > 0 && |refs| > 0 && n <= |refs| * t - 1
    ensures 0 <= n / t < |refs|
    ensures Schedule(refs, t, n) == (n / t + 1, refs[n / t])
  {
    if n > 0 {
      var prev := Schedule(refs, t, n - 1);
      AdvanceClosedForm(refs, t, n, prev.0, prev.1);
    }
  }

  /** The lines the end of the experiment dumps: the logged outputs and inputs, pairwise. */
  function Pairs(ys: seq<real>, us: seq<real>): (lines: seq<Line>)
    requires |ys| <= |us|
    ensures |lines| == |ys|
    ensures forall j :: 0 <= j < |ys| ==> lines[j] == Pair(ys[j], us[j])
  {
    if |ys| == 0 then [] else Pairs(ys[..|ys| - 1], us) + [Pair(ys[|ys| - 1], us[|ys| - 1])]
  }

  // ---------------------------------------------------------------------
  // Board detection
  // ---------------------------------------------------------------------

  /** The fallback test: the CPU frequency in MHz, by true division, is 48. */
  predicate IsSlowBoard(cpuFrequency: int)
  {
    cpuFrequency as real / 1000000.0 == 48.0
  }

  lemma SlowBoardExactly(cpuFrequency: int)
    ensures IsSlowBoard(cpuFrequency) <==> cpuFrequency == 48000000
  {
  }

  // ---------------------------------------------------------------------
  // The experiment
  // ---------------------------------------------------------------------

  /** The example's globals: tuning, trajectory, schedule, logs and what was sent out. */
  class Experiment {
    /** Sampling period (microseconds) and PID tuning. */
    var ts: int
    var kp: real
    var ti: real
    var td: real
    /** Reference trajectory R and section length T. */
    var refs: seq<real>
    var sectionLength: int
    var dataOutput: bool
    const plottingPost: bool
    /** Current reference, section counter and sample index. */
    var r: real
    var i: int
    var k: int
    /** Outputs and inputs kept for the dump at the end. */
    var ylog: seq<real>
    var ulog: seq<real>
    /** The sampling module's real-time violation flag. */
    var realTimeViolation: bool
    /** Voltages written to the magnet, and lines sent to the serial port. */
    var magnetWrites: seq<real>
    var serial: seq<Line>
    /** The experiment has ended and the program idles forever. */
    var halted: bool

    /**
     * The schedule is that of sample k, which is at most len(R) * T (the
     * sample at which the experiment ends), and the logs are paired.
     */
    ghost predicate Valid()
      reads this
    {
      && |refs| > 0
      && sectionLength > 0
      && k <= |refs| * sectionLength
      && Scheduled(refs, sectionLength, k, i, r)
      && |ylog| == |ulog|
    }

    /**
     * The module-level set-up on a board of the given CPU frequency:
     * default tuning and trajectory, r = R[0], k = i = 1, empty logs, and
     * then the slower board's overrides.
     */
    constructor (cpuFrequency: int, dataOutput: bool, plottingPost: bool)
      ensures Valid() && k == 1 && i == 1 && r == 14.0 && !halted
      ensures this.plottingPost == plottingPost
      ensures ylog == [] && ulog == [] && magnetWrites == [] && serial == []
      ensures IsSlowBoard(cpuFrequency) ==>
        ts == 6000 && kp == 2.0 && ti == 0.4 && td == 0.02
        && refs == FallbackReferences && sectionLength == FallbackSectionLength && !this.dataOutput
      ensures !IsSlowBoard(cpuFrequency) ==>
        ts == 5000 && kp == 3.5 && ti == 0.6 && td == 0.025
        && refs == DefaultReferences && sectionLength == DefaultSectionLength && this.dataOutput == dataOutput
    {
      ts := 5000;
      kp := 3.5;
      ti := 0.6;
      td := 0.025;
      refs := DefaultReferences;
      sectionLength := DefaultSectionLength;
      r := DefaultReferences[0];
      this.dataOutput := dataOutput;
      this.plottingPost := plottingPost;
      ylog, ulog := [], [];
      k := 1;
      i := 1;
      realTimeViolation := false;
      magnetWrites, serial := [], [];
      halted := false;
      new;
      FallbackSettings(cpuFrequency);
    }

    /**
     * On the 48 MHz board: slower sampling, softer tuning, a flat
     * two-section trajectory with longer sections, and no data output.
     * Run before the first sample, it keeps the schedule valid since the
     * first reference is 14 either way.
     */
    method FallbackSettings(cpuFrequency: int)
      requires Valid() && k == 1 && i == 1 && r == 14.0
      modifies this`ts, this`kp, this`ti, this`td, this`refs, this`sectionLength, this`dataOutput
      ensures Valid()
      ensures IsSlowBoard(cpuFrequency) ==>
        ts == 6000 && kp == 2.0 && ti == 0.4 && td == 0.02
        && refs == FallbackReferences && sectionLength == FallbackSectionLength && !dataOutput
      ensures !IsSlowBoard(cpuFrequency) ==>
        ts == old(ts) && kp == old(kp) && ti == old(ti) && td == old(td)
        && refs == old(refs) && sectionLength == old(sectionLength) && dataOutput == old(dataOutput)
    {
      if cpuFrequency as real / 1000000.0 == 48.0 {
        ts := 6000;
        kp := 2.0;
        ti := 0.4;
        td := 0.02;
        refs := FallbackReferences;
        sectionLength := FallbackSectionLength;
        dataOutput := false;
      }
    }

    /** Sends the logged pairs to the serial port, one line per logged sample. */
    method DumpLogs()
      requires |ylog| == |ulog|
      modifies this`serial
      ensures serial == old(serial) + Pairs(ylog, ulog)
    {
      var j := 0;
      while j < |ylog|
        invariant 0 <= j <= |ylog|
        invariant serial == old(serial) + Pairs(ylog[..j], ulog)
      {
        assert ylog[..j + 1][..j] == ylog[..j];
        serial := serial + [Pair(ylog[j], ulog[j])];
        j := j + 1;
      }
      assert ylog[..|ylog|] == ylog;
    }

    /** The end of the experiment: no violation, magnet off, the dump if requested, then idle. */
    method Finish()
      requires Valid()
      modifies this`realTimeViolation, this`magnetWrites, this`serial, this`halted
      ensures realTimeViolation == false && halted
      ensures magnetWrites == old(magnetWrites) + [0.0]
      ensures serial == old(serial) + if dataOutput && plottingPost then Pairs(ylog, ulog) else []
    {
      realTimeViolation := false;
      magnetWrites := magnetWrites + [0.0];
      if dataOutput {
        if plottingPost {
          DumpLogs();
        }
      }
      halted := true;
    }

    /**
     * A running sample: the reference update, the PID's input u for the
     * error y - r (pid stands for the PID algorithm at this sample),
     * written to the magnet and logged or sent out, and the next sample.
     */
    method Control(y: real, pid: real -> real)
      requires Valid() && k <= |refs| * sectionLength - 1
      modifies this`r, this`i, this`k, this`magnetWrites, this`ylog, this`ulog, this`serial
      ensures Valid()
      ensures (i, r) == Advance(refs, sectionLength, old(k), old(i), old(r))
      ensures k == old(k) + 1
      ensures magnetWrites == old(magnetWrites) + [pid(y - r)]
      ensures ylog == old(ylog) + (if dataOutput && plottingPost then [y] else [])
      ensures ulog == old(ulog) + (if dataOutput && plottingPost then [pid(y - r)] else [])
      ensures serial == old(serial) + (if dataOutput && !plottingPost then [Sample(r, y, pid(y - r))] else [])
    {
      SectionBoundary(refs, sectionLength, k, i, r);
      if k % (sectionLength * i) == 0 {
        r := refs[i];
        i := i + 1;
      }
      var u := pid(-(r - y));
      magnetWrites := magnetWrites + [u];
      if dataOutput {
        if plottingPost {
          ylog := ylog + [y];
          ulog := ulog + [u];
        } else {
          serial := serial + [Sample(r, y, u)];
        }
      }
      k := k + 1;
    }

    /**
     * One call of the sampled step with sensor reading y, made only while
     * the experiment runs (once it ends the program idles for ever): past
     * the last running sample the experiment ends; otherwise one running
     * sample.
     */
    method Step(y: real, pid: real -> real)
      requires Valid() && !halted
      modifies this`r, this`i, this`k, this`magnetWrites, this`ylog, this`ulog, this`serial, this`realTimeViolation, this`halted
      ensures Valid()
      ensures old(k) > |refs| * sectionLength - 1 ==>
        && halted && realTimeViolation == false
        && k == old(k) && i == old(i) && r == old(r)
        && magnetWrites == old(magnetWrites) + [0.0]
        && ylog == old(ylog) && ulog == old(ulog)
        && serial == old(serial) + (if dataOutput && plottingPost then Pairs(ylog, ulog) else [])
      ensures old(k) <= |refs| * sectionLength - 1 ==>
        && halted == old(halted) && realTimeViolation == old(realTimeViolation)
        && (i, r) == Advance(refs, sectionLength, old(k), old(i), old(r))
        && k == old(k) + 1
        && magnetWrites == old(magnetWrites) + [pid(y - r)]
        && ylog == old(ylog) + (if dataOutput && plottingPost then [y] else [])
        && ulog == old(ulog) + (if dataOutput && plottingPost then [pid(y - r)] else [])
        && serial == old(serial) + (if dataOutput && !plottingPost then [Sample(r, y, pid(y - r))] else [])
    {
      if k > |refs| * sectionLength - 1 {
        Finish();
      } else {
        Control(y, pid);
      }
    }
  }

  /**
   * The first running samples of the experiment, with the sensor
   * readings ys and the PID algorithm pids[n] at each: one voltage is
   * written per sample, the counter and reference follow the schedule,
   * and the experiment is still running afterwards.
   */
  method RunningSamples(e: Experiment, ys: seq<real>, pids: seq<real -> real>)
    requires e.Valid() && e.k == 1 && e.i == 1 && !e.halted
    requires |pids| == |ys| && |ys| <= |e.refs| * e.sectionLength - 1
    modifies e`r, e`i, e`k, e`magnetWrites, e`ylog, e`ulog, e`serial, e`realTimeViolation, e`halted
    ensures e.Valid() && !e.halted && e.k == |ys| + 1
    ensures (e.i, e.r) == Schedule(e.refs, e.sectionLength, |ys|)
    ensures |e.magnetWrites| == |old(e.magnetWrites)| + |ys|
  {
    var n := 0;
    while n < |ys|
      invariant 0 <= n <= |ys|
      invariant e.Valid() && !e.halted && e.k == n + 1
      invariant (e.i, e.r) == Schedule(e.refs, e.sectionLength, n)
      invariant |e.magnetWrites| == |old(e.magnetWrites)| + n
    {
      e.Step(ys[n], pids[n]);
      n := n + 1;
    }
  }

  /**
   * The whole experiment: len(R) * T - 1 running samples, then one more
   * call, which writes 0 V to the magnet and stops, with the last
   * reference of the trajectory in force.
   */
  method RunExperiment(e: Experiment, ys: seq<real>, pids: seq<real -> real>)
    requires e.Valid() && e.k == 1 && e.i == 1 && !e.halted
    requires |ys| == |e.refs| * e.sectionLength && |pids| == |ys|
    modifies e`r, e`i, e`k, e`magnetWrites, e`ylog, e`ulog, e`serial, e`realTimeViolation, e`halted
    ensures e.Valid() && e.halted && e.k == |e.refs| * e.sectionLength
    ensures e.i == |e.refs| && e.r == e.refs[|e.refs| - 1]
    ensures |e.magnetWrites| == |old(e.magnetWrites)| + |ys|
    ensures e.magnetWrites[|e.magnetWrites| - 1] == 0.0
  {
    var last := |ys| - 1;
    var sections, t := |e.refs|, e.sectionLength;
    assert (sections - 1) * t + t == sections * t;
    DivBetween(last, t, sections - 1);
    ScheduleClosedForm(e.refs, t, last);
    RunningSamples(e, ys[..last], pids[..last]);
    assert e.i == sections && e.r == e.refs[sections - 1];
    e.Step(ys[last], pids[last]);
  }
}
