/**
  One heartbeat, table-driven. Both plugins' `onHeartbeat` are a fixed
  sequence of metric evaluations: read one register of one Modbus unit,
  decode it, and either push the scaled value into the metric's window and
  report the window's mean, or report the decoded code of a status. The
  register read is abstracted to a total function from (unit id, address) to
  word; windows are keyed by the Domoticz device unit the metric reports to.
 */
module Poll {
  import opened Register
  import opened SlidingWindow
  import opened StateMaps

  /** What the Modbus gateway answers: the word held at an address of a unit. */
  type RegisterSource = (int, int) -> Word

  /** The three status registers and the mapper each one's code goes through. */
  datatype Mapper = GridLostAlarm | VeBusMode | EssBatteryLife

  /** A metric is either averaged, with its scaling, or mapped to a status. */
  datatype Kind = Averaged(scaling: Scaling) | Mapped(mapper: Mapper)

  /** What a device is updated with: a smoothed measurement, a decoded status
      code (shown through its mapper, see `Shown`), or the energy counter's
      power and watt-hours. */
  datatype Reading =
    | Measure(value: real)
    | Status(mapper: Mapper, code: int)
    | EnergyCounter(power: real, wh: int)

  datatype Emission = Emission(device: nat, reading: Reading)

  /** One row of a plugin's static configuration. */
  datatype Metric = Metric(device: nat, unitId: int, register: int, kind: Kind)

  type Windows = map<nat, Window>

  datatype Cycle = Cycle(emitted: seq<Emission>, windows: Windows)

  /** The signed value a metric's register decodes to: the one value in
      [-32768, 32767] congruent to the register word modulo 2^16. */
  function Decoded(m: Metric, regs: RegisterSource): (x: int)
    ensures -0x8000 <= x < 0x8000
    ensures (x - regs(m.unitId, m.register)) % 0x1_0000 == 0
  {
    Signed16(regs(m.unitId, m.register))
  }

  /** What a status device shows for a code: the grid-lost alarm as an alert
      level and text, the two state registers as the code and its label. */
  datatype Display = AlertShown(level: int, text: string) | StateShown(code: int, text: string)

  /** What the program shows. The ESS state goes through the mapping as
      written, so code 3 shows "Unknown?" although the table has a label for
      it (see `ShownIntended`). */
  function Shown(mapper: Mapper, code: int): (r: Display)
    ensures mapper == GridLostAlarm && code in GridLostLabels ==> r == AlertShown(code, GridLostLabels[code])
    ensures mapper == GridLostAlarm && code !in GridLostLabels ==> r == AlertShown(3, GridLostUnknown)
    ensures mapper == VeBusMode ==> r == StateShown(code, if code in VeBusLabels then VeBusLabels[code] else Unknown)
    ensures mapper == EssBatteryLife ==> r == StateShown(code, if code in EssLabels && code != 3 then EssLabels[code] else Unknown)
  {
    match mapper
    case GridLostAlarm =>
      var a := GridLost(code);
      AlertShown(a.level, a.text)
    case VeBusMode => StateShown(code, VeBusState(code))
    case EssBatteryLife => StateShown(code, EssStateAsWritten(code))
  }

  /** What the status devices were meant to show: the same, except that the
      ESS state goes through the corrected mapping. */
  function ShownIntended(mapper: Mapper, code: int): (r: Display)
    ensures mapper == EssBatteryLife ==> r == StateShown(code, if code in EssLabels then EssLabels[code] else Unknown)
    ensures mapper != EssBatteryLife || code != 3 ==> r == Shown(mapper, code)
  {
    match mapper
    case EssBatteryLife => StateShown(code, EssState(code))
    case _ => Shown(mapper, code)
  }

  /** Every averaged metric has its window. */
  ghost predicate HasWindows(ms: seq<Metric>, ws: Windows)
  {
    forall i :: 0 <= i < |ms| && ms[i].kind.Averaged? ==> ms[i].device in ws
  }

  /** No two metrics report to the same device, so no two share a window. */
  ghost predicate DistinctDevices(ms: seq<Metric>)
  {
    forall i, j :: 0 <= i < j < |ms| ==> ms[i].device != ms[j].device
  }

  /** Devices numbered upwards in table order, as both plugins lay them out. */
  ghost predicate IncreasingDevices(ms: seq<Metric>)
  {
    forall i :: 1 <= i < |ms| ==> ms[i - 1].device < ms[i].device
  }

  /** Upward numbering keeps any earlier device below any later one. */
  lemma {:induction false} IncreasingBetween(ms: seq<Metric>, i: nat, j: nat)
    requires IncreasingDevices(ms)
    requires i < j < |ms|
    ensures ms[i].device < ms[j].device
    decreases j - i
  {
    if i + 1 < j {
      IncreasingBetween(ms, i + 1, j);
    }
    assert ms[(i + 1) - 1].device < ms[i + 1].device;
  }

  /** A table numbered upwards never reuses a device. */
  lemma IncreasingIsDistinct(ms: seq<Metric>)
    requires IncreasingDevices(ms)
    ensures DistinctDevices(ms)
  {
    forall i, j | 0 <= i < j < |ms|
      ensures ms[i].device != ms[j].device
    {
      IncreasingBetween(ms, i, j);
    }
  }

  /** The devices whose windows a table updates. */
  ghost function AveragedDevices(ms: seq<Metric>): set<nat>
  {
    set i | 0 <= i < |ms| && ms[i].kind.Averaged? :: ms[i].device
  }

  /** Evaluate one metric: an averaged metric updates its window (default
      scale) and reports the new mean; a status metric reports its decoded code and
      leaves every window alone. */
  function Step(m: Metric, regs: RegisterSource, ws: Windows): (r: (Emission, Windows))
    requires m.kind.Averaged? ==> m.device in ws
    ensures r.0.device == m.device
    ensures r.0.reading.Measure? <==> m.kind.Averaged?
    ensures r.1.Keys == ws.Keys
    ensures m.kind.Averaged? ==>
      r.1[m.device] == Update(ws[m.device], ScaledValue(regs(m.unitId, m.register), m.kind.scaling), 0)
    ensures m.kind.Averaged? ==> |r.1[m.device].samples| > 0
    ensures m.kind.Averaged? ==> r.0.reading == Measure(Mean(r.1[m.device].samples))
    ensures !m.kind.Averaged? ==> r.0.reading == Status(m.kind.mapper, Decoded(m, regs))
    ensures forall d :: d in ws && d != m.device ==> r.1[d] == ws[d]
    ensures !m.kind.Averaged? ==> r.1 == ws
  {
    match m.kind
    case Averaged(s) =>
      var w := Update(ws[m.device], ScaledValue(regs(m.unitId, m.register), s), 0);
      (Emission(m.device, Measure(Mean(w.samples))), ws[m.device := w])
    case Mapped(_) =>
      (Emission(m.device, Status(m.kind.mapper, Decoded(m, regs))), ws)
  }

  /** Evaluate a table of metrics in order, threading the windows through. */
  function Run(ms: seq<Metric>, regs: RegisterSource, ws: Windows): (r: Cycle)
    requires HasWindows(ms, ws)
    ensures |r.emitted| == |ms|
    ensures r.windows.Keys == ws.Keys
    decreases |ms|
  {
    if |ms| == 0 then Cycle([], ws)
    else
      var (e, ws1) := Step(ms[0], regs, ws);
      TailHasWindows(ms, ws, ws1);
      var rest := Run(ms[1..], regs, ws1);
      Cycle([e] + rest.emitted, rest.windows)
  }

  /** The rest of a table finds its windows in any map with at least the
      same keys. */
  lemma TailHasWindows(ms: seq<Metric>, ws: Windows, ws1: Windows)
    requires |ms| > 0 && HasWindows(ms, ws) && ws.Keys <= ws1.Keys
    ensures HasWindows(ms[1..], ws1)
  {
    forall i | 0 <= i < |ms[1..]| && ms[1..][i].kind.Averaged?
      ensures ms[1..][i].device in ws1
    {
      assert ms[1..][i] == ms[i + 1];
    }
  }

  /** The rest of a table of distinct devices has distinct devices, none of
      them the first metric's. */
  lemma TailDistinct(ms: seq<Metric>)
    requires |ms| > 0 && DistinctDevices(ms)
    ensures DistinctDevices(ms[1..])
    ensures forall k :: 0 <= k < |ms[1..]| ==> ms[1..][k].device != ms[0].device
  {
    forall a, b | 0 <= a < b < |ms[1..]|
      ensures ms[1..][a].device != ms[1..][b].device
    {
      assert ms[1..][a] == ms[a + 1] && ms[1..][b] == ms[b + 1];
    }
    forall k | 0 <= k < |ms[1..]|
      ensures ms[1..][k].device != ms[0].device
    {
      assert ms[1..][k] == ms[k + 1];
    }
  }

  /** The devices the rest of a table averages into are among the whole
      table's. */
  lemma TailAveragedDevices(ms: seq<Metric>)
    requires |ms| > 0
    ensures AveragedDevices(ms[1..]) <= AveragedDevices(ms)
  {
    forall x | x in AveragedDevices(ms[1..])
      ensures x in AveragedDevices(ms)
    {
      var i :| 0 <= i < |ms[1..]| && ms[1..][i].kind.Averaged? && ms[1..][i].device == x;
      assert ms[i + 1] == ms[1..][i];
    }
  }

  /** Evaluating a non-empty table leaves the windows that evaluating its
      rest leaves, starting from the first metric's step. */
  lemma RunFirstWindows(ms: seq<Metric>, regs: RegisterSource, ws: Windows)
    requires |ms| > 0 && HasWindows(ms, ws)
    ensures HasWindows(ms[1..], Step(ms[0], regs, ws).1)
    ensures Run(ms, regs, ws).windows == Run(ms[1..], regs, Step(ms[0], regs, ws).1).windows
  {
    TailHasWindows(ms, ws, Step(ms[0], regs, ws).1);
  }

  /** The first emission of a table is its first metric's. */
  lemma RunFirstEmitted(ms: seq<Metric>, regs: RegisterSource, ws: Windows)
    requires |ms| > 0 && HasWindows(ms, ws)
    ensures Run(ms, regs, ws).emitted[0] == Step(ms[0], regs, ws).0
  {
  }

  /** The later emissions of a table are those of its rest. */
  lemma RunLaterEmitted(ms: seq<Metric>, regs: RegisterSource, ws: Windows, i: nat)
    requires 1 <= i < |ms| && HasWindows(ms, ws)
    ensures HasWindows(ms[1..], Step(ms[0], regs, ws).1)
    ensures Run(ms, regs, ws).emitted[i] == Run(ms[1..], regs, Step(ms[0], regs, ws).1).emitted[i - 1]
  {
    TailHasWindows(ms, ws, Step(ms[0], regs, ws).1);
  }

  /** Every averaged metric of a table reports a measurement. */
  lemma {:induction false} RunMeasures(ms: seq<Metric>, regs: RegisterSource, ws: Windows, i: nat)
    requires HasWindows(ms, ws)
    requires i < |ms| && ms[i].kind.Averaged?
    ensures Run(ms, regs, ws).emitted[i].reading.Measure?
    decreases |ms|
  {
    if i == 0 {
      RunFirstEmitted(ms, regs, ws);
    } else {
      RunLaterEmitted(ms, regs, ws, i);
      assert ms[1..][i - 1] == ms[i];
      RunMeasures(ms[1..], regs, Step(ms[0], regs, ws).1, i - 1);
    }
  }

  /** One averaged device's effect on a cycle `c` that started from windows
      `ws`: the window of device `d` received `ScaledValue` of register `reg`
      of unit `u` (default scale), and emission `i` is device `d` with the
      mean of that window. */
  ghost predicate Averages(c: Cycle, ws: Windows, regs: RegisterSource, i: nat, d: nat, u: int, reg: int, s: Scaling)
    requires d in ws && d in c.windows && i < |c.emitted|
  {
    && c.windows[d] == Update(ws[d], ScaledValue(regs(u, reg), s), 0)
    && |c.windows[d].samples| > 0
    && c.emitted[i] == Emission(d, Measure(Mean(c.windows[d].samples)))
  }

  /** A table only sees the registers its metrics read: two register
      sources that agree on all of them give the same cycle. */
  lemma {:induction false} RunIgnores(ms: seq<Metric>, regs: RegisterSource, regs2: RegisterSource, ws: Windows)
    requires HasWindows(ms, ws)
    requires forall i :: 0 <= i < |ms| ==> regs(ms[i].unitId, ms[i].register) == regs2(ms[i].unitId, ms[i].register)
    ensures Run(ms, regs, ws) == Run(ms, regs2, ws)
    decreases |ms|
  {
    if |ms| > 0 {
      var m := ms[0];
      assert Step(m, regs, ws) == Step(m, regs2, ws);
      var ws1 := Step(m, regs, ws).1;
      TailHasWindows(ms, ws, ws1);
      assert forall i :: 0 <= i < |ms[1..]| ==> ms[1..][i] == ms[i + 1];
      RunIgnores(ms[1..], regs, regs2, ws1);
    }
  }

  /** A window no metric of the table averages into is left as it was. */
  lemma {:induction false} RunLeavesOtherWindows(ms: seq<Metric>, regs: RegisterSource, ws: Windows, d: nat)
    requires HasWindows(ms, ws)
    requires d in ws
    requires d !in AveragedDevices(ms)
    ensures Run(ms, regs, ws).windows[d] == ws[d]
    decreases |ms|
  {
    if |ms| > 0 {
      var ws1 := Step(ms[0], regs, ws).1;
      RunFirstWindows(ms, regs, ws);
      assert ms[0].kind.Averaged? ==> ms[0].device != d;
      TailAveragedDevices(ms);
      RunLeavesOtherWindows(ms[1..], regs, ws1, d);
    }
  }

  /** With distinct devices, the i-th averaged metric pushes exactly one sample,
      its own scaled register value, into its window, and reports the mean of
      the window that results, independently of every other metric. */
  lemma {:induction false} RunAveragedAt(ms: seq<Metric>, regs: RegisterSource, ws: Windows, i: nat)
    requires HasWindows(ms, ws)
    requires DistinctDevices(ms)
    requires i < |ms| && ms[i].kind.Averaged?
    ensures ms[i].device in ws
    ensures Run(ms, regs, ws).windows[ms[i].device]
         == Update(ws[ms[i].device], ScaledValue(regs(ms[i].unitId, ms[i].register), ms[i].kind.scaling), 0)
    ensures Run(ms, regs, ws).emitted[i]
         == Emission(ms[i].device, Measure(Mean(Run(ms, regs, ws).windows[ms[i].device].samples)))
    decreases |ms|
  {
    var ws1 := Step(ms[0], regs, ws).1;
    RunFirstWindows(ms, regs, ws);
    TailDistinct(ms);
    var d := ms[i].device;
    if i == 0 {
      RunFirstEmitted(ms, regs, ws);
      assert d !in AveragedDevices(ms[1..]);
      RunLeavesOtherWindows(ms[1..], regs, ws1, d);
    } else {
      RunLaterEmitted(ms, regs, ws, i);
      assert ms[1..][i - 1] == ms[i];
      RunAveragedAt(ms[1..], regs, ws1, i - 1);
    }
  }

  /** The i-th status metric reports its decoded code for its mapper. */
  lemma {:induction false} RunStatusAt(ms: seq<Metric>, regs: RegisterSource, ws: Windows, i: nat)
    requires HasWindows(ms, ws)
    requires i < |ms| && !ms[i].kind.Averaged?
    ensures Run(ms, regs, ws).emitted[i]
         == Emission(ms[i].device, Status(ms[i].kind.mapper, Decoded(ms[i], regs)))
    decreases |ms|
  {
    if i == 0 {
      RunFirstEmitted(ms, regs, ws);
    } else {
      RunLaterEmitted(ms, regs, ws, i);
      assert ms[1..][i - 1] == ms[i];
      RunStatusAt(ms[1..], regs, Step(ms[0], regs, ws).1, i - 1);
    }
  }
}
