/**
  The MPPT plugin's heartbeat: voltage, current and power of one solar
  charge controller, each smoothed in its own window, then the Total Energy counter
  composed with the smoothed power for the Total Energy device.
 */
module Mppt {
  import opened Register
  import opened SlidingWindow
  import opened Poll

  /** The Modbus unit id of the charge controller (plugin parameter Mode3). */
  datatype Config = Config(unitId: int)

  const VoltageRegister: int := 776
  const CurrentRegister: int := 777
  const PowerRegister: int := 789
  const EnergyRegister: int := 790

  /** Domoticz device units: Voltage, Current, Power, Total Energy. */
  const VoltageDevice: nat := 1
  const CurrentDevice: nat := 2
  const PowerDevice: nat := 3
  const EnergyDevice: nat := 4

  /** The averaged metrics, in the order the heartbeat reads them: all three
      are read from the controller's unit, averaged, and report to devices 1,
      2 and 3 in that order. */
  function Table(cfg: Config): (ms: seq<Metric>)
    ensures |ms| == 3
    ensures forall i :: 0 <= i < |ms| ==> ms[i].device == i + 1 && ms[i].unitId == cfg.unitId && ms[i].kind.Averaged?
  {
    [ Metric(VoltageDevice, cfg.unitId, VoltageRegister, Averaged(DivideBy100)),
      Metric(CurrentDevice, cfg.unitId, CurrentRegister, Averaged(DivideBy10)),
      Metric(PowerDevice, cfg.unitId, PowerRegister, Averaged(DivideBy10)) ]
  }

  /** The windows the plugin object starts with: three empty windows of 30. */
  function InitialWindows(): (ws: Windows)
    ensures ws.Keys == {VoltageDevice, CurrentDevice, PowerDevice}
    ensures forall d :: d in ws ==> ws[d] == NewWindow()
  {
    map[VoltageDevice := NewWindow(), CurrentDevice := NewWindow(), PowerDevice := NewWindow()]
  }

  /** One `onHeartbeat`: the three averaged metrics, then device 4 with the
      reported power and the Total Energy register (790) times 100 (the counter itself is
      not smoothed). */
  function Heartbeat(cfg: Config, regs: RegisterSource, ws: Windows): (c: Cycle)
    requires {VoltageDevice, CurrentDevice, PowerDevice} <= ws.Keys
    ensures |c.emitted| == 4
    ensures c.windows.Keys == ws.Keys
    ensures c.emitted[3].device == EnergyDevice
  {
    TableHasWindows(cfg, ws);
    var averaged := Run(Table(cfg), regs, ws);
    RunMeasures(Table(cfg), regs, ws, 2);
    var power := averaged.emitted[2].reading.value;
    var totalE := Signed16(regs(cfg.unitId, EnergyRegister)) * 100;
    Cycle([averaged.emitted[0], averaged.emitted[1], averaged.emitted[2],
           Emission(EnergyDevice, EnergyCounter(power, totalE))],
          averaged.windows)
  }

  /** The table's rows, one by one. */
  lemma TableRows(cfg: Config)
    ensures |Table(cfg)| == 3
    ensures Table(cfg)[0] == Metric(VoltageDevice, cfg.unitId, VoltageRegister, Averaged(DivideBy100))
    ensures Table(cfg)[1] == Metric(CurrentDevice, cfg.unitId, CurrentRegister, Averaged(DivideBy10))
    ensures Table(cfg)[2] == Metric(PowerDevice, cfg.unitId, PowerRegister, Averaged(DivideBy10))
  {
  }

  /** Every averaged metric finds its window. */
  lemma TableHasWindows(cfg: Config, ws: Windows)
    requires {VoltageDevice, CurrentDevice, PowerDevice} <= ws.Keys
    ensures HasWindows(Table(cfg), ws)
  {
  }

  /** The table averages into exactly devices 1, 2 and 3, and numbers them
      upwards, so no two metrics share a window. */
  lemma TableFacts(cfg: Config)
    ensures IncreasingDevices(Table(cfg))
    ensures DistinctDevices(Table(cfg))
    ensures AveragedDevices(Table(cfg)) == {VoltageDevice, CurrentDevice, PowerDevice}
  {
    var ms := Table(cfg);
    IncreasingIsDistinct(ms);
    assert ms[0].device == VoltageDevice && ms[1].device == CurrentDevice && ms[2].device == PowerDevice;
    assert forall i :: 0 <= i < |ms| ==> ms[i].device in {VoltageDevice, CurrentDevice, PowerDevice};
  }

  /** The heartbeat's i-th metric, when it is the averaged metric of device
      `d` on register `reg`, updates that window and reports its mean. */
  lemma AveragedEntry(cfg: Config, regs: RegisterSource, ws: Windows, i: nat, d: nat, reg: int, s: Scaling)
    requires {VoltageDevice, CurrentDevice, PowerDevice} <= ws.Keys
    requires i < |Table(cfg)| && Table(cfg)[i] == Metric(d, cfg.unitId, reg, Averaged(s))
    ensures d in ws
    ensures Averages(Heartbeat(cfg, regs, ws), ws, regs, i, d, cfg.unitId, reg, s)
  {
    var ms := Table(cfg);
    TableFacts(cfg);
    TableHasWindows(cfg, ws);
    var r := Run(ms, regs, ws);
    RunAveragedAt(ms, regs, ws, i);
    var c := Heartbeat(cfg, regs, ws);
    assert c.windows == r.windows;
    assert c.emitted[i] == r.emitted[i];
  }

  /** Devices 1, 2 and 3 each get one update of their own window, with their
      own register, and report the mean of the updated window. */
  lemma HeartbeatAverages(cfg: Config, regs: RegisterSource, ws: Windows)
    requires {VoltageDevice, CurrentDevice, PowerDevice} <= ws.Keys
    ensures var c := Heartbeat(cfg, regs, ws); var u := cfg.unitId;
      && Averages(c, ws, regs, 0, VoltageDevice, u, VoltageRegister, DivideBy100)
      && Averages(c, ws, regs, 1, CurrentDevice, u, CurrentRegister, DivideBy10)
      && Averages(c, ws, regs, 2, PowerDevice, u, PowerRegister, DivideBy10)
  {
    TableRows(cfg);
    AveragedEntry(cfg, regs, ws, 0, VoltageDevice, VoltageRegister, DivideBy100);
    AveragedEntry(cfg, regs, ws, 1, CurrentDevice, CurrentRegister, DivideBy10);
    AveragedEntry(cfg, regs, ws, 2, PowerDevice, PowerRegister, DivideBy10);
  }

  /** Windows other than the three averaged ones are not touched. */
  lemma HeartbeatLeavesOtherWindows(cfg: Config, regs: RegisterSource, ws: Windows, d: nat)
    requires {VoltageDevice, CurrentDevice, PowerDevice} <= ws.Keys
    requires d in ws && d !in {VoltageDevice, CurrentDevice, PowerDevice}
    ensures Heartbeat(cfg, regs, ws).windows[d] == ws[d]
  {
    var ms := Table(cfg);
    TableFacts(cfg);
    TableHasWindows(cfg, ws);
    RunLeavesOtherWindows(ms, regs, ws, d);
    assert Heartbeat(cfg, regs, ws).windows == Run(ms, regs, ws).windows;
  }

  /** Each heartbeat pushes exactly one sample into each of the three windows,
      with the default scale: register 776 over 100, register 777 over 10 and
      register 789 over 10, each decoded as a signed 16-bit value; that sample
      is the newest one in the window. */
  lemma HeartbeatPushesOneSampleEach(cfg: Config, regs: RegisterSource, ws: Windows)
    requires {VoltageDevice, CurrentDevice, PowerDevice} <= ws.Keys
    ensures var c := Heartbeat(cfg, regs, ws);
      && |c.windows[VoltageDevice].samples| > 0
      && |c.windows[CurrentDevice].samples| > 0
      && |c.windows[PowerDevice].samples| > 0
    ensures var c := Heartbeat(cfg, regs, ws);
      && c.windows[VoltageDevice].samples
         == LastN(ws[VoltageDevice].samples + [(Signed16(regs(cfg.unitId, VoltageRegister)) as real) / 100.0], ws[VoltageDevice].maxSamples)
      && c.windows[CurrentDevice].samples
         == LastN(ws[CurrentDevice].samples + [(Signed16(regs(cfg.unitId, CurrentRegister)) as real) / 10.0], ws[CurrentDevice].maxSamples)
      && c.windows[PowerDevice].samples
         == LastN(ws[PowerDevice].samples + [(Signed16(regs(cfg.unitId, PowerRegister)) as real) / 10.0], ws[PowerDevice].maxSamples)
    ensures var c := Heartbeat(cfg, regs, ws);
      && Last(c.windows[VoltageDevice].samples) == (Signed16(regs(cfg.unitId, VoltageRegister)) as real) / 100.0
      && Last(c.windows[CurrentDevice].samples) == (Signed16(regs(cfg.unitId, CurrentRegister)) as real) / 10.0
      && Last(c.windows[PowerDevice].samples) == (Signed16(regs(cfg.unitId, PowerRegister)) as real) / 10.0
  {
    var u := cfg.unitId;
    HeartbeatAverages(cfg, regs, ws);
    UpdateDefaultScale(ws[VoltageDevice], ScaledValue(regs(u, VoltageRegister), DivideBy100));
    UpdateDefaultScale(ws[CurrentDevice], ScaledValue(regs(u, CurrentRegister), DivideBy10));
    UpdateDefaultScale(ws[PowerDevice], ScaledValue(regs(u, PowerRegister), DivideBy10));
  }

  /** Device 4 gets the power device's reported (smoothed) value and the raw
      Total Energy register (790) times 100. */
  lemma EnergyCounterComposition(cfg: Config, regs: RegisterSource, ws: Windows)
    requires {VoltageDevice, CurrentDevice, PowerDevice} <= ws.Keys
    ensures |Heartbeat(cfg, regs, ws).windows[PowerDevice].samples| > 0
    ensures var c := Heartbeat(cfg, regs, ws);
      && c.emitted[3] == Emission(EnergyDevice,
           EnergyCounter(Mean(c.windows[PowerDevice].samples), Signed16(regs(cfg.unitId, EnergyRegister)) * 100))
      && c.emitted[2].reading == Measure(c.emitted[3].reading.power)
  {
    TableRows(cfg);
    AveragedEntry(cfg, regs, ws, 2, PowerDevice, PowerRegister, DivideBy10);
  }

  /** The Total Energy register (790) never enters a window and does not
      change what devices 1, 2 and 3 report: two register sources that agree
      everywhere else give the same windows and the same first three
      emissions. */
  lemma HeartbeatIgnoresEnergyRegister(cfg: Config, regs: RegisterSource, regs2: RegisterSource, ws: Windows)
    requires {VoltageDevice, CurrentDevice, PowerDevice} <= ws.Keys
    requires forall u: int, a: int :: (u, a) != (cfg.unitId, EnergyRegister) ==> regs(u, a) == regs2(u, a)
    ensures Heartbeat(cfg, regs, ws).windows == Heartbeat(cfg, regs2, ws).windows
    ensures forall i :: 0 <= i < 3 ==> Heartbeat(cfg, regs, ws).emitted[i] == Heartbeat(cfg, regs2, ws).emitted[i]
  {
    var ms := Table(cfg);
    TableRows(cfg);
    TableHasWindows(cfg, ws);
    assert forall i :: 0 <= i < |ms| ==> ms[i].unitId == cfg.unitId && ms[i].register != EnergyRegister;
    RunIgnores(ms, regs, regs2, ws);
    var r := Run(ms, regs, ws);
    assert Heartbeat(cfg, regs, ws).windows == r.windows;
    assert Heartbeat(cfg, regs2, ws).windows == r.windows;
    forall i | 0 <= i < 3
      ensures Heartbeat(cfg, regs, ws).emitted[i] == Heartbeat(cfg, regs2, ws).emitted[i]
    {
      assert Heartbeat(cfg, regs, ws).emitted[i] == r.emitted[i];
      assert Heartbeat(cfg, regs2, ws).emitted[i] == r.emitted[i];
    }
  }

  /** While the voltage window has room, a heartbeat appends the voltage
      register over 100 and reports the mean of the grown window. */
  lemma VoltageAppend(cfg: Config, regs: RegisterSource, ws: Windows, raw: Word, grown: seq<real>)
    requires {VoltageDevice, CurrentDevice, PowerDevice} <= ws.Keys
    requires |ws[VoltageDevice].samples| < ws[VoltageDevice].maxSamples
    requires regs(cfg.unitId, VoltageRegister) == raw
    requires grown == ws[VoltageDevice].samples + [ScaledValue(raw, DivideBy100)]
    ensures var c := Heartbeat(cfg, regs, ws);
      && c.windows[VoltageDevice].samples == grown
      && c.windows[VoltageDevice].maxSamples == ws[VoltageDevice].maxSamples
      && c.emitted[0] == Emission(VoltageDevice, Measure(Mean(grown)))
  {
    TableRows(cfg);
    AveragedEntry(cfg, regs, ws, 0, VoltageDevice, VoltageRegister, DivideBy100);
    UpdateDefaultScale(ws[VoltageDevice], ScaledValue(raw, DivideBy100));
  }

  /** Three heartbeats from a fresh plugin reading 1000, 1100 and 1200 in the
      voltage register report 10.0, 10.5 and 11.0 volts. */
  lemma VoltageScenario(cfg: Config, regs1: RegisterSource, regs2: RegisterSource, regs3: RegisterSource)
    requires regs1(cfg.unitId, VoltageRegister) == 1000
    requires regs2(cfg.unitId, VoltageRegister) == 1100
    requires regs3(cfg.unitId, VoltageRegister) == 1200
    ensures var c1 := Heartbeat(cfg, regs1, InitialWindows());
            var c2 := Heartbeat(cfg, regs2, c1.windows);
            var c3 := Heartbeat(cfg, regs3, c2.windows);
      && c1.emitted[0] == Emission(VoltageDevice, Measure(10.0))
      && c2.emitted[0] == Emission(VoltageDevice, Measure(10.5))
      && c3.emitted[0] == Emission(VoltageDevice, Measure(11.0))
  {
    var ws0 := InitialWindows();
    VoltageSamples();
    VoltageAppend(cfg, regs1, ws0, 1000, [10.0]);
    var ws1 := Heartbeat(cfg, regs1, ws0).windows;
    VoltageAppend(cfg, regs2, ws1, 1100, [10.0, 11.0]);
    var ws2 := Heartbeat(cfg, regs2, ws1).windows;
    VoltageAppend(cfg, regs3, ws2, 1200, [10.0, 11.0, 12.0]);
  }

  /** The voltage windows and means of the three-heartbeat run. */
  lemma VoltageSamples()
    ensures InitialWindows()[VoltageDevice] == Window([], 30)
    ensures [10.0] == [] + [ScaledValue(1000, DivideBy100)]
    ensures [10.0, 11.0] == [10.0] + [ScaledValue(1100, DivideBy100)]
    ensures [10.0, 11.0, 12.0] == [10.0, 11.0] + [ScaledValue(1200, DivideBy100)]
    ensures Mean([10.0]) == 10.0
    ensures Mean([10.0, 11.0]) == 10.5
    ensures Mean([10.0, 11.0, 12.0]) == 11.0
  {
    assert [10.0, 11.0][..1] == [10.0];
    assert [10.0, 11.0, 12.0][..2] == [10.0, 11.0];
  }
}
