/**
  The Multiplus II plugin's heartbeat: nineteen metrics read from three
  Modbus units of the GX gateway. The inverter unit gives the AC input and
  output voltage, current, power and frequency plus the grid-lost alarm and
  the VE.Bus state; the battery unit gives battery voltage, current, state of
  charge and temperature; the gateway unit gives grid, consumption, PV and
  battery power (unscaled) and the ESS battery-life state.
 */
module Multiplus {
  import opened Register
  import opened SlidingWindow
  import opened Poll

  /** The three Modbus unit ids (plugin parameters Mode3, Mode4, Mode5). */
  datatype Config = Config(gatewayUnit: int, multiUnit: int, batteryUnit: int)

  /** The Domoticz units that keep a sliding window. */
  const AveragedUnits: set<nat> := {1, 2, 3, 4, 5, 6, 7, 8, 20, 21, 22, 23, 30, 31, 32, 33}

  /** Every Domoticz unit the heartbeat updates. */
  const AllUnits: set<nat> := AveragedUnits + {9, 10, 34}

  /** The metrics in the order the heartbeat reads them: device unit, Modbus
      unit, register, and how the decoded value is used. */
  function Table(cfg: Config): (ms: seq<Metric>)
    ensures |ms| == 19
    ensures forall i :: 0 <= i < |ms| ==> (ms[i].kind.Averaged? <==> ms[i].device in AveragedUnits)
    ensures forall i :: 0 <= i < |ms| ==> ms[i].unitId in {cfg.multiUnit, cfg.batteryUnit, cfg.gatewayUnit}
  {
    var multi := cfg.multiUnit;
    var battery := cfg.batteryUnit;
    var gateway := cfg.gatewayUnit;
    [ Metric(1, multi, 3, Averaged(DivideBy10)),       // AC in voltage
      Metric(2, multi, 6, Averaged(DivideBy10)),       // AC in current
      Metric(3, multi, 12, Averaged(DivideByTenth)),   // AC in power
      Metric(4, multi, 9, Averaged(DivideBy100)),      // AC in frequency
      Metric(5, multi, 15, Averaged(DivideBy10)),      // AC out voltage
      Metric(6, multi, 18, Averaged(DivideBy10)),      // AC out current
      Metric(7, multi, 23, Averaged(DivideByTenth)),   // AC out power
      Metric(8, multi, 21, Averaged(DivideBy100)),     // AC out frequency
      Metric(9, multi, 64, Mapped(GridLostAlarm)),
      Metric(10, multi, 31, Mapped(VeBusMode)),
      Metric(20, battery, 259, Averaged(DivideBy100)), // battery voltage
      Metric(21, battery, 261, Averaged(DivideBy10)),  // battery current
      Metric(22, battery, 266, Averaged(DivideBy10)),  // state of charge
      Metric(23, battery, 262, Averaged(DivideBy10)),  // battery temperature
      Metric(30, gateway, 820, Averaged(Unscaled)),    // grid power
      Metric(31, gateway, 817, Averaged(Unscaled)),    // consumption
      Metric(32, gateway, 808, Averaged(Unscaled)),    // PV on output
      Metric(33, gateway, 842, Averaged(Unscaled)),    // battery power
      Metric(34, gateway, 2900, Mapped(EssBatteryLife)) ]
  }

  /** The windows the plugin object starts with: sixteen empty windows of 30. */
  function InitialWindows(): (ws: Windows)
    ensures ws.Keys == AveragedUnits
    ensures forall d :: d in ws ==> ws[d] == NewWindow()
  {
    map d | d in AveragedUnits :: NewWindow()
  }

  /** The table's devices, numbered upwards, are exactly the units updated,
      and its averaged ones are exactly the windowed units. */
  lemma TableFacts(cfg: Config)
    ensures IncreasingDevices(Table(cfg))
    ensures DistinctDevices(Table(cfg))
    ensures forall i :: 0 <= i < |Table(cfg)| ==> Table(cfg)[i].device in AllUnits
    ensures forall i :: 0 <= i < |Table(cfg)| && Table(cfg)[i].kind.Averaged? ==> Table(cfg)[i].device in AveragedUnits
  {
    TableIncreasing(cfg);
    TableUnits(cfg);
    IncreasingIsDistinct(Table(cfg));
  }

  /** Device units grow along the table. */
  lemma TableIncreasing(cfg: Config)
    ensures IncreasingDevices(Table(cfg))
  {
  }

  /** Every device unit is one the plugin creates. */
  lemma TableUnits(cfg: Config)
    ensures forall i :: 0 <= i < |Table(cfg)| ==> Table(cfg)[i].device in AllUnits
  {
  }

  /** The table row by row. */
  lemma TableRows(cfg: Config)
    ensures |Table(cfg)| == 19
    ensures Table(cfg)[0] == Metric(1, cfg.multiUnit, 3, Averaged(DivideBy10))
    ensures Table(cfg)[1] == Metric(2, cfg.multiUnit, 6, Averaged(DivideBy10))
    ensures Table(cfg)[2] == Metric(3, cfg.multiUnit, 12, Averaged(DivideByTenth))
    ensures Table(cfg)[3] == Metric(4, cfg.multiUnit, 9, Averaged(DivideBy100))
    ensures Table(cfg)[4] == Metric(5, cfg.multiUnit, 15, Averaged(DivideBy10))
    ensures Table(cfg)[5] == Metric(6, cfg.multiUnit, 18, Averaged(DivideBy10))
    ensures Table(cfg)[6] == Metric(7, cfg.multiUnit, 23, Averaged(DivideByTenth))
    ensures Table(cfg)[7] == Metric(8, cfg.multiUnit, 21, Averaged(DivideBy100))
    ensures Table(cfg)[8] == Metric(9, cfg.multiUnit, 64, Mapped(GridLostAlarm))
    ensures Table(cfg)[9] == Metric(10, cfg.multiUnit, 31, Mapped(VeBusMode))
    ensures Table(cfg)[10] == Metric(20, cfg.batteryUnit, 259, Averaged(DivideBy100))
    ensures Table(cfg)[11] == Metric(21, cfg.batteryUnit, 261, Averaged(DivideBy10))
    ensures Table(cfg)[12] == Metric(22, cfg.batteryUnit, 266, Averaged(DivideBy10))
    ensures Table(cfg)[13] == Metric(23, cfg.batteryUnit, 262, Averaged(DivideBy10))
    ensures Table(cfg)[14] == Metric(30, cfg.gatewayUnit, 820, Averaged(Unscaled))
    ensures Table(cfg)[15] == Metric(31, cfg.gatewayUnit, 817, Averaged(Unscaled))
    ensures Table(cfg)[16] == Metric(32, cfg.gatewayUnit, 808, Averaged(Unscaled))
    ensures Table(cfg)[17] == Metric(33, cfg.gatewayUnit, 842, Averaged(Unscaled))
    ensures Table(cfg)[18] == Metric(34, cfg.gatewayUnit, 2900, Mapped(EssBatteryLife))
  {
  }

  /** Windows for the averaged units are all the heartbeat needs. */
  lemma TableHasWindows(cfg: Config, ws: Windows)
    requires AveragedUnits <= ws.Keys
    ensures HasWindows(Table(cfg), ws)
  {
    TableFacts(cfg);
  }

  /** One `onHeartbeat`: every metric of the table, in order. */
  function Heartbeat(cfg: Config, regs: RegisterSource, ws: Windows): (c: Cycle)
    requires AveragedUnits <= ws.Keys
    ensures |c.emitted| == |Table(cfg)| == 19
    ensures c.windows.Keys == ws.Keys
  {
    TableHasWindows(cfg, ws);
    Run(Table(cfg), regs, ws)
  }

  /** The heartbeat's i-th metric, when it is the averaged metric of device
      `d` on register `reg` of unit `u`, does what `Averages` says. */
  lemma AveragedEntry(cfg: Config, regs: RegisterSource, ws: Windows, i: nat, d: nat, u: int, reg: int, s: Scaling)
    requires AveragedUnits <= ws.Keys
    requires i < |Table(cfg)| && Table(cfg)[i] == Metric(d, u, reg, Averaged(s))
    ensures d in ws
    ensures Averages(Heartbeat(cfg, regs, ws), ws, regs, i, d, u, reg, s)
  {
    TableFacts(cfg);
    TableHasWindows(cfg, ws);
    RunAveragedAt(Table(cfg), regs, ws, i);
  }

  /** The heartbeat's i-th metric, when it is the status metric of device `d`
      on register `reg` of unit `u`, reports that register's signed code. */
  lemma StatusEntry(cfg: Config, regs: RegisterSource, ws: Windows, i: nat, d: nat, u: int, reg: int, mapper: Mapper)
    requires AveragedUnits <= ws.Keys
    requires i < |Table(cfg)| && Table(cfg)[i] == Metric(d, u, reg, Mapped(mapper))
    ensures Heartbeat(cfg, regs, ws).emitted[i] == Emission(d, Status(mapper, Signed16(regs(u, reg))))
  {
    TableHasWindows(cfg, ws);
    RunStatusAt(Table(cfg), regs, ws, i);
  }

  /** AC input: voltage (register 3) and current (register 6) over 10, power
      (register 12) over 0.1, frequency (register 9) over 100, all from the
      inverter unit. */
  lemma AcInputAveraged(cfg: Config, regs: RegisterSource, ws: Windows)
    requires AveragedUnits <= ws.Keys
    ensures var c := Heartbeat(cfg, regs, ws);
            var u := cfg.multiUnit;
      && Averages(c, ws, regs, 0, 1, u, 3, DivideBy10)
      && Averages(c, ws, regs, 1, 2, u, 6, DivideBy10)
      && Averages(c, ws, regs, 2, 3, u, 12, DivideByTenth)
      && Averages(c, ws, regs, 3, 4, u, 9, DivideBy100)
  {
    TableRows(cfg);
    AveragedEntry(cfg, regs, ws, 0, 1, cfg.multiUnit, 3, DivideBy10);
    AveragedEntry(cfg, regs, ws, 1, 2, cfg.multiUnit, 6, DivideBy10);
    AveragedEntry(cfg, regs, ws, 2, 3, cfg.multiUnit, 12, DivideByTenth);
    AveragedEntry(cfg, regs, ws, 3, 4, cfg.multiUnit, 9, DivideBy100);
  }

  /** AC output: voltage (register 15) and current (register 18) over 10,
      power (register 23) over 0.1, frequency (register 21) over 100. */
  lemma AcOutputAveraged(cfg: Config, regs: RegisterSource, ws: Windows)
    requires AveragedUnits <= ws.Keys
    ensures var c := Heartbeat(cfg, regs, ws);
            var u := cfg.multiUnit;
      && Averages(c, ws, regs, 4, 5, u, 15, DivideBy10)
      && Averages(c, ws, regs, 5, 6, u, 18, DivideBy10)
      && Averages(c, ws, regs, 6, 7, u, 23, DivideByTenth)
      && Averages(c, ws, regs, 7, 8, u, 21, DivideBy100)
  {
    TableRows(cfg);
    AveragedEntry(cfg, regs, ws, 4, 5, cfg.multiUnit, 15, DivideBy10);
    AveragedEntry(cfg, regs, ws, 5, 6, cfg.multiUnit, 18, DivideBy10);
    AveragedEntry(cfg, regs, ws, 6, 7, cfg.multiUnit, 23, DivideByTenth);
    AveragedEntry(cfg, regs, ws, 7, 8, cfg.multiUnit, 21, DivideBy100);
  }

  /** Battery: voltage (register 259) over 100; current (261), state of
      charge (266) and temperature (262) over 10, from the battery unit. */
  lemma BatteryAveraged(cfg: Config, regs: RegisterSource, ws: Windows)
    requires AveragedUnits <= ws.Keys
    ensures var c := Heartbeat(cfg, regs, ws);
            var u := cfg.batteryUnit;
      && Averages(c, ws, regs, 10, 20, u, 259, DivideBy100)
      && Averages(c, ws, regs, 11, 21, u, 261, DivideBy10)
      && Averages(c, ws, regs, 12, 22, u, 266, DivideBy10)
      && Averages(c, ws, regs, 13, 23, u, 262, DivideBy10)
  {
    TableRows(cfg);
    AveragedEntry(cfg, regs, ws, 10, 20, cfg.batteryUnit, 259, DivideBy100);
    AveragedEntry(cfg, regs, ws, 11, 21, cfg.batteryUnit, 261, DivideBy10);
    AveragedEntry(cfg, regs, ws, 12, 22, cfg.batteryUnit, 266, DivideBy10);
    AveragedEntry(cfg, regs, ws, 13, 23, cfg.batteryUnit, 262, DivideBy10);
  }

  /** Gateway powers: grid (register 820), consumption (817), PV on output
      (808) and battery (842), pushed unscaled, as raw integers. */
  lemma GatewayAveraged(cfg: Config, regs: RegisterSource, ws: Windows)
    requires AveragedUnits <= ws.Keys
    ensures var c := Heartbeat(cfg, regs, ws);
            var u := cfg.gatewayUnit;
      && Averages(c, ws, regs, 14, 30, u, 820, Unscaled)
      && Averages(c, ws, regs, 15, 31, u, 817, Unscaled)
      && Averages(c, ws, regs, 16, 32, u, 808, Unscaled)
      && Averages(c, ws, regs, 17, 33, u, 842, Unscaled)
  {
    TableRows(cfg);
    AveragedEntry(cfg, regs, ws, 14, 30, cfg.gatewayUnit, 820, Unscaled);
    AveragedEntry(cfg, regs, ws, 15, 31, cfg.gatewayUnit, 817, Unscaled);
    AveragedEntry(cfg, regs, ws, 16, 32, cfg.gatewayUnit, 808, Unscaled);
    AveragedEntry(cfg, regs, ws, 17, 33, cfg.gatewayUnit, 842, Unscaled);
  }

  /** The three status devices: the grid-lost alarm (register 64) and the
      VE.Bus state (register 31) of the inverter unit, and the ESS
      battery-life state (register 2900) of the gateway unit, each reported
      as its decoded signed code. */
  lemma StatusesReported(cfg: Config, regs: RegisterSource, ws: Windows)
    requires AveragedUnits <= ws.Keys
    ensures var c := Heartbeat(cfg, regs, ws);
      && c.emitted[8] == Emission(9, Status(GridLostAlarm, Signed16(regs(cfg.multiUnit, 64))))
      && c.emitted[9] == Emission(10, Status(VeBusMode, Signed16(regs(cfg.multiUnit, 31))))
      && c.emitted[18] == Emission(34, Status(EssBatteryLife, Signed16(regs(cfg.gatewayUnit, 2900))))
  {
    TableRows(cfg);
    StatusEntry(cfg, regs, ws, 8, 9, cfg.multiUnit, 64, GridLostAlarm);
    StatusEntry(cfg, regs, ws, 9, 10, cfg.multiUnit, 31, VeBusMode);
    StatusEntry(cfg, regs, ws, 18, 34, cfg.gatewayUnit, 2900, EssBatteryLife);
  }

  /** The sample each inverter window receives: voltages and currents are
      tenths, frequencies hundredths, and the two powers, divided by 0.1,
      are ten times the register. */
  lemma InverterNewestSamples(cfg: Config, regs: RegisterSource, ws: Windows)
    requires AveragedUnits <= ws.Keys
    ensures var c := Heartbeat(cfg, regs, ws);
      && |c.windows[1].samples| > 0 && |c.windows[2].samples| > 0
      && |c.windows[3].samples| > 0 && |c.windows[4].samples| > 0
      && |c.windows[5].samples| > 0 && |c.windows[6].samples| > 0
      && |c.windows[7].samples| > 0 && |c.windows[8].samples| > 0
      && Last(c.windows[1].samples) == (Signed16(regs(cfg.multiUnit, 3)) as real) / 10.0
      && Last(c.windows[2].samples) == (Signed16(regs(cfg.multiUnit, 6)) as real) / 10.0
      && Last(c.windows[3].samples) == 10.0 * (Signed16(regs(cfg.multiUnit, 12)) as real)
      && Last(c.windows[4].samples) == (Signed16(regs(cfg.multiUnit, 9)) as real) / 100.0
      && Last(c.windows[5].samples) == (Signed16(regs(cfg.multiUnit, 15)) as real) / 10.0
      && Last(c.windows[6].samples) == (Signed16(regs(cfg.multiUnit, 18)) as real) / 10.0
      && Last(c.windows[7].samples) == 10.0 * (Signed16(regs(cfg.multiUnit, 23)) as real)
      && Last(c.windows[8].samples) == (Signed16(regs(cfg.multiUnit, 21)) as real) / 100.0
  {
    AcInputAveraged(cfg, regs, ws);
    AcOutputAveraged(cfg, regs, ws);
  }

  /** The sample each battery window receives: the voltage in hundredths,
      current, state of charge and temperature in tenths. */
  lemma BatteryNewestSamples(cfg: Config, regs: RegisterSource, ws: Windows)
    requires AveragedUnits <= ws.Keys
    ensures var c := Heartbeat(cfg, regs, ws);
      && |c.windows[20].samples| > 0 && |c.windows[21].samples| > 0
      && |c.windows[22].samples| > 0 && |c.windows[23].samples| > 0
      && Last(c.windows[20].samples) == (Signed16(regs(cfg.batteryUnit, 259)) as real) / 100.0
      && Last(c.windows[21].samples) == (Signed16(regs(cfg.batteryUnit, 261)) as real) / 10.0
      && Last(c.windows[22].samples) == (Signed16(regs(cfg.batteryUnit, 266)) as real) / 10.0
      && Last(c.windows[23].samples) == (Signed16(regs(cfg.batteryUnit, 262)) as real) / 10.0
  {
    BatteryAveraged(cfg, regs, ws);
  }

  /** The gateway powers enter their windows as the raw decoded integers. */
  lemma GatewayNewestSamples(cfg: Config, regs: RegisterSource, ws: Windows)
    requires AveragedUnits <= ws.Keys
    ensures var c := Heartbeat(cfg, regs, ws);
      && |c.windows[30].samples| > 0 && |c.windows[31].samples| > 0
      && |c.windows[32].samples| > 0 && |c.windows[33].samples| > 0
      && Last(c.windows[30].samples) == (Signed16(regs(cfg.gatewayUnit, 820)) as real)
      && Last(c.windows[31].samples) == (Signed16(regs(cfg.gatewayUnit, 817)) as real)
      && Last(c.windows[32].samples) == (Signed16(regs(cfg.gatewayUnit, 808)) as real)
      && Last(c.windows[33].samples) == (Signed16(regs(cfg.gatewayUnit, 842)) as real)
  {
    GatewayAveraged(cfg, regs, ws);
  }

  /** Windows of units outside the sixteen averaged ones are not touched. */
  lemma HeartbeatLeavesOtherWindows(cfg: Config, regs: RegisterSource, ws: Windows, d: nat)
    requires AveragedUnits <= ws.Keys
    requires d in ws && d !in AveragedUnits
    ensures Heartbeat(cfg, regs, ws).windows[d] == ws[d]
  {
    TableFacts(cfg);
    TableHasWindows(cfg, ws);
    assert d !in AveragedDevices(Table(cfg));
    RunLeavesOtherWindows(Table(cfg), regs, ws, d);
  }
}
