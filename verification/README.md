# Victron Energy Domoticz plugins: the heartbeat pipeline

Two Domoticz Python plugins, one for a Victron Multiplus II inverter and
one for a Victron MPPT solar charge controller, poll a Victron GX gateway
over Modbus TCP on every heartbeat. Each plugin reads one holding register
per metric and decodes it as a signed 16-bit integer. A measurement is then
divided by a fixed divisor (or left as it is, for the four gateway powers)
and pushed into that metric's sliding window, and
the window's mean goes to the metric's Domoticz device. A status register is
mapped to a label instead. The MPPT plugin also composes a Total Energy
counter from the smoothed power and the Total Energy register (790).

This project models that pipeline as pure functions and proves properties
of it:

- `SlidingWindow` (window.dfy) models the `Average` and `Maximum` classes.
  The two share one `Window` value and differ only in their accessor
  (`AverageGet`, `MaximumGet`).
- `Register` (register.dfy) models the word to big-endian bytes to
  `decode_16bit_int` path, `round(x, 3)`, and the four per-metric scalings:
  divide by 10, by 100, by 0.1, or leave unscaled.
- `StateMaps` (states.dfy) models the grid-lost alarm, the VE.Bus state and
  the ESS battery-life state. For ESS there are two versions: the code as
  written, with its misspelled variable, and a corrected one. What a status
  device shows (`Poll.Shown`) uses the mapping as written;
  `Poll.ShownIntended` uses the corrected one.
- `Poll` (poll.dfy) models a heartbeat as a table of metrics evaluated in
  order. The Modbus gateway is a total function from (unit id, register
  address) to a 16-bit word, and windows are keyed by Domoticz device unit.
- `Multiplus` (multiplus.dfy) and `Mppt` (mppt.dfy) hold each plugin's
  table of (device, unit, register, scaling or mapper), its initial windows
  and its `onHeartbeat`.

Scaled values and means are exact reals. The rounding to three decimals is
proved to change nothing for the divisors used (`ScaledValueIsRounded`).

## Model

| member | source | states |
|---|---|---|
| SlidingWindow.SetMaxSamples | multiplus/plugin.py:58-61 | the capacity becomes max(m, 1), so it is at least 1 and at least m, and the retained samples are not touched |
| SlidingWindow.SetMaxSamplesThenUpdate | mppt/plugin.py:55-63 | after lowering the capacity, the next update keeps only the newest max(m, 1) values of the history plus the new value; setting the same capacity twice is the same as setting it once |
| SlidingWindow.NewWindow | multiplus/plugin.py:54-56 | a new window holds no samples and has capacity 30, so neither `get` has a reading yet |
| SlidingWindow.Evict | multiplus/plugin.py:65-66 | the delete-oldest loop leaves exactly the last min(n, capacity) samples, in order |
| SlidingWindow.ScaledSample | multiplus/plugin.py:64 | the appended sample is `new_value * 10 ** scale`: the value times 10^scale for a non-negative scale, and a value that 10^-scale times gives back `new_value` for a negative one; scale 0 appends the value itself |
| SlidingWindow.Update | multiplus/plugin.py:63-66 | the window becomes the last min(n+1, cap) elements of the old samples followed by the scaled value; its length is between 1 and the capacity, the newest sample is the scaled value, and the capacity is unchanged |
| SlidingWindow.UpdateDefaultScale | mppt/plugin.py:60-63 | with the default scale the given value is appended; nothing is evicted while the window has room, and exactly the oldest sample goes when the window was full |
| SlidingWindow.PushAllKeepsMostRecent | mppt/plugin.py:60-63 | over any run of updates the window holds exactly the most recent `max_samples` values seen, oldest evicted first |
| SlidingWindow.SumConcat | multiplus/plugin.py:71 | the `sum` that `Average.get` takes (`Sum`, left to right) of a concatenation is the sum of the two parts |
| SlidingWindow.MeanWithinBounds | multiplus/plugin.py:70-71 | the mean of a non-empty window lies between any lower and upper bound of its samples |
| SlidingWindow.MaxOf | multiplus/plugin.py:99-100 | `max` of a non-empty window is one of its samples and no sample exceeds it |
| SlidingWindow.AverageGet | mppt/plugin.py:67-68 | `Average.get` is defined exactly on a non-empty window, and there the mean times the count equals the sum |
| SlidingWindow.MaximumGet | mppt/plugin.py:96-97 | `Maximum.get` is defined exactly on a non-empty window, and there it is a retained sample that no retained sample exceeds |
| SlidingWindow.MeanAtMostMax | multiplus/plugin.py:70-100 | on the same non-empty window, the `Average` reading never exceeds the `Maximum` reading |
| Register.WordBytes | multiplus/plugin.py:272 | a register word splits into two bytes, high byte first, that recombine to the word |
| Register.DecodeInt16 | multiplus/plugin.py:274 | `decode_16bit_int` gives the value in [-32768, 32767] congruent to the unsigned reading modulo 2^16 |
| Register.Signed16 | multiplus/plugin.py:272-274 | the signed reading of a word lies in [-32768, 32767] and is congruent to the word modulo 2^16 |
| Register.PayloadDecode | multiplus/plugin.py:272-274 | word to big-endian bytes to `decode_16bit_int` is exactly the signed reading of the word |
| Register.DecodeEncode | multiplus/plugin.py:272-274 | decoding the word that holds a signed 16-bit value gives that value back |
| Register.EncodeDecode | multiplus/plugin.py:272-274 | every word is the encoding of its signed reading, so decoding loses nothing |
| Register.RoundHalfEven | multiplus/plugin.py:276 | Python's `round` to an integer is within one half of its argument, is the argument itself on an integer, and on a tie is the even neighbour |
| Register.Round3 | multiplus/plugin.py:276 | `round(x, 3)` is within half a thousandth of x, has at most three decimals, is x when x has at most three decimals, and on a tie in the thousandths picks the even one |
| Register.ScaledValue | multiplus/plugin.py:276 | the physical value times 10 (or 100) is the decoded integer for the /10 (or /100) metrics; the value is ten times the integer for the /0.1 metrics and the integer itself for unscaled ones |
| Register.ScaledValueIsRounded | multiplus/plugin.py:276-324 | `round(value / d, 3)` for d = 10, 100 and 0.1 is the same real as the unrounded quotient |
| StateMaps.GridLost | multiplus/plugin.py:397-406 | codes 0 and 2 give alert level = code with "Ok" and "Alert - Grid Lost"; any other code gives level 3 with "Unknown state ?" |
| StateMaps.GridLostOutcomes | multiplus/plugin.py:401-406 | the alert level is always 0, 2 or 3; the text is the unknown one exactly when the code is neither 0 nor 2; level 0 occurs exactly for code 0 |
| StateMaps.VeBusState | multiplus/plugin.py:409-438 | a code of the VE.Bus table gets its label, and any other code gets "Unknown?" |
| StateMaps.VeBusUnknownExactly | multiplus/plugin.py:413-437 | the VE.Bus label is "Unknown?" exactly for codes outside 0..11 |
| StateMaps.EssStateAsWritten | multiplus/plugin.py:601-623 | as written, every code of the ESS table except 3 gets its label; code 3 and codes outside the table get "Unknown?" |
| StateMaps.EssAsWrittenUnknownExactly | multiplus/plugin.py:601-623 | as written, the ESS text is "Unknown?" exactly for codes 3, 8 and those outside 0..11 |
| StateMaps.EssState | multiplus/plugin.py:601-624 | corrected: every code of the ESS table, code 3 included, gets its label, and any other code gets "Unknown?" |
| StateMaps.EssUnknownExactly | multiplus/plugin.py:601-624 | corrected, the ESS text is "Unknown?" exactly for code 8 and codes outside 0..11 |
| StateMaps.EssTypoLosesCode3 | multiplus/plugin.py:608-609 | the misspelling changes exactly one code: code 3 shows "Unknown?" as written and a real label when corrected, and every other code is mapped the same by both |
| Poll.Shown | multiplus/plugin.py:397-624 | what a status device shows: the grid-lost alert (level, text) of its code, or the code with its VE.Bus label, or with its ESS label as the program maps it, where code 3 shows "Unknown?" |
| Poll.Decoded | multiplus/plugin.py:272-274 | a metric's decoded value is the one integer in [-32768, 32767] congruent to its register word modulo 2^16 |
| Poll.ShownIntended | multiplus/plugin.py:595-624 | what the ESS device was meant to show: every code of the ESS table, code 3 included, with its label; every other display is the one the program shows |
| Poll.Step | multiplus/plugin.py:268-282 | an averaged metric updates its own window with its register's scaled value (default scale), reports the mean of the updated window to its own device, and changes no other window; a status metric reports its decoded code for its mapper and changes no window |
| Poll.Run | multiplus/plugin.py:248-624 | a table of metrics yields one emission per metric and keeps the set of windows |
| Poll.RunMeasures | multiplus/plugin.py:279-282 | every averaged metric of the table reports a measurement |
| Poll.RunAveragedAt | multiplus/plugin.py:268-282 | with distinct devices, the i-th averaged metric pushes exactly its own scaled register value into its window, once, and reports the mean of the window that results |
| Poll.RunStatusAt | multiplus/plugin.py:397-624 | the i-th status metric reports the signed code of its own register for its mapper |
| Poll.RunIgnores | multiplus/plugin.py:248-624 | a heartbeat depends only on the registers its metrics read: register sources that agree on all of them give the same emissions and windows |
| Poll.RunLeavesOtherWindows | multiplus/plugin.py:248-624 | a window that no metric of the table averages into comes out as it went in |
| Mppt.Heartbeat | mppt/plugin.py:175-254 | the MPPT heartbeat makes four emissions, the last to the Total Energy device, and keeps the set of windows |
| Mppt.Table | mppt/plugin.py:192-237 | the heartbeat reads three metrics, all from the controller's unit, all averaged, reporting to devices 1, 2 and 3 in that order |
| Mppt.InitialWindows | mppt/plugin.py:102-110 | the plugin starts with three empty windows of capacity 30, for devices 1, 2 and 3 |
| Mppt.TableFacts | mppt/plugin.py:102-110 | the table averages into exactly devices 1, 2 and 3, numbers them upwards and never shares a window |
| Mppt.AveragedEntry | mppt/plugin.py:192-237 | the heartbeat's i-th metric updates its own window with its register's scaled value and reports that window's mean |
| Mppt.HeartbeatAverages | mppt/plugin.py:192-237 | voltage (776 /100), current (777 /10) and power (789 /10) each update their own window once and report its mean to devices 1, 2 and 3 |
| Mppt.HeartbeatPushesOneSampleEach | mppt/plugin.py:202-234 | each heartbeat leaves each of the three windows equal to the last `max_samples` of its old samples followed by its signed register over 100, 10 and 10; that sample is the newest |
| Mppt.HeartbeatLeavesOtherWindows | mppt/plugin.py:175-254 | windows other than the three averaged ones are not touched |
| Mppt.EnergyCounterComposition | mppt/plugin.py:238-254 | device 4 gets the smoothed power that device 3 reports, with the Total Energy register (790) times 100 as watt-hours |
| Mppt.HeartbeatIgnoresEnergyRegister | mppt/plugin.py:240-254 | the Total Energy register never enters a window: changing register 790 alone changes neither the windows nor what devices 1, 2 and 3 report |
| Mppt.VoltageAppend | mppt/plugin.py:192-205 | while the voltage window has room, a heartbeat appends register 776 over 100 (negative for words from 0x8000 up) and reports the mean of the grown window |
| Mppt.VoltageScenario | mppt/plugin.py:197-205 | a fresh plugin reading 1000, 1100 and 1200 on register 776 over three heartbeats reports 10.0, 10.5 and 11.0 |
| Multiplus.InitialWindows | multiplus/plugin.py:105-137 | the plugin starts with sixteen empty windows of capacity 30, one per averaged device |
| Multiplus.Table | multiplus/plugin.py:268-624 | the heartbeat reads nineteen metrics, each from one of the three units; a metric is averaged exactly when its device is one of the sixteen windowed ones |
| Multiplus.TableFacts | multiplus/plugin.py:268-624 | the devices are numbered upwards and never shared; every device is among the nineteen units, and every averaged one has a window |
| Multiplus.Heartbeat | multiplus/plugin.py:248-624 | the Multiplus heartbeat makes nineteen emissions and keeps the set of windows |
| Multiplus.AveragedEntry | multiplus/plugin.py:268-282 | the heartbeat's i-th metric, when averaged, updates its own window with its register's scaled value and reports that window's mean |
| Multiplus.StatusEntry | multiplus/plugin.py:397-400 | the heartbeat's i-th metric, when a status, reports its register's signed code |
| Multiplus.AcInputAveraged | multiplus/plugin.py:268-330 | AC input voltage (register 3) and current (6) over 10, power (12) over 0.1 and frequency (9) over 100 are averaged into devices 1 to 4 |
| Multiplus.AcOutputAveraged | multiplus/plugin.py:332-394 | AC output voltage (15) and current (18) over 10, power (23) over 0.1 and frequency (21) over 100 are averaged into devices 5 to 8 |
| Multiplus.BatteryAveraged | multiplus/plugin.py:453-515 | battery voltage (259) over 100, and current (261), state of charge (266) and temperature (262) over 10, are averaged into devices 20 to 23 |
| Multiplus.GatewayAveraged | multiplus/plugin.py:530-592 | grid (820), consumption (817), PV (808) and battery power (842) are averaged unscaled into devices 30 to 33 |
| Multiplus.StatusesReported | multiplus/plugin.py:397-624 | devices 9, 10 and 34 get the signed codes of registers 64 and 31 of the inverter unit and 2900 of the gateway unit |
| Multiplus.InverterNewestSamples | multiplus/plugin.py:276-388 | each inverter window's newest sample is its register over 10 or 100, or ten times it for the two powers |
| Multiplus.BatteryNewestSamples | multiplus/plugin.py:461-509 | the battery windows' newest samples are the voltage over 100 and the other three registers over 10 |
| Multiplus.GatewayNewestSamples | multiplus/plugin.py:536-589 | the gateway power windows receive the raw decoded integers |
| Multiplus.HeartbeatLeavesOtherWindows | multiplus/plugin.py:248-624 | windows of devices outside the sixteen averaged ones are not touched |

## Left out

- The Domoticz host is not modelled: `onStart` and the other callbacks, device creation, `Parameters` parsing, the dependency and version checks, `DumpConfigToLog` and all logging. The unit ids are a `Config` parameter, so every property holds for any unit ids, the headers' defaults (100, 228, 225 and 229) included.
- The Modbus transport is not modelled: `ModbusClient`, sockets and timeouts. The gateway is a total function from (unit id, address) to a word.
- The connection-failure `except` branches (multiplus/plugin.py:254-266, 445-451, 521-528; mppt/plugin.py:179-185) are not modelled. Each builds its error message from `self.IPaddress`, which does not exist, so the branch raises `AttributeError` and `onHeartbeat` ends there: windows and devices of the groups read before the failing one are already updated, and nothing after it runs, not even the zero updates. The model covers a heartbeat in which every connection succeeds. Each register is read once; there is no retry in the code, and a `None` read result is not handled.
- Floating point is not modelled. Values, divisions and means are exact reals, so float artefacts of `/`, `round` and `str(float)` are absent.
- Emitted values are a `Reading` datatype rather than Domoticz `sValue` strings. So `str(value)`, the "code: label" text of the state devices and the "power;total_e" counter string are left out; `Shown` gives the (code, label) pair the text is built from.
- `set_max_samples` is modelled but neither plugin calls it, so every window in the heartbeat models has capacity 30. The `Maximum` class is also modelled but neither heartbeat uses it.
- The "Unsigned 16" and "Unsigned 32" comments next to the reads are not followed: the code calls `decode_16bit_int` on one word, and that is what is modelled.
- SlidingWindow.Mean: carries no contract of its own; its property (mean times count is the sum, and the bounds) is stated by `AverageGet` and `MeanWithinBounds`.
- Poll.Run: its contract states only the number of emissions and the set of windows; what each emission and window is comes from `RunAveragedAt`, `RunStatusAt` and `RunLeavesOtherWindows`.
- Mppt.Heartbeat: its contract states only the shape of the cycle; what it emits comes from `HeartbeatAverages` and `EnergyCounterComposition`.
- Multiplus.Heartbeat: its contract states only the shape of the cycle; what it emits comes from the per-group lemmas (`AcInputAveraged` through `StatusesReported`).

## Findings

| source | as written | input that shows it | evidently intended | confidence | as-written member | corrected member |
|---|---|---|---|---|---|---|
| multiplus/plugin.py:608-609 | the code-3 branch of the ESS battery-life mapping assigns its label to `ratterystate`, so `batterystate` keeps "Unknown?" | register 2900 holding 3: device 34 shows "3: Unknown?" | "3: Self-compsumption, SoC exceeds 85%", like every other code with a label | not executed | StateMaps.EssStateAsWritten (with StateMaps.EssTypoLosesCode3; Poll.Shown displays it) | StateMaps.EssState (displayed by Poll.ShownIntended) |
