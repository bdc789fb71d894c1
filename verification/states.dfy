/**
  The three status-code mappers of the Multiplus plugin: the grid-lost
  alarm, the VE.Bus state and the ESS battery-life state. Each is written in
  the source as an `if`/`elif` chain; here each chain is checked against a
  static table of the codes it knows, with an explicit default for every
  other code.
 */
module StateMaps {

  /** The label the VE.Bus and ESS texts fall back to. */
  const Unknown: string := "Unknown?"

  /** The grid-lost alert: Domoticz alert level and text. */
  datatype Alarm = Alarm(level: int, text: string)

  const GridLostUnknown: string := "Unknown state ?"

  const GridLostLabels: map<int, string> := map[
    0 := "Ok",
    2 := "Alert - Grid Lost"
  ]

  /** Grid-lost alarm register: code 0 and code 2 are reported with the code
      as level; anything else becomes level 3, "Unknown state ?". */
  function GridLost(code: int): (a: Alarm)
    ensures code in GridLostLabels ==> a == Alarm(code, GridLostLabels[code])
    ensures code !in GridLostLabels ==> a == Alarm(3, GridLostUnknown)
  {
    if code == 0 then Alarm(code, "Ok")
    else if code == 2 then Alarm(code, "Alert - Grid Lost")
    else Alarm(3, GridLostUnknown)
  }

  /** The alert level is always 0, 2 or 3, and the text is the unknown one
      exactly when the code is neither 0 nor 2. Code 3 and an unknown code
      share level 3; only the text tells them apart. */
  lemma GridLostOutcomes(code: int)
    ensures GridLost(code).level in {0, 2, 3}
    ensures GridLost(code).text == GridLostUnknown <==> code != 0 && code != 2
    ensures GridLost(code).level == 0 <==> code == 0
  {
  }

  const VeBusLabels: map<int, string> := map[
    0 := "Off",
    1 := "Low Power",
    2 := "Fault",
    3 := "Bulk",
    4 := "Absorption",
    5 := "Float",
    6 := "Storage",
    7 := "Equalize",
    8 := "Passthru",
    9 := "Inverting",
    10 := "Power assist",
    11 := "Power supply"
  ]

  /** VE.Bus state register: the label for a code; the emitted text is the
      code, ": " and this label. */
  function VeBusState(code: int): (text: string)
    ensures code in VeBusLabels ==> text == VeBusLabels[code]
    ensures code !in VeBusLabels ==> text == Unknown
  {
    if code == 0 then "Off"
    else if code == 1 then "Low Power"
    else if code == 2 then "Fault"
    else if code == 3 then "Bulk"
    else if code == 4 then "Absorption"
    else if code == 5 then "Float"
    else if code == 6 then "Storage"
    else if code == 7 then "Equalize"
    else if code == 8 then "Passthru"
    else if code == 9 then "Inverting"
    else if code == 10 then "Power assist"
    else if code == 11 then "Power supply"
    else Unknown
  }

  /** The VE.Bus label is "Unknown?" exactly for codes outside 0..11. */
  lemma VeBusUnknownExactly(code: int)
    ensures VeBusState(code) == Unknown <==> !(0 <= code <= 11)
  {
    assert forall c :: c in VeBusLabels <==> 0 <= c <= 11;
    assert Unknown !in VeBusLabels.Values;
  }

  /** Every ESS battery-life state the source writes a label for, including
      code 3, whose label the source assigns to a misspelled variable. */
  const EssLabels: map<int, string> := map[
    0 := "Unused, Battery Life Disabled",
    1 := "Restarted",
    2 := "Self-compsumption",
    3 := "Self-compsumption, SoC exceeds 85%",
    4 := "Self-compsumption, SoC at 100%",
    5 := "Discharge disabled",
    6 := "Force Charge",
    7 := "Sustain",
    9 := "Keep batteries charged",
    10 := "Battery Life disabled",
    11 := "Battery Life disabled (low SoC)"
  ]

  /** The ESS battery-life mapping as the source has it: in the code 3 branch
      the label is stored into `ratterystate`, so `batterystate` keeps its
      initial "Unknown?". */
  function EssStateAsWritten(code: int): (text: string)
    ensures code in EssLabels && code != 3 ==> text == EssLabels[code]
    ensures code !in EssLabels || code == 3 ==> text == Unknown
  {
    if code == 0 then "Unused, Battery Life Disabled"
    else if code == 1 then "Restarted"
    else if code == 2 then "Self-compsumption"
    else if code == 3 then Unknown
    else if code == 4 then "Self-compsumption, SoC at 100%"
    else if code == 5 then "Discharge disabled"
    else if code == 6 then "Force Charge"
    else if code == 7 then "Sustain"
    else if code == 9 then "Keep batteries charged"
    else if code == 10 then "Battery Life disabled"
    else if code == 11 then "Battery Life disabled (low SoC)"
    else Unknown
  }

  /** As written, the ESS text is "Unknown?" exactly for codes 3 and 8 and
      everything outside 0..11. */
  lemma EssAsWrittenUnknownExactly(code: int)
    ensures EssStateAsWritten(code) == Unknown <==> code !in {0, 1, 2, 4, 5, 6, 7, 9, 10, 11}
  {
    assert Unknown !in EssLabels.Values;
  }

  /** The ESS battery-life mapping with the evident intent restored: code 3
      gets its label like every other code in the table. */
  function EssState(code: int): (text: string)
    ensures code in EssLabels ==> text == EssLabels[code]
    ensures code !in EssLabels ==> text == Unknown
  {
    if code == 3 then "Self-compsumption, SoC exceeds 85%" else EssStateAsWritten(code)
  }

  /** The corrected mapping reports "Unknown?" exactly for code 8 and codes
      outside 0..11. */
  lemma EssUnknownExactly(code: int)
    ensures EssState(code) == Unknown <==> code !in {0, 1, 2, 3, 4, 5, 6, 7, 9, 10, 11}
  {
    assert Unknown !in EssLabels.Values;
  }

  /** The misspelling loses exactly one state: code 3 comes out as "Unknown?"
      although the source wrote a label for it, and every other code is
      mapped the same way by both versions. */
  lemma EssTypoLosesCode3(code: int)
    ensures EssStateAsWritten(3) == Unknown
    ensures EssState(3) != Unknown
    ensures code != 3 ==> EssStateAsWritten(code) == EssState(code)
  {
  }
}
