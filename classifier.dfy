/** The state classifier: the decisions `setSolarState`, `setBatteryState`
    and `setGridState` take before they write a tile's `data-state`. Each is a
    pure function from the raw watt-scale reading to a state label. */
module Classifier {

  import opened JsValues

  /** The closed set of labels a tile's `data-state` takes. */
  datatype TileState =
    | Waiting | Generating | Charging | Discharging
    | Import | Export | NoGrid | Ok | Offline

  /** Solar: generating exactly when the power is a finite positive number. */
  function SolarState(power: JsNum): (s: TileState)
    ensures s == Generating <==> power.Finite? && power.r > 0.0
    ensures s == Waiting <==> !(power.Finite? && power.r > 0.0)
  {
    if !IsFinite(power) then Waiting
    else if power.r > 0.0 then Generating
    else Waiting
  }

  /** Battery: the sign of a finite flow; a non-finite or zero flow waits. */
  function BatteryState(flow: JsNum): (s: TileState)
    ensures s == Discharging <==> flow.Finite? && flow.r < 0.0
    ensures s == Charging <==> flow.Finite? && flow.r > 0.0
    ensures s == Waiting <==> !flow.Finite? || flow.r == 0.0
  {
    if !IsFinite(flow) then Waiting
    else if flow.r < 0.0 then Discharging
    else if flow.r > 0.0 then Charging
    else Waiting
  }

  /** The lower-case spellings of a status that means the grid is absent. */
  const NoGridWords: set<string> := {"0", "no-grid", "offline"}

  /** The grid-absent sentinel: the number 0, or a string whose lower-case
      form is one of `NoGridWords`. */
  predicate IsNoGridStatus(status: Status) {
    match status
    case NumV(x) => x == 0.0
    case Str(text) => ToLower(text) in NoGridWords
    case Absent => false
  }

  /** A string status is the sentinel exactly when it spells one of the three
      words in any mixture of upper and lower case. */
  lemma NoGridStringIgnoresCase(text: string)
    ensures IsNoGridStatus(Str(text)) <==>
      SameIgnoringCase(text, "0") || SameIgnoringCase(text, "no-grid") || SameIgnoringCase(text, "offline")
  {
    ToLowerEqualsWord(text, "0");
    ToLowerEqualsWord(text, "no-grid");
    ToLowerEqualsWord(text, "offline");
  }

  /** Grid: the sentinel decides first, whatever the power; then the sign of a
      finite power (positive is import), non-finite or zero waiting. */
  function GridState(power: JsNum, status: Status): (s: TileState)
    ensures s == NoGrid <==> IsNoGridStatus(status)
    ensures s == Import <==> !IsNoGridStatus(status) && power.Finite? && power.r > 0.0
    ensures s == Export <==> !IsNoGridStatus(status) && power.Finite? && power.r < 0.0
    ensures s == Waiting <==> !IsNoGridStatus(status) && (!power.Finite? || power.r == 0.0)
  {
    var normalized := if status.Str? then Str(ToLower(status.s)) else status;
    if normalized == NumV(0.0) || normalized == Str("0") || normalized == Str("no-grid") || normalized == Str("offline") then
      NoGrid
    else if !IsFinite(power) then Waiting
    else if power.r < 0.0 then Export
    else if power.r > 0.0 then Import
    else Waiting
  }

  /** The grid tile is fed the negated `gridFlow`: a negative flow (drawn from
      the grid) is import, a positive flow is export, and a missing reading
      (`null`, negated to 0) waits. */
  lemma GridFromFlow(gridFlow: JsNum, status: Status)
    requires !IsNoGridStatus(status)
    ensures GridState(Negate(gridFlow), status) == Import <==> gridFlow.Finite? && gridFlow.r < 0.0
    ensures GridState(Negate(gridFlow), status) == Export <==> gridFlow.Finite? && gridFlow.r > 0.0
    ensures GridState(Negate(gridFlow), status) == Waiting <==> !gridFlow.Finite? || gridFlow.r == 0.0
  {
  }

  /** No classifier ever answers `offline`: that label only comes from a
      line-level write. */
  lemma ClassifiersNeverOffline(power: JsNum, flow: JsNum, gridPower: JsNum, status: Status)
    ensures SolarState(power) != Offline
    ensures BatteryState(flow) != Offline
    ensures GridState(gridPower, status) != Offline
  {
  }

  /** Mixed-case spellings of the sentinel words mean no grid, whatever the
      power. */
  lemma MixedCaseNoGrid()
    ensures GridState(Finite(500.0), Str("No-Grid")) == NoGrid
  {
    var a := "No-Grid";
    assert LowerChar(a[0]) == 'n' && LowerChar(a[3]) == 'g';
    assert ToLower(a) == "no-grid";
  }

  lemma UpperCaseOffline()
    ensures GridState(Finite(-20.0), Str("OFFLINE")) == NoGrid
  {
    var b := "OFFLINE";
    assert LowerChar(b[0]) == 'o' && LowerChar(b[1]) == 'f' && LowerChar(b[2]) == 'f'
        && LowerChar(b[3]) == 'l' && LowerChar(b[4]) == 'i' && LowerChar(b[5]) == 'n' && LowerChar(b[6]) == 'e';
    assert ToLower(b) == "offline";
  }

  /** The number 0 means no grid even with a non-finite power; an ordinary
      status leaves the sign of the power in charge. */
  lemma NumericSentinelAndOrdinaryStatus()
    ensures GridState(NonFinite, NumV(0.0)) == NoGrid
    ensures GridState(Finite(300.0), Str("online")) == Import
  {
    assert ToLower("online")[0] == 'o';
  }
}
