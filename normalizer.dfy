/** The reading normalizer (`Inverter`, `InvertersData.update`) and the fixed
    sequence of tile-board writes `update` makes afterwards. */
module Normalizer {

  import opened Wrappers
  import opened JsValues
  import opened Classifier
  import opened Surface

  datatype InverterState = StateOk | StateOffline

  /** One element of the payload's `inverters` array. */
  datatype Record = Record(
    sn: string,
    pvPower: JsNum,
    batteryFlow: JsNum,
    soc: JsNum,
    gridFlow: JsNum,
    gridStatus: Status,
    consumption: JsNum)

  /** A truthy payload: the `inverters` array and `total.consumption`. */
  datatype Payload = Payload(inverters: seq<Record>, totalConsumption: JsNum)

  /** The fields of an `Inverter` object (its serial, never read, apart). */
  datatype Node = Node(
    state: InverterState,
    pvPower: JsNum,
    batteryFlow: JsNum,
    soc: JsNum,
    gridFlow: JsNum,
    gridStatus: Status,
    consumption: JsNum)

  const Inverter1Sn: string := "SNPG285F4M"
  const Inverter2Sn: string := "SNKT6MEJKR"

  /** A freshly constructed inverter: offline, every reading null. */
  const Unloaded: Node := Node(StateOffline, Null, Null, Null, Null, Absent, Null)

  /** The node holds exactly the six readings of the record. */
  predicate Carries(n: Node, rec: Record) {
    && n.pvPower == rec.pvPower
    && n.batteryFlow == rec.batteryFlow
    && n.soc == rec.soc
    && n.gridFlow == rec.gridFlow
    && n.gridStatus == rec.gridStatus
    && n.consumption == rec.consumption
  }

  /** The two nodes hold the same six readings. */
  predicate SameReadings(n: Node, m: Node) {
    n.(state := m.state) == m
  }

  /** `loadData`: a falsy argument changes nothing; a record makes the node
      online and copies its six readings verbatim. */
  function Loaded(n: Node, data: Option<Record>): (r: Node)
    ensures data.None? ==> r == n
    ensures data.Some? ==> r.state == StateOk && Carries(r, data.value)
  {
    match data
    case None => n
    case Some(rec) =>
      Node(StateOk, rec.pvPower, rec.batteryFlow, rec.soc, rec.gridFlow, rec.gridStatus, rec.consumption)
  }

  /** `setStateOffline`: only the state changes; the readings are kept. */
  function MarkedOffline(n: Node): (r: Node)
    ensures r.state == StateOffline && SameReadings(r, n)
  {
    n.(state := StateOffline)
  }

  /** The index of the first record with serial `sn`, if any. */
  function FindIndex(recs: seq<Record>, sn: string): (r: Option<nat>)
    ensures r.Some? ==> r.value < |recs| && recs[r.value].sn == sn
    ensures r.Some? ==> forall j :: 0 <= j < r.value ==> recs[j].sn != sn
    ensures r.None? ==> forall j :: 0 <= j < |recs| ==> recs[j].sn != sn
    decreases |recs|
  {
    if recs == [] then None
    else if recs[0].sn == sn then Some(0)
    else
      match FindIndex(recs[1..], sn)
      case None => None
      case Some(i) => Some(i + 1)
  }

  /** `inverters.find(inv => inv.sn === sn)`. */
  function Find(recs: seq<Record>, sn: string): (r: Option<Record>)
    ensures r.Some? <==> exists i :: 0 <= i < |recs| && recs[i].sn == sn
    ensures r.Some? ==> r.value.sn == sn && r.value in recs
    ensures forall i :: (0 <= i < |recs| && recs[i].sn == sn && (forall j :: 0 <= j < i ==> recs[j].sn != sn))
                 ==> r == Some(recs[i])
  {
    match FindIndex(recs, sn)
    case None => None
    case Some(i) => Some(recs[i])
  }

  /** What one slot of `update` promises: the node is online exactly when
      some record carries its serial, then holding the readings of the first
      such record; otherwise it is offline and keeps its previous readings. */
  predicate Normalized(before: Node, after: Node, recs: seq<Record>, sn: string) {
    && (after.state == StateOk <==> exists i :: 0 <= i < |recs| && recs[i].sn == sn)
    && (forall i :: 0 <= i < |recs| && recs[i].sn == sn && (forall j :: 0 <= j < i ==> recs[j].sn != sn)
          ==> Carries(after, recs[i]))
    && (after.state == StateOffline ==> SameReadings(after, before))
  }

  /** The `if (inv) loadData(inv) else setStateOffline()` of one slot. */
  function Refresh(n: Node, recs: seq<Record>, sn: string): (r: Node)
    ensures Normalized(n, r, recs, sn)
  {
    var found := Find(recs, sn);
    if found.Some? then Loaded(n, found) else MarkedOffline(n)
  }

  /** The state `InvertersData` keeps. */
  datatype Readings = Readings(inverter1: Node, inverter2: Node, totalConsumption: JsNum)

  const Initial: Readings := Readings(Unloaded, Unloaded, Finite(0.0))

  /** The field updates of `update`: a falsy payload changes nothing; a
      payload refreshes both slots by serial and copies the total. */
  function Normalize(s: Readings, data: Option<Payload>): (r: Readings)
    ensures data.None? ==> r == s
    ensures data.Some? ==> Normalized(s.inverter1, r.inverter1, data.value.inverters, Inverter1Sn)
    ensures data.Some? ==> Normalized(s.inverter2, r.inverter2, data.value.inverters, Inverter2Sn)
    ensures data.Some? ==> r.totalConsumption == data.value.totalConsumption
  {
    match data
    case None => s
    case Some(payload) =>
      Readings(
        Refresh(s.inverter1, payload.inverters, Inverter1Sn),
        Refresh(s.inverter2, payload.inverters, Inverter2Sn),
        payload.totalConsumption)
  }

  /** A second `update` with the same payload changes nothing more. */
  lemma NormalizeIdempotent(s: Readings, data: Option<Payload>)
    ensures Normalize(Normalize(s, data), data) == Normalize(s, data)
  {
  }

  /** `class Inverter`: the serial it was built with (never read) and the
      fields `loadData` and `setStateOffline` update. */
  class Inverter {
    var sn: Option<string>
    var state: InverterState
    var pvPower: JsNum
    var batteryFlow: JsNum
    var soc: JsNum
    var gridFlow: JsNum
    var gridStatus: Status
    var consumption: JsNum

    /** The fields as a value. */
    function Snapshot(): Node
      reads this
    {
      Node(state, pvPower, batteryFlow, soc, gridFlow, gridStatus, consumption)
    }

    constructor (sn: Option<string>)
      ensures Snapshot() == Unloaded && this.sn == sn
    {
      this.sn := sn;
      state := StateOffline;
      pvPower, batteryFlow, soc, gridFlow, gridStatus, consumption := Null, Null, Null, Null, Absent, Null;
    }

    method LoadData(data: Option<Record>)
      modifies this
      ensures Snapshot() == Loaded(old(Snapshot()), data) && sn == old(sn)
    {
      if data.None? {
        return;
      }
      var rec := data.value;
      state := StateOk;
      pvPower := rec.pvPower;
      batteryFlow := rec.batteryFlow;
      soc := rec.soc;
      gridFlow := rec.gridFlow;
      gridStatus := rec.gridStatus;
      consumption := rec.consumption;
    }

    method SetStateOffline()
      modifies this
      ensures Snapshot() == MarkedOffline(old(Snapshot())) && sn == old(sn)
    {
      state := StateOffline;
    }
  }

  function NodeOn(s: Readings, side: Side): Node {
    if side == Left then s.inverter1 else s.inverter2
  }

  /** What `update` decides for one side from its node: whether the line
      is written offline, and the three classified states. */
  datatype Plan = Plan(offline: bool, solar: TileState, battery: TileState, grid: TileState)

  function PlanOf(n: Node): Plan {
    Plan(n.state == StateOffline, SolarState(n.pvPower), BatteryState(n.batteryFlow),
         GridState(Negate(n.gridFlow), n.gridStatus))
  }

  /** A column after `update`'s writes, element by element: the load tile
      and its wire say whether the line is offline, every other tile shows
      its planned state and every other wire is offline only if that state
      is. */
  function Painted(c: Column, a: Plan): Column {
    Column(
      Label(c.solar, a.solar), Label(c.grid, a.grid),
      Label(c.load, if a.offline then Offline else Ok), Label(c.battery, a.battery),
      Flag(c.wireSolar, a.solar == Offline), Flag(c.wireMidA, a.grid == Offline),
      Flag(c.wireMidB, a.offline), Flag(c.wireBat, a.battery == Offline))
  }

  /** The board writes of `update`, in the order the script makes them: the
      two line states first, then solar, battery and grid, left before
      right. */
  function Paint(p: Page, a: Plan, b: Plan): Page {
    var left := if a.offline then LineOffline(p, Left) else LineOk(p, Left);
    var lines := if b.offline then LineOffline(left, Right) else LineOk(left, Right);
    var solar := SetTile(SetTile(lines, Left, Solar, a.solar), Right, Solar, b.solar);
    var battery := SetTile(SetTile(solar, Left, Battery, a.battery), Right, Battery, b.battery);
    SetTile(SetTile(battery, Left, Grid, a.grid), Right, Grid, b.grid)
  }

  /** Each element of the left column ends with the last value written to
      it. */
  lemma PaintLeft(p: Page, a: Plan, b: Plan)
    ensures Paint(p, a, b).left == Painted(p.left, a)
  {
  }

  /** The same for the right column. */
  lemma PaintRight(p: Page, a: Plan, b: Plan)
    ensures Paint(p, a, b).right == Painted(p.right, b)
  {
  }

  /** The board writes of `update` for the normalized readings: each column
      is painted with the plan of its own inverter. */
  function Render(p: Page, s: Readings): (r: Page)
    ensures r.left == Painted(p.left, PlanOf(s.inverter1))
    ensures r.right == Painted(p.right, PlanOf(s.inverter2))
  {
    PaintLeft(p, PlanOf(s.inverter1), PlanOf(s.inverter2));
    PaintRight(p, PlanOf(s.inverter1), PlanOf(s.inverter2));
    Paint(p, PlanOf(s.inverter1), PlanOf(s.inverter2))
  }

  /** The state each tile of a side ends in after `update`: the load tile
      tells whether the inverter reported, the other three come from their
      classifiers applied to the readings the node holds. */
  function FinalState(n: Node, role: Role): TileState {
    match role
    case Load => if n.state == StateOffline then Offline else Ok
    case Solar => SolarState(n.pvPower)
    case Battery => BatteryState(n.batteryFlow)
    case Grid => GridState(Negate(n.gridFlow), n.gridStatus)
  }

  /** Every tile and wire of a side after `update`. Since no classifier
      answers `offline`, the only wire left offline is "wire-mid-b" of an
      offline side. */
  lemma RenderAt(p: Page, s: Readings, side: Side, role: Role, wire: Wire)
    ensures TileAt(Render(p, s), side, role) == Label(TileAt(p, side, role), FinalState(NodeOn(s, side), role))
    ensures WireAt(Render(p, s), side, wire)
         == Flag(WireAt(p, side, wire), wire == WireMidB && NodeOn(s, side).state == StateOffline)
  {
    var n := NodeOn(s, side);
    ClassifiersNeverOffline(n.pvPower, n.batteryFlow, Negate(n.gridFlow), n.gridStatus);
  }

  /** The serial each side's inverter is looked up by. */
  function SerialOf(side: Side): string {
    if side == Left then Inverter1Sn else Inverter2Sn
  }

  /** When a side's inverter is missing from the payload, `update` leaves
      its load tile and "wire-mid-b" offline, while solar, battery and grid
      show what the readings it kept from before give, and the other three
      wires are online. */
  lemma MissingInverterSide(p: Page, s: Readings, payload: Payload, side: Side, role: Role, wire: Wire)
    requires forall i :: 0 <= i < |payload.inverters| ==> payload.inverters[i].sn != SerialOf(side)
    ensures var board := Render(p, Normalize(s, Some(payload)));
      TileAt(board, side, role)
        == Label(TileAt(p, side, role), if role == Load then Offline else FinalState(NodeOn(s, side), role))
    ensures WireAt(Render(p, Normalize(s, Some(payload))), side, wire) == Flag(WireAt(p, side, wire), wire == WireMidB)
  {
    var s' := Normalize(s, Some(payload));
    RenderAt(p, s', side, role, wire);
    assert NodeOn(s', side).state == StateOffline;
    assert SameReadings(NodeOn(s', side), NodeOn(s, side));
  }

  /** An inverter that never reported: its load tile is offline, and solar,
      battery and grid wait, grid included because the negated null flow is
      a finite 0. */
  lemma NeverReported()
    ensures FinalState(Unloaded, Load) == Offline
    ensures FinalState(Unloaded, Solar) == Waiting
    ensures FinalState(Unloaded, Battery) == Waiting
    ensures FinalState(Unloaded, Grid) == Waiting
  {
    assert Negate(Null) == Finite(0.0);
  }

  /** A record for inverter 1 alone: 500 W of solar, a battery at rest, a
      300 W draw from the grid, which is up. */
  const FirstOnly: Record :=
    Record(Inverter1Sn, Finite(500.0), Finite(0.0), Finite(80.0), Finite(-300.0), Str("online"), Finite(700.0))

  const FirstOnlyPayload: Payload := Payload([FirstOnly], Finite(1200.0))

  /** The first payload makes inverter 1 online with its record's readings;
      inverter 2 is missing, so it stays as constructed. */
  lemma FirstOnlyNormalized()
    ensures var s := Normalize(Initial, Some(FirstOnlyPayload));
      && s.inverter1.state == StateOk && Carries(s.inverter1, FirstOnly)
      && s.inverter2 == Unloaded
      && s.totalConsumption == Finite(1200.0)
  {
    assert Inverter1Sn != Inverter2Sn by {
      assert Inverter1Sn[2] != Inverter2Sn[2];
    }
  }

  /** A node holding that record shows generating, importing and ok. */
  lemma FirstOnlyClassified(n: Node)
    requires n.state == StateOk && Carries(n, FirstOnly)
    ensures FinalState(n, Solar) == Generating
    ensures FinalState(n, Grid) == Import
    ensures FinalState(n, Load) == Ok
  {
    assert ToLower("online")[0] == 'o';
  }

  /** A first payload that only carries inverter 1: the left line is ok,
      generating and importing; the right inverter keeps its nulls, so its
      solar, battery and grid tiles wait and only its load tile is
      offline. */
  lemma OnlyFirstInverterReports(p: Page, role: Role)
    ensures var board := Render(p, Normalize(Initial, Some(FirstOnlyPayload)));
      && TileAt(board, Left, Solar) == Label(TileAt(p, Left, Solar), Generating)
      && TileAt(board, Left, Grid) == Label(TileAt(p, Left, Grid), Import)
      && TileAt(board, Left, Load) == Label(TileAt(p, Left, Load), Ok)
      && TileAt(board, Right, role) == Label(TileAt(p, Right, role), if role == Load then Offline else Waiting)
  {
    var s := Normalize(Initial, Some(FirstOnlyPayload));
    FirstOnlyNormalized();
    FirstOnlyClassified(s.inverter1);
    NeverReported();
    RenderAt(p, s, Left, Solar, WireSolar);
    RenderAt(p, s, Left, Grid, WireSolar);
    RenderAt(p, s, Left, Load, WireSolar);
    RenderAt(p, s, Right, role, WireSolar);
  }

  /** `class InvertersData`: two inverter objects and the total. */
  class InvertersData {
    const inverter1: Inverter
    const inverter2: Inverter
    var totalConsumption: JsNum

    predicate Valid()
      reads this
    {
      inverter1 != inverter2
    }

    /** The readings this object holds. */
    function Model(): Readings
      reads this, inverter1, inverter2
    {
      Readings(inverter1.Snapshot(), inverter2.Snapshot(), totalConsumption)
    }

    constructor ()
      ensures Valid() && Model() == Initial
      ensures fresh(inverter1) && fresh(inverter2)
    {
      inverter1 := new Inverter(None);
      inverter2 := new Inverter(None);
      totalConsumption := Finite(0.0);
    }

    /** `update(data)`: refresh both inverters by serial, copy the total,
        then write the board. A falsy payload does nothing at all. */
    method Update(data: Option<Payload>, dom: Dom)
      requires Valid()
      modifies this, inverter1, inverter2, dom
      ensures Valid()
      ensures Model() == Normalize(old(Model()), data)
      ensures data.None? ==> dom.Contents() == old(dom.Contents())
      ensures data.Some? ==> dom.Contents() == Render(old(dom.Contents()), Model())
    {
      if data.None? {
        return;
      }
      var payload := data.value;
      var inv1 := Find(payload.inverters, Inverter1Sn);
      var inv2 := Find(payload.inverters, Inverter2Sn);
      if inv1.Some? {
        inverter1.LoadData(inv1);
      } else {
        inverter1.SetStateOffline();
      }
      if inv2.Some? {
        inverter2.LoadData(inv2);
      } else {
        inverter2.SetStateOffline();
      }
      totalConsumption := payload.totalConsumption;
      WriteBoard(dom);
    }

    /** The board writes at the end of `update`, from the fields as they
        now are. */
    method WriteBoard(dom: Dom)
      modifies dom
      ensures dom.Contents() == Render(old(dom.Contents()), Model())
    {
      if inverter1.state == StateOffline {
        dom.SetLineOffline(Left);
      } else {
        dom.SetLineOk(Left);
      }
      if inverter2.state == StateOffline {
        dom.SetLineOffline(Right);
      } else {
        dom.SetLineOk(Right);
      }
      dom.SetSolarState(Left, inverter1.pvPower);
      dom.SetSolarState(Right, inverter2.pvPower);
      dom.SetBatteryState(Left, inverter1.batteryFlow);
      dom.SetBatteryState(Right, inverter2.batteryFlow);
      dom.SetGridState(Left, Negate(inverter1.gridFlow), inverter1.gridStatus);
      dom.SetGridState(Right, Negate(inverter2.gridFlow), inverter2.gridStatus);
    }
  }
}
