/** The tile-state board the script writes to: one `data-state` label per
    (side, role) tile and one "wire--offline" flag per (side, wire)
    connector. Which elements the markup has is an input: a tile or wire the
    page lacks is `NoTile` or `NoWire`, and writes to it do nothing, as the
    script's `if (tile)` and `if (wire)` guards have it. */
module Surface {

  import opened JsValues
  import opened Classifier

  /** The two inverter lines, "left" and "right". */
  datatype Side = Left | Right

  datatype Role = Solar | Grid | Load | Battery

  /** The connector wires of a line: "wire-solar", "wire-mid-a",
      "wire-mid-b" and "wire-bat". */
  datatype Wire = WireSolar | WireMidA | WireMidB | WireBat

  /** `ROLE_TO_WIRE_CLASS`: the wire that mirrors each role's tile. */
  function WireFor(role: Role): Wire {
    match role
    case Solar => WireSolar
    case Grid => WireMidA
    case Load => WireMidB
    case Battery => WireBat
  }

  /** No two roles share a wire. */
  lemma WireForOneToOne(r1: Role, r2: Role)
    ensures WireFor(r1) == WireFor(r2) <==> r1 == r2
  {
  }

  /** The tile each wire mirrors: the mapping is one to one. */
  function RoleFor(wire: Wire): (role: Role)
    ensures WireFor(role) == wire
    ensures forall other :: WireFor(other) == wire ==> other == role
  {
    match wire
    case WireSolar => Solar
    case WireMidA => Grid
    case WireMidB => Load
    case WireBat => Battery
  }

  /** A tile element: missing from the markup, or showing a state. */
  datatype Tile = NoTile | Tile(state: TileState)

  /** A wire element: missing, or carrying "wire--offline" or not. */
  datatype WireEl = NoWire | WireEl(offline: bool)

  /** `tile.setAttribute("data-state", state)` behind the `if (tile)` guard. */
  function Label(t: Tile, state: TileState): (r: Tile)
    ensures r.Tile? == t.Tile?
    ensures r.Tile? ==> r.state == state
  {
    if t.Tile? then Tile(state) else NoTile
  }

  /** `wire.classList.add("wire--offline")` when the state is offline,
      `remove` otherwise, behind `if (wire)`. */
  function Flag(w: WireEl, offline: bool): (r: WireEl)
    ensures r.WireEl? == w.WireEl?
    ensures r.WireEl? ==> r.offline == offline
  {
    if w.WireEl? then WireEl(offline) else NoWire
  }

  /** One side's column (`.block-line-1` or `.block-line-2`). */
  datatype Column = Column(
    solar: Tile, grid: Tile, load: Tile, battery: Tile,
    wireSolar: WireEl, wireMidA: WireEl, wireMidB: WireEl, wireBat: WireEl)

  /** The board: the two columns. */
  datatype Page = Page(left: Column, right: Column)

  function ColumnOf(p: Page, side: Side): Column {
    if side == Left then p.left else p.right
  }

  function Other(side: Side): Side {
    if side == Left then Right else Left
  }

  /** The tile of a role inside a column. */
  function TileIn(c: Column, role: Role): Tile {
    match role
    case Solar => c.solar
    case Grid => c.grid
    case Load => c.load
    case Battery => c.battery
  }

  /** A wire inside a column. */
  function WireIn(c: Column, wire: Wire): WireEl {
    match wire
    case WireSolar => c.wireSolar
    case WireMidA => c.wireMidA
    case WireMidB => c.wireMidB
    case WireBat => c.wireBat
  }

  function TileAt(p: Page, side: Side, role: Role): Tile {
    TileIn(ColumnOf(p, side), role)
  }

  function WireAt(p: Page, side: Side, wire: Wire): WireEl {
    WireIn(ColumnOf(p, side), wire)
  }

  /** The state a tile takes before any reading: load is ok, the rest wait. */
  function DefaultState(role: Role): TileState {
    if role == Load then Ok else Waiting
  }

  /** The two writes of `setTileState` inside one column. */
  function LabelIn(c: Column, role: Role, state: TileState): Column {
    var off := state == Offline;
    match role
    case Solar => c.(solar := Label(c.solar, state), wireSolar := Flag(c.wireSolar, off))
    case Grid => c.(grid := Label(c.grid, state), wireMidA := Flag(c.wireMidA, off))
    case Load => c.(load := Label(c.load, state), wireMidB := Flag(c.wireMidB, off))
    case Battery => c.(battery := Label(c.battery, state), wireBat := Flag(c.wireBat, off))
  }

  /** `setTileState`: only the (side, role) tile changes, and the wire of
      that role on that side is flagged offline exactly when the new state
      is `offline`; the other side is untouched and elements the page lacks
      stay missing. */
  function SetTile(p: Page, side: Side, role: Role, state: TileState): (r: Page)
    ensures TileAt(r, side, role) == Label(TileAt(p, side, role), state)
    ensures WireAt(r, side, WireFor(role)) == Flag(WireAt(p, side, WireFor(role)), state == Offline)
    ensures ColumnOf(r, Other(side)) == ColumnOf(p, Other(side))
  {
    if side == Left then p.(left := LabelIn(p.left, role, state))
    else p.(right := LabelIn(p.right, role, state))
  }

  /** `setTileState` leaves every other tile and every other wire of the
      written column as they were. */
  lemma SetTileElsewhere(p: Page, side: Side, role: Role, state: TileState, o: Role, w: Wire)
    ensures o != role ==> TileAt(SetTile(p, side, role, state), side, o) == TileAt(p, side, o)
    ensures w != WireFor(role) ==> WireAt(SetTile(p, side, role, state), side, w) == WireAt(p, side, w)
  {
  }

  /** `setLineOffline`: four `setTileState` calls with `offline`. */
  function LineOffline(p: Page, side: Side): (r: Page)
    ensures ColumnOf(r, Other(side)) == ColumnOf(p, Other(side))
  {
    var p1 := SetTile(p, side, Solar, Offline);
    var p2 := SetTile(p1, side, Grid, Offline);
    var p3 := SetTile(p2, side, Load, Offline);
    SetTile(p3, side, Battery, Offline)
  }

  /** After `setLineOffline` every tile and wire the side has shows offline;
      the other side is untouched (the function's own contract). */
  lemma LineOfflineAt(p: Page, side: Side, role: Role, wire: Wire)
    ensures TileAt(LineOffline(p, side), side, role) == Label(TileAt(p, side, role), Offline)
    ensures WireAt(LineOffline(p, side), side, wire) == Flag(WireAt(p, side, wire), true)
  {
  }

  /** `setLineOk`: `setTileState` with `waiting` for solar, grid and
      battery and `ok` for load. */
  function LineOk(p: Page, side: Side): (r: Page)
    ensures ColumnOf(r, Other(side)) == ColumnOf(p, Other(side))
  {
    var p1 := SetTile(p, side, Solar, Waiting);
    var p2 := SetTile(p1, side, Grid, Waiting);
    var p3 := SetTile(p2, side, Load, Ok);
    SetTile(p3, side, Battery, Waiting)
  }

  /** After `setLineOk` the side's tiles hold their default states and its
      wires are online. */
  lemma LineOkAt(p: Page, side: Side, role: Role, wire: Wire)
    ensures TileAt(LineOk(p, side), side, role) == Label(TileAt(p, side, role), DefaultState(role))
    ensures WireAt(LineOk(p, side), side, wire) == Flag(WireAt(p, side, wire), false)
  {
  }

  /** `initTileStates`: every tile present holds its default state and every
      wire present is online; nothing appears or disappears. */
  function InitStates(p: Page): Page {
    LineOk(LineOk(p, Left), Right)
  }

  lemma InitStatesAt(p: Page, side: Side, role: Role, wire: Wire)
    ensures TileAt(InitStates(p), side, role) == Label(TileAt(p, side, role), DefaultState(role))
    ensures WireAt(InitStates(p), side, wire) == Flag(WireAt(p, side, wire), false)
  {
    LineOkAt(p, Left, role, wire);
    LineOkAt(LineOk(p, Left), Right, role, wire);
  }

  /** `setLineOk` applied to each side of `sides` in turn: the board after
      some rounds of the loop in `initTileStates`. */
  function LineOks(p: Page, sides: seq<Side>): Page
    decreases |sides|
  {
    if sides == [] then p else LineOk(LineOks(p, sides[..|sides| - 1]), sides[|sides| - 1])
  }

  /** Two columns with the same tiles and wires are equal. */
  lemma ColumnExtensional(c: Column, d: Column)
    requires forall o :: TileIn(c, o) == TileIn(d, o)
    requires forall w :: WireIn(c, w) == WireIn(d, w)
    ensures c == d
  {
    assert TileIn(c, Solar) == TileIn(d, Solar) && TileIn(c, Grid) == TileIn(d, Grid);
    assert TileIn(c, Load) == TileIn(d, Load) && TileIn(c, Battery) == TileIn(d, Battery);
    assert WireIn(c, WireSolar) == WireIn(d, WireSolar) && WireIn(c, WireMidA) == WireIn(d, WireMidA);
    assert WireIn(c, WireMidB) == WireIn(d, WireMidB) && WireIn(c, WireBat) == WireIn(d, WireBat);
  }

  /** Writing the same line state twice is the same as writing it once. */
  lemma LineOkIdempotent(p: Page, side: Side)
    ensures LineOk(LineOk(p, side), side) == LineOk(p, side)
  {
    var once := LineOk(p, side);
    var twice := LineOk(once, side);
    ColumnExtensional(ColumnOf(twice, side), ColumnOf(once, side));
  }

  lemma LineOfflineIdempotent(p: Page, side: Side)
    ensures LineOffline(LineOffline(p, side), side) == LineOffline(p, side)
  {
    var once := LineOffline(p, side);
    var twice := LineOffline(once, side);
    ColumnExtensional(ColumnOf(twice, side), ColumnOf(once, side));
  }

  /** After `setLineOffline` the side shows offline on every tile and wire
      the page has; `setLineOk` undoes it to the defaults. */
  lemma LineOkAfterOffline(p: Page, side: Side)
    ensures LineOk(LineOffline(p, side), side) == LineOk(p, side)
  {
    var a := LineOk(LineOffline(p, side), side);
    var b := LineOk(p, side);
    ColumnExtensional(ColumnOf(a, side), ColumnOf(b, side));
  }

  /** What a map shows for a key: absent keys are missing elements. */
  function TileFrom(m: map<(Side, Role), TileState>, k: (Side, Role)): (t: Tile)
    ensures t.Tile? <==> k in m
    ensures t.Tile? ==> t.state == m[k]
  {
    if k in m then Tile(m[k]) else NoTile
  }

  function WireFrom(m: map<(Side, Wire), bool>, k: (Side, Wire)): (w: WireEl)
    ensures w.WireEl? <==> k in m
    ensures w.WireEl? ==> w.offline == m[k]
  {
    if k in m then WireEl(m[k]) else NoWire
  }

  /** The board two maps describe: (side, role) to `data-state` and
      (side, wire) to "wire--offline"; their keys are the elements the
      markup has. */
  function View(tiles: map<(Side, Role), TileState>, wires: map<(Side, Wire), bool>): Page {
    Page(ColumnView(tiles, wires, Left), ColumnView(tiles, wires, Right))
  }

  function ColumnView(tiles: map<(Side, Role), TileState>, wires: map<(Side, Wire), bool>, side: Side): Column {
    Column(
      TileFrom(tiles, (side, Solar)), TileFrom(tiles, (side, Grid)),
      TileFrom(tiles, (side, Load)), TileFrom(tiles, (side, Battery)),
      WireFrom(wires, (side, WireSolar)), WireFrom(wires, (side, WireMidA)),
      WireFrom(wires, (side, WireMidB)), WireFrom(wires, (side, WireBat)))
  }

  /** A keyed write to a map of present elements: absent keys stay absent. */
  function Put<K, V>(m: map<K, V>, k: K, v: V): (r: map<K, V>)
    ensures r.Keys == m.Keys
    ensures forall j :: j in m ==> r[j] == if j == k then v else m[j]
  {
    if k in m then m[k := v] else m
  }

  /** Inside the written column the map-level writes are `LabelIn`. */
  lemma ColumnViewPut(tiles: map<(Side, Role), TileState>, wires: map<(Side, Wire), bool>,
                      side: Side, role: Role, state: TileState)
    ensures ColumnView(Put(tiles, (side, role), state), Put(wires, (side, WireFor(role)), state == Offline), side)
         == LabelIn(ColumnView(tiles, wires, side), role, state)
  {
    match role
    case Solar =>
    case Grid =>
    case Load =>
    case Battery =>
  }

  /** The map-level `setTileState` agrees with the board-level one. */
  lemma ViewSetTile(tiles: map<(Side, Role), TileState>, wires: map<(Side, Wire), bool>,
                    side: Side, role: Role, state: TileState)
    ensures View(Put(tiles, (side, role), state), Put(wires, (side, WireFor(role)), state == Offline))
         == SetTile(View(tiles, wires), side, role, state)
  {
    var tiles', wires' := Put(tiles, (side, role), state), Put(wires, (side, WireFor(role)), state == Offline);
    ColumnViewPut(tiles, wires, side, role, state);
    assert ColumnView(tiles', wires', Other(side)) == ColumnView(tiles, wires, Other(side));
  }

  /** The board as the script mutates it: a (side, role) to state map for
      the tiles' `data-state` and a (side, wire) to flag map for
      "wire--offline". The keys are the elements the markup has. */
  class Dom {
    var tiles: map<(Side, Role), TileState>
    var wireOffline: map<(Side, Wire), bool>

    /** The board this object stands for. */
    function Contents(): Page
      reads this
    {
      View(tiles, wireOffline)
    }

    constructor (tiles: map<(Side, Role), TileState>, wireOffline: map<(Side, Wire), bool>)
      ensures this.tiles == tiles && this.wireOffline == wireOffline
    {
      this.tiles, this.wireOffline := tiles, wireOffline;
    }

    method SetTileState(side: Side, role: Role, state: TileState)
      modifies this
      ensures tiles.Keys == old(tiles.Keys) && wireOffline.Keys == old(wireOffline.Keys)
      ensures Contents() == SetTile(old(Contents()), side, role, state)
    {
      ViewSetTile(tiles, wireOffline, side, role, state);
      var tile := (side, role);
      if tile in tiles {
        tiles := tiles[tile := state];
      }
      var wire := (side, WireFor(role));
      if wire in wireOffline {
        if state == Offline {
          wireOffline := wireOffline[wire := true];
        } else {
          wireOffline := wireOffline[wire := false];
        }
      }
    }

    method SetLineOffline(side: Side)
      modifies this
      ensures Contents() == LineOffline(old(Contents()), side)
    {
      SetTileState(side, Solar, Offline);
      SetTileState(side, Grid, Offline);
      SetTileState(side, Load, Offline);
      SetTileState(side, Battery, Offline);
    }

    method SetLineOk(side: Side)
      modifies this
      ensures Contents() == LineOk(old(Contents()), side)
    {
      SetTileState(side, Solar, Waiting);
      SetTileState(side, Grid, Waiting);
      SetTileState(side, Load, Ok);
      SetTileState(side, Battery, Waiting);
    }

    method InitTileStates()
      modifies this
      ensures Contents() == InitStates(old(Contents()))
    {
      var sides := [Left, Right];
      for i := 0 to |sides|
        invariant Contents() == LineOks(old(Contents()), sides[..i])
      {
        var side := sides[i];
        SetTileState(side, Solar, Waiting);
        SetTileState(side, Grid, Waiting);
        SetTileState(side, Load, Ok);
        SetTileState(side, Battery, Waiting);
        assert sides[..i + 1][..i] == sides[..i];
      }
      assert sides[..|sides|] == sides;
      assert sides[..1] == [Left] && [Left][..0] == [];
    }

    method SetSolarState(side: Side, power: JsNum)
      modifies this
      ensures Contents() == SetTile(old(Contents()), side, Solar, SolarState(power))
    {
      if !IsFinite(power) {
        SetTileState(side, Solar, Waiting);
        return;
      }
      if power.r > 0.0 {
        SetTileState(side, Solar, Generating);
      } else {
        SetTileState(side, Solar, Waiting);
      }
    }

    method SetBatteryState(side: Side, flow: JsNum)
      modifies this
      ensures Contents() == SetTile(old(Contents()), side, Battery, BatteryState(flow))
    {
      if !IsFinite(flow) {
        SetTileState(side, Battery, Waiting);
        return;
      }
      if flow.r < 0.0 {
        SetTileState(side, Battery, Discharging);
      } else if flow.r > 0.0 {
        SetTileState(side, Battery, Charging);
      } else {
        SetTileState(side, Battery, Waiting);
      }
    }

    method SetGridState(side: Side, power: JsNum, status: Status)
      modifies this
      ensures Contents() == SetTile(old(Contents()), side, Grid, GridState(power, status))
    {
      var normalized := if status.Str? then Str(ToLower(status.s)) else status;
      if normalized == NumV(0.0) || normalized == Str("0") || normalized == Str("no-grid") || normalized == Str("offline") {
        SetTileState(side, Grid, NoGrid);
        return;
      }
      if !IsFinite(power) {
        SetTileState(side, Grid, Waiting);
        return;
      }
      if power.r < 0.0 {
        SetTileState(side, Grid, Export);
      } else if power.r > 0.0 {
        SetTileState(side, Grid, Import);
      } else {
        SetTileState(side, Grid, Waiting);
      }
    }
  }
}
