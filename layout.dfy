/** `layoutStation`: the wiring of one column laid out from the bounding
    boxes of its four tiles and its middle row. Coordinates are exact reals
    relative to the column; `setRect` rounds them to whole pixels. */
module Layout {

  import opened Wrappers
  import opened JsValues

  /** What `getBoundingClientRect` reports for an element. */
  datatype ClientRect = ClientRect(left: real, top: real, width: real, height: real)

  /** The record `rectRelTo` builds. */
  datatype RelRect = RelRect(
    left: real, top: real, width: real, height: real,
    right: real, bottom: real, cx: real, cy: real)

  /** `rectRelTo(el, root)`: the element's box in the root's coordinates,
      with its far edges and centre. */
  function RectRelTo(r: ClientRect, root: ClientRect): (q: RelRect)
    ensures q.left + root.left == r.left && q.top + root.top == r.top
    ensures q.width == r.width && q.height == r.height
    ensures q.right - q.left == r.width && q.bottom - q.top == r.height
    ensures 2.0 * q.cx == q.left + q.right && 2.0 * q.cy == q.top + q.bottom
  {
    var left, top := r.left - root.left, r.top - root.top;
    RelRect(left, top, r.width, r.height, left + r.width, top + r.height,
            left + r.width / 2.0, top + r.height / 2.0)
  }

  /** A box moved by (dx, dy). */
  function Shift(r: ClientRect, dx: real, dy: real): ClientRect {
    r.(left := r.left + dx, top := r.top + dy)
  }

  /** The centre of a box of non-negative size lies inside it, and the
      relative box does not depend on where the root sits on the screen. */
  lemma RectRelToShape(r: ClientRect, root: ClientRect, dx: real, dy: real)
    ensures var q := RectRelTo(r, root);
      && (r.width >= 0.0 ==> q.left <= q.cx <= q.right)
      && (r.height >= 0.0 ==> q.top <= q.cy <= q.bottom)
    ensures RectRelTo(Shift(r, dx, dy), Shift(root, dx, dy)) == RectRelTo(r, root)
  {
  }

  /** The four numbers handed to `setRect(el, x, y, w, h)`. */
  datatype Frame = Frame(x: real, y: real, w: real, h: real)

  /** The style `setRect` writes: each number rounded to whole pixels. */
  datatype Style = Style(left: int, top: int, width: int, height: int)

  function SetRect(f: Frame): (s: Style)
    ensures f.x - 0.5 < s.left as real <= f.x + 0.5
    ensures f.y - 0.5 < s.top as real <= f.y + 0.5
    ensures f.w - 0.5 < s.width as real <= f.w + 0.5
    ensures f.h - 0.5 < s.height as real <= f.h + 0.5
  {
    Style(Round(f.x), Round(f.y), Round(f.w), Round(f.h))
  }

  const PadFromTile: real := 14.0
  const SafePad: real := 24.0
  const HubSize: real := 14.0

  /** `Math.min` of three numbers. */
  function Min3(a: real, b: real, c: real): (m: real)
    ensures m <= a && m <= b && m <= c
    ensures m == a || m == b || m == c
  {
    Min(Min(a, b), c)
  }

  /** `Math.max` of three numbers. */
  function Max3(a: real, b: real, c: real): (m: real)
    ensures m >= a && m >= b && m >= c
    ensures m == a || m == b || m == c
  {
    Max(Max(a, b), c)
  }

  /** The trunk's x: the middle row's centre clamped to keep `safePad` from
      both column edges; when the column is too narrow for both, the left
      clearance wins. */
  function TrunkX(cx: real, width: real): (x: real)
    ensures x >= SafePad
    ensures width >= 2.0 * SafePad ==> x <= width - SafePad
    ensures SafePad <= cx <= width - SafePad ==> x == cx
    ensures width < 2.0 * SafePad ==> x == SafePad
    ensures cx < SafePad ==> x == SafePad
  {
    Max(SafePad, Min(cx, width - SafePad))
  }

  /** The end of a wire away from the trunk: 14 px past the tile's near
      edge, on the side of the trunk the tile's centre lies. */
  function FarEnd(tile: RelRect, trunkX: real): (x2: real)
    ensures tile.cx < trunkX ==> x2 == tile.right + PadFromTile
    ensures tile.cx >= trunkX ==> x2 == tile.left - PadFromTile
  {
    if tile.cx < trunkX then tile.right + PadFromTile else tile.left - PadFromTile
  }

  function Abs(x: real): real { if x < 0.0 then -x else x }

  /** `wireFromHubY`: a 4 px high wire centred on `y` running from the
      trunk to the tile's far end, at least 6 px wide. Both ends lie on it,
      and when they are at least 6 px apart it spans exactly between them. */
  function WireFromHubY(tile: RelRect, trunkX: real, y: real): (f: Frame)
    ensures f.w >= 6.0 && f.h == 4.0 && f.y + 2.0 == y
    ensures f.x <= trunkX <= f.x + f.w
    ensures f.x <= FarEnd(tile, trunkX) <= f.x + f.w
    ensures f.x == Min(trunkX, FarEnd(tile, trunkX))
    ensures Abs(FarEnd(tile, trunkX) - trunkX) >= 6.0 ==> f.x + f.w == Max(trunkX, FarEnd(tile, trunkX))
  {
    var x1, x2 := trunkX, FarEnd(tile, trunkX);
    Frame(Min(x1, x2), y - 2.0, Max(6.0, Abs(x2 - x1)), 4.0)
  }

  /** Where `layoutStation` puts the trunk, the hub and the four wires. */
  datatype Geometry = Geometry(
    trunk: Frame, hub: Frame,
    wireSolar: Frame, wireBat: Frame, wireMidA: Frame, wireMidB: Frame)

  /** A wire from the trunk at `trunkX` to `tile`, centred on `y`. */
  predicate Reaches(f: Frame, tile: RelRect, trunkX: real, y: real) {
    && f.w >= 6.0 && f.h == 4.0 && f.y + 2.0 == y
    && f.x <= trunkX <= f.x + f.w
    && f.x <= FarEnd(tile, trunkX) <= f.x + f.w
  }

  /** The geometry of one column from its client size and the relative
      boxes of solar, grid, load, battery and the middle row. */
  function Layout(width: real, height: real, solar: RelRect, grid: RelRect, load: RelRect, bat: RelRect, mid: RelRect): (g: Geometry)
    // the trunk: 4 px wide around a clamped x, starting at least 18 px down,
    // at least 10 px high
    ensures g.trunk.w == 4.0 && g.trunk.x + 2.0 == TrunkX(mid.cx, width)
    ensures g.trunk.y >= 18.0 && g.trunk.h >= 10.0
    // the span reaches at least 80 px past the outermost of the solar, hub
    // and battery heights, except where it is clamped 18 px inside the
    // column's top and bottom edges
    ensures var midY := (grid.cy + load.cy) / 2.0;
      g.trunk.y == 18.0 || g.trunk.y + 80.0 <= Min3(solar.cy, midY, bat.cy)
    ensures var midY := (grid.cy + load.cy) / 2.0;
      || g.trunk.y + g.trunk.h >= height - 18.0
      || g.trunk.y + g.trunk.h >= Max3(solar.cy, midY, bat.cy) + 80.0
    ensures g.trunk.h == 10.0 || g.trunk.y + g.trunk.h <= height - 18.0
    // the hub: a 14 px square centred on the trunk, halfway between the
    // grid and load centres
    ensures g.hub.w == HubSize && g.hub.h == HubSize
    ensures g.hub.x + HubSize / 2.0 == TrunkX(mid.cx, width)
    ensures 2.0 * (g.hub.y + HubSize / 2.0) == grid.cy + load.cy
    // every wire meets the trunk and its tile; solar and battery at their
    // own height, grid and load at the hub's
    ensures Reaches(g.wireSolar, solar, TrunkX(mid.cx, width), solar.cy)
    ensures Reaches(g.wireBat, bat, TrunkX(mid.cx, width), bat.cy)
    ensures Reaches(g.wireMidA, grid, TrunkX(mid.cx, width), g.hub.y + HubSize / 2.0)
    ensures Reaches(g.wireMidB, load, TrunkX(mid.cx, width), g.hub.y + HubSize / 2.0)
    // and each wire is exactly the one `wireFromHubY` builds, so it ends at
    // the trunk on one side and at its tile's far end on the other
    ensures g.wireSolar == WireFromHubY(solar, TrunkX(mid.cx, width), solar.cy)
    ensures g.wireBat == WireFromHubY(bat, TrunkX(mid.cx, width), bat.cy)
    ensures g.wireMidA == WireFromHubY(grid, TrunkX(mid.cx, width), (grid.cy + load.cy) / 2.0)
    ensures g.wireMidB == WireFromHubY(load, TrunkX(mid.cx, width), (grid.cy + load.cy) / 2.0)
  {
    var trunkX := TrunkX(mid.cx, width);
    var midY := (grid.cy + load.cy) / 2.0;
    var margin := Max(80.0, height * 0.12);
    var y1 := Max(18.0, Min3(solar.cy, midY, bat.cy) - margin);
    var y2 := Min(height - 18.0, Max3(solar.cy, midY, bat.cy) + margin);
    Geometry(
      Frame(trunkX - 2.0, y1, 4.0, Max(10.0, y2 - y1)),
      Frame(trunkX - HubSize / 2.0, midY - HubSize / 2.0, HubSize, HubSize),
      WireFromHubY(solar, trunkX, solar.cy),
      WireFromHubY(bat, trunkX, bat.cy),
      WireFromHubY(grid, trunkX, midY),
      WireFromHubY(load, trunkX, midY))
  }

  /** The trunk covers the heights of the solar wire, the hub and the
      battery wire whenever all three lie at least 18 px inside the column. */
  lemma TrunkSpansWires(width: real, height: real, solar: RelRect, grid: RelRect, load: RelRect, bat: RelRect, mid: RelRect)
    requires var midY := (grid.cy + load.cy) / 2.0;
      && 18.0 <= solar.cy <= height - 18.0
      && 18.0 <= midY <= height - 18.0
      && 18.0 <= bat.cy <= height - 18.0
    ensures var g := Layout(width, height, solar, grid, load, bat, mid);
      var t := g.trunk;
      && t.y <= solar.cy <= t.y + t.h
      && t.y <= g.hub.y + HubSize / 2.0 <= t.y + t.h
      && t.y <= bat.cy <= t.y + t.h
  {
  }

  /** What `layoutStation` reads from the page: the column's client size
      and box, whether its wiring container exists, and the boxes of the
      elements it looks up (`None` when one is missing). */
  datatype Station = Station(
    clientWidth: real, clientHeight: real, box: ClientRect, hasWiring: bool,
    solar: Option<ClientRect>, grid: Option<ClientRect>, load: Option<ClientRect>,
    bat: Option<ClientRect>, rowMid: Option<ClientRect>)

  /** The station has everything `layoutStation` needs. */
  predicate Complete(st: Station) {
    st.hasWiring && st.solar.Some? && st.grid.Some? && st.load.Some? && st.bat.Some? && st.rowMid.Some?
  }

  /** `layoutStation(side)`: nothing is written when the column, its wiring,
      one of the four tiles or the middle row is missing; otherwise the
      geometry laid out from the boxes relative to the column. */
  function LayoutStation(col: Option<Station>): (g: Option<Geometry>)
    ensures g.Some? <==> col.Some? && Complete(col.value)
    ensures col.Some? && Complete(col.value) ==>
      var st := col.value;
        g == Some(Layout(st.clientWidth, st.clientHeight,
          RectRelTo(st.solar.value, st.box), RectRelTo(st.grid.value, st.box),
          RectRelTo(st.load.value, st.box), RectRelTo(st.bat.value, st.box),
          RectRelTo(st.rowMid.value, st.box)))
  {
    if col.None? || !col.value.hasWiring then None
    else
      var st := col.value;
      if st.solar.None? || st.grid.None? || st.load.None? || st.bat.None? then None
      else if st.rowMid.None? then None
      else
        Some(Layout(st.clientWidth, st.clientHeight,
          RectRelTo(st.solar.value, st.box), RectRelTo(st.grid.value, st.box),
          RectRelTo(st.load.value, st.box), RectRelTo(st.bat.value, st.box),
          RectRelTo(st.rowMid.value, st.box)))
  }

  function ShiftAll(o: Option<ClientRect>, dx: real, dy: real): Option<ClientRect> {
    if o.None? then None else Some(Shift(o.value, dx, dy))
  }

  /** Scrolling or moving the whole column, with everything in it, leaves
      the geometry unchanged: only positions relative to the column count. */
  lemma LayoutStationMoves(st: Station, dx: real, dy: real)
    ensures LayoutStation(Some(st.(box := Shift(st.box, dx, dy),
      solar := ShiftAll(st.solar, dx, dy), grid := ShiftAll(st.grid, dx, dy),
      load := ShiftAll(st.load, dx, dy), bat := ShiftAll(st.bat, dx, dy),
      rowMid := ShiftAll(st.rowMid, dx, dy)))) == LayoutStation(Some(st))
  {
    if Complete(st) {
      RectRelToShape(st.solar.value, st.box, dx, dy);
      RectRelToShape(st.grid.value, st.box, dx, dy);
      RectRelToShape(st.load.value, st.box, dx, dy);
      RectRelToShape(st.bat.value, st.box, dx, dy);
      RectRelToShape(st.rowMid.value, st.box, dx, dy);
    }
  }
}
