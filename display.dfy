/** The value conversions the script applies before it writes a number into
    a value slot: `wattsToKw`, `formatNumber` and the clamp-and-round of
    `setBatteryPercent`. */
module Display {

  import opened JsValues

  /** The text of `v.toFixed(2)`; the digits themselves are not modelled. */
  datatype Text = Fixed2(v: real)

  /** `wattsToKw`: watts over 1000 for a finite reading, 0 otherwise. The
      sign of the kilowatt figure is the sign of the reading. */
  function WattsToKw(watts: JsNum): (kw: real)
    ensures watts.Finite? ==> kw * 1000.0 == watts.r
    ensures !watts.Finite? ==> kw == 0.0
    ensures kw > 0.0 <==> watts.Finite? && watts.r > 0.0
    ensures kw < 0.0 <==> watts.Finite? && watts.r < 0.0
  {
    if IsFinite(watts) then watts.r / 1000.0 else 0.0
  }

  /** `formatNumber`: a finite value is handed to `toFixed(2)`, anything
      else shows as "0.00". */
  function FormatNumber(value: JsNum): (t: Text)
    ensures t.Fixed2?
    ensures value.Finite? ==> t.v == value.r
    ensures !value.Finite? ==> t.v == 0.0
  {
    if !IsFinite(value) then Fixed2(0.0) else Fixed2(value.r)
  }

  /** The figure `setBatteryPercent` shows: the state of charge clamped to
      [0, 100] and rounded, or 0 when it is not a finite number. */
  function BatteryPercent(soc: JsNum): (n: int)
    ensures 0 <= n <= 100
    ensures !soc.Finite? ==> n == 0
    ensures soc.Finite? && soc.r <= 0.0 ==> n == 0
    ensures soc.Finite? && soc.r >= 100.0 ==> n == 100
    ensures soc.Finite? && 0.0 <= soc.r <= 100.0 ==> soc.r - 0.5 < n as real <= soc.r + 0.5
  {
    var clamped := if IsFinite(soc) then Min(100.0, Max(0.0, soc.r)) else 0.0;
    Round(clamped)
  }

  /** Worked examples: -5 shows 0, 150 shows 100, 42.6 shows 43;
      and a total of 1200 W shows as 1.20 kW. */
  lemma DisplayExamples()
    ensures BatteryPercent(Finite(-5.0)) == 0
    ensures BatteryPercent(Finite(150.0)) == 100
    ensures BatteryPercent(Finite(42.6)) == 43
    ensures FormatNumber(Finite(WattsToKw(Finite(1200.0)))) == Fixed2(1.2)
  {
  }
}
