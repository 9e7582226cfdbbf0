/** The conversion engine of the multi-category unit converter (app.py).

    Length, weight/mass and time are linear categories: each owns a table from
    unit symbol to a factor relative to the category's base unit (m, g, s), and
    a value converts as `value * (factor[to] / factor[from])`. Temperature is
    affine: after an identity short-cut, one of twelve direct formulas is looked
    up by the string key "<from>_to_<to>". Every lookup that misses raises a
    KeyError, which `convert` turns into the invalid-unit result; a successful
    result is rounded to six decimals. Numbers are exact reals. */
module UnitConverter {
  import Rounding

  /** What a converter yields: its value, or the KeyError of a failed lookup. */
  datatype Converted = Value(v: real) | KeyError

  /** What `convert` hands back: the rounded value or the invalid-unit sentinel. */
  datatype Outcome = Ok(value: real) | InvalidUnit

  /** The four categories the selector offers. */
  datatype Category = Length | WeightMass | Temperature | Time

  /** The category's label, the key of the selector's table. */
  function Name(c: Category): string {
    match c
    case Length => "Length"
    case WeightMass => "Weight/Mass"
    case Temperature => "Temperature"
    case Time => "Time"
  }

  /** The unit symbols the selector offers for a category, in order. */
  function Units(c: Category): seq<string> {
    match c
    case Length => ["m", "km", "mi", "ft", "in", "cm", "mm", "yd", "nmi"]
    case WeightMass => ["g", "kg", "lb", "oz", "t", "mg", "st"]
    case Temperature => ["C", "F", "K", "R"]
    case Time => ["s", "min", "h", "d", "wk", "mo", "yr", "decades", "centuries"]
  }

  predicate IsLinear(c: Category) {
    c != Temperature
  }

  /** Every factor of a table is strictly positive, so dividing by one is defined. */
  predicate PositiveFactors(t: map<string, real>) {
    forall u :: u in t ==> t[u] > 0.0
  }

  /** The advertised units of a category, as a set. */
  function UnitSet(c: Category): set<string> {
    set u | u in Units(c)
  }

  /** Units per metre. */
  function LengthFactors(): (t: map<string, real>)
    ensures PositiveFactors(t)
    ensures t.Keys == UnitSet(Length)
    ensures t["m"] == 1.0
  {
    map["m" := 1.0, "km" := 0.001, "mi" := 0.000621371, "ft" := 3.28084,
        "in" := 39.3701, "cm" := 100.0, "mm" := 1000.0, "yd" := 1.09361,
        "nmi" := 0.000539957]
  }

  /** Units per gram. */
  function WeightFactors(): (t: map<string, real>)
    ensures PositiveFactors(t)
    ensures t.Keys == UnitSet(WeightMass)
    ensures t["g"] == 1.0
  {
    map["g" := 1.0, "kg" := 0.001, "lb" := 0.00220462, "oz" := 0.035274,
        "t" := 0.000001, "mg" := 1000.0, "st" := 0.00015747]
  }

  /** Units per second. */
  function TimeFactors(): (t: map<string, real>)
    ensures PositiveFactors(t)
    ensures t.Keys == UnitSet(Time)
    ensures t["s"] == 1.0
  {
    map["s" := 1.0, "min" := 1.0 / 60.0, "h" := 1.0 / 3600.0,
        "d" := 1.0 / 86400.0, "wk" := 1.0 / 604800.0, "mo" := 1.0 / 2628000.0,
        "yr" := 1.0 / 31540000.0, "decades" := 1.0 / 315400000.0,
        "centuries" := 1.0 / 3154000000.0]
  }

  /** The factor table of a linear category. */
  function Factors(c: Category): (t: map<string, real>)
    requires IsLinear(c)
    ensures PositiveFactors(t)
    ensures t.Keys == UnitSet(c)
  {
    match c
    case Length => LengthFactors()
    case WeightMass => WeightFactors()
    case Time => TimeFactors()
  }

  /** `value * (t[to] / t[from])`, or KeyError when either unit is missing.
      The quantity is preserved: the value divided by its unit's factor (the
      amount in base units) is the same before and after. */
  function LinearConversion(t: map<string, real>, value: real, from: string, to: string): (r: Converted)
    requires PositiveFactors(t)
    ensures r.KeyError? <==> from !in t || to !in t
    ensures r.Value? ==> r.v / t[to] == value / t[from]
    ensures r.Value? && from == to ==> r.v == value
  {
    if to !in t || from !in t then KeyError
    else Value(value * (t[to] / t[from]))
  }

  function LengthConversion(value: real, from: string, to: string): (r: Converted)
    ensures r.KeyError? <==> from !in Units(Length) || to !in Units(Length)
    ensures r.Value? ==> r.v / LengthFactors()[to] == value / LengthFactors()[from]
  {
    LinearConversion(LengthFactors(), value, from, to)
  }

  function WeightConversion(value: real, from: string, to: string): (r: Converted)
    ensures r.KeyError? <==> from !in Units(WeightMass) || to !in Units(WeightMass)
    ensures r.Value? ==> r.v / WeightFactors()[to] == value / WeightFactors()[from]
  {
    LinearConversion(WeightFactors(), value, from, to)
  }

  function TimeConversion(value: real, from: string, to: string): (r: Converted)
    ensures r.KeyError? <==> from !in Units(Time) || to !in Units(Time)
    ensures r.Value? ==> r.v / TimeFactors()[to] == value / TimeFactors()[from]
  {
    LinearConversion(TimeFactors(), value, from, to)
  }

  /** The lookup key of a temperature formula: f"{from}_to_{to}". */
  function Key(from: string, to: string): string {
    from + "_to_" + to
  }

  /** The twelve direct temperature formulas. */
  function TemperatureFormulas(): map<string, real -> real> {
    map[
      "C_to_F" := (c: real) => c * 9.0 / 5.0 + 32.0,
      "C_to_K" := (c: real) => c + 273.15,
      "C_to_R" := (c: real) => (c + 273.15) * 9.0 / 5.0,
      "F_to_C" := (f: real) => (f - 32.0) * 5.0 / 9.0,
      "F_to_K" := (f: real) => (f + 459.67) * 5.0 / 9.0,
      "F_to_R" := (f: real) => f + 459.67,
      "K_to_C" := (k: real) => k - 273.15,
      "K_to_F" := (k: real) => k * 9.0 / 5.0 - 459.67,
      "K_to_R" := (k: real) => k * 9.0 / 5.0,
      "R_to_C" := (r: real) => (r - 491.67) * 5.0 / 9.0,
      "R_to_F" := (r: real) => r - 459.67,
      "R_to_K" := (r: real) => r * 5.0 / 9.0
    ]
  }

  /** A key built from two symbols is a formula key exactly when the symbols
      are two different scales: the string key cannot alias another pair. */
  lemma {:induction false} KeyInFormulas(from: string, to: string)
    ensures Key(from, to) in TemperatureFormulas()
            <==> from in Units(Temperature) && to in Units(Temperature) && from != to
  {
    var k := Key(from, to);
    if from in Units(Temperature) && to in Units(Temperature) && from != to {
      // Both symbols are single letters, so the key is spelled out letter by letter.
      assert k == [from[0], '_', 't', 'o', '_', to[0]];
    }
    if k in TemperatureFormulas() {
      // Every formula key is one scale letter, "_to_", one scale letter.
      assert |k| == 6 && k[1..5] == "_to_" && k[0] != '_' && k[2] != '_';
      assert |from| + |to| == 2;
      assert from == [k[0]] && to == [k[5]];
      assert k[0] in "CFKR" && k[5] in "CFKR" && k[0] != k[5];
      assert from[0] != to[0];
      assert from in Units(Temperature) && to in Units(Temperature);
    }
  }

  /** `temperature_conversion`: identity without a lookup when the scales are
      equal (even for an unknown symbol), otherwise the direct formula, or
      KeyError when the ordered pair has none. */
  function TemperatureConversion(value: real, from: string, to: string): (r: Converted)
    ensures from == to ==> r == Value(value)
    ensures r.KeyError? <==> from != to && (from !in Units(Temperature) || to !in Units(Temperature))
  {
    KeyInFormulas(from, to);
    if from == to then Value(value)
    else
      var key := Key(from, to);
      if key in TemperatureFormulas() then Value(TemperatureFormulas()[key](value))
      else KeyError
  }

  /** The converter the selector's table pairs with a category. */
  function Conversion(c: Category, value: real, from: string, to: string): (r: Converted)
    ensures r.KeyError? <==> !Supported(c, from, to)
  {
    match c
    case Length => LengthConversion(value, from, to)
    case WeightMass => WeightConversion(value, from, to)
    case Temperature => TemperatureConversion(value, from, to)
    case Time => TimeConversion(value, from, to)
  }

  /** The unit pairs a category's converter accepts without a KeyError. */
  predicate Supported(c: Category, from: string, to: string) {
    (from in Units(c) && to in Units(c)) || (c == Temperature && from == to)
  }

  /** `convert`: the converter's value rounded to six decimals, or the
      invalid-unit result when the converter raised KeyError. */
  function Convert(value: real, from: string, to: string, c: Category): (r: Outcome)
    ensures r.InvalidUnit? <==> !Supported(c, from, to)
    ensures r.Ok? ==> Rounding.IsMultiple(r.value)
    ensures r.Ok? ==> Rounding.Abs(r.value - Conversion(c, value, from, to).v) <= Rounding.HalfStep
  {
    match Conversion(c, value, from, to)
    case Value(v) => Ok(Rounding.Round6(v))
    case KeyError => InvalidUnit
  }
}
