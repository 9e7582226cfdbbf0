/** Properties of the conversion engine: identities, round trips, agreement of
    the direct temperature formulas with each other, known values and the
    error path of `convert`. */
module ConverterProperties {
  import opened UnitConverter
  import Rounding

  /** Converting a unit to itself changes nothing. */
  lemma LinearIdentity(c: Category, u: string, v: real)
    requires IsLinear(c) && u in Units(c)
    ensures Conversion(c, v, u, u) == Value(v)
  {
  }

  /** A→B followed by B→A gives the original value back, on any factor table. */
  lemma LinearRoundTripTable(t: map<string, real>, a: string, b: string, v: real)
    requires PositiveFactors(t) && a in t && b in t
    ensures LinearConversion(t, LinearConversion(t, v, a, b).v, b, a) == Value(v)
  {
  }

  /** Round trip in a linear category: A→B→A is the identity. */
  lemma LinearRoundTrip(c: Category, a: string, b: string, v: real)
    requires IsLinear(c) && a in Units(c) && b in Units(c)
    ensures Conversion(c, v, a, b).Value?
    ensures Conversion(c, Conversion(c, v, a, b).v, b, a) == Value(v)
  {
    LinearRoundTripTable(Factors(c), a, b, v);
  }

  /** A→B followed by B→D is the direct conversion A→D, on any factor table. */
  lemma LinearChainTable(t: map<string, real>, a: string, b: string, d: string, v: real)
    requires PositiveFactors(t) && a in t && b in t && d in t
    ensures LinearConversion(t, LinearConversion(t, v, a, b).v, b, d) == LinearConversion(t, v, a, d)
  {
  }

  /** Chaining two conversions in a linear category equals converting directly. */
  lemma LinearChain(c: Category, a: string, b: string, d: string, v: real)
    requires IsLinear(c) && a in Units(c) && b in Units(c) && d in Units(c)
    ensures Conversion(c, Conversion(c, v, a, b).v, b, d) == Conversion(c, v, a, d)
  {
    LinearChainTable(Factors(c), a, b, d, v);
  }

  /** Size of one degree of scale `s`, in kelvins. */
  function DegreeSize(s: string): real
    requires s in Units(Temperature)
  {
    if s == "C" || s == "K" then 1.0 else 5.0 / 9.0
  }

  /** Reading of scale `s` at absolute zero. */
  function Zero(s: string): real
    requires s in Units(Temperature)
  {
    if s == "C" then -273.15
    else if s == "F" then -459.67
    else 0.0
  }

  /** A reading on scale `s`, in kelvins: the reference definition, built from
      each scale's degree size and zero point, that the twelve direct formulas
      are checked against. */
  function Kelvin(s: string, v: real): real
    requires s in Units(Temperature)
  {
    (v - Zero(s)) * DegreeSize(s)
  }

  /** The reading on scale `s` of a temperature given in kelvins. */
  function FromKelvin(s: string, k: real): real
    requires s in Units(Temperature)
  {
    k / DegreeSize(s) + Zero(s)
  }

  /** The two reference functions are inverse to each other on every scale. */
  lemma KelvinRoundTrip(s: string, v: real)
    requires s in Units(Temperature)
    ensures Kelvin(s, FromKelvin(s, v)) == v
    ensures FromKelvin(s, Kelvin(s, v)) == v
  {
  }

  /** Each direct formula equals the reference: into kelvins, then out to the
      target scale. */
  lemma TemperatureMatchesReference(p: string, q: string, v: real)
    requires p in Units(Temperature) && q in Units(Temperature)
    ensures TemperatureConversion(v, p, q) == Value(FromKelvin(q, Kelvin(p, v)))
  {
    if p != q {
      assert Key(p, q) == [p[0], '_', 't', 'o', '_', q[0]];
    }
  }

  /** The formula for (q, p) undoes the formula for (p, q). */
  lemma TemperatureInverse(p: string, q: string, v: real)
    requires p in Units(Temperature) && q in Units(Temperature)
    ensures TemperatureConversion(v, p, q).Value?
    ensures TemperatureConversion(TemperatureConversion(v, p, q).v, q, p) == Value(v)
  {
    TemperatureMatchesReference(p, q, v);
    var w := FromKelvin(q, Kelvin(p, v));
    TemperatureMatchesReference(q, p, w);
    KelvinRoundTrip(q, Kelvin(p, v));
    KelvinRoundTrip(p, v);
  }

  /** Every direct formula agrees with converting to Celsius and on from there. */
  lemma TemperatureViaCelsius(p: string, q: string, v: real)
    requires p in Units(Temperature) && q in Units(Temperature)
    ensures TemperatureConversion(v, p, q)
            == TemperatureConversion(TemperatureConversion(v, p, "C").v, "C", q)
  {
    TemperatureMatchesReference(p, q, v);
    TemperatureMatchesReference(p, "C", v);
    var c := FromKelvin("C", Kelvin(p, v));
    TemperatureMatchesReference("C", q, c);
    KelvinRoundTrip("C", Kelvin(p, v));
  }

  /** `convert` of a unit to itself rounds the value and nothing else; this
      holds for temperature even when the symbol is not a known scale. */
  lemma ConvertIdentity(c: Category, u: string, v: real)
    requires u in Units(c) || c == Temperature
    ensures Convert(v, u, u, c) == Ok(Rounding.Round6(v))
    ensures Rounding.IsMultiple(v) ==> Convert(v, u, u, c) == Ok(v)
  {
  }

  /** Any pair of units the selector can offer for a category converts
      without reaching the error path. */
  lemma OfferedUnitsConvert(c: Category, a: string, b: string, v: real)
    requires a in Units(c) && b in Units(c)
    ensures Convert(v, a, b, c).Ok?
  {
  }

  /** The error path: a unit missing from a linear table, or an ordered pair of
      distinct temperature symbols without a formula, gives the invalid-unit
      result; "Z" to "Z" is still the identity. */
  lemma ErrorExamples(v: real)
    ensures Convert(5.0, "m", "xx", Length) == InvalidUnit
    ensures Convert(1.0, "lb", "kg", Time) == InvalidUnit
    ensures Convert(0.0, "C", "Z", Temperature) == InvalidUnit
    ensures Convert(v, "Z", "Z", Temperature) == Ok(Rounding.Round6(v))
  {
  }

  /** 1 m is 3.28084 ft, exactly, before and after rounding. */
  lemma KnownLength()
    ensures LengthConversion(1.0, "m", "ft") == Value(3.28084)
    ensures Convert(1.0, "m", "ft", Length) == Ok(3.28084)
  {
    Rounding.Round6Exact(3.28084);
  }

  /** 1 kg is 2.20462 lb, exactly, before and after rounding. */
  lemma KnownWeight()
    ensures WeightConversion(1.0, "kg", "lb") == Value(2.20462)
    ensures Convert(1.0, "kg", "lb", WeightMass) == Ok(2.20462)
  {
    Rounding.Round6Exact(2.20462);
  }

  /** 0 C is 32 F, 100 C is 373.15 K and 32 F is 491.67 R, exactly. */
  lemma KnownTemperatures()
    ensures TemperatureConversion(0.0, "C", "F") == Value(32.0)
    ensures TemperatureConversion(100.0, "C", "K") == Value(373.15)
    ensures TemperatureConversion(32.0, "F", "R") == Value(491.67)
    ensures Convert(0.0, "C", "F", Temperature) == Ok(32.0)
    ensures Convert(100.0, "C", "K", Temperature) == Ok(373.15)
    ensures Convert(32.0, "F", "R", Temperature) == Ok(491.67)
  {
    TemperatureMatchesReference("C", "F", 0.0);
    TemperatureMatchesReference("C", "K", 100.0);
    TemperatureMatchesReference("F", "R", 32.0);
    Rounding.Round6Exact(32.0);
    Rounding.Round6Exact(373.15);
    Rounding.Round6Exact(491.67);
  }

  /** 3600 s is 1 h, exactly, before and after rounding. */
  lemma KnownTime()
    ensures TimeConversion(3600.0, "s", "h") == Value(1.0)
    ensures Convert(3600.0, "s", "h", Time) == Ok(1.0)
  {
    Rounding.Round6Exact(1.0);
  }
}
