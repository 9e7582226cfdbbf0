# Multi-category unit converter: conversion engine

A model of the conversion engine of a small unit converter (`app.py`). The
engine has four categories. Length, weight/mass and time are linear: each
keeps a fixed table from unit symbol to a factor relative to a base unit
(metre, gram, second). A value converts as `value * (factor[to] / factor[from])`.
Temperature is affine. Converting a scale to itself returns the value
unchanged without a lookup. Any other pair looks up one of twelve direct
formulas over Celsius, Fahrenheit, Kelvin and Rankine, keyed by the string
`"<from>_to_<to>"`. The `convert` wrapper rounds a successful result to six
decimals. It turns a failed table lookup (Python's `KeyError`) into an
invalid-unit result.

Files:

- `Rounding.dfy` (module `Rounding`): `round(x, 6)` on exact reals. The value
  goes to the nearest millionth, and a tie goes to the even count of
  millionths, as Python rounds. The module proves the rounding bound,
  nearest-ness, exactness on six-decimal values, idempotence and monotonicity.
- `UnitConverter.dfy` (module `UnitConverter`): the three factor tables as
  `map<string, real>`; the temperature table as `map<string, real -> real>`
  keyed by `Key(from, to) = from + "_to_" + to`; the four converters; the
  selector's category table (`Category`, `Name`, `Units`, with `Conversion`
  for the category-to-function pairing); and `Convert`. A converter returns
  `Converted` (`Value(v)` or `KeyError`); `Convert` returns `Outcome` (`Ok(v)`
  or `InvalidUnit`). The source returns the string "Invalid unit selection"
  against its `-> float` annotation; `InvalidUnit` replaces that sentinel.
- `ConverterProperties.dfy` (module `ConverterProperties`): identity, round
  trip and chaining for linear categories; agreement of every temperature
  formula with a reference through kelvins, inverse pairs and agreement with
  chaining through Celsius; known values; the error path; and the
  fact that every unit pair the selector offers converts.

Numbers are Dafny `real`. Every factor and offset in the source is a decimal
or rational literal, so each property holds exactly here. In the source it
holds only up to double-precision error.

Three choices follow the code:

- The code has one error value, the invalid-unit sentinel. It does not have
  separate unit-not-found and unsupported-conversion kinds.
- There is no unknown-category result. The category lookup (app.py:69) is
  outside the `try` block, and the selector only offers the four known names.
- The temperature identity applies to any symbol, so "Z" to "Z" returns its
  input.

## Model

| member | source | states |
|---|---|---|
| Rounding.RoundHalfEven | app.py:52 | The integer is within 1/2 of the input, and on an exact tie it is even |
| Rounding.RoundHalfEvenNearest | app.py:52 | No integer is closer to the input than the rounded one |
| Rounding.RoundHalfEvenExact | app.py:52 | Rounding an integer gives that integer |
| Rounding.RoundHalfEvenMonotone | app.py:52 | Rounding to an integer preserves order |
| Rounding.Round6 | app.py:52 | `round(x, 6)` has at most six decimals and lies within half a millionth of `x` |
| Rounding.Round6Nearest | app.py:52 | No six-decimal value is closer to `x` than `round(x, 6)` |
| Rounding.Round6Exact | app.py:52 | A value with at most six decimals is unchanged by rounding |
| Rounding.Round6Idempotent | app.py:52 | Rounding twice equals rounding once |
| Rounding.Round6Monotone | app.py:52 | Rounding to six decimals preserves order |
| UnitConverter.LengthFactors | app.py:7-10 | Every length factor is strictly positive, the keys are exactly the advertised length units, and the metre is the base unit |
| UnitConverter.WeightFactors | app.py:14-17 | Every weight factor is strictly positive, the keys are exactly the advertised weight units, and the gram is the base unit |
| UnitConverter.TimeFactors | app.py:41-44 | Every time factor is strictly positive, the keys are exactly the advertised time units, and the second is the base unit |
| UnitConverter.Factors | app.py:60-64 | Each linear category's table is positive and keyed by that category's advertised unit list |
| UnitConverter.LinearConversion | app.py:11 | KeyError exactly when either unit is missing from the table; otherwise the amount in base units is the same before and after; a unit to itself is the identity |
| UnitConverter.LengthConversion | app.py:6-11 | KeyError exactly when a unit is not an advertised length unit; otherwise the length in metres is preserved |
| UnitConverter.WeightConversion | app.py:13-18 | KeyError exactly when a unit is not an advertised weight unit; otherwise the mass in grams is preserved |
| UnitConverter.TimeConversion | app.py:40-45 | KeyError exactly when a unit is not an advertised time unit; otherwise the duration in seconds is preserved |
| UnitConverter.KeyInFormulas | app.py:37-38 | The string key `from_to_to` is a formula key exactly when `from` and `to` are two different scales among C, F, K, R, so keys cannot alias |
| UnitConverter.TemperatureConversion | app.py:20-38 | Equal symbols give the input back, even unknown ones; otherwise KeyError exactly when either symbol is not one of the four scales |
| UnitConverter.Conversion | app.py:60-69 | The converter paired with a category raises KeyError exactly on unsupported unit pairs |
| UnitConverter.Convert | app.py:49-54 | Invalid-unit result exactly when the converter would raise KeyError; otherwise a six-decimal value within half a millionth of the converted value |
| ConverterProperties.LinearIdentity | app.py:11 | In a linear category, converting a unit to itself returns the value |
| ConverterProperties.LinearRoundTripTable | app.py:11 | On any positive factor table, A to B then B to A returns the original value exactly |
| ConverterProperties.LinearRoundTrip | app.py:11 | In each linear category, A to B then B to A returns the original value exactly |
| ConverterProperties.LinearChainTable | app.py:11 | On any positive factor table, A to B then B to D equals A to D |
| ConverterProperties.LinearChain | app.py:11 | In each linear category, A to B then B to D equals A to D |
| ConverterProperties.KelvinRoundTrip | app.py:22-33 | The reference into-kelvins and out-of-kelvins readings are inverse on every scale |
| ConverterProperties.TemperatureMatchesReference | app.py:20-38 | Each of the twelve direct formulas, and the identity, equals the reference: the reading in kelvins from the source scale's zero point and degree size, read back on the target scale |
| ConverterProperties.TemperatureInverse | app.py:22-33 | The formula for (q, p) undoes the formula for (p, q) on all four scales |
| ConverterProperties.TemperatureViaCelsius | app.py:22-33 | Every direct formula equals the formula into Celsius followed by the formula out of Celsius |
| ConverterProperties.ConvertIdentity | app.py:35-36 | `convert` of a unit to itself returns the rounded input, and the input itself when it has at most six decimals; for temperature this holds for any symbol |
| ConverterProperties.OfferedUnitsConvert | app.py:60-64 | Every unit pair the selector offers for a category converts without reaching the error path |
| ConverterProperties.ErrorExamples | app.py:51-54 | "m" to "xx", a weight unit under time, and "C" to "Z" give the invalid-unit result; "Z" to "Z" is the rounded identity |
| ConverterProperties.KnownLength | app.py:8 | 1 m is exactly 3.28084 ft, before and after rounding |
| ConverterProperties.KnownWeight | app.py:15 | 1 kg is exactly 2.20462 lb, before and after rounding |
| ConverterProperties.KnownTemperatures | app.py:22-27 | 0 C is 32 F, 100 C is 373.15 K and 32 F is 491.67 R, exactly, before and after rounding |
| ConverterProperties.KnownTime | app.py:42 | 3600 s is exactly 1 h, before and after rounding |

The tables `TemperatureFormulas` and `Units` and the helpers `Key` and `Name`
are plain data. Their contents are stated through the members above.
`Kelvin` and `FromKelvin` are a reference definition built from physical data
for each scale: the size of one degree in kelvins (1 for C and K, 5/9 for F
and R) and the reading at absolute zero (-273.15 C, -459.67 F, 0 K, 0 R). It
shares no expression with the twelve formulas, and all twelve are checked
against it.

## Left out

- The Streamlit form in `main` (app.py:56-82) is not modelled: the title, the selectors, the `number_input` with its `min_value=0.0`, the button and the result message. This is presentation and I/O. The category and unit lists it draws from are modelled as `Category` and `Units`.
- Rounding.Round6: rounds the exact real value. Python rounds the binary double. The rounding rule (nearest, ties to even) is the same, but double representation error, NaN and infinities are not modelled.
- The `Callable` argument of `convert` (app.py:49) is replaced by the `Category` datatype and the `Conversion` dispatch.
- An unknown category is not modelled. In the source it raises outside the `try` block (app.py:69), and the selector cannot produce one.
- Floating-point error in the factors and formulas is not modelled. Every property is exact over reals and holds only approximately on doubles.
