/** The temperature-unit store of `src/stores/tempUnit.ts`: one boolean of
    state, an action that flips it and a formatting getter. The getter is a
    pure function of the state, so it cannot modify it. */
module TempUnit {
  import opened Rounding

  datatype TempUnitState = TempUnitState(isCelsius: bool)

  /** The store starts in Celsius. */
  function InitialState(): (s: TempUnitState)
    ensures s.isCelsius
  {
    TempUnitState(true)
  }

  /** `toggleUnit`: switches between Celsius and Fahrenheit. */
  function ToggleUnit(s: TempUnitState): (t: TempUnitState)
    ensures t.isCelsius != s.isCelsius
  {
    TempUnitState(!s.isCelsius)
  }

  lemma ToggleTwiceRestores(s: TempUnitState)
    ensures ToggleUnit(ToggleUnit(s)) == s
  {
  }

  /** Temperatures reach the store in Celsius. */
  function CelsiusToFahrenheit(t: real): real {
    t * 9.0 / 5.0 + 32.0
  }

  /** `formatTemp(temp)`: the temperature in the current unit, rounded with
      `Math.round`. */
  function FormatTemp(s: TempUnitState, temp: real): (n: int)
    ensures var shown := if s.isCelsius then temp else CelsiusToFahrenheit(temp);
            n as real - 0.5 <= shown < n as real + 0.5
  {
    if s.isCelsius then JsRound(temp) else JsRound(CelsiusToFahrenheit(temp))
  }

  /** Freezing and boiling points, and the two rounding directions at a tie. */
  lemma FormatTempExamples()
    ensures FormatTemp(TempUnitState(false), 0.0) == 32
    ensures FormatTemp(TempUnitState(false), 100.0) == 212
    ensures FormatTemp(TempUnitState(false), -40.0) == -40
    ensures FormatTemp(TempUnitState(true), 21.5) == 22
    ensures FormatTemp(TempUnitState(true), -2.5) == -2
  {
    JsRoundUnique(32.0, 32);
    JsRoundUnique(212.0, 212);
    JsRoundUnique(-40.0, -40);
    JsRoundUnique(21.5, 22);
    JsRoundUnique(-2.5, -2);
  }

  /** In Celsius a whole-degree temperature is shown as it is. */
  lemma FormatTempOfWholeCelsius(s: TempUnitState, k: int)
    requires s.isCelsius
    ensures FormatTemp(s, k as real) == k
  {
    JsRoundUnique(k as real, k);
  }

  /** Warmer never displays colder, in either unit. */
  lemma FormatTempMonotone(s: TempUnitState, t: real, t': real)
    requires t <= t'
    ensures FormatTemp(s, t) <= FormatTemp(s, t')
  {
    if s.isCelsius {
      JsRoundMonotone(t, t');
    } else {
      JsRoundMonotone(CelsiusToFahrenheit(t), CelsiusToFahrenheit(t'));
    }
  }

  /** Fahrenheit display is Celsius display of the converted temperature:
      the unit only selects the conversion, never the rounding. */
  lemma FahrenheitIsConvertedCelsius(temp: real)
    ensures FormatTemp(ToggleUnit(InitialState()), temp)
         == FormatTemp(InitialState(), CelsiusToFahrenheit(temp))
  {
  }
}
