/** The thermal-comfort rules: a level, a summary and the list of factors that apply, from the
    current temperature and humidity. */
module Comfort {

  datatype Option<T> = None | Some(value: T)

  /** The readings the rules look up; any of them may be missing. */
  datatype WeatherData = WeatherData(
    temperature: Option<real>,
    humidity: Option<real>,
    windSpeed: Option<real>)

  datatype Level = Unknown | LowComfort | ModerateComfort

  datatype Factor = HighHumidity | HighTemperature | LowTemperature

  datatype ComfortInsight = ComfortInsight(level: Level, summary: string, factors: seq<Factor>)

  const MissingDataSummary: string :=
    "Dados insuficientes para " + "avaliar o conforto térmico"
  const HotAndHumidSummary: string := "Sensação de calor intenso " + "e abafado"
  const ColdSummary: string := "Sensação de frio acentuado"
  const ComfortableSummary: string :=
    "Condições térmicas " + "razoavelmente confortáveis"

  const Missing := ComfortInsight(Unknown, MissingDataSummary, [])

  /** The threshold each factor stands for. */
  predicate Applies(f: Factor, temperature: real, humidity: real)
  {
    match f
    case HighHumidity => humidity >= 70.0
    case HighTemperature => temperature >= 30.0
    case LowTemperature => temperature <= 10.0
  }

  /** The order factors are reported in. */
  const FactorOrder: seq<Factor> := [HighHumidity, HighTemperature, LowTemperature]

  function Rank(f: Factor): nat
  {
    match f
    case HighHumidity => 0
    case HighTemperature => 1
    case LowTemperature => 2
  }

  /** Strictly increasing rank: the fixed order, and no factor twice. */
  predicate Ranked(fs: seq<Factor>)
  {
    forall i, j :: 0 <= i < j < |fs| ==> Rank(fs[i]) < Rank(fs[j])
  }

  /** The factors of `fs` that apply, in the order of `fs`. */
  function Applicable(fs: seq<Factor>, temperature: real, humidity: real): (r: seq<Factor>)
    ensures |r| <= |fs|
  {
    if fs == [] then []
    else
      var rest := Applicable(fs[1..], temperature, humidity);
      if Applies(fs[0], temperature, humidity) then [fs[0]] + rest else rest
  }

  /** The rules stated directly: a missing reading gives the fixed unknown answer; otherwise the
      factors are those that apply, and the level is low when it is both hot and humid or when it
      is cold (the hot-and-humid summary taking precedence), moderate otherwise. */
  function ComfortOf(temperature: Option<real>, humidity: Option<real>): ComfortInsight
  {
    if temperature.None? || humidity.None? then Missing
    else
      var t, h := temperature.value, humidity.value;
      var factors := Applicable(FactorOrder, t, h);
      if t >= 30.0 && h >= 70.0 then ComfortInsight(LowComfort, HotAndHumidSummary, factors)
      else if t <= 10.0 then ComfortInsight(LowComfort, ColdSummary, factors)
      else ComfortInsight(ModerateComfort, ComfortableSummary, factors)
  }

  /** `thermal_comfort_insight`: the factor list grows by conditional appends, and the level is
      then chosen by membership tests on that list. The wind speed is read and not used. */
  method ThermalComfortInsight(weatherData: WeatherData) returns (r: ComfortInsight)
    ensures r == ComfortOf(weatherData.temperature, weatherData.humidity)
  {
    var temperature := weatherData.temperature;
    var humidity := weatherData.humidity;
    var windSpeed := weatherData.windSpeed;

    if temperature.None? || humidity.None? {
      return Missing;
    }

    var factors: seq<Factor> := [];

    if humidity.value >= 70.0 {
      factors := factors + [HighHumidity];
    }

    if temperature.value >= 30.0 {
      factors := factors + [HighTemperature];
    }

    if temperature.value <= 10.0 {
      factors := factors + [LowTemperature];
    }

    FactorsApplicable(temperature.value, humidity.value);
    assert factors == Applicable(FactorOrder, temperature.value, humidity.value);

    if HighTemperature in factors && HighHumidity in factors {
      return ComfortInsight(LowComfort, HotAndHumidSummary, factors);
    }

    if LowTemperature in factors {
      return ComfortInsight(LowComfort, ColdSummary, factors);
    }

    return ComfortInsight(ModerateComfort, ComfortableSummary, factors);
  }

  // ----- properties -----

  /** A factor is kept exactly when it is among the candidates and applies. */
  lemma {:induction false} ApplicableMembers(fs: seq<Factor>, temperature: real, humidity: real)
    ensures forall f :: f in Applicable(fs, temperature, humidity) <==>
                        f in fs && Applies(f, temperature, humidity)
  {
    if fs != [] {
      ApplicableMembers(fs[1..], temperature, humidity);
      assert fs == [fs[0]] + fs[1..];
    }
  }

  /** Filtering keeps the candidates' order: from candidates of increasing rank, the kept
      factors have increasing rank too. */
  lemma {:induction false} ApplicableOrdered(fs: seq<Factor>, temperature: real, humidity: real)
    requires Ranked(fs)
    ensures Ranked(Applicable(fs, temperature, humidity))
  {
    if fs != [] {
      var rest := Applicable(fs[1..], temperature, humidity);
      ApplicableOrdered(fs[1..], temperature, humidity);
      ApplicableMembers(fs[1..], temperature, humidity);
      forall f | f in rest ensures Rank(fs[0]) < Rank(f) {
        var k :| 1 <= k < |fs| && fs[k] == f;
      }
      if Applies(fs[0], temperature, humidity) {
        var r := [fs[0]] + rest;
        forall i, j | 0 <= i < j < |r| ensures Rank(r[i]) < Rank(r[j]) {
          assert r[j] == rest[j - 1] && rest[j - 1] in rest;
          if i > 0 {
            assert r[i] == rest[i - 1];
          }
        }
      }
    }
  }

  /** The factor list, spelled out: each factor is present exactly when its threshold holds,
      in the order high humidity, high temperature, low temperature. */
  lemma FactorsApplicable(temperature: real, humidity: real)
    ensures Applicable(FactorOrder, temperature, humidity) ==
      (if humidity >= 70.0 then [HighHumidity] else [])
      + (if temperature >= 30.0 then [HighTemperature] else [])
      + (if temperature <= 10.0 then [LowTemperature] else [])
  {
    var t, h := temperature, humidity;
    assert [LowTemperature][1..] == [];
    assert Applicable([LowTemperature], t, h) == (if t <= 10.0 then [LowTemperature] else []);
    assert [HighTemperature, LowTemperature][1..] == [LowTemperature];
    assert Applicable([HighTemperature, LowTemperature], t, h) ==
           (if t >= 30.0 then [HighTemperature] else []) + Applicable([LowTemperature], t, h);
    assert FactorOrder[1..] == [HighTemperature, LowTemperature];
  }

  /** A missing temperature or humidity gives the unknown level, the fixed summary and no
      factors, whatever the other readings are. */
  lemma MissingReading(temperature: Option<real>, humidity: Option<real>)
    requires temperature.None? || humidity.None?
    ensures ComfortOf(temperature, humidity) == ComfortInsight(Unknown, MissingDataSummary, [])
  {
  }

  /** With both readings present: each factor is reported exactly when its threshold holds, the
      factors come in the fixed order without repetition, and high and low temperature are never
      reported together. */
  lemma FactorRules(temperature: real, humidity: real)
    ensures var fs := ComfortOf(Some(temperature), Some(humidity)).factors;
      && (HighHumidity in fs <==> humidity >= 70.0)
      && (HighTemperature in fs <==> temperature >= 30.0)
      && (LowTemperature in fs <==> temperature <= 10.0)
      && Ranked(fs)
      && !(HighTemperature in fs && LowTemperature in fs)
  {
    assert ComfortOf(Some(temperature), Some(humidity)).factors ==
           Applicable(FactorOrder, temperature, humidity);
    ApplicableMembers(FactorOrder, temperature, humidity);
    ApplicableOrdered(FactorOrder, temperature, humidity);
  }

  /** With both readings present the level is low exactly when it is hot and humid or cold, and
      moderate otherwise; it is never unknown. */
  lemma LevelRule(temperature: real, humidity: real)
    ensures var c := ComfortOf(Some(temperature), Some(humidity));
      && (c.level == LowComfort <==>
          (temperature >= 30.0 && humidity >= 70.0) || temperature <= 10.0)
      && (c.level == ModerateComfort <==>
          !((temperature >= 30.0 && humidity >= 70.0) || temperature <= 10.0))
      && c.level != Unknown
  {
  }

  /** Each level comes with its own summary; the cold summary appears only when it is not also
      hot and humid, which cannot happen since cold and hot exclude each other. */
  lemma SummaryFollowsLevel(temperature: real, humidity: real)
    ensures var c := ComfortOf(Some(temperature), Some(humidity));
      && (c.summary == HotAndHumidSummary <==> temperature >= 30.0 && humidity >= 70.0)
      && (c.summary == ColdSummary <==> temperature <= 10.0)
      && (c.summary == ComfortableSummary <==> c.level == ModerateComfort)
  {
    assert HotAndHumidSummary != ColdSummary;
    assert HotAndHumidSummary != ComfortableSummary;
    assert ColdSummary != ComfortableSummary;
  }

  /** Factors are reported even at the moderate level: humid air at 28 degrees is moderate,
      with high humidity listed. */
  lemma HumidButModerate()
    ensures ComfortOf(Some(28.0), Some(75.0)) ==
            ComfortInsight(ModerateComfort, ComfortableSummary, [HighHumidity])
  {
    FactorsApplicable(28.0, 75.0);
  }
}
