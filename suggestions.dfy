/** The suggestion generator: an ordered list of advice built from the three classifications. */
module Suggestions {
  import opened Temperature
  import Impact

  /** The suggestions the generator can emit. */
  datatype Suggestion =
    | WaitForData
    | PrepareForVariation | MindThermalChanges
    | SpareClothing | PlanOutdoorActivities
    | LighterClothing | ExtraLayer

  /** The source's text of each suggestion, written as concatenated pieces. */
  function Text(s: Suggestion): string
  {
    match s
    case WaitForData => "Aguarde mais dados para " + "receber sugestões climáticas."
    case PrepareForVariation =>
      "Considere se preparar para " + "variações de temperatura " + "ao longo do dia."
    case MindThermalChanges =>
      "Leve em conta possíveis " + "mudanças térmicas durante " + "o período."
    case SpareClothing =>
      "Tenha uma opção extra de roupa " + "para lidar com mudanças " + "rápidas de clima."
    case PlanOutdoorActivities =>
      "As condições estáveis favorecem " + "o planejamento de atividades " + "externas."
    case LighterClothing => "Roupas mais leves podem " + "ser mais confortáveis."
    case ExtraLayer => "Uma camada adicional de " + "roupa pode ser útil."
  }

  function Texts(ss: seq<Suggestion>): (r: seq<string>)
    ensures |r| == |ss| && forall i :: 0 <= i < |ss| ==> r[i] == Text(ss[i])
  {
    seq(|ss|, i requires 0 <= i < |ss| => Text(ss[i]))
  }

  // The rule table: what each axis contributes.

  function VariationAdvice(variation: Label): seq<Suggestion>
  {
    if variation == High then [PrepareForVariation]
    else if variation == Moderate then [MindThermalChanges]
    else []
  }

  function StabilityAdvice(stability: Label): Suggestion
  {
    if stability == Unstable then SpareClothing else PlanOutdoorActivities
  }

  function TrendAdvice(trend: Label): seq<Suggestion>
  {
    if trend == Up then [LighterClothing]
    else if trend == Down then [ExtraLayer]
    else []
  }

  /** The suggestions for an analysis; the impact is accepted and not consulted. */
  function SuggestionsFor(a: Analysis, impact: Impact.ImpactResult): seq<Suggestion>
  {
    if a.trend == InsufficientData then [WaitForData]
    else VariationAdvice(a.variation) + [StabilityAdvice(a.stability)] + TrendAdvice(a.trend)
  }

  /** `suggest_actions_from_temperature`: the list grows by conditional appends in the order
      variation, stability, trend. */
  method SuggestActionsFromTemperature(analysis: Analysis, impact: Impact.ImpactResult)
    returns (suggestions: seq<string>)
    ensures suggestions == Texts(SuggestionsFor(analysis, impact))
  {
    if analysis.trend == InsufficientData {
      return [Text(WaitForData)];
    }

    var chosen: seq<Suggestion> := [];

    if analysis.variation == High {
      chosen := chosen + [PrepareForVariation];
    } else if analysis.variation == Moderate {
      chosen := chosen + [MindThermalChanges];
    }

    if analysis.stability == Unstable {
      chosen := chosen + [SpareClothing];
    } else {
      chosen := chosen + [PlanOutdoorActivities];
    }

    if analysis.trend == Up {
      chosen := chosen + [LighterClothing];
    } else if analysis.trend == Down {
      chosen := chosen + [ExtraLayer];
    }

    assert chosen == SuggestionsFor(analysis, impact);
    suggestions := Texts(chosen);
  }

  // ----- properties -----

  /** Which axis a suggestion answers: 0 variation, 1 stability, 2 trend. The wait suggestion
      answers none of them and is always alone; it gets an axis of its own. */
  function Axis(s: Suggestion): nat
  {
    match s
    case PrepareForVariation | MindThermalChanges => 0
    case SpareClothing | PlanOutdoorActivities => 1
    case LighterClothing | ExtraLayer => 2
    case WaitForData => 3
  }

  /** Without enough data the only suggestion is to wait. */
  lemma WaitWithoutData(a: Analysis, impact: Impact.ImpactResult)
    requires a.trend == InsufficientData
    ensures SuggestionsFor(a, impact) == [WaitForData]
  {
  }

  /** The count is 1 + [variation is high or moderate] + [trend is up or down]. */
  lemma SuggestionCount(a: Analysis, impact: Impact.ImpactResult)
    requires a.trend != InsufficientData
    ensures |SuggestionsFor(a, impact)| ==
            1 + (if a.variation in {High, Moderate} then 1 else 0)
              + (if a.trend in {Up, Down} then 1 else 0)
    ensures 1 <= |SuggestionsFor(a, impact)| <= 3
  {
  }

  /** Exactly one stability suggestion is present, the unstable variant exactly when stability
      is `unstable`, right after the variation suggestion if there is one. */
  lemma StabilityAdvicePresent(a: Analysis, impact: Impact.ImpactResult)
    requires a.trend != InsufficientData
    ensures var ss, k := SuggestionsFor(a, impact), if a.variation in {High, Moderate} then 1 else 0;
      && k < |ss|
      && ss[k] == (if a.stability == Unstable then SpareClothing else PlanOutdoorActivities)
      && forall i :: 0 <= i < |ss| && i != k ==> Axis(ss[i]) != 1
  {
  }

  /** The order is variation, stability, trend, with at most one suggestion per axis: the axes
      strictly increase along the list. */
  lemma {:induction false} AxesIncrease(a: Analysis, impact: Impact.ImpactResult)
    ensures var ss := SuggestionsFor(a, impact);
      forall i, j :: 0 <= i < j < |ss| ==> Axis(ss[i]) < Axis(ss[j])
  {
  }

  /** Low variation and a stable trend contribute nothing. */
  lemma QuietAxesAddNothing(a: Analysis, impact: Impact.ImpactResult)
    requires a.trend == Stable && a.variation == Low
    ensures SuggestionsFor(a, impact) == [StabilityAdvice(a.stability)]
  {
  }

  /** The impact argument is never read. */
  lemma ImpactIgnored(a: Analysis, impact: Impact.ImpactResult, other: Impact.ImpactResult)
    ensures SuggestionsFor(a, impact) == SuggestionsFor(a, other)
  {
  }
}
