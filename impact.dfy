/** The impact assessor: health and comfort texts assembled from message fragments chosen by
    variation, stability and trend, in that order, and joined with single spaces. */
module Impact {
  import opened Temperature
  import opened Strings

  datatype ImpactResult = ImpactResult(health: string, comfort: string)

  /** The messages the assessor can emit. */
  datatype Message =
    | NoHealthData | NoComfortData
    | HighVariationComfort | HighVariationHealth
    | ModerateVariationComfort | ModerateVariationHealth
    | LowVariationComfort | LowVariationHealth
    | UnstableHealth | StableHealth
    | RisingComfort | RisingHealth
    | FallingComfort | FallingHealth

  /** The source's text of each message, word by word: its text is its words joined by single
      spaces. */
  function Words(m: Message): seq<string>
  {
    match m
    case NoHealthData =>
      ["Não", "é", "possível", "avaliar", "o", "impacto", "na", "saúde", "no", "momento", "por",
       "falta", "de", "dados."]
    case NoComfortData =>
      ["Não", "é", "possível", "avaliar", "o", "conforto", "no", "momento", "por", "falta", "de",
       "dados."]
    case HighVariationComfort =>
      ["A", "alta", "variação", "de", "temperatura", "pode", "causar", "desconforto", "térmico",
       "ao", "longo", "do", "período."]
    case HighVariationHealth =>
      ["Variações", "extremas", "podem", "afetar", "a", "saúde,", "especialmente", "de",
       "grupos", "vulneráveis."]
    case ModerateVariationComfort =>
      ["A", "variação", "moderada", "de", "temperatura", "pode", "ser", "perceptível", "ao",
       "longo", "do", "dia."]
    case ModerateVariationHealth =>
      ["Variações", "moderadas", "geralmente", "não", "apresentam", "risco", "à", "saúde."]
    case LowVariationComfort =>
      ["A", "baixa", "variação", "de", "temperatura", "tende", "a", "proporcionar", "maior",
       "conforto", "térmico."]
    case LowVariationHealth =>
      ["Temperaturas", "estáveis", "favorecem", "o", "bem-estar", "e", "a", "saúde."]
    case UnstableHealth =>
      ["Mudanças", "bruscas", "podem", "indicar", "risco", "à", "saúde", "e", "exigem", "maior",
       "atenção."]
    case StableHealth =>
      ["As", "mudanças", "graduais", "indicam", "um", "ambiente", "mais", "previsível", "e",
       "seguro."]
    case RisingComfort =>
      ["A", "tendência", "de", "alta", "pode", "resultar", "em", "sensação", "térmica", "mais",
       "elevada."]
    case RisingHealth =>
      ["Aumento", "de", "temperatura", "pode", "aumentar", "risco", "de", "desidratação."]
    case FallingComfort =>
      ["A", "tendência", "de", "queda", "pode", "resultar", "em", "sensação", "térmica", "mais",
       "amena."]
    case FallingHealth =>
      ["Redução", "de", "temperatura", "aumenta", "risco", "de", "hipotermia", "em", "grupos",
       "vulneráveis."]
  }

  function Text(m: Message): string
  {
    Join(Words(m), " ")
  }

  function Texts(ms: seq<Message>): (r: seq<string>)
    ensures |r| == |ms| && forall i :: 0 <= i < |ms| ==> r[i] == Text(ms[i])
  {
    seq(|ms|, i requires 0 <= i < |ms| => Text(ms[i]))
  }

  /** The text of a message list: the messages' texts joined by single spaces. */
  function Assemble(ms: seq<Message>): string
  {
    Join(Texts(ms), " ")
  }

  const NoImpact := ImpactResult(Text(NoHealthData), Text(NoComfortData))

  // The rule table: one function per axis and text.

  function VariationComfort(variation: Label): Message
  {
    if variation == High then HighVariationComfort
    else if variation == Moderate then ModerateVariationComfort
    else LowVariationComfort
  }

  function VariationHealth(variation: Label): Message
  {
    if variation == High then HighVariationHealth
    else if variation == Moderate then ModerateVariationHealth
    else LowVariationHealth
  }

  function StabilityHealth(stability: Label): Message
  {
    if stability == Unstable then UnstableHealth else StableHealth
  }

  function TrendComfort(trend: Label): seq<Message>
  {
    if trend == Up then [RisingComfort]
    else if trend == Down then [FallingComfort]
    else []
  }

  function TrendHealth(trend: Label): seq<Message>
  {
    if trend == Up then [RisingHealth]
    else if trend == Down then [FallingHealth]
    else []
  }

  /** The comfort messages: variation, then trend when there is one. */
  function ComfortMessages(a: Analysis): seq<Message>
  {
    [VariationComfort(a.variation)] + TrendComfort(a.trend)
  }

  /** The health messages: variation, stability, then trend when there is one. */
  function HealthMessages(a: Analysis): seq<Message>
  {
    [VariationHealth(a.variation), StabilityHealth(a.stability)] + TrendHealth(a.trend)
  }

  /** What `assess_temperature_impact` returns for an analysis. */
  function ImpactOf(a: Analysis): ImpactResult
  {
    if a.trend == InsufficientData then NoImpact
    else ImpactResult(Assemble(HealthMessages(a)), Assemble(ComfortMessages(a)))
  }

  /** `assess_temperature_impact`: the two message lists grow by conditional appends in the
      order variation, stability, trend; their texts are then space-joined. */
  method AssessTemperatureImpact(analysis: Analysis) returns (r: ImpactResult)
    ensures r == ImpactOf(analysis)
  {
    if analysis.trend == InsufficientData {
      return NoImpact;
    }

    var healthMessages: seq<Message> := [];
    var comfortMessages: seq<Message> := [];

    if analysis.variation == High {
      comfortMessages := comfortMessages + [HighVariationComfort];
      healthMessages := healthMessages + [HighVariationHealth];
    } else if analysis.variation == Moderate {
      comfortMessages := comfortMessages + [ModerateVariationComfort];
      healthMessages := healthMessages + [ModerateVariationHealth];
    } else {
      comfortMessages := comfortMessages + [LowVariationComfort];
      healthMessages := healthMessages + [LowVariationHealth];
    }

    if analysis.stability == Unstable {
      healthMessages := healthMessages + [UnstableHealth];
    } else {
      healthMessages := healthMessages + [StableHealth];
    }

    if analysis.trend == Up {
      comfortMessages := comfortMessages + [RisingComfort];
      healthMessages := healthMessages + [RisingHealth];
    } else if analysis.trend == Down {
      comfortMessages := comfortMessages + [FallingComfort];
      healthMessages := healthMessages + [FallingHealth];
    }

    assert healthMessages == HealthMessages(analysis);
    assert comfortMessages == ComfortMessages(analysis);
    r := ImpactResult(Assemble(healthMessages), Assemble(comfortMessages));
  }

  // ----- properties -----

  const VariationComfortMessages: set<Message> :=
    {HighVariationComfort, ModerateVariationComfort, LowVariationComfort}
  const VariationHealthMessages: set<Message> :=
    {HighVariationHealth, ModerateVariationHealth, LowVariationHealth}
  const StabilityMessages: set<Message> := {UnstableHealth, StableHealth}
  const TrendComfortMessages: set<Message> := {RisingComfort, FallingComfort}
  const TrendHealthMessages: set<Message> := {RisingHealth, FallingHealth}

  /** Without enough data both texts are the fixed "cannot assess" messages, whatever the
      variation and stability say. */
  lemma NoDataImpact(a: Analysis)
    requires a.trend == InsufficientData
    ensures ImpactOf(a) == ImpactResult(Text(NoHealthData), Text(NoComfortData))
  {
  }

  /** Comfort is one variation message, then one trend message exactly when the trend is up or
      down; health is one variation message, one stability message, then one trend message
      exactly when the trend is up or down. */
  lemma MessageOrder(a: Analysis)
    ensures var c, h := ComfortMessages(a), HealthMessages(a);
      && |c| == (if a.trend in {Up, Down} then 2 else 1)
      && |h| == (if a.trend in {Up, Down} then 3 else 2)
      && c[0] in VariationComfortMessages
      && (|c| == 2 ==> c[1] in TrendComfortMessages)
      && h[0] in VariationHealthMessages
      && h[1] in StabilityMessages
      && (|h| == 3 ==> h[2] in TrendHealthMessages)
  {
  }

  /** No stability message is ever among the comfort messages. */
  lemma StabilityNotInComfort(a: Analysis)
    ensures forall m :: m in ComfortMessages(a) ==> m !in StabilityMessages
  {
  }

  /** Stability contributes to health only: it never changes the comfort text. */
  lemma StabilityOnlyInHealth(a: Analysis, stability: Label)
    ensures ImpactOf(a.(stability := stability)).comfort == ImpactOf(a).comfort
  {
    var b := a.(stability := stability);
    if a.trend != InsufficientData {
      assert ComfortMessages(b) == ComfortMessages(a);
    }
  }

  /** A stable trend adds nothing to either text: there is no branch for it. */
  lemma SteadyTrendAddsNothing(a: Analysis)
    requires a.trend == Stable
    ensures ImpactOf(a) == ImpactResult(
      Text(VariationHealth(a.variation)) + " " + Text(StabilityHealth(a.stability)),
      Text(VariationComfort(a.variation)))
  {
  }

  /** Any variation other than high or moderate takes the low-variation messages, and any
      stability other than unstable takes the gradual-change message. */
  lemma OtherValuesDefault(a: Analysis)
    requires a.variation !in {High, Moderate}
    requires a.stability != Unstable
    ensures ImpactOf(a) == ImpactOf(Analysis(a.trend, Low, Stable))
  {
  }

  // One lemma per pair of messages: unfolding the join of every word list in a single proof
  // costs the solver more than it is allowed, so `MessageTrimmed` dispatches to these.

  lemma NoDataWords(m: Message)
    requires m == NoHealthData || m == NoComfortData
    ensures Trimmed(Text(m))
  {
    WordsTrimmed(Words(m));
  }

  lemma HighVariationWords(m: Message)
    requires m == HighVariationComfort || m == HighVariationHealth
    ensures Trimmed(Text(m))
  {
    WordsTrimmed(Words(m));
  }

  lemma ModerateVariationWords(m: Message)
    requires m == ModerateVariationComfort || m == ModerateVariationHealth
    ensures Trimmed(Text(m))
  {
    WordsTrimmed(Words(m));
  }

  lemma LowVariationWords(m: Message)
    requires m == LowVariationComfort || m == LowVariationHealth
    ensures Trimmed(Text(m))
  {
    WordsTrimmed(Words(m));
  }

  lemma StabilityWords(m: Message)
    requires m == UnstableHealth || m == StableHealth
    ensures Trimmed(Text(m))
  {
    WordsTrimmed(Words(m));
  }

  lemma RisingWords(m: Message)
    requires m == RisingComfort || m == RisingHealth
    ensures Trimmed(Text(m))
  {
    WordsTrimmed(Words(m));
  }

  lemma FallingWords(m: Message)
    requires m == FallingComfort || m == FallingHealth
    ensures Trimmed(Text(m))
  {
    WordsTrimmed(Words(m));
  }

  lemma MessageTrimmed(m: Message)
    ensures Trimmed(Text(m))
  {
    match m
    case NoHealthData | NoComfortData => NoDataWords(m);
    case HighVariationComfort | HighVariationHealth => HighVariationWords(m);
    case ModerateVariationComfort | ModerateVariationHealth => ModerateVariationWords(m);
    case LowVariationComfort | LowVariationHealth => LowVariationWords(m);
    case UnstableHealth | StableHealth => StabilityWords(m);
    case RisingComfort | RisingHealth => RisingWords(m);
    case FallingComfort | FallingHealth => FallingWords(m);
  }

  /** Both texts are non-empty and have no leading, trailing or doubled space: every message is
      so, and the join puts exactly one space between neighbours. */
  lemma ImpactTextsTrimmed(a: Analysis)
    ensures Trimmed(ImpactOf(a).health) && Trimmed(ImpactOf(a).comfort)
  {
    MessageTrimmed(NoHealthData);
    MessageTrimmed(NoComfortData);
    if a.trend != InsufficientData {
      var h, c := HealthMessages(a), ComfortMessages(a);
      forall i | 0 <= i < |h| ensures Trimmed(Texts(h)[i]) { MessageTrimmed(h[i]); }
      forall i | 0 <= i < |c| ensures Trimmed(Texts(c)[i]) { MessageTrimmed(c[i]); }
      JoinTrimmed(Texts(h));
      JoinTrimmed(Texts(c));
      assert ImpactOf(a) == ImpactResult(Join(Texts(h), " "), Join(Texts(c), " "));
    }
  }
}
