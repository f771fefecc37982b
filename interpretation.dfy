/** The interpreter: one descriptive sentence built from the three classifications. */
module Interpretation {
  import opened Temperature
  import opened Strings

  // The texts are the source's own, written as concatenated pieces.

  const NoDataSentence: string :=
    "Ainda não há dados suficientes " + "para analisar a variação " + "da temperatura."

  const RisingText: string := "A temperatura apresentou " + "uma tendência de alta"
  const FallingText: string := "A temperatura apresentou " + "uma tendência de queda"
  const SteadyText: string := "A temperatura manteve-se estável"

  const LittleVariationText: string := "com pouca variação " + "ao longo do período"
  const ModerateVariationText: string := "com variação moderada " + "ao longo do período"
  const SharpVariationText: string := "com variação acentuada " + "ao longo do período"

  const GradualText: string := "e mudanças graduais " + "entre os dias"
  const AbruptText: string := "e mudanças bruscas " + "entre os registros"

  function TrendClause(trend: Label): string
  {
    if trend == Up then RisingText
    else if trend == Down then FallingText
    else SteadyText
  }

  function VariationClause(variation: Label): string
  {
    if variation == Low then LittleVariationText
    else if variation == Moderate then ModerateVariationText
    else SharpVariationText
  }

  function StabilityClause(stability: Label): string
  {
    if stability == Stable then GradualText else AbruptText
  }

  /** `interpret_temperature_analysis`: the no-data sentence, or the three clauses separated by
      ", " and closed by a period. Either way the result is a sentence ending in a period. */
  function Interpret(a: Analysis): (r: string)
    ensures |r| > 0 && r[|r| - 1] == '.'
  {
    if a.trend == InsufficientData then NoDataSentence
    else TrendClause(a.trend) + ", " + VariationClause(a.variation) + ", "
         + StabilityClause(a.stability) + "."
  }

  /** How the interpreter reads an analysis that is not insufficient: a trend other than up or
      down reads as stable, a variation other than low or moderate as high, and a stability
      other than stable as unstable. */
  function ReadAs(a: Analysis): Analysis
  {
    Analysis(
      if a.trend in {Up, Down} then a.trend else Stable,
      if a.variation in {Low, Moderate} then a.variation else High,
      if a.stability == Stable then Stable else Unstable)
  }

  /** The insufficient-data sentence does not depend on variation or stability. */
  lemma InsufficientSentence(a: Analysis)
    requires a.trend == InsufficientData
    ensures Interpret(a) == NoDataSentence
    ensures forall v, s :: Interpret(Analysis(a.trend, v, s)) == NoDataSentence
  {
  }

  lemma TrendClauseHasNoComma(trend: Label)
    ensures ',' !in TrendClause(trend)
  {
    assert ',' !in RisingText;
    assert ',' !in FallingText;
    assert ',' !in SteadyText;
  }

  lemma VariationClauseHasNoComma(variation: Label)
    ensures ',' !in VariationClause(variation)
  {
    assert ',' !in LittleVariationText;
    assert ',' !in ModerateVariationText;
    assert ',' !in SharpVariationText;
  }

  lemma StabilityClauseHasNoComma(stability: Label)
    ensures ',' !in StabilityClause(stability)
  {
    assert ',' !in GradualText;
    assert ',' !in AbruptText;
  }

  lemma NoDataSentenceShape()
    ensures ',' !in NoDataSentence
    ensures NoDataSentence[|NoDataSentence| - 1] == '.'
  {
  }

  /** A three-clause sentence holds exactly two commas and the insufficient-data sentence none,
      so the two kinds can never be confused. */
  lemma SentenceShape(a: Analysis)
    ensures Count(Interpret(a), ',') == if a.trend == InsufficientData then 0 else 2
  {
    NoDataSentenceShape();
    CountAbsent(NoDataSentence, ',');
    if a.trend != InsufficientData {
      var t, v, s := TrendClause(a.trend), VariationClause(a.variation), StabilityClause(a.stability);
      TrendClauseHasNoComma(a.trend);
      VariationClauseHasNoComma(a.variation);
      StabilityClauseHasNoComma(a.stability);
      CountAbsent(t, ',');
      CountAbsent(v, ',');
      CountAbsent(s, ',');
      CountAbsent(".", ',');
      CountAppend(t, ", ", ',');
      CountAppend(t + ", ", v, ',');
      CountAppend(t + ", " + v, ", ", ',');
      CountAppend(t + ", " + v + ", ", s, ',');
      CountAppend(t + ", " + v + ", " + s, ".", ',');
    }
  }

  /** Reading the other values by their defaults changes nothing. */
  lemma ReadAsAgrees(a: Analysis)
    requires a.trend != InsufficientData
    ensures Interpret(ReadAs(a)) == Interpret(a)
    ensures Classified(ReadAs(a))
    ensures Classified(a) ==> ReadAs(a) == a
  {
  }

  /** Cutting a three-clause sentence at its two commas gives back its clauses. */
  lemma CutSentence(t: string, v: string, s: string, t': string, v': string, s': string)
    requires ',' !in t && ',' !in v && ',' !in t' && ',' !in v'
    requires t + ", " + v + ", " + s + "." == t' + ", " + v' + ", " + s' + "."
    ensures t == t' && v == v' && s == s'
  {
    var x, x' := " " + v + ", " + s + ".", " " + v' + ", " + s' + ".";
    assert t + ", " + v + ", " + s + "." == t + [','] + x;
    assert t' + ", " + v' + ", " + s' + "." == t' + [','] + x';
    CutAtFirst(t, t', ',', x, x');
    var y, y' := " " + s + ".", " " + s' + ".";
    assert x[1..] == v + [','] + y;
    assert x'[1..] == v' + [','] + y';
    CutAtFirst(v, v', ',', y, y');
    assert s == y[1..|s| + 1] && s' == y'[1..|s'| + 1];
  }

  /** On each axis, distinct readings have distinct clause texts. */
  lemma ClausesDistinct(a: Analysis, b: Analysis)
    ensures TrendClause(a.trend) == TrendClause(b.trend) ==> ReadAs(a).trend == ReadAs(b).trend
    ensures VariationClause(a.variation) == VariationClause(b.variation)
            ==> ReadAs(a).variation == ReadAs(b).variation
    ensures StabilityClause(a.stability) == StabilityClause(b.stability)
            ==> ReadAs(a).stability == ReadAs(b).stability
  {
  }

  /** The sentence determines the analysis as read: cutting it at its two commas recovers the
      three clauses, and distinct readings on one axis have distinct clauses. */
  lemma SentenceDeterminesAnalysis(a: Analysis, b: Analysis)
    requires a.trend != InsufficientData && b.trend != InsufficientData
    ensures Interpret(a) == Interpret(b) <==> ReadAs(a) == ReadAs(b)
  {
    ReadAsAgrees(a);
    ReadAsAgrees(b);
    if Interpret(a) == Interpret(b) {
      TrendClauseHasNoComma(a.trend);
      VariationClauseHasNoComma(a.variation);
      TrendClauseHasNoComma(b.trend);
      VariationClauseHasNoComma(b.variation);
      CutSentence(TrendClause(a.trend), VariationClause(a.variation), StabilityClause(a.stability),
                  TrendClause(b.trend), VariationClause(b.variation), StabilityClause(b.stability));
      ClausesDistinct(a, b);
    }
  }

  /** Distinct classified analyses give distinct sentences. */
  lemma InterpretInjective(a: Analysis, b: Analysis)
    requires Classified(a) && Classified(b)
    requires a != b
    ensures Interpret(a) != Interpret(b)
  {
    ReadAsAgrees(a);
    ReadAsAgrees(b);
    SentenceDeterminesAnalysis(a, b);
  }
}
