/** The insight builder: the four stages composed over one list of readings in chronological
    order (oldest first). */
module TemperatureInsight {
  import opened Temperature
  import Strings
  import Interpretation
  import Impact
  import Suggestions

  /** The dictionary the builder returns: exactly these four fields. */
  datatype Insight = Insight(
    analysis: Analysis,
    interpretation: string,
    impact: Impact.ImpactResult,
    suggestions: seq<string>)

  /** The three later stages, each reading only the analysis (and, for the suggestions, the
      impact, which they ignore). */
  function FromAnalysis(a: Analysis): Insight
  {
    var impact := Impact.ImpactOf(a);
    Insight(a, Interpretation.Interpret(a), impact,
            Suggestions.Texts(Suggestions.SuggestionsFor(a, impact)))
  }

  /** `build_temperature_insight`. It is a function of the readings alone: no state, no clock.
      The analysis is taken from the readings, and every later stage from the analysis. */
  function BuildTemperatureInsight(temperatures: seq<real>): (r: Insight)
    ensures r.analysis == Analyze(temperatures)
    ensures r.interpretation == Interpretation.Interpret(r.analysis)
    ensures r.impact == Impact.ImpactOf(r.analysis)
    ensures r.suggestions == Suggestions.Texts(Suggestions.SuggestionsFor(r.analysis, r.impact))
  {
    FromAnalysis(Analyze(temperatures))
  }

  /** The fixed answer for fewer than two readings. */
  const NoDataInsight := Insight(
    Insufficient, Interpretation.NoDataSentence, Impact.NoImpact,
    [Suggestions.Text(Suggestions.WaitForData)])

  // ----- properties -----

  /** Two reading lists with the same analysis get the same insight. */
  lemma OnlyTheAnalysisMatters(t: seq<real>, u: seq<real>)
    requires Analyze(t) == Analyze(u)
    ensures BuildTemperatureInsight(t) == BuildTemperatureInsight(u)
  {
  }

  /** With fewer than two readings every stage gives its fixed insufficient-data output. */
  lemma TooFewReadings(t: seq<real>)
    requires |t| < 2
    ensures BuildTemperatureInsight(t) == NoDataInsight
  {
    assert Analyze(t) == Insufficient;
    assert Impact.ImpactOf(Insufficient) == Impact.NoImpact;
    assert Suggestions.SuggestionsFor(Insufficient, Impact.NoImpact) == [Suggestions.WaitForData];
  }

  /** The stages agree on whether there was enough data: the interpretation is the no-data
      sentence exactly when there are fewer than two readings. With two or more, the sentence
      has its three clauses (two commas, a final period), both impact texts are cleanly
      space-separated, and there are one to three suggestions. */
  lemma EnoughReadings(t: seq<real>)
    ensures BuildTemperatureInsight(t).interpretation == Interpretation.NoDataSentence
            <==> |t| < 2
    ensures |t| >= 2 ==>
      var r := BuildTemperatureInsight(t);
      && Classified(r.analysis)
      && Strings.Count(r.interpretation, ',') == 2
      && r.interpretation[|r.interpretation| - 1] == '.'
      && Strings.Trimmed(r.impact.health) && Strings.Trimmed(r.impact.comfort)
      && 1 <= |r.suggestions| <= 3
  {
    var a := Analyze(t);
    Interpretation.SentenceShape(a);
    Interpretation.SentenceShape(Insufficient);
    if |t| >= 2 {
      Impact.ImpactTextsTrimmed(a);
      Suggestions.SuggestionCount(a, Impact.ImpactOf(a));
    }
  }

  /** Reversing the readings changes the insight only through the trend: up and down swap. */
  lemma ReversedReadings(t: seq<real>)
    ensures BuildTemperatureInsight(Reverse(t)) ==
            FromAnalysis(Analyze(t).(trend := Flip(Analyze(t).trend)))
  {
    ReversalSymmetry(t);
  }

  /** With two or more readings, reading them in the opposite order gives the same sentence
      exactly when the first and last readings are equal. */
  lemma ReadingOrderMatters(t: seq<real>)
    requires |t| >= 2
    ensures BuildTemperatureInsight(Reverse(t)).interpretation ==
            BuildTemperatureInsight(t).interpretation
            <==> t[0] == t[|t| - 1]
  {
    var a := Analyze(t);
    var b := Analyze(Reverse(t));
    ReversalSymmetry(t);
    ClassificationRules(t);
    if t[0] != t[|t| - 1] {
      assert a.trend in {Up, Down} && b.trend != a.trend;
      Interpretation.InterpretInjective(a, b);
    }
  }
}
