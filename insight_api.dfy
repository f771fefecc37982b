/** The temperature-insight API endpoint's use of the builder. The endpoint fetches a city's
    history, which the history query returns newest first, and hands the temperatures straight to
    the builder, which expects them oldest first. */
module InsightApi {
  import opened Temperature
  import opened TemperatureInsight

  /** The endpoint as written: the newest-first history goes to the builder unchanged, so with
      two or more records the trend is up exactly when the oldest record (the last one) is
      warmer than the newest (the first one), that is, when the temperature fell. */
  function ApiViewInsight(history: seq<real>): (r: Insight)
    ensures |history| >= 2 ==>
      && (r.analysis.trend == Up <==> history[|history| - 1] > history[0])
      && (r.analysis.trend == Down <==> history[|history| - 1] < history[0])
  {
    BuildTemperatureInsight(history)
  }

  /** The endpoint as intended: the history is put back into chronological order first, so
      with two or more records the trend is up exactly when the newest record is warmer than the
      oldest. */
  function ApiViewInsightCorrected(history: seq<real>): (r: Insight)
    ensures |history| >= 2 ==>
      && (r.analysis.trend == Up <==> history[0] > history[|history| - 1])
      && (r.analysis.trend == Down <==> history[0] < history[|history| - 1])
  {
    var chronological := Reverse(history);
    assert |history| >= 2 ==>
      Analyze(chronological).trend == TrendOf(history[|history| - 1], history[0]);
    BuildTemperatureInsight(chronological)
  }

  /** As written, the endpoint reports the opposite trend of the readings as they happened (the
      history is the chronological readings reversed); variation and stability are unaffected. */
  lemma ApiViewInvertsTrend(readings: seq<real>)
    ensures ApiViewInsight(Reverse(readings)).analysis ==
            Analyze(readings).(trend := Flip(Analyze(readings).trend))
  {
    ReversalSymmetry(readings);
  }

  /** A reading of 20 followed by one of 25 is a rise, stored newest first as [25, 20]; the
      endpoint as written calls it a fall. */
  lemma ApiViewRiseReportedAsFall()
    ensures BuildTemperatureInsight([20.0, 25.0]).analysis.trend == Up
    ensures ApiViewInsight([25.0, 20.0]).analysis.trend == Down
  {
  }

  /** The corrected endpoint gives, for any history, the insight of the readings in the order
      they happened. */
  lemma CorrectedApiViewIsChronological(readings: seq<real>)
    ensures ApiViewInsightCorrected(Reverse(readings)) == BuildTemperatureInsight(readings)
  {
    ReverseReverse(readings);
  }
}
