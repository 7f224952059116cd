/**
 One evaluation of a submitted questionnaire: the score, the threshold rank
 shown on screen, the adjusted score, and the final classification that the
 spreadsheet export records.
 */
module Assessment {
  import opened Answers
  import opened Scoring
  import opened ScoreProperties
  import opened Ranking

  datatype Report = Report(score: int, shownRank: Rank, adjustedScore: int, exportedRank: Rank)

  /** Either the scorer raised, or it produced a report. */
  datatype Evaluation = Raised | Evaluated(report: Report)

  /** Scores the answers with the default weight and derives the figures
      shown with the score. */
  method Assess(e: seq<Entry>) returns (ev: Evaluation)
    ensures ev.Raised? <==> !WellTyped(e)
    ensures ev.Evaluated? ==>
      var rep := ev.report;
      && Score(e, DefaultWeight) == Points(rep.score)
      && rep.shownRank == ThresholdRank(rep.score)
      && rep.adjustedScore == rep.score + PairWeights(e)
      && rep.exportedRank == NearestRank(rep.score)
  {
    ScoreDefinedIffWellTyped(e, DefaultWeight);
    var s := Score(e, DefaultWeight);
    if s.Raises? {
      return Raised;
    }
    var finalRank := ProximityRank(s.value);
    ev := Evaluated(Report(s.value, ThresholdRank(s.value), AdjustedScore(s.value, e), finalRank));
  }
}
