/** Facts that tie the browser and the service together. */
module Session {
  import opened Wrappers
  import opened Report
  import Backend
  import Dashboard

  /** The dashboard accepts an upload exactly when the service runs an
      extractor for its type; a rejected type would reach the analysis with
      no text at all. */
  lemma AcceptedIffExtracted(mimeType: string)
    ensures Dashboard.AcceptsType(mimeType) <==> Backend.Classify(mimeType) != Backend.OtherFile
  {
  }

  /** The mock analysis the service answers with when no model is configured,
      as the dashboard shows and exports it: five Normal metrics in the chart,
      a sheet of 21 rows ending in the fixed recommendations, and a PDF that
      draws the recommendations section. */
  lemma MockAnalysisOnDashboard(name: string, age: string, gender: string,
                                                   p: Dashboard.PatientData, date: string, iso: string,
                                                   finalY: int, wrap: string -> seq<string>)
    ensures var a := Backend.MockAnalysis(name, age, gender);
      && Dashboard.GetChartData(Some(a)).value.riskCounts == [5, 0, 0]
      && |Dashboard.ExcelRows(p, date, a)| == 21
      && Dashboard.ExcelRows(p, date, a)[20] == [Backend.MockRecommendations]
      && |Dashboard.PdfOps(p, a, date, iso, finalY, wrap)| == 12
  {
  }
}
