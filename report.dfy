/** The JSON shapes exchanged between the browser and the `/api/analyze`
    endpoint, and the two MIME constants both sides test uploads against. */
module Report {
  import opened Wrappers

  const PdfMime: string := "application/pdf"
  const ImagePrefix: string := "image/"

  /** A browser `File` as the pages see it: its name and its MIME `type`
      ("" when the browser does not know it). */
  datatype UploadFile = UploadFile(name: string, mimeType: string)

  /** One entry of `metrics`: its status is "Normal", "Warning" or "Critical"
      when the analysis follows the prompt, but nothing enforces that. */
  datatype Metric = Metric(name: string, value: string, status: string)

  /** `{metrics, summary, recommendations}`. `recommendations` may be absent
      (None) or, like any JavaScript string, empty. */
  datatype Analysis = Analysis(metrics: seq<Metric>, summary: string, recommendations: Option<string>)

  /** JavaScript truthiness of an optional string: present and non-empty. */
  predicate Truthy(o: Option<string>)
  {
    o.Some? && o.value != ""
  }
}
