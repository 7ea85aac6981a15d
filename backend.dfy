/** The FastAPI service: the `/api/analyze` endpoint, PDF text extraction,
    image analysis, the health analysis with its JSON-span extraction and the
    mock analysis it falls back to. The PDF reader, the Gemini model and
    `json.loads` are outside the model; their outcomes are parameters. */
module Backend {
  import opened Wrappers
  import opened Strings
  import opened Report

  /** Which extractor `analyze_report` runs for an upload's content type. */
  datatype FileKind = PdfFile | ImageFile | OtherFile

  function Classify(contentType: string): (k: FileKind)
    ensures k == PdfFile <==> contentType == PdfMime
    ensures k == ImageFile <==> StartsWith(contentType, ImagePrefix)
    ensures k == OtherFile <==> contentType != PdfMime && !StartsWith(contentType, ImagePrefix)
  {
    PdfIsNotImage();
    if contentType == PdfMime then PdfFile
    else if StartsWith(contentType, ImagePrefix) then ImageFile
    else OtherFile
  }

  /** The order of the two tests does not matter: the PDF type is not an image type. */
  lemma PdfIsNotImage()
    ensures !StartsWith(PdfMime, ImagePrefix)
  {
    assert PdfMime[0] != ImagePrefix[0];
  }

  // ---------------------------------------------------------------------------
  // extract_text_from_pdf

  const PdfErrorPrefix: string := "Error extracting PDF: "

  /** What `PyPDF2.PdfReader` yields for the uploaded bytes: the pages, each the
      text `extract_text()` returns or the message of what it raised, or the
      message of the exception opening the reader raised. */
  type PdfPages = Result<seq<Result<string>>>

  predicate AllRead(pages: seq<Result<string>>)
  {
    forall i :: 0 <= i < |pages| ==> pages[i].Ok?
  }

  function PageTexts(pages: seq<Result<string>>): (texts: seq<string>)
    requires AllRead(pages)
    ensures |texts| == |pages|
    ensures forall i :: 0 <= i < |pages| ==> texts[i] == pages[i].value
  {
    seq(|pages|, i requires 0 <= i < |pages| => pages[i].value)
  }

  /** The first page whose extraction raised. */
  function FirstFailed(pages: seq<Result<string>>): (k: nat)
    requires !AllRead(pages)
    ensures k < |pages| && pages[k].Err?
    ensures AllRead(pages[..k])
  {
    if pages[0].Err? then 0
    else
      var k := FirstFailed(pages[1..]);
      assert pages[..k + 1] == [pages[0]] + pages[1..][..k];
      k + 1
  }

  /** The text `extract_text_from_pdf` returns: all page texts joined in page
      order, or the error prefix and the message of the first failure. */
  function PdfText(reader: PdfPages): (r: string)
    ensures reader.Err? ==> r == PdfErrorPrefix + reader.error
    ensures reader.Ok? && AllRead(reader.value) ==> r == Concat(PageTexts(reader.value))
    ensures reader.Ok? && !AllRead(reader.value) ==>
      exists k :: 0 <= k < |reader.value| && reader.value[k].Err? && AllRead(reader.value[..k])
        && r == PdfErrorPrefix + reader.value[k].error
  {
    match reader
    case Err(m) => PdfErrorPrefix + m
    case Ok(pages) =>
      if AllRead(pages) then Concat(PageTexts(pages))
      else PdfErrorPrefix + pages[FirstFailed(pages)].error
  }

  /** `extract_text_from_pdf`: `text += page.extract_text()` over the pages,
      any exception turned into an error string. */
  method ExtractTextFromPdf(reader: PdfPages) returns (text: string)
    ensures text == PdfText(reader)
    ensures reader.Ok? && AllRead(reader.value) ==> text == Concat(PageTexts(reader.value))
    ensures !(reader.Ok? && AllRead(reader.value)) ==> StartsWith(text, PdfErrorPrefix)
  {
    if reader.Err? {
      return PdfErrorPrefix + reader.error;
    }
    var pages := reader.value;
    text := "";
    var i := 0;
    while i < |pages|
      invariant 0 <= i <= |pages|
      invariant AllRead(pages[..i])
      invariant text == Concat(PageTexts(pages[..i]))
    {
      match pages[i]
      case Err(m) =>
        assert !AllRead(pages);
        assert FirstFailed(pages) == i;
        return PdfErrorPrefix + m;
      case Ok(t) =>
        assert PageTexts(pages[..i + 1]) == PageTexts(pages[..i]) + [t];
        ConcatSnoc(PageTexts(pages[..i]), t);
        text := text + t;
        i := i + 1;
    }
    assert pages[..i] == pages;
  }

  // ---------------------------------------------------------------------------
  // analyze_image_with_gemini

  const MockImageText: string := "Mock image analysis: Lab report detected"
  const ImageErrorPrefix: string := "Error analyzing image: "

  /** The text `analyze_image_with_gemini` returns, given whether an API key is
      configured and the outcome of opening the image and asking the model. */
  function ImageText(hasKey: bool, vision: Result<string>): (text: string)
    ensures !hasKey ==> text == MockImageText
    ensures hasKey && vision.Ok? ==> text == vision.value
    ensures hasKey && vision.Err? ==> StartsWith(text, ImageErrorPrefix)
  {
    if !hasKey then MockImageText
    else match vision
      case Ok(t) => t
      case Err(m) => ImageErrorPrefix + m
  }

  // ---------------------------------------------------------------------------
  // analyze_health_data: the span `re.search(r'\{.*\}', text, re.DOTALL)` finds

  /** `s[i..j]` is a match of `\{.*\}` with DOTALL: it opens with `{`, closes
      with `}`, and anything (newlines included) lies between. */
  ghost predicate IsMatch(s: string, i: int, j: int)
  {
    0 <= i && i + 2 <= j <= |s| && s[i] == '{' && s[j - 1] == '}'
  }

  /** The match `re.search` reports: the leftmost start, and at that start the
      longest end (the `.*` is greedy). */
  ghost predicate IsLeftmostGreedy(s: string, i: int, j: int)
  {
    && IsMatch(s, i, j)
    && (forall i', j' :: IsMatch(s, i', j') ==> i <= i')
    && (forall j' :: IsMatch(s, i, j') ==> j' <= j)
  }

  /** Index of the first occurrence of `c` in `s`. */
  function IndexOf(s: string, c: char): (r: Option<nat>)
    ensures r.None? <==> c !in s
    ensures r.Some? ==> r.value < |s| && s[r.value] == c && c !in s[..r.value]
  {
    if s == [] then None
    else if s[0] == c then Some(0)
    else match IndexOf(s[1..], c)
      case None => None
      case Some(k) =>
        assert s[..k + 1] == [s[0]] + s[1..][..k];
        Some(k + 1)
  }

  /** Index of the last occurrence of `c` in `s`. */
  function LastIndexOf(s: string, c: char): (r: Option<nat>)
    ensures r.None? <==> c !in s
    ensures r.Some? ==> r.value < |s| && s[r.value] == c && c !in s[r.value + 1..]
  {
    if s == [] then None
    else if s[|s| - 1] == c then Some(|s| - 1)
    else
      var r := LastIndexOf(s[..|s| - 1], c);
      assert r.Some? ==> s[r.value + 1..] == s[..|s| - 1][r.value + 1..] + [s[|s| - 1]];
      assert r.None? ==> s == s[..|s| - 1] + [s[|s| - 1]];
      r
  }

  /** Bounds of the span: from the first `{` through the last `}`, when that
      `}` comes after it. They are exactly the match `re.search` reports, and
      there is none exactly when no match exists. */
  function SpanBounds(s: string): (b: Option<(nat, nat)>)
    ensures b.Some? ==> IsLeftmostGreedy(s, b.value.0, b.value.1)
    ensures b.None? ==> forall i, j :: !IsMatch(s, i, j)
  {
    match (IndexOf(s, '{'), LastIndexOf(s, '}'))
    case (Some(i), Some(k)) =>
      if i < k then
        assert forall i', j' :: IsMatch(s, i', j') ==> s[i'] in s[..i] || i <= i';
        assert forall j' :: IsMatch(s, i, j') ==> j' - 1 <= k || s[j' - 1] in s[k + 1..];
        Some((i, k + 1))
      else
        None
    case (_, _) => None
  }

  /** `json_match.group()`: the text of the match, if there is one. */
  function JsonSpan(s: string): (r: Option<string>)
    ensures r.Some? ==> |r.value| >= 2 && r.value[0] == '{' && r.value[|r.value| - 1] == '}'
    ensures r.None? <==> forall i, j :: !IsMatch(s, i, j)
  {
    match SpanBounds(s)
    case None => None
    case Some((i, j)) => Some(s[i..j])
  }

  /** The span is the one `re.search` would report: any leftmost-greedy match
      is the one `JsonSpan` returns. */
  lemma JsonSpanIsLeftmostGreedy(s: string, i: int, j: int)
    requires IsLeftmostGreedy(s, i, j)
    ensures JsonSpan(s) == Some(s[i..j])
  {
  }

  /** A span exists iff some `}` occurs after the first `{`. */
  lemma JsonSpanExistsIff(s: string)
    ensures JsonSpan(s).Some? <==> '{' in s && '}' in s[IndexOf(s, '{').value + 1..]
  {
  }

  // ---------------------------------------------------------------------------
  // generate_mock_analysis and analyze_health_data

  const MockSummaryLead: string := "Based on the analysis of "
  const MockRecommendations: string :=
    "Continue maintaining a balanced diet rich in omega-3 fatty acids and fiber. "
    + "Engage in at least 150 minutes of moderate aerobic activity per week. "
    + "Monitor blood pressure regularly at home. "
    + "Stay hydrated and limit sodium intake to less than 2,300mg daily. "
    + "Schedule routine cardiovascular checkups annually. "
    + "Consider stress management techniques like meditation or yoga."

  function MockSummary(name: string, age: string, gender: string): string
  {
    MockSummaryLead + name + "'s lab reports (Age: " + age + ", Gender: " + gender
    + MockSummaryTail
  }

  const MockSummaryTail: string :=
    "), the cardiovascular health indicators are within normal ranges. "
    + "Blood pressure readings show healthy systolic and diastolic values. "
    + "Cholesterol levels are optimal, with good HDL/LDL ratio. "
    + "Heart rate is stable and within expected parameters. "
    + "Blood sugar levels indicate no signs of diabetes risk. "
    + "Overall cardiovascular health appears good with no immediate concerns."

  const MockMetricNames: seq<string> :=
    ["Blood Pressure", "Cholesterol", "Heart Rate", "Blood Sugar", "Triglycerides"]

  /** `generate_mock_analysis`: five fixed metrics, all Normal, a summary naming
      the patient, age and gender, and fixed recommendations. */
  function MockAnalysis(name: string, age: string, gender: string): (a: Analysis)
    ensures |a.metrics| == 5
    ensures forall i :: 0 <= i < 5 ==> a.metrics[i].status == "Normal" && a.metrics[i].name == MockMetricNames[i]
    ensures StartsWith(a.summary, MockSummaryLead + name)
    ensures a.recommendations == Some(MockRecommendations) && Truthy(a.recommendations)
  {
    Analysis(
      [ Metric("Blood Pressure", "118/78", "Normal"),
        Metric("Cholesterol", "185 mg/dL", "Normal"),
        Metric("Heart Rate", "68 bpm", "Normal"),
        Metric("Blood Sugar", "92 mg/dL", "Normal"),
        Metric("Triglycerides", "145 mg/dL", "Normal") ],
      MockSummary(name, age, gender),
      Some(MockRecommendations))
  }

  /** The summary carries name, age and gender verbatim, at known places. */
  lemma MockSummaryEmbedsPatient(name: string, age: string, gender: string)
    ensures var s, n := MockAnalysis(name, age, gender).summary, |MockSummaryLead|;
      && s[n..n + |name|] == name
      && s[n + |name| + 21..n + |name| + 21 + |age|] == age
      && s[n + |name| + 21 + |age| + 10..n + |name| + 21 + |age| + 10 + |gender|] == gender
  {
  }

  /** What `analyze_health_data` returns: the object `json.loads` made of a
      span (Parsed), or the mock analysis. */
  datatype HealthResult = Parsed(json: string) | Mock(analysis: Analysis)

  /** The model's reply to the prompt built from the extracted text, name, age
      and gender, or what `generate_content` raised. */
  type Gemini = (string, string, string, string) -> Result<string>

  /** `analyze_health_data`. `loads(span)` says whether `json.loads` accepts the
      span; a span it rejects raises, and the handler falls back to the mock. */
  function AnalyzeHealthData(text: string, name: string, age: string, gender: string,
                             hasKey: bool, gemini: Gemini, loads: string -> bool): (r: HealthResult)
    ensures r.Mock? ==> r.analysis == MockAnalysis(name, age, gender)
    ensures r.Parsed? <==>
      hasKey && gemini(text, name, age, gender).Ok?
      && JsonSpan(gemini(text, name, age, gender).value).Some?
      && loads(JsonSpan(gemini(text, name, age, gender).value).value)
    ensures r.Parsed? ==> r.json == JsonSpan(gemini(text, name, age, gender).value).value
  {
    if !hasKey then Mock(MockAnalysis(name, age, gender))
    else match gemini(text, name, age, gender)
      case Err(_) => Mock(MockAnalysis(name, age, gender))
      case Ok(reply) =>
        match JsonSpan(reply)
        case None => Mock(MockAnalysis(name, age, gender))
        case Some(span) =>
          if loads(span) then Parsed(span) else Mock(MockAnalysis(name, age, gender))
  }

  // ---------------------------------------------------------------------------
  // analyze_report

  /** The multipart upload: its content type (None when the client sent none)
      and, when `await file.read()` raised, its message. */
  datatype Upload = Upload(contentType: Option<string>, readError: Option<string>)

  /** Everything outside the service the endpoint depends on. */
  datatype Environment = Environment(
    hasKey: bool,           // GEMINI_API_KEY is set
    pdf: PdfPages,          // PyPDF2 on the uploaded bytes
    vision: Result<string>, // PIL plus the vision model on the uploaded bytes
    gemini: Gemini,
    loads: string -> bool,
    // What `JSONResponse` raises when it serialises the object `json.loads`
    // made of a span (it refuses NaN and Infinity), or None when it succeeds.
    render: string -> Option<string>)

  /** What Python raises for `None.startswith(...)`. */
  const NoneStartswithError: string := "'NoneType' object has no attribute 'startswith'"

  datatype Body = Result(result: HealthResult) | Error(error: string)
  datatype Response = Response(status: nat, body: Body)

  /** The text extracted for a content type, with the PDF text given. */
  function Extracted(contentType: string, pdfText: string, env: Environment): (text: string)
    ensures Classify(contentType) == PdfFile ==> text == pdfText
    ensures Classify(contentType) == ImageFile ==> text == ImageText(env.hasKey, env.vision)
    ensures Classify(contentType) == OtherFile ==> text == ""
  {
    match Classify(contentType)
    case PdfFile => pdfText
    case ImageFile => ImageText(env.hasKey, env.vision)
    case OtherFile => ""
  }

  /** The analysis `analyze_report` obtains for a readable upload with a
      content type: the text extracted by type, analysed. */
  function Analysed(upload: Upload, name: string, age: string, gender: string, env: Environment): HealthResult
    requires upload.contentType.Some?
  {
    var text := Extracted(upload.contentType.value, PdfText(env.pdf), env);
    AnalyzeHealthData(text, name, age, gender, env.hasKey, env.gemini, env.loads)
  }

  /** Building the `JSONResponse` raises: only a parsed object can hold the
      NaN or Infinity `json.loads` accepts and serialisation refuses; the mock
      holds strings only. */
  predicate Unrenderable(result: HealthResult, render: string -> Option<string>)
  {
    result.Parsed? && render(result.json).Some?
  }

  /** The response `analyze_report` sends. */
  function ReportResponse(upload: Upload, name: string, age: string, gender: string, env: Environment): (resp: Response)
    ensures resp.status == 500 <==>
      || upload.readError.Some?
      || upload.contentType.None?
      || Unrenderable(Analysed(upload, name, age, gender, env), env.render)
    ensures resp.status == 500 ==> resp.body.Error?
    ensures resp.status != 500 ==>
      && resp.status == 200
      && resp.body == Result(Analysed(upload, name, age, gender, env))
  {
    if upload.readError.Some? then Response(500, Error(upload.readError.value))
    else if upload.contentType.None? then Response(500, Error(NoneStartswithError))
    else
      var result := Analysed(upload, name, age, gender, env);
      if Unrenderable(result, env.render) then Response(500, Error(env.render(result.json).value))
      else Response(200, Result(result))
  }

  /** `analyze_report`: read the upload, extract its text by content type,
      analyse it, and answer 200 with the analysis or, for any exception,
      500 with `{"error": ...}`. */
  method AnalyzeReport(upload: Upload, name: string, age: string, gender: string, env: Environment)
    returns (resp: Response)
    ensures resp == ReportResponse(upload, name, age, gender, env)
    ensures resp.status == 500 <==>
      || upload.readError.Some?
      || upload.contentType.None?
      || Unrenderable(Analysed(upload, name, age, gender, env), env.render)
    ensures resp.status == 500 ==> resp.body.Error?
    ensures resp.status != 500 ==>
      && resp.status == 200
      && resp.body == Result(Analysed(upload, name, age, gender, env))
  {
    if upload.readError.Some? {
      return Response(500, Error(upload.readError.value));
    }
    if upload.contentType.None? {
      // `None == "application/pdf"` is False; `None.startswith` raises.
      return Response(500, Error(NoneStartswithError));
    }
    var extractedText := "";
    match Classify(upload.contentType.value) {
      case PdfFile => extractedText := ExtractTextFromPdf(env.pdf);
      case ImageFile => extractedText := ImageText(env.hasKey, env.vision);
      case OtherFile =>
    }
    var result := AnalyzeHealthData(extractedText, name, age, gender, env.hasKey, env.gemini, env.loads);
    if Unrenderable(result, env.render) {
      return Response(500, Error(env.render(result.json).value));
    }
    resp := Response(200, Result(result));
  }

  /** Without an API key every well-formed upload is answered with exactly the
      mock analysis, whatever its content. */
  lemma NoKeyAnswersMock(upload: Upload, name: string, age: string, gender: string, env: Environment)
    requires !env.hasKey && upload.readError.None? && upload.contentType.Some?
    ensures ReportResponse(upload, name, age, gender, env) == Response(200, Result(Mock(MockAnalysis(name, age, gender))))
  {
  }
}
