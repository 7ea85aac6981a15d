/** The analysis dashboard: the component state (`file`, `patientData`,
    `analysisResult`, `loading`, `dragActive`) and its handlers, and the pure
    builders behind the spreadsheet and PDF exports and the charts. jsPDF,
    XLSX and Chart.js are outside the model: an export is modelled by the rows
    or drawing calls it hands them. Clock readings are parameters. */
module Dashboard {
  import opened Wrappers
  import opened Strings
  import opened Report

  datatype PatientData = PatientData(name: string, age: string, gender: string)

  // ---------------------------------------------------------------------------
  // Upload acceptance and the drag highlight

  /** The test `handleDrop` and `handleFileChange` apply to a file's type. */
  predicate AcceptsType(mimeType: string)
  {
    mimeType == PdfMime || StartsWith(mimeType, ImagePrefix)
  }

  /** The file a drop or a selection installs: the first of the list, if it is
      accepted; later files are never looked at. */
  function Selected(files: seq<UploadFile>): (r: Option<UploadFile>)
    ensures r.Some? <==> |files| > 0 && AcceptsType(files[0].mimeType)
    ensures r.Some? ==> r.value == files[0]
  {
    if |files| > 0 && AcceptsType(files[0].mimeType) then Some(files[0]) else None
  }

  /** Whether the "only PDF or image files" alert is shown. */
  predicate Rejected(files: seq<UploadFile>)
  {
    |files| > 0 && !AcceptsType(files[0].mimeType)
  }

  /** The highlight after `handleDrag` sees an event of type `eventType`. */
  function DragActiveAfter(eventType: string, active: bool): (r: bool)
    ensures eventType == "dragenter" || eventType == "dragover" ==> r
    ensures eventType == "dragleave" ==> !r
    ensures eventType != "dragenter" && eventType != "dragover" && eventType != "dragleave" ==> r == active
  {
    if eventType == "dragenter" || eventType == "dragover" then true
    else if eventType == "dragleave" then false
    else active
  }

  // ---------------------------------------------------------------------------
  // The analysis request

  /** The guard of `handleAnalyze`: a file, a name and an age are needed. */
  predicate CanAnalyze(file: Option<UploadFile>, p: PatientData)
  {
    file.Some? && p.name != "" && p.age != ""
  }

  /** The multipart form posted to `/api/analyze`. */
  datatype AnalyzeRequest = AnalyzeRequest(file: UploadFile, name: string, age: string, gender: string)

  // ---------------------------------------------------------------------------
  // Export file names

  /** `new Date().toISOString().split('T')[0]`: the timestamp up to its first 'T'. */
  function DatePart(iso: string): (d: string)
    ensures StartsWith(iso, d) && 'T' !in d
    ensures |d| < |iso| ==> iso[|d|] == 'T'
  {
    if iso == [] || iso[0] == 'T' then ""
    else
      var d := DatePart(iso[1..]);
      assert iso[..|d| + 1] == [iso[0]] + iso[1..][..|d|];
      [iso[0]] + d
  }

  const ReportPrefix: string := "MediLens_Report_"

  /** `MediLens_Report_<name>_<YYYY-MM-DD>`, shared by both exports. */
  function ExportBaseName(name: string, iso: string): (b: string)
    ensures var n := |ReportPrefix| + |name|;
      && n < |b| && StartsWith(b, ReportPrefix)
      && b[|ReportPrefix|..n] == name && b[n] == '_'
      && StartsWith(iso, b[n + 1..]) && 'T' !in b[n + 1..]
      && (|b| - n - 1 < |iso| ==> iso[|b| - n - 1] == 'T')
  {
    ReportPrefix + name + "_" + DatePart(iso)
  }

  // ---------------------------------------------------------------------------
  // exportToExcel

  function MetricRow(m: Metric): seq<string>
  {
    [m.name, m.value, m.status]
  }

  /** `metrics.map(m => [m.name, m.value, m.status])`. */
  function MetricRows(ms: seq<Metric>): (rows: seq<seq<string>>)
    ensures |rows| == |ms|
    ensures forall i :: 0 <= i < |ms| ==> rows[i] == MetricRow(ms[i])
  {
    seq(|ms|, i requires 0 <= i < |ms| => MetricRow(ms[i]))
  }

  /** `analysisResult.recommendations || 'N/A'`. */
  function RecommendationsCell(recs: Option<string>): (cell: string)
    ensures Truthy(recs) ==> cell == recs.value
    ensures !Truthy(recs) ==> cell == "N/A"
  {
    if Truthy(recs) then recs.value else "N/A"
  }

  const MetricHeader: seq<string> := ["Metric", "Value", "Status"]

  /** The array of rows `exportToExcel` hands to `aoa_to_sheet`. */
  function ExcelRows(p: PatientData, date: string, a: Analysis): (rows: seq<seq<string>>)
    ensures |rows| == 16 + |a.metrics|
  {
    [ ["MediLens - Health Analysis Report"],
      [],
      ["Patient Information"],
      ["Name", p.name],
      ["Age", p.age],
      ["Gender", p.gender],
      ["Date", date],
      [],
      ["Health Metrics"],
      MetricHeader ]
    + MetricRows(a.metrics)
    + [ [],
        ["Summary"],
        [a.summary],
        [],
        ["Recommendations"],
        [RecommendationsCell(a.recommendations)] ]
  }

  /** Where everything sits in the sheet: the patient block, the header row at
      index 9, metric i at index 10 + i, then the Summary and Recommendations
      blocks, each after a blank row. */
  lemma ExcelLayout(p: PatientData, date: string, a: Analysis)
    ensures var rows, n := ExcelRows(p, date, a), |a.metrics|;
      && rows[0] == ["MediLens - Health Analysis Report"] && rows[1] == []
      && rows[2] == ["Patient Information"]
      && rows[3] == ["Name", p.name] && rows[4] == ["Age", p.age]
      && rows[5] == ["Gender", p.gender] && rows[6] == ["Date", date]
      && rows[7] == [] && rows[8] == ["Health Metrics"]
      && rows[9] == MetricHeader
      && (forall i :: 0 <= i < n ==> rows[10 + i] == [a.metrics[i].name, a.metrics[i].value, a.metrics[i].status])
      && rows[10 + n] == [] && rows[11 + n] == ["Summary"] && rows[12 + n] == [a.summary]
      && rows[13 + n] == [] && rows[14 + n] == ["Recommendations"]
      && rows[15 + n] == [RecommendationsCell(a.recommendations)]
  {
  }

  /** The spreadsheet only ever changes in the metric block: two analyses with
      the same summary and recommendations give sheets that differ by exactly
      the metric rows. */
  lemma ExcelRowsSplit(p: PatientData, date: string, a: Analysis)
    ensures var rows, n := ExcelRows(p, date, a), |a.metrics|;
      rows[10..10 + n] == MetricRows(a.metrics)
      && rows[..10] == ExcelRows(p, date, a.(metrics := []))[..10]
      && rows[10 + n..] == ExcelRows(p, date, a.(metrics := []))[10..]
  {
  }

  const SheetName: string := "Analysis Report"

  datatype Workbook = Workbook(sheetName: string, rows: seq<seq<string>>, fileName: string)

  /** `exportToExcel`, with the clock read as a locale date and an ISO timestamp. */
  function ExcelExport(p: PatientData, result: Option<Analysis>, date: string, iso: string): (w: Option<Workbook>)
    ensures w.None? <==> result.None?
    ensures w.Some? ==> w.value.sheetName == SheetName && |w.value.rows| == 16 + |result.value.metrics|
    ensures w.Some? ==> w.value.fileName == ExportBaseName(p.name, iso) + ".xlsx"
    ensures w.Some? ==> w.value.rows == ExcelRows(p, date, result.value)
  {
    match result
    case None => None
    case Some(a) => Some(Workbook(SheetName, ExcelRows(p, date, a), ExportBaseName(p.name, iso) + ".xlsx"))
  }

  // ---------------------------------------------------------------------------
  // exportToPDF

  /** The jsPDF calls `exportToPDF` makes, in order. */
  datatype PdfOp =
    | FontSize(size: nat)
    | Text(lines: seq<string>, x: int, y: int)
    | AutoTable(startY: int, head: seq<seq<string>>, body: seq<seq<string>>)
    | Save(fileName: string)

  /** `exportToPDF` for an analysis. `finalY` is where jsPDF reports the
      metrics table ended (`lastAutoTable.finalY`); `wrap` is
      `splitTextToSize(_, 180)`. */
  function PdfOps(p: PatientData, a: Analysis, date: string, iso: string,
                  finalY: int, wrap: string -> seq<string>): (ops: seq<PdfOp>)
    ensures |ops| == if Truthy(a.recommendations) then 12 else 10
    ensures ops[0] == FontSize(20) && ops[1] == Text(["MediLens - Health Analysis Report"], 14, 20)
    ensures ops[2] == FontSize(12)
    ensures ops[3] == Text(["Patient: " + p.name], 14, 35)
    ensures ops[4] == Text(["Age: " + p.age + " | Gender: " + p.gender], 14, 42)
    ensures ops[5] == Text(["Date: " + date], 14, 49)
    ensures ops[6] == AutoTable(60, [MetricHeader], MetricRows(a.metrics))
    ensures ops[|ops| - 1] == Save(ExportBaseName(p.name, iso) + ".pdf")
  {
    [ FontSize(20),
      Text(["MediLens - Health Analysis Report"], 14, 20),
      FontSize(12),
      Text(["Patient: " + p.name], 14, 35),
      Text(["Age: " + p.age + " | Gender: " + p.gender], 14, 42),
      Text(["Date: " + date], 14, 49),
      AutoTable(60, [MetricHeader], MetricRows(a.metrics)),
      Text(["Analysis Summary:"], 14, finalY + 15),
      Text(wrap(a.summary), 14, finalY + 22) ]
    + (if Truthy(a.recommendations) then
         [ Text(["Recommendations:"], 14, finalY + 45),
           Text(wrap(a.recommendations.value), 14, finalY + 52) ]
       else [])
    + [ Save(ExportBaseName(p.name, iso) + ".pdf") ]
  }

  /** `exportToPDF`: nothing at all without an analysis. */
  function PdfExport(p: PatientData, result: Option<Analysis>, date: string, iso: string,
                     finalY: int, wrap: string -> seq<string>): (ops: Option<seq<PdfOp>>)
    ensures ops.None? <==> result.None?
    ensures ops.Some? ==> ops.value == PdfOps(p, result.value, date, iso, finalY, wrap)
  {
    match result
    case None => None
    case Some(a) => Some(PdfOps(p, a, date, iso, finalY, wrap))
  }

  /** The PDF's patient lines carry the same name, age, gender and date as the
      spreadsheet's patient block. */
  lemma PdfPatientMatchesSheet(p: PatientData, a: Analysis, date: string, iso: string,
                               finalY: int, wrap: string -> seq<string>)
    ensures var ops, rows := PdfOps(p, a, date, iso, finalY, wrap), ExcelRows(p, date, a);
      && ops[3].lines == ["Patient: " + rows[3][1]]
      && ops[4].lines == ["Age: " + rows[4][1] + " | Gender: " + rows[5][1]]
      && ops[5].lines == ["Date: " + rows[6][1]]
  {
    ExcelLayout(p, date, a);
  }

  /** The PDF's metrics table holds exactly the spreadsheet's metric rows and
      the same header row. */
  lemma PdfTableMatchesSheet(p: PatientData, a: Analysis, date: string, iso: string,
                             finalY: int, wrap: string -> seq<string>)
    ensures var table, rows := PdfOps(p, a, date, iso, finalY, wrap)[6], ExcelRows(p, date, a);
      table.head == [rows[9]] && table.body == rows[10..10 + |a.metrics|]
  {
  }

  /** The summary heading and text sit 15 and 22 units below the table; the
      recommendations heading and text 45 and 52 below it, and only when the
      recommendations are truthy. */
  lemma PdfTextOffsets(p: PatientData, a: Analysis, date: string, iso: string,
                       finalY: int, wrap: string -> seq<string>)
    ensures var ops := PdfOps(p, a, date, iso, finalY, wrap);
      && ops[7] == Text(["Analysis Summary:"], 14, finalY + 15)
      && ops[8] == Text(wrap(a.summary), 14, finalY + 22)
      && (Truthy(a.recommendations) ==>
            ops[9] == Text(["Recommendations:"], 14, finalY + 45)
            && ops[10] == Text(wrap(a.recommendations.value), 14, finalY + 52))
  {
  }

  /** The "Recommendations:" heading is drawn iff the recommendations are truthy. */
  lemma PdfRecommendationsHeadingIff(p: PatientData, a: Analysis, date: string, iso: string,
                                     finalY: int, wrap: string -> seq<string>)
    ensures Text(["Recommendations:"], 14, finalY + 45) in PdfOps(p, a, date, iso, finalY, wrap)
            <==> Truthy(a.recommendations)
  {
    var ops := PdfOps(p, a, date, iso, finalY, wrap);
    var heading := Text(["Recommendations:"], 14, finalY + 45);
    if !Truthy(a.recommendations) {
      forall k | 0 <= k < |ops| ensures ops[k] != heading {
        if k == 1 || k == 3 || k == 4 || k == 5 || k == 7 {
          assert ops[k].lines[0][0] != "Recommendations:"[0];
        } else if k == 8 {
          assert ops[k].y == finalY + 22;
        }
      }
    } else {
      assert ops[9] == heading;
    }
  }

  // ---------------------------------------------------------------------------
  // getChartData

  /** `metrics.filter(m => m.status === status).length`. */
  function CountStatus(ms: seq<Metric>, status: string): (n: nat)
    ensures n <= |ms|
    ensures n == 0 <==> forall i :: 0 <= i < |ms| ==> ms[i].status != status
  {
    if ms == [] then 0
    else (if ms[0].status == status then 1 else 0) + CountStatus(ms[1..], status)
  }

  const RiskLabels: seq<string> := ["Normal", "At Risk", "Critical"]

  /** The parts of the chart data that do not depend on `parseFloat`: the bar
      labels and the doughnut's labels and counts. */
  datatype ChartData = ChartData(labels: seq<string>, riskLabels: seq<string>, riskCounts: seq<nat>)

  function GetChartData(result: Option<Analysis>): (c: Option<ChartData>)
    ensures c.None? <==> result.None?
    ensures c.Some? ==>
      && |c.value.labels| == |result.value.metrics|
      && (forall i :: 0 <= i < |c.value.labels| ==> c.value.labels[i] == result.value.metrics[i].name)
    ensures c.Some? ==> c.value.riskLabels == RiskLabels
    ensures c.Some? ==> c.value.riskCounts == [CountStatus(result.value.metrics, "Normal"),
                                               CountStatus(result.value.metrics, "Warning"),
                                               CountStatus(result.value.metrics, "Critical")]
  {
    match result
    case None => None
    case Some(a) =>
      Some(ChartData(
        seq(|a.metrics|, i requires 0 <= i < |a.metrics| => a.metrics[i].name),
        RiskLabels,
        [CountStatus(a.metrics, "Normal"), CountStatus(a.metrics, "Warning"), CountStatus(a.metrics, "Critical")]))
  }

  /** Each metric is counted at most once: the three counts add up to at most
      the number of metrics. */
  lemma {:induction false} StatusTallyBounded(ms: seq<Metric>)
    ensures CountStatus(ms, "Normal") + CountStatus(ms, "Warning") + CountStatus(ms, "Critical") <= |ms|
  {
    if ms != [] {
      StatusTallyBounded(ms[1..]);
    }
  }

  predicate KnownStatuses(ms: seq<Metric>)
  {
    forall i :: 0 <= i < |ms| ==> ms[i].status in RiskStatuses
  }

  const RiskStatuses: set<string> := {"Normal", "Warning", "Critical"}

  /** When every status is one of the three the prompt allows, the counts add
      up to exactly the number of metrics. */
  lemma {:induction false} StatusTallyExact(ms: seq<Metric>)
    requires KnownStatuses(ms)
    ensures CountStatus(ms, "Normal") + CountStatus(ms, "Warning") + CountStatus(ms, "Critical") == |ms|
  {
    if ms != [] {
      assert KnownStatuses(ms[1..]) by {
        forall i | 0 <= i < |ms| - 1 ensures ms[1..][i].status in RiskStatuses {
          assert ms[1..][i] == ms[i + 1];
        }
      }
      StatusTallyExact(ms[1..]);
    }
  }

  // ---------------------------------------------------------------------------
  // The component

  class DashboardState {
    var file: Option<UploadFile>
    var patientData: PatientData
    var analysisResult: Option<Analysis>
    var loading: bool
    var dragActive: bool

    /** The initial state of the `useState` hooks. */
    constructor ()
      ensures file == None && patientData == PatientData("", "", "male")
      ensures analysisResult == None && !loading && !dragActive
    {
      file := None;
      patientData := PatientData("", "", "male");
      analysisResult := None;
      loading := false;
      dragActive := false;
    }

    /** `handleDrag`: enter and over highlight, leave clears, other events
        change nothing. */
    method HandleDrag(eventType: string)
      modifies this`dragActive
      ensures dragActive == DragActiveAfter(eventType, old(dragActive))
    {
      if eventType == "dragenter" || eventType == "dragover" {
        dragActive := true;
      } else if eventType == "dragleave" {
        dragActive := false;
      }
    }

    /** `handleDrop`: clears the highlight, then installs the first dropped
        file if it is accepted; `alerted` says whether it was refused. */
    method HandleDrop(files: seq<UploadFile>) returns (alerted: bool)
      modifies this`dragActive, this`file
      ensures !dragActive
      ensures file == if Selected(files).Some? then Selected(files) else old(file)
      ensures alerted <==> Rejected(files)
    {
      dragActive := false;
      var dropped := Selected(files);
      if dropped.Some? {
        file := dropped;
      }
      alerted := Rejected(files);
    }

    /** `handleFileChange`: the same acceptance for the picker's first file. */
    method HandleFileChange(files: seq<UploadFile>) returns (alerted: bool)
      modifies this`file
      ensures file == if Selected(files).Some? then Selected(files) else old(file)
      ensures alerted <==> Rejected(files)
    {
      var selected := Selected(files);
      if selected.Some? {
        file := selected;
      }
      alerted := Rejected(files);
    }

    /** The name input's `onChange`: only the name changes. */
    method SetName(name: string)
      modifies this`patientData
      ensures patientData == old(patientData).(name := name)
    {
      patientData := patientData.(name := name);
    }

    /** The age input's `onChange`: only the age changes. */
    method SetAge(age: string)
      modifies this`patientData
      ensures patientData == old(patientData).(age := age)
    {
      patientData := patientData.(age := age);
    }

    /** The gender select's `onChange`: only the gender changes. */
    method SetGender(gender: string)
      modifies this`patientData
      ensures patientData == old(patientData).(gender := gender)
    {
      patientData := patientData.(gender := gender);
    }

    /** `handleAnalyze` up to the `await`: without a file, a name or an age it
        only alerts; otherwise it raises `loading` and posts the form. */
    method BeginAnalyze() returns (request: Option<AnalyzeRequest>)
      modifies this`loading
      ensures request.None? <==> !CanAnalyze(file, patientData)
      ensures request.None? ==> loading == old(loading)
      ensures request.Some? ==>
        && loading
        && request.value == AnalyzeRequest(file.value, patientData.name, patientData.age, patientData.gender)
    {
      if file.None? || patientData.name == "" || patientData.age == "" {
        return None;
      }
      loading := true;
      request := Some(AnalyzeRequest(file.value, patientData.name, patientData.age, patientData.gender));
    }

    /** `handleAnalyze` after the `await`: a response replaces the result, a
        failure only alerts; `loading` drops either way. */
    method FinishAnalyze(outcome: Result<Analysis>) returns (alerted: bool)
      modifies this`loading, this`analysisResult
      ensures !loading
      ensures analysisResult == if outcome.Ok? then Some(outcome.value) else old(analysisResult)
      ensures alerted <==> outcome.Err?
    {
      alerted := false;
      match outcome {
        case Ok(data) => analysisResult := Some(data);
        case Err(_) => alerted := true;
      }
      loading := false;
    }

    /** The whole of `handleAnalyze`, with `server` standing for the POST. */
    method HandleAnalyze(server: AnalyzeRequest -> Result<Analysis>) returns (request: Option<AnalyzeRequest>)
      modifies this`loading, this`analysisResult
      ensures request.None? <==> !CanAnalyze(file, patientData)
      ensures request.None? ==> loading == old(loading) && analysisResult == old(analysisResult)
      ensures request.Some? ==>
        && request.value == AnalyzeRequest(file.value, patientData.name, patientData.age, patientData.gender)
        && !loading
        && analysisResult == (if server(request.value).Ok? then Some(server(request.value).value) else old(analysisResult))
    {
      request := BeginAnalyze();
      if request.Some? {
        var _ := FinishAnalyze(server(request.value));
      }
    }

    /** `exportToExcel` on the current state. */
    method ExportToExcel(date: string, iso: string) returns (w: Option<Workbook>)
      ensures w == ExcelExport(patientData, analysisResult, date, iso)
      ensures w.None? <==> analysisResult.None?
    {
      w := ExcelExport(patientData, analysisResult, date, iso);
    }

    /** `exportToPDF` on the current state. */
    method ExportToPdf(date: string, iso: string, finalY: int, wrap: string -> seq<string>)
      returns (ops: Option<seq<PdfOp>>)
      ensures ops == PdfExport(patientData, analysisResult, date, iso, finalY, wrap)
      ensures ops.None? <==> analysisResult.None?
    {
      ops := PdfExport(patientData, analysisResult, date, iso, finalY, wrap);
    }
  }
}
