# MediLens core, modelled in Dafny

MediLens is a browser dashboard backed by a small FastAPI service. A clinician
logs in with a fixed demo account, enters a patient's name, age and gender,
drops a PDF or image lab report on the dashboard and asks for an analysis. The
service extracts the report's text (PDF pages joined in order, or an image
described by the vision model), asks the Gemini model for a JSON analysis,
cuts the JSON object out of the reply and falls back to a fixed mock analysis
when anything goes wrong. The dashboard charts the metrics and exports the
analysis as a spreadsheet or a PDF. A doctor's workspace panel collects
symptoms and medicines typed into two buffers.

The model covers:

- `Report` (report.dfy): the shapes both sides exchange (upload file,
  metric, analysis) and the two MIME constants.
- `Backend` (backend.dfy, `backend/main.py`): content-type dispatch, PDF text
  extraction (a loop, proved against its specification), image text, the
  greedy `\{.*\}` span search proved to be the leftmost-longest regex match,
  the mock analysis, the health analysis with every fallback, and the endpoint
  with its 500 error shape.
- `Dashboard` (dashboard.dfy, `frontend/src/components/Dashboard.jsx`): the
  component state as a class with one method per handler, file acceptance, the
  drag highlight, the analysis guard and loading flag, the spreadsheet rows,
  the jsPDF calls of the PDF export, the export file names and the chart tally.
- `Login` (login.dfy, `frontend/src/components/Login.jsx`): the credential
  check and the `error` field.
- `Workspace` (workspace.dfy, `frontend/src/components/DoctorWorkspace.jsx`):
  the trimmed-add buffers, the Enter key and the lab-report picker.
- `Strings` (strings.dfy): `startsWith`, joining strings, and JavaScript's
  `trim` with its exact white-space set. `Wrappers` (wrappers.dfy): Option and
  Result.
- `Session` (session.dfy): facts that connect the browser to the service.

Everything outside the code is a parameter: the PDF reader's pages, the vision
model's reply, the Gemini reply (a function of the extracted text, name, age
and gender the prompt embeds), whether `json.loads` accepts a span, jsPDF's
`splitTextToSize` and `lastAutoTable.finalY`, the network response of the POST,
and the clock (a locale date and an ISO timestamp).

## Model

| member | source | states |
|---|---|---|
| `Strings.ConcatSnoc` | backend/main.py:71-72 | appending one more page text to the list appends it to the joined text, the invariant of `text += page.extract_text()` |
| `Strings.TrimStart` | frontend/src/components/DoctorWorkspace.jsx:19 | the leading part of `trim`: a suffix of the input, everything dropped is white space, and it does not begin with white space |
| `Strings.TrimEnd` | frontend/src/components/DoctorWorkspace.jsx:19 | the trailing part of `trim`: a prefix of the input, everything dropped is white space, and it does not end with white space |
| `Strings.Trim` | frontend/src/components/DoctorWorkspace.jsx:19-20 | `trim()` never lengthens its input and its result neither begins nor ends with JavaScript white space |
| `Strings.TrimEmptyIff` | frontend/src/components/DoctorWorkspace.jsx:19 | `input.trim()` is empty (falsy) exactly when the input is all white space |
| `Strings.TrimIsInfix` | frontend/src/components/DoctorWorkspace.jsx:20 | the trimmed text is a contiguous piece of the input with only white space cut from either end |
| `Strings.TrimIdempotent` | frontend/src/components/DoctorWorkspace.jsx:20 | trimming twice gives what trimming once gives |
| `Backend.PdfIsNotImage` | backend/main.py:48-52 | the PDF content type does not start with `image/`, so the PDF and image branches never both apply |
| `Backend.Classify` | backend/main.py:48-52 | `application/pdf` goes to the PDF extractor, a type starting `image/` to the image analysis, every other type to neither (the PDF type is not an image type, so the order of the tests is immaterial) |
| `Backend.FirstFailed` | backend/main.py:71-75 | the page whose `extract_text` raised first: every earlier page was read |
| `Backend.PdfText` | backend/main.py:65-75 | what `extract_text_from_pdf` returns: the reader's error behind `Error extracting PDF: `; the joined page texts when every page is read; otherwise the prefix and the message of a failing page all of whose predecessors were read |
| `Backend.PageTexts` | backend/main.py:71-72 | one text per page, in page order |
| `Backend.ExtractTextFromPdf` | backend/main.py:65-75 | the text is the page texts joined in page order when the reader and every page succeed, and otherwise starts with `Error extracting PDF: ` |
| `Backend.ImageText` | backend/main.py:77-92 | without an API key the fixed mock text; with one the model's reply, or text starting `Error analyzing image: ` when opening or asking fails |
| `Backend.IndexOf` | backend/main.py:135 | the first `{` of the reply, and none exactly when the reply has no `{` |
| `Backend.LastIndexOf` | backend/main.py:135 | the last `}` of the reply, and none exactly when the reply has no `}` |
| `Backend.SpanBounds` | backend/main.py:135 | the bounds found are a leftmost, then longest, match of `\{.*\}` under DOTALL, and when none are found no match exists |
| `Backend.JsonSpan` | backend/main.py:135-137 | a span exists exactly when the regex matches, and it starts with `{` and ends with `}` |
| `Backend.JsonSpanIsLeftmostGreedy` | backend/main.py:135 | whatever match `re.search` reports (leftmost start, greedy end) is the span returned |
| `Backend.JsonSpanExistsIff` | backend/main.py:135-141 | a span exists exactly when some `}` follows the first `{`; otherwise the mock is used |
| `Backend.MockAnalysis` | backend/main.py:147-159 | exactly five metrics in the fixed order, all `Normal`, a summary that opens with `Based on the analysis of ` followed by the patient's name, and the fixed (non-empty) recommendations |
| `Backend.MockSummaryEmbedsPatient` | backend/main.py:157 | name, age and gender appear verbatim at fixed places in the mock summary |
| `Backend.AnalyzeHealthData` | backend/main.py:94-145 | the result is the parsed span exactly when a key is set, the model answered, a span exists and `json.loads` accepts it; in every other case it is the mock analysis for the same name, age and gender |
| `Backend.Extracted` | backend/main.py:48-52 | the extracted text is the PDF text, the image text, or the empty string, by content type |
| `Backend.Analysed` | backend/main.py:48-55 | the body of the `try`: the text extracted by content type, then analysed (no contract of its own; `Backend.ReportResponse` and `Backend.AnalyzeReport` state the 200 body as this value) |
| `Backend.Unrenderable` | backend/main.py:57 | `JSONResponse(content=...)` raises exactly for a parsed object the renderer refuses (NaN or Infinity); the mock never does (no contract of its own; `Backend.ReportResponse` states it as one of the three 500 cases) |
| `Backend.ReportResponse` | backend/main.py:42-63 | the response of `analyze_report`: 500 with only `error` exactly on a read failure, a missing content type or an unserialisable parsed object; otherwise 200 with the analysis |
| `Backend.AnalyzeReport` | backend/main.py:35-63 | status 500 exactly when reading the upload fails, it has no content type (`None.startswith` raises), or the `JSONResponse` of a parsed object cannot be serialised (NaN or Infinity), and then the body is only `error`; otherwise 200 with the analysis of the dispatched text |
| `Backend.NoKeyAnswersMock` | backend/main.py:98-99 | without an API key every well-formed upload is answered with exactly the mock analysis for (name, age, gender) |
| `Dashboard.Selected` | frontend/src/components/Dashboard.jsx:38-44 | a file is installed iff the first file's type is exactly `application/pdf` or starts with `image/`, and it is that first file |
| `Dashboard.Rejected` | frontend/src/components/Dashboard.jsx:42-54 | the alert condition: there is a first file and its type is neither `application/pdf` nor starts with `image/` (no contract of its own; `Dashboard.DashboardState.HandleDrop` and `HandleFileChange` state the alert as this value) |
| `Dashboard.DragActiveAfter` | frontend/src/components/Dashboard.jsx:26-30 | `dragenter` and `dragover` highlight, `dragleave` clears, any other event keeps the highlight as it was |
| `Dashboard.AcceptsType` | frontend/src/components/Dashboard.jsx:40-51 | a type is accepted exactly when it is `application/pdf` or starts with `image/` (predicate; its partner is `Session.AcceptedIffExtracted`) |
| `Dashboard.CanAnalyze` | frontend/src/components/Dashboard.jsx:60 | the guard holds exactly when a file is chosen and the name and age are non-empty; the gender is not checked (predicate; used by `BeginAnalyze` and `HandleAnalyze`) |
| `Dashboard.DatePart` | frontend/src/components/Dashboard.jsx:114 | `toISOString().split('T')[0]`: the longest prefix of the timestamp without a `T` |
| `Dashboard.ExportBaseName` | frontend/src/components/Dashboard.jsx:114-143 | `MediLens_Report_`, then the patient name verbatim, `_`, and the timestamp up to (not including) its first `T` |
| `Dashboard.MetricRows` | frontend/src/components/Dashboard.jsx:131 | one `[name, value, status]` row per metric, in metric order |
| `Dashboard.RecommendationsCell` | frontend/src/components/Dashboard.jsx:137 | the cell is the recommendations text when it is present and non-empty, and `N/A` otherwise |
| `Dashboard.ExcelRows` | frontend/src/components/Dashboard.jsx:120-138 | the sheet has exactly 16 rows more than there are metrics |
| `Dashboard.ExcelLayout` | frontend/src/components/Dashboard.jsx:120-138 | the title row, a blank row and `Patient Information` first, then Name, Age, Gender and Date, a blank row and `Health Metrics`, the Metric/Value/Status header at row 9, metric i at row 10 + i, then Summary and Recommendations blocks each after a blank row, the last cell `N/A` when recommendations are falsy |
| `Dashboard.ExcelRowsSplit` | frontend/src/components/Dashboard.jsx:129-131 | the metric rows are the only part of the sheet that depends on the metrics |
| `Dashboard.ExcelExport` | frontend/src/components/Dashboard.jsx:117-143 | no workbook without an analysis; otherwise one sheet named `Analysis Report` holding the report rows, saved as `MediLens_Report_<name>_<date>.xlsx` |
| `Dashboard.PdfOps` | frontend/src/components/Dashboard.jsx:88-114 | 12 drawing calls with truthy recommendations and 10 without; first the title at size 20, then at size 12 `Patient: <name>` at y 35, the `Age:` and `Gender:` line at y 42 and `Date: <date>` at y 49; the table at y 60 holds the metric rows; the last call saves `MediLens_Report_<name>_<date>.pdf`, the same base name the spreadsheet gets |
| `Dashboard.PdfExport` | frontend/src/components/Dashboard.jsx:85-114 | the PDF export does nothing without an analysis, and otherwise makes the report's drawing calls |
| `Dashboard.PdfPatientMatchesSheet` | frontend/src/components/Dashboard.jsx:93-96 | the PDF's patient, age/gender and date lines carry the same values as the spreadsheet's Name, Age, Gender and Date rows |
| `Dashboard.PdfTableMatchesSheet` | frontend/src/components/Dashboard.jsx:98-102 | the PDF table's header and body equal the spreadsheet's header row and metric rows |
| `Dashboard.PdfTextOffsets` | frontend/src/components/Dashboard.jsx:104-111 | summary heading and text at +15 and +22 below the table end, recommendations heading and text at +45 and +52 |
| `Dashboard.PdfRecommendationsHeadingIff` | frontend/src/components/Dashboard.jsx:108-112 | the Recommendations heading is drawn iff the recommendations are truthy |
| `Dashboard.CountStatus` | frontend/src/components/Dashboard.jsx:177-179 | a status count is at most the number of metrics, and zero iff no metric has that exact status |
| `Dashboard.GetChartData` | frontend/src/components/Dashboard.jsx:147-185 | no chart data without an analysis; bar labels are the metric names in order; the doughnut's labels are Normal, At Risk, Critical and its data the counts of exact `Normal`, `Warning` and `Critical` statuses |
| `Dashboard.StatusTallyBounded` | frontend/src/components/Dashboard.jsx:176-180 | Normal + Warning + Critical counts add up to at most the number of metrics |
| `Dashboard.StatusTallyExact` | frontend/src/components/Dashboard.jsx:177-179 | when every status is one of the three, the counts add up to exactly the number of metrics |
| `Dashboard.DashboardState.constructor` | frontend/src/components/Dashboard.jsx:13-21 | no file, empty name and age, gender `male`, no result, not loading, no highlight |
| `Dashboard.DashboardState.HandleDrag` | frontend/src/components/Dashboard.jsx:23-31 | only `dragActive` changes, as the drag-event rule says |
| `Dashboard.DashboardState.HandleDrop` | frontend/src/components/Dashboard.jsx:33-46 | the highlight is always cleared; the first file is installed if accepted, otherwise `file` is unchanged and the alert is shown |
| `Dashboard.DashboardState.HandleFileChange` | frontend/src/components/Dashboard.jsx:48-57 | same acceptance for the picker's first file; nothing but `file` changes |
| `Dashboard.DashboardState.SetName` | frontend/src/components/Dashboard.jsx:223 | only the name changes; age and gender are kept |
| `Dashboard.DashboardState.SetAge` | frontend/src/components/Dashboard.jsx:236 | only the age changes; name and gender are kept |
| `Dashboard.DashboardState.SetGender` | frontend/src/components/Dashboard.jsx:247 | only the gender changes; name and age are kept |
| `Dashboard.DashboardState.BeginAnalyze` | frontend/src/components/Dashboard.jsx:59-75 | no request and `loading` untouched unless a file, a name and an age are present; otherwise `loading` is true and the form carries file, name, age and gender |
| `Dashboard.DashboardState.FinishAnalyze` | frontend/src/components/Dashboard.jsx:76-82 | `loading` ends false on success and failure; a response replaces the result, a failure keeps the old one and alerts |
| `Dashboard.DashboardState.HandleAnalyze` | frontend/src/components/Dashboard.jsx:59-83 | the whole handler: nothing happens when the guard fails, otherwise the form posted holds the current file, name, age and gender, the result is the server's answer (or unchanged on failure) and loading is off |
| `Dashboard.DashboardState.ExportToExcel` | frontend/src/components/Dashboard.jsx:117-144 | the workbook built from the current patient data and result; none without a result |
| `Dashboard.DashboardState.ExportToPdf` | frontend/src/components/Dashboard.jsx:85-115 | the drawing calls built from the current patient data and result; none without a result |
| `Login.Authentic` | frontend/src/components/Login.jsx:12 | exact, case-sensitive equality of both fields with `admin` and `admin123`, no trimming (predicate; its partner is `Login.ErrorAfterSubmit`) |
| `Login.ErrorAfterSubmit` | frontend/src/components/Login.jsx:12-17 | the error is empty exactly when the credentials are accepted, and the fixed message otherwise |
| `Login.LoginForm.constructor` | frontend/src/components/Login.jsx:5-6 | empty credentials and no error |
| `Login.LoginForm.SetUsername` | frontend/src/components/Login.jsx:40 | the username changes and the password is kept |
| `Login.LoginForm.SetPassword` | frontend/src/components/Login.jsx:54 | the password changes and the username is kept |
| `Login.LoginForm.HandleSubmit` | frontend/src/components/Login.jsx:8-18 | `onLogin` is called (once) iff the credentials are the admin account; `error` is then empty, otherwise the fixed message; credentials are unchanged |
| `Workspace.AddEntry` | frontend/src/components/DoctorWorkspace.jsx:18-23 | blank input hands nothing over and keeps the buffer; otherwise the trimmed, non-empty text is handed over and the buffer is emptied |
| `Workspace.AddedValueIsTrimmed` | frontend/src/components/DoctorWorkspace.jsx:19-20 | what reaches the parent has no white space at either end |
| `Workspace.DoctorWorkspace.constructor` | frontend/src/components/DoctorWorkspace.jsx:15-16 | both buffers start empty |
| `Workspace.DoctorWorkspace.SetSymptomInput` | frontend/src/components/DoctorWorkspace.jsx:50 | typing replaces only the symptom buffer |
| `Workspace.DoctorWorkspace.SetMedicineInput` | frontend/src/components/DoctorWorkspace.jsx:88 | typing replaces only the medicine buffer |
| `Workspace.DoctorWorkspace.HandleAddSymptom` | frontend/src/components/DoctorWorkspace.jsx:18-23 | one Add press as `AddEntry` says, on the symptom buffer only; the medicine buffer is untouched |
| `Workspace.DoctorWorkspace.HandleAddMedicine` | frontend/src/components/DoctorWorkspace.jsx:25-30 | one Add press as `AddEntry` says, on the medicine buffer only; the symptom buffer is untouched |
| `Workspace.DoctorWorkspace.SymptomKeyPress` | frontend/src/components/DoctorWorkspace.jsx:51 | Enter does exactly what the Add button does; any other key does nothing |
| `Workspace.DoctorWorkspace.MedicineKeyPress` | frontend/src/components/DoctorWorkspace.jsx:89 | Enter does exactly what the Add button does; any other key does nothing |
| `Workspace.DoctorWorkspace.LabFilesChosen` | frontend/src/components/DoctorWorkspace.jsx:126-131 | only the first chosen file is uploaded, and the picker is reset after it |
| `Session.AcceptedIffExtracted` | frontend/src/components/Dashboard.jsx:40 | the dashboard accepts exactly the types the service extracts text from |
| `Session.MockAnalysisOnDashboard` | backend/main.py:147-159 | the mock analysis charts as five Normal, no Warning, no Critical; its sheet has 21 rows ending in the fixed recommendations; its PDF has the recommendations section |

## Left out

- Metric values in the bar chart (`parseFloat`, Dashboard.jsx:154): floating point. Chart colours and Chart.js rendering.
- jsPDF, jspdf-autotable and XLSX themselves: text wrapping (`splitTextToSize`) is a parameter, the table end `lastAutoTable.finalY` is an input, writing the files is not modelled; the model stops at the calls and rows handed to them. Font metrics, so whether long summaries overlap the recommendations, are not modelled.
- The clock and the locale: `toLocaleDateString()` is a parameter; `toISOString()` is a parameter of which the date part is modelled.
- axios, FormData and the HTTP transport: the POST is a function from the request to a result or a failure. `alert` texts and `console.error` are shown only as flags; the guard's alert in `handleAnalyze` is the absent request (`request.None?`) that `BeginAnalyze` and `HandleAnalyze` return.
- React's rendering and asynchronous state batching: each handler is one synchronous step on the state it reads at call time. The Analyze button's `disabled` attribute (Dashboard.jsx:293) is rendering and is not modelled.
- The Gemini prompt text (main.py:102-127) and the model itself: the reply is a function of the four values the prompt embeds. `json.loads` is a predicate on the span; `Parsed(span)` stands for the object it builds, which is not decoded.
- PIL, PyPDF2 and reading the upload: their outcomes are parameters. The `print` of the Gemini error, the CORS setup, the `/` endpoint, FastAPI's own form validation and the uvicorn entry point.
- `summary` is modelled as always present; an analysis without one (an `undefined` cell in JavaScript) is not modelled. Metric values are modelled as strings even when the JSON holds numbers.
- Dashboard.DashboardState.FinishAnalyze: the dashboard side takes a well-formed `{metrics, summary, recommendations}` analysis. The service answers 200 with whatever object `json.loads` built, and the dashboard's handling of other shapes is not modelled: an object without `metrics` makes the rendering and `getChartData` (Dashboard.jsx:151, 177) throw, and recommendations that are not a string (a list, say) go into the spreadsheet cell as they are rather than as text.
- Login.LoginForm.HandleSubmit: both inputs are marked `required` (Login.jsx:43, 57), so the browser never submits with an empty field; the model also submits empty credentials, which then get the error message.
- frontend/src/pages/HeroPage.jsx, frontend/src/App.jsx, frontend/src/components/CollapsibleSection.jsx, frontend/src/components/VitalsForm.jsx, frontend/src/components/VitalsAnalysisDisplay.jsx, frontend/src/components/AISuggestionDisplay.jsx: markup, routing and display only. test_ai_features.py: a network test of endpoints not in the modelled service.
