/**
 * The report record (models/Report.js): its status enum, the generated content
 * it carries, the submitted form fields and the uploaded documents, together
 * with the schema's defaults and validators and the coherence every persisted
 * report keeps.
 */
module ReportModel {
  import opened Common
  import opened Text

  /** The externally visible `requestId` (a UUID in the source; here a token drawn from a counter). */
  type RequestId = nat

  datatype Status = Queued | Processing | Completed | Failed | Delivered

  /** The string stored in the `status` field. */
  function StatusName(s: Status): string {
    match s
    case Queued => "queued"
    case Processing => "processing"
    case Completed => "completed"
    case Failed => "failed"
    case Delivered => "delivered"
  }

  /** Distinct statuses are stored as distinct strings, so filtering by name is filtering by status. */
  lemma StatusNameInjective(a: Status, b: Status)
    ensures StatusName(a) == StatusName(b) <==> a == b
  {
  }

  // ---------------------------------------------------------------------------
  // Generated content (the `generatedReport` sub-document)
  // ---------------------------------------------------------------------------

  datatype MarketAnalysis = MarketAnalysis(
    marketSize: string, growthRate: string,
    keyTrends: seq<string>, opportunities: seq<string>, threats: seq<string>)

  datatype Competitor = Competitor(
    name: string, strengths: seq<string>, weaknesses: seq<string>, marketShare: string)

  datatype Swot = Swot(
    strengths: seq<string>, weaknesses: seq<string>, opportunities: seq<string>, threats: seq<string>)

  datatype Recommendation = Recommendation(
    title: string, description: string, priority: string, timeline: string)

  datatype Financials = Financials(
    revenueForecast: string, growthMetrics: string, investmentNeeded: string)

  datatype Risk = Risk(risk: string, impact: string, likelihood: string, mitigation: string)

  datatype GeneratedReport = GeneratedReport(
    executiveSummary: string,
    market: MarketAnalysis,
    mainCompetitors: seq<Competitor>,
    competitiveAdvantage: string,
    positioning: string,
    swot: Swot,
    recommendations: seq<Recommendation>,
    financials: Financials,
    risks: seq<Risk>,
    conclusion: string)

  // ---------------------------------------------------------------------------
  // Documents
  // ---------------------------------------------------------------------------

  /** The `documents.type` enum of the schema. */
  const DocumentTypes: seq<string> := ["doc", "png", "excel", "pdf", "jpg", "jpeg"]

  predicate IsDocumentType(t: string) {
    t in DocumentTypes
  }

  datatype Document = Document(kind: string, url: string, originalName: string, uploadDate: Millis, size: nat)

  /** A file as the upload middleware hands it to the controller. */
  datatype Upload = Upload(originalName: string, storedName: string, mimeType: string, size: nat)

  /** Index of the last '.' in `s`, or -1. */
  function LastDot(s: string): (r: int)
    ensures -1 <= r < |s|
    ensures r >= 0 ==> s[r] == '.'
    ensures forall k :: r < k < |s| ==> s[k] != '.'
  {
    if s == [] then -1
    else if s[|s| - 1] == '.' then |s| - 1
    else LastDot(s[..|s| - 1])
  }

  /**
   * `path.extname(name)` for a bare file name: from the last '.' on, or empty
   * when there is no '.' or the only one starts the name.
   */
  function Extname(name: string): (e: string)
    ensures e == [] || (|e| <= |name| && e[0] == '.' && e == name[|name| - |e|..])
    ensures e != [] <==> LastDot(name) > 0
    ensures e != [] ==> e == name[LastDot(name)..]
  {
    var i := LastDot(name);
    if i <= 0 then "" else name[i..]
  }

  /** `path.extname(file.originalname).substring(1)`: the stored document type. */
  function DocumentKind(u: Upload): (k: string)
    ensures Extname(u.originalName) == [] ==> k == []
    ensures Extname(u.originalName) != [] ==> Extname(u.originalName) == "." + k
  {
    var e := Extname(u.originalName);
    if e == "" then "" else e[1..]
  }

  /** The document entry the controller builds for one uploaded file. */
  function ToDocument(u: Upload, now: Millis): (d: Document)
    ensures d.originalName == u.originalName && d.size == u.size && d.uploadDate == now
    ensures d.url == "/uploads/documents/" + u.storedName
    ensures d.kind == DocumentKind(u)
  {
    Document(DocumentKind(u), "/uploads/documents/" + u.storedName, u.originalName, now, u.size)
  }

  function ToDocuments(us: seq<Upload>, now: Millis): (ds: seq<Document>)
    ensures |ds| == |us|
    ensures forall i :: 0 <= i < |us| ==> ds[i] == ToDocument(us[i], now)
  {
    seq(|us|, i requires 0 <= i < |us| => ToDocument(us[i], now))
  }

  /** The alternatives of the upload filter's unanchored pattern `/pdf|doc|docx|png|jpg|jpeg|xls|xlsx/`. */
  const UploadPatterns: seq<string> := ["pdf", "doc", "docx", "png", "jpg", "jpeg", "xls", "xlsx"]

  predicate ContainsAny(s: string, pats: seq<string>)
    requires forall i :: 0 <= i < |pats| ==> pats[i] != ""
  {
    exists i :: 0 <= i < |pats| && IndexOf(s, pats[i], 0) != -1
  }

  /** The upload filter: both the lower-cased extension and the MIME type match the pattern somewhere. */
  predicate UploadFilterAccepts(u: Upload) {
    ContainsAny(ToLower(Extname(u.originalName)), UploadPatterns) && ContainsAny(u.mimeType, UploadPatterns)
  }

  // ---------------------------------------------------------------------------
  // Submitted form fields
  // ---------------------------------------------------------------------------

  /** A multipart form field: absent, sent once (a string) or sent several times (an array). */
  datatype FormValue = Missing | Text(text: string) | List(items: seq<string>)

  /** `Array.isArray(v) ? v : [v].filter(Boolean)`. */
  function AsList(v: FormValue): (r: seq<string>)
    ensures v.List? ==> r == v.items
    ensures !v.List? ==> |r| <= 1 && forall i :: 0 <= i < |r| ==> r[i] != ""
    ensures v.Text? && v.text != "" ==> r == [v.text]
  {
    match v
    case Missing => []
    case Text(t) => if t == "" then [] else [t]
    case List(xs) => xs
  }

  datatype ReportForm = ReportForm(
    name: Option<string>, organization: Option<string>, industry: FormValue,
    websiteUrl: Option<string>, role: Option<string>, heardFrom: Option<string>,
    competitors: FormValue, usp: Option<string>, teamSize: Option<string>, partners: FormValue)

  /** `name`, `organization` and `websiteUrl` are all truthy. */
  predicate HasRequiredFields(f: ReportForm) {
    Truthy(f.name) && Truthy(f.organization) && Truthy(f.websiteUrl)
  }

  // ---------------------------------------------------------------------------
  // The report record
  // ---------------------------------------------------------------------------

  datatype ErrorInfo = ErrorInfo(message: string, occurredAt: Millis)

  datatype Job = Job(
    id: ReportId,
    owner: UserId,
    requestId: RequestId,
    name: string,
    organization: string,
    industry: seq<string>,
    websiteUrl: string,
    role: Option<string>,
    heardFrom: Option<string>,
    competitors: seq<string>,
    usp: Option<string>,
    teamSize: Option<string>,
    partners: seq<string>,
    documents: seq<Document>,
    generated: Option<GeneratedReport>,
    status: Status,
    progress: int,
    emailSent: bool,
    emailSentAt: Option<Millis>,
    downloadCount: nat,
    lastDownloadAt: Option<Millis>,
    error: Option<ErrorInfo>,
    webhookTriggered: bool,
    webhookResponse: Option<string>,
    processingTime: int,
    creditsUsed: nat,
    createdAt: Millis,
    updatedAt: Millis)

  /** What the schema's validators accept when a report is saved. */
  predicate SchemaValid(j: Job) {
    && j.name != "" && j.organization != "" && j.websiteUrl != ""
    && 0 <= j.progress <= 100
    && forall i :: 0 <= i < |j.documents| ==> IsDocumentType(j.documents[i].kind)
  }

  /**
   * The coherence of every report the pipeline persists: a failure carries its
   * cause and only a failure does, content exists from the 75% checkpoint on,
   * `completed` and `delivered` sit at 100, and `delivered` follows the e-mail.
   */
  predicate Coherent(j: Job) {
    && (j.error.Some? <==> j.status == Failed)
    && (j.progress >= 75 ==> j.generated.Some?)
    && (j.status in {Completed, Delivered} ==> j.progress == 100)
    && (j.emailSent <==> j.status == Delivered)
    && (j.emailSent ==> j.emailSentAt.Some?)
  }

  /**
   * A report as `generateReport` first builds it: the form fields with the list
   * fields normalised, status `queued`, progress 0, and the schema's defaults.
   */
  function NewJob(id: ReportId, requestId: RequestId, owner: UserId, f: ReportForm,
                  uploads: seq<Upload>, now: Millis): (j: Job)
    requires HasRequiredFields(f)
    ensures j.id == id && j.requestId == requestId && j.owner == owner
    ensures j.status == Queued && j.progress == 0 && j.generated == None && j.error == None
    ensures !j.emailSent && j.downloadCount == 0 && !j.webhookTriggered
    ensures j.processingTime == 0 && j.creditsUsed == 1 && j.createdAt == now && j.updatedAt == now
    ensures j.industry == AsList(f.industry) && j.competitors == AsList(f.competitors) && j.partners == AsList(f.partners)
    ensures |j.documents| == |uploads|
    ensures SchemaValid(j) <==> forall i :: 0 <= i < |uploads| ==> IsDocumentType(DocumentKind(uploads[i]))
    ensures Coherent(j)
  {
    Job(id, owner, requestId, f.name.value, f.organization.value, AsList(f.industry), f.websiteUrl.value,
        f.role, f.heardFrom, AsList(f.competitors), f.usp, f.teamSize, AsList(f.partners),
        ToDocuments(uploads, now), None, Queued, 0, false, None, 0, None, None, false, None, 0, 1, now, now)
  }

  lemma FoundWhereOccurs(s: string, pat: string, j: int)
    requires pat != "" && OccursAt(s, pat, j)
    ensures IndexOf(s, pat, 0) != -1
  {
  }

  lemma ExtnameOfReportPdf(n: string)
    requires n == "REPORT.PDF"
    ensures Extname(n) == ".PDF"
  {
    assert n[6] == '.' && n[7] != '.' && n[8] != '.' && n[9] != '.';
    assert LastDot(n) == 6;
  }

  lemma LowerOfPdfExtension()
    ensures ToLower(".PDF") == ".pdf"
  {
    var low := ToLower(".PDF");
    assert low[0] == '.' && low[1] == 'p' && low[2] == 'd' && low[3] == 'f';
  }

  /**
   * The upload filter lower-cases the extension before matching, the stored
   * type does not: `REPORT.PDF` sent as `application/pdf` passes the filter,
   * yet its type `PDF` is outside the schema's enum, so saving the report fails.
   */
  lemma UpperCasePdfPassesFilterButNotSchema(u: Upload)
    requires u.originalName == "REPORT.PDF" && u.mimeType == "application/pdf"
    ensures UploadFilterAccepts(u) && DocumentKind(u) == "PDF" && !IsDocumentType(DocumentKind(u))
  {
    ExtnameOfReportPdf(u.originalName);
    LowerOfPdfExtension();
    assert ".pdf"[1..4] == "pdf";
    FoundWhereOccurs(".pdf", "pdf", 1);
    assert u.mimeType[12..15] == "pdf";
    FoundWhereOccurs(u.mimeType, "pdf", 12);
    assert UploadPatterns[0] == "pdf";
  }

  lemma ExtnameOfPlanDocx(n: string)
    requires n == "plan.docx"
    ensures Extname(n) == ".docx"
  {
    assert n[4] == '.' && n[5] != '.' && n[6] != '.' && n[7] != '.' && n[8] != '.';
    assert LastDot(n) == 4;
  }

  /**
   * A `.docx` upload whose MIME type passes the filter is admitted (the
   * filter's pattern names `docx`), yet `docx` is outside the schema's enum.
   */
  lemma DocxPassesFilterButNotSchema(u: Upload)
    requires u.originalName == "plan.docx"
    requires ContainsAny(u.mimeType, UploadPatterns)
    ensures UploadFilterAccepts(u) && DocumentKind(u) == "docx" && !IsDocumentType(DocumentKind(u))
  {
    ExtnameOfPlanDocx(u.originalName);
    var low := ToLower(".docx");
    assert low[0] == '.' && low[1] == 'd' && low[2] == 'o' && low[3] == 'c' && low[4] == 'x';
    assert low[1..5] == "docx";
    FoundWhereOccurs(low, "docx", 1);
    assert UploadPatterns[2] == "docx";
  }
}
