/**
 * The reports collection and the report routes of
 * controllers/report.controller.js: `generateReport` creates a report, charges
 * the user and launches it; `processReport` runs it (see `ReportRun`);
 * `downloadReport`, `getReport`, `getReportStatus` and `getUserReports` read
 * it back.
 *
 * The webhook, the PDF renderer and the mailer are outside the model; their
 * outcomes are parameters. A scheduled runner is recorded in `pending` and
 * runs later, as its own step.
 */
module ReportStore {
  import opened Common
  import opened Text
  import opened Ordering
  import opened Accounts
  import opened ReportModel
  import opened ReportContent
  import opened ReportRun

  // ---------------------------------------------------------------------------
  // launching a report
  // ---------------------------------------------------------------------------

  /** How the processing webhook answered: a response (its `ok`, status and body) or a thrown error. */
  datatype WebhookReply = Responded(ok: bool, status: nat, body: string) | Threw(message: string)

  /** Whether a webhook URL is configured and, if so, how the call went. */
  datatype WebhookSetting = Unconfigured | Configured(reply: WebhookReply)

  /** The report is launched when no webhook is configured or the webhook answered `ok`. */
  predicate WebhookAccepted(w: WebhookSetting) {
    w.Unconfigured? || (w.reply.Responded? && w.reply.ok)
  }

  /** The error message stored when the webhook fails. */
  function WebhookFailureMessage(reply: WebhookReply): (m: string)
    ensures "Webhook failed: " <= m
  {
    var cause := match reply
      case Responded(_, status, _) => "Webhook returned status " + DecimalString(status)
      case Threw(message) => message;
    "Webhook failed: " + cause
  }

  /**
   * The report after the webhook step: `processing` when launched (marked
   * triggered, with the response body, when a webhook was called), `failed`
   * with the webhook's error otherwise.
   */
  function Launch(j: Job, w: WebhookSetting, now: Millis): Job {
    match w
    case Unconfigured => j.(status := Processing, updatedAt := now)
    case Configured(reply) =>
      if reply.Responded? && reply.ok then
        j.(status := Processing, webhookTriggered := true, webhookResponse := Some(reply.body), updatedAt := now)
      else
        j.(status := Failed, webhookTriggered := false,
           error := Some(ErrorInfo(WebhookFailureMessage(reply), now)), updatedAt := now)
  }

  /**
   * A new report is launched exactly when the webhook step succeeds, and then
   * its runner may start; otherwise it is `failed` with a message naming the
   * webhook. Either way it stays valid and coherent.
   */
  lemma LaunchOutcome(j: Job, w: WebhookSetting, now: Millis)
    requires SchemaValid(j) && Coherent(j) && j.status == Queued && j.progress == 0 && j.generated.None?
    ensures var l := Launch(j, w, now);
      && (WebhookAccepted(w) ==> Launched(l))
      && (w.Configured? ==> l.webhookTriggered == WebhookAccepted(w))
      && (!WebhookAccepted(w) ==>
            l.status == Failed && !l.webhookTriggered && l.error.Some? && "Webhook failed: " <= l.error.value.message)
      && SchemaValid(l) && Coherent(l)
      && l.id == j.id && l.requestId == j.requestId && l.owner == j.owner
  {
  }

  /** The body posted to the webhook, reduced to what identifies the report. */
  datatype Dispatch = Dispatch(requestId: RequestId, reportId: ReportId, url: string, submittedBy: string)

  /** The webhook is called once when configured, never otherwise. */
  function Dispatches(w: WebhookSetting, j: Job, email: string): (ds: seq<Dispatch>)
    ensures |ds| == (if w.Configured? then 1 else 0)
    ensures w.Configured? ==> ds[0].reportId == j.id && ds[0].requestId == j.requestId && ds[0].url == j.websiteUrl
  {
    if w.Configured? then [Dispatch(j.requestId, j.id, j.websiteUrl, email)] else []
  }

  /** Whether `generateReport` takes a credit: the user has an active plan and a positive balance. */
  predicate ShouldDeductCredit(u: UserDoc) {
    u.activePlan.Some? && u.credits > 0
  }

  /** The user after `generateReport`: charged one credit when due, and the report added to the history. */
  function Charged(u: UserDoc, id: ReportId, now: Millis): UserDoc {
    u.(credits := if ShouldDeductCredit(u) then u.credits - 1 else u.credits,
       reportHistory := u.reportHistory + [id], updatedAt := now)
  }

  /**
   * A report costs exactly one credit when the user has an active plan and
   * credits, and nothing otherwise; a balance never goes negative; the report
   * joins the history.
   */
  lemma ChargeOutcome(u: UserDoc, id: ReportId, now: Millis)
    requires u.credits >= 0
    ensures var c := Charged(u, id, now);
      && (c.credits == u.credits - 1 <==> u.activePlan.Some? && u.credits > 0)
      && (c.credits == u.credits <==> !(u.activePlan.Some? && u.credits > 0))
      && c.credits >= 0
      && c.reportHistory == u.reportHistory + [id]
  {
  }

  datatype GenerateOutcome =
    | MissingFields
    | SaveRejected
    | WebhookFailed(requestId: RequestId, reportId: ReportId)
    | Started(requestId: RequestId, reportId: ReportId, creditsRemaining: int, creditDeducted: bool, status: Status)
  {
    function Code(): nat {
      match this
      case MissingFields => 400
      case SaveRejected => 500
      case WebhookFailed(_, _) => 500
      case Started(_, _, _, _, _) => 201
    }
  }

  // ---------------------------------------------------------------------------
  // reading reports back
  // ---------------------------------------------------------------------------

  datatype DownloadOutcome = NotDownloadable | JsonFile(content: Option<GeneratedReport>) | PdfFile | PdfFailed
  {
    function Code(): nat {
      match this
      case NotDownloadable => 404
      case JsonFile(_) => 200
      case PdfFile => 200
      case PdfFailed => 500
    }
  }

  /** `downloadReport`'s query: the caller's report, completed or delivered. */
  predicate Downloadable(jobs: map<ReportId, Job>, userId: UserId, id: ReportId) {
    id in jobs && jobs[id].owner == userId && jobs[id].status in {Completed, Delivered}
  }

  datatype StatusView = StatusView(status: Status, progress: int, reportId: ReportId)

  /** `getUserReports`'s query: the caller's reports, and of the given status when one is given. */
  predicate Matches(j: Job, userId: UserId, status: Option<string>) {
    j.owner == userId && (!Truthy(status) || StatusName(j.status) == status.value)
  }

  /** The query of `getUserReports` as a selector of report ids. */
  function Selector(jobs: map<ReportId, Job>, userId: UserId, status: Option<string>): ReportId -> bool {
    id => id in jobs && Matches(jobs[id], userId, status)
  }

  /** `.select('-generatedReport')`. */
  function Strip(j: Job): Job {
    j.(generated := None)
  }

  /** Sorting report ids on this key in ascending order is `.sort('-createdAt')`. */
  function NewestFirst(jobs: map<ReportId, Job>): ReportId -> int {
    id => if id in jobs then -(jobs[id].createdAt as int) else 0
  }

  datatype Listing = Listing(reports: seq<Job>, total: nat, limit: int, offset: int)

  /** The reports under `ids`, in order, without their content. */
  function Project(jobs: map<ReportId, Job>, ids: seq<ReportId>): (r: seq<Job>)
    requires forall i :: 0 <= i < |ids| ==> ids[i] in jobs
    ensures |r| == |ids|
    ensures forall i :: 0 <= i < |ids| ==> r[i] == Strip(jobs[ids[i]])
  {
    if ids == [] then [] else [Strip(jobs[ids[0]])] + Project(jobs, ids[1..])
  }

  /** The ids the query selects among `ids`, newest first: the sequence a page is cut from. */
  function Matching(jobs: map<ReportId, Job>, ids: seq<ReportId>, userId: UserId, status: Option<string>)
    : (m: seq<ReportId>)
    requires forall i :: 0 <= i < |ids| ==> ids[i] in jobs && jobs[ids[i]].id == ids[i]
    ensures multiset(m) == multiset(Filter(ids, Selector(jobs, userId, status)))
    ensures |m| == |Filter(ids, Selector(jobs, userId, status))|
    ensures SortedBy(m, NewestFirst(jobs))
    ensures forall k :: 0 <= k < |m| ==> m[k] in jobs && jobs[m[k]].id == m[k] && Matches(jobs[m[k]], userId, status)
  {
    var selected := Filter(ids, Selector(jobs, userId, status));
    var ok := id => id in jobs && jobs[id].id == id && Matches(jobs[id], userId, status);
    forall i | 0 <= i < |selected|
      ensures ok(selected[i])
    {
      var k :| 0 <= k < |ids| && ids[k] == selected[i];
    }
    var sorted := SortBy(selected, NewestFirst(jobs));
    AllOfPermutation(sorted, selected, ok);
    sorted
  }

  /** The ids the query selects among `ids`, newest first, after `offset` of them, at most `limit` (no bound when 0). */
  function PageIds(jobs: map<ReportId, Job>, ids: seq<ReportId>, userId: UserId, status: Option<string>,
                   limit: int, offset: nat): seq<ReportId>
    requires forall i :: 0 <= i < |ids| ==> ids[i] in jobs && jobs[ids[i]].id == ids[i]
  {
    Page(Matching(jobs, ids, userId, status), offset, limit)
  }

  /**
   * `getUserReports`'s page of reports: the ones the query selects among
   * `ids`, newest first, after `offset` of them, at most `limit`, without
   * their content.
   */
  function ListPage(jobs: map<ReportId, Job>, ids: seq<ReportId>, userId: UserId, status: Option<string>,
                    limit: int, offset: nat): (r: seq<Job>)
    requires forall i :: 0 <= i < |ids| ==> ids[i] in jobs && jobs[ids[i]].id == ids[i]
    ensures |r| <= |Filter(ids, Selector(jobs, userId, status))|
    ensures limit != 0 ==> |r| <= (if limit < 0 then -limit else limit)
    ensures var m := Matching(jobs, ids, userId, status);
      && |r| == (if offset >= |m| then 0
                 else if limit == 0 then |m| - offset
                 else Min(if limit < 0 then -limit else limit, |m| - offset))
      && forall i :: 0 <= i < |r| ==> offset + i < |m| && r[i] == Strip(jobs[m[offset + i]])
  {
    var page := PageIds(jobs, ids, userId, status, limit, offset);
    Project(jobs, page)
  }

  /** Every id on the page is a stored report that the query selects, and the page is newest first. */
  lemma PageIdsSelected(jobs: map<ReportId, Job>, ids: seq<ReportId>, userId: UserId, status: Option<string>,
                        limit: int, offset: nat)
    requires forall i :: 0 <= i < |ids| ==> ids[i] in jobs && jobs[ids[i]].id == ids[i]
    ensures var page := PageIds(jobs, ids, userId, status, limit, offset);
      && (forall i :: 0 <= i < |page| ==>
            page[i] in jobs && jobs[page[i]].id == page[i] && Matches(jobs[page[i]], userId, status))
      && SortedBy(page, NewestFirst(jobs))
  {
    PageOfSorted(Matching(jobs, ids, userId, status), NewestFirst(jobs), offset, limit);
  }

  /**
   * The listed reports are stored reports of the caller that the query
   * selects, stripped of their content, newest first.
   */
  lemma ListedReports(jobs: map<ReportId, Job>, ids: seq<ReportId>, userId: UserId, status: Option<string>,
                      limit: int, offset: nat)
    requires forall i :: 0 <= i < |ids| ==> ids[i] in jobs && jobs[ids[i]].id == ids[i]
    ensures var r := ListPage(jobs, ids, userId, status, limit, offset);
      && (forall i :: 0 <= i < |r| ==>
            r[i].id in jobs && Matches(jobs[r[i].id], userId, status) && r[i] == Strip(jobs[r[i].id]))
      && (forall i, k :: 0 <= i < k < |r| ==> r[i].createdAt >= r[k].createdAt)
  {
    var page := PageIds(jobs, ids, userId, status, limit, offset);
    PageIdsSelected(jobs, ids, userId, status, limit, offset);
    var r := ListPage(jobs, ids, userId, status, limit, offset);
    assert r == Project(jobs, page);
    forall i, k | 0 <= i < k < |r|
      ensures r[i].createdAt >= r[k].createdAt
    {
      assert NewestFirst(jobs)(page[i]) <= NewestFirst(jobs)(page[k]);
    }
  }

  /** The first report among `ids` that carries `requestId`, as `findOne({ requestId })` finds it. */
  function FindRequest(jobs: map<ReportId, Job>, ids: seq<ReportId>, requestId: RequestId): (r: Option<ReportId>)
    requires forall i :: 0 <= i < |ids| ==> ids[i] in jobs
    ensures r.None? <==> forall i :: 0 <= i < |ids| ==> jobs[ids[i]].requestId != requestId
    ensures r.Some? ==> r.value in ids && jobs[r.value].requestId == requestId
  {
    if |ids| == 0 then None
    else if jobs[ids[0]].requestId == requestId then Some(ids[0])
    else FindRequest(jobs, ids[1..], requestId)
  }

  /**
   * The store as a run of `processReport` found it: the reports, the report
   * run and the content it will be given, the saves and the events so far.
   */
  datatype RunStart = RunStart(jobs: map<ReportId, Job>, report: Job, content: GeneratedReport,
                               history: seq<Job>, events: seq<Event>)

  /** The reports, the saves and the events after the first `k` saves of `run`. */
  ghost predicate Reached(run: RunStart, k: nat, now: Millis,
                          jobs: map<ReportId, Job>, history: seq<Job>, events: seq<Event>)
    requires k <= 5
  {
    && run.report.id in run.jobs
    && jobs == run.jobs[run.report.id := Checkpoint(run.report, k, run.content, now)]
    && history == run.history + Checkpoints(run.report, k, run.content, now)
    && events == run.events + EventsAfter(run.report, k)
  }

  /**
   * When `fault` breaks `run`, marking the report as last saved `failed`,
   * saving it and telling the owner leaves the store as `Run`, `Writes` and
   * `RunEvents` say.
   */
  lemma BreakEndsRun(run: RunStart, fault: Fault, now: Millis,
                     jobs: map<ReportId, Job>, history: seq<Job>, events: seq<Event>)
    requires fault.WellFormed() && !fault.NoFault? && Launched(run.report)
    requires Reached(run, SavesDone(fault), now, jobs, history, events)
    ensures var id := run.report.id;
      var failed := MarkFailed(jobs[id], fault.message, now);
      && id in jobs && !jobs[id].emailSent && jobs[id].owner == run.report.owner
      && SchemaValid(failed) && Coherent(failed)
      && jobs[id := failed] == run.jobs[id := Run(run.report, fault, run.content, now)]
      && history + [failed] == run.history + Writes(run.report, fault, run.content, now)
      && events + [ErrorEvent(run.report.owner, id, fault.message)] == run.events + RunEvents(run.report, fault)
  {
    CheckpointShape(run.report, SavesDone(fault), run.content, now);
  }

  /**
   * The `k`-th save of `run`, from the store the first `k - 1` saves left,
   * writes the `k`-th checkpoint, and with the event that follows it the
   * store is as the first `k` saves leave it.
   */
  lemma SaveAdvancesRun(run: RunStart, k: nat, now: Millis, report: Job,
                        jobs: map<ReportId, Job>, history: seq<Job>, events: seq<Event>)
    requires Launched(run.report) && 1 <= k <= 5
    requires Reached(run, k - 1, now, jobs, history, events)
    requires report.(updatedAt := now) == Stage(Checkpoint(run.report, k - 1, run.content, now), k, run.content, now)
    ensures var c := report.(updatedAt := now);
      && c == Checkpoint(run.report, k, run.content, now)
      && report.id == run.report.id && report.owner == run.report.owner && report.id in jobs
      && SchemaValid(c) && Coherent(c) && !Launched(c)
      && Reached(run, k, now, jobs[report.id := c], history + [c], events + StageEvents(run.report, k))
  {
    CheckpointShape(run.report, k, run.content, now);
  }

  // ---------------------------------------------------------------------------
  // the reports collection
  // ---------------------------------------------------------------------------

  /**
   * The stored reports: numbered 0 to n - 1, each under its own id, each
   * passing the schema's validators and coherent.
   */
  ghost predicate Stored(jobs: map<ReportId, Job>, n: nat) {
    && (forall id: int :: id in jobs <==> 0 <= id < n)
    && (forall id :: id in jobs ==> jobs[id].id == id && SchemaValid(jobs[id]) && Coherent(jobs[id]))
  }

  lemma StoredInsert(jobs: map<ReportId, Job>, n: nat, j: Job)
    requires Stored(jobs, n) && j.id == n && SchemaValid(j) && Coherent(j)
    ensures Stored(jobs[n := j], n + 1)
  {
  }

  lemma StoredUpdate(jobs: map<ReportId, Job>, n: nat, j: Job)
    requires Stored(jobs, n) && j.id in jobs && SchemaValid(j) && Coherent(j)
    ensures Stored(jobs[j.id := j], n)
  {
  }

  lemma ReplacedTwice(jobs: map<ReportId, Job>, id: ReportId, first: Job, second: Job)
    ensures jobs[id := first][id := second] == jobs[id := second]
  {
  }

  /** Every report whose runner is scheduled is stored and launched. */
  ghost predicate Scheduled(jobs: map<ReportId, Job>, pending: set<ReportId>) {
    forall id :: id in pending ==> id in jobs && Launched(jobs[id])
  }

  /** A request id is taken when a stored report carries it (the unique index on `requestId`). */
  predicate RequestTaken(jobs: map<ReportId, Job>, requestId: RequestId) {
    exists id :: id in jobs && jobs[id].requestId == requestId
  }

  class JobStore {
    /** The template's wording, the source's own. */
    const wording: Wording
    var jobs: map<ReportId, Job>
    var nextReport: ReportId
    /** The reports whose runner is scheduled and has not run yet. */
    var pending: set<ReportId>
    /** Every socket event emitted, in order. */
    var events: seq<Event>
    /** Every webhook call made, in order. */
    var dispatched: seq<Dispatch>
    /** Every report save, in order. */
    ghost var history: seq<Job>

    /**
     * Reports are numbered 0, 1, ... and never removed; each passes the
     * schema's validators and is coherent; a report with a scheduled runner
     * is launched and untouched since.
     */
    ghost predicate Valid()
      reads this`jobs, this`nextReport, this`pending
    {
      Stored(jobs, nextReport) && Scheduled(jobs, pending)
    }

    constructor ()
      ensures Valid() && wording == SourceWording
      ensures jobs == map[] && pending == {} && events == [] && dispatched == [] && history == []
    {
      jobs := map[];
      assert Stored(map[], 0);
      nextReport := 0;
      pending := {};
      events := [];
      dispatched := [];
      history := [];
      wording := SourceWording;
    }

    /** The first `report.save()`: a new report under the next id. */
    method Insert(j: Job)
      requires Valid() && j.id == nextReport && SchemaValid(j) && Coherent(j)
      modifies this
      ensures Valid()
      ensures jobs == old(jobs)[j.id := j] && j.id !in old(jobs)
      ensures nextReport == old(nextReport) + 1
      ensures history == old(history) + [j]
      ensures pending == old(pending) && events == old(events) && dispatched == old(dispatched)
    {
      StoredInsert(jobs, nextReport, j);
      jobs := jobs[j.id := j];
      nextReport := nextReport + 1;
      history := history + [j];
    }

    /** A later `report.save()` of a stored report: the pre-save hook stamps `updatedAt`. */
    method Save(j: Job, now: Millis)
      requires Valid() && j.id in jobs && SchemaValid(j) && Coherent(j)
      requires j.id in pending ==> Launched(j)
      modifies this
      ensures Valid()
      ensures jobs == old(jobs)[j.id := j.(updatedAt := now)]
      ensures history == old(history) + [j.(updatedAt := now)]
      ensures nextReport == old(nextReport)
      ensures pending == old(pending) && events == old(events) && dispatched == old(dispatched)
    {
      var stamped := j.(updatedAt := now);
      assert SchemaValid(stamped) && Coherent(stamped) && (j.id in pending ==> Launched(stamped));
      StoredUpdate(jobs, nextReport, stamped);
      jobs := jobs[j.id := stamped];
      history := history + [stamped];
    }

    /**
     * `generateReport` for the signed-in `user`: 400 unless `name`,
     * `organization` and `websiteUrl` are all given; 500 when the new report
     * fails the schema's validators or its request id is already taken
     * (nothing is stored and no credit is taken). Otherwise the `queued`
     * report is stored, the user is charged one credit exactly when they have an active
     * plan and credits, the report joins their history, and the webhook step
     * decides: launched (201, runner scheduled) or `failed` (500).
     */
    method GenerateReport(user: UserAccount, form: ReportForm, uploads: seq<Upload>, requestId: RequestId,
                          webhook: WebhookSetting, now: Millis)
      returns (r: GenerateOutcome)
      requires Valid() && user.Valid()
      modifies this, user
      ensures Valid() && user.Valid()
      ensures r == MissingFields <==> !HasRequiredFields(form)
      ensures HasRequiredFields(form) ==>
        (r == SaveRejected <==>
           !SchemaValid(NewJob(old(nextReport), requestId, user.id, form, uploads, now)) || RequestTaken(old(jobs), requestId))
      ensures r == MissingFields || r == SaveRejected ==>
        jobs == old(jobs) && pending == old(pending) && dispatched == old(dispatched) && user.Doc() == old(user.Doc())
      ensures r.WebhookFailed? || r.Started? ==>
        var j := NewJob(old(nextReport), requestId, user.id, form, uploads, now);
        && HasRequiredFields(form) && SchemaValid(j) && !RequestTaken(old(jobs), requestId)
        && r.reportId == j.id && r.requestId == j.requestId && j.id !in old(jobs)
        && jobs == old(jobs)[j.id := Launch(j, webhook, now)]
        && user.Doc() == Charged(old(user.Doc()), j.id, now)
        && dispatched == old(dispatched) + Dispatches(webhook, j, user.email)
      ensures r.Started? <==> r.Code() == 201
      ensures r.Started? ==>
        && WebhookAccepted(webhook)
        && r.creditDeducted == ShouldDeductCredit(old(user.Doc()))
        && r.creditsRemaining == user.credits && r.status == Processing
        && pending == old(pending) + {r.reportId}
      ensures r.WebhookFailed? ==> !WebhookAccepted(webhook) && pending == old(pending)
      ensures events == old(events)
    {
      if !HasRequiredFields(form) {
        return MissingFields;
      }
      var shouldDeductCredit := user.activePlan.Some? && user.credits > 0;
      var report := NewJob(nextReport, requestId, user.id, form, uploads, now);
      if !SchemaValid(report) || RequestTaken(jobs, requestId) {
        return SaveRejected;
      }
      r := StoreAndLaunch(user, report, shouldDeductCredit, webhook, now);
    }

    /** `generateReport` once the new report `j` passes validation: store, charge, webhook, reply. */
    method StoreAndLaunch(user: UserAccount, j: Job, deduct: bool, webhook: WebhookSetting, now: Millis)
      returns (r: GenerateOutcome)
      requires Valid() && user.Valid() && deduct == ShouldDeductCredit(user.Doc())
      requires j.id == nextReport && SchemaValid(j) && Coherent(j) && !RequestTaken(jobs, j.requestId)
      requires j.status == Queued && j.progress == 0 && j.generated.None?
      modifies this, user
      ensures Valid() && user.Valid()
      ensures r.WebhookFailed? || r.Started?
      ensures r.reportId == j.id && r.requestId == j.requestId && j.id !in old(jobs)
      ensures jobs == old(jobs)[j.id := Launch(j, webhook, now)]
      ensures user.Doc() == Charged(old(user.Doc()), j.id, now)
      ensures dispatched == old(dispatched) + Dispatches(webhook, j, user.email)
      ensures r.Started? ==>
        && WebhookAccepted(webhook)
        && r.creditDeducted == deduct
        && r.creditsRemaining == user.credits && r.status == Processing
        && pending == old(pending) + {r.reportId}
      ensures r.WebhookFailed? ==> !WebhookAccepted(webhook) && pending == old(pending)
      ensures events == old(events)
    {
      ghost var before := jobs;
      Insert(j);
      ChargeUser(user, j.id, deduct, now);
      var launched := LaunchReport(j, webhook, user.email, now);
      ReplacedTwice(before, j.id, j, Launch(j, webhook, now));
      if !launched {
        return WebhookFailed(j.requestId, j.id);
      }
      r := Started(j.requestId, j.id, user.credits, deduct, Processing);
    }

    /** `user.deductCredit(1)` when due, then `user.reportHistory.push(report._id)` and `user.save()`. */
    static method ChargeUser(user: UserAccount, id: ReportId, deduct: bool, now: Millis)
      requires user.Valid() && deduct == ShouldDeductCredit(user.Doc())
      modifies user
      ensures user.Valid()
      ensures user.Doc() == Charged(old(user.Doc()), id, now)
    {
      if deduct {
        var balance := user.DeductCredit(1, now);
      }
      user.reportHistory := user.reportHistory + [id];
      user.Save(now);
    }

    /** The webhook step of `generateReport` for the freshly stored report `j`. */
    method LaunchReport(j: Job, webhook: WebhookSetting, email: string, now: Millis) returns (launched: bool)
      requires Valid() && j.id in jobs && jobs[j.id] == j && j.id !in pending
      requires SchemaValid(j) && Coherent(j) && j.status == Queued && j.progress == 0 && j.generated.None?
      modifies this
      ensures Valid()
      ensures launched <==> WebhookAccepted(webhook)
      ensures jobs == old(jobs)[j.id := Launch(j, webhook, now)]
      ensures dispatched == old(dispatched) + Dispatches(webhook, j, email)
      ensures launched ==> pending == old(pending) + {j.id}
      ensures !launched ==> pending == old(pending)
      ensures nextReport == old(nextReport) && events == old(events)
    {
      LaunchOutcome(j, webhook, now);
      var report := j;
      match webhook {
        case Unconfigured =>
          report := report.(status := Processing);
          Save(report, now);
        case Configured(reply) =>
          dispatched := dispatched + [Dispatch(j.requestId, j.id, j.websiteUrl, email)];
          if reply.Responded? && reply.ok {
            report := report.(status := Processing, webhookTriggered := true, webhookResponse := Some(reply.body));
            Save(report, now);
          } else {
            report := report.(status := Failed, webhookTriggered := false,
                              error := Some(ErrorInfo(WebhookFailureMessage(reply), now)));
            Save(report, now);
            return false;
          }
      }
      pending := pending + {j.id};
      launched := true;
    }

    /**
     * `processReport(reportId)`, run by the scheduled runner of report `id`:
     * the saves of `Checkpoint` one after the other, each followed by its
     * event, until `fault` breaks the run; then the error handler records the
     * failure on the report as last saved. The report ends as `Run` says.
     */
    method ProcessReport(id: ReportId, fault: Fault, now: Millis)
      requires Valid() && id in pending && fault.WellFormed()
      modifies this
      ensures Valid()
      ensures jobs == old(jobs)[id := Run(old(jobs[id]), fault, Render(old(jobs[id]), wording), now)]
      ensures history == old(history) + Writes(old(jobs[id]), fault, Render(old(jobs[id]), wording), now)
      ensures events == old(events) + RunEvents(old(jobs[id]), fault)
      ensures pending == old(pending) - {id}
      ensures nextReport == old(nextReport) && dispatched == old(dispatched)
    {
      var report := jobs[id];
      ghost var run := RunStart(jobs, report, Render(report, wording), history, events);
      assert jobs == jobs[id := Checkpoint(report, 0, run.content, now)];
      pending := pending - {id};

      report := report.(status := Processing, progress := 25);
      if fault.Breaks(1) {
        RecordFailure(id, fault, now, run);
        return;
      }
      SaveCheckpoint(report, 1, now, run);
      report := report.(updatedAt := now);
      Analyse(id, report, fault, now, run);
    }

    /** `processReport` after the two-second wait: the report is saved at 50. */
    method Analyse(id: ReportId, report: Job, fault: Fault, now: Millis, ghost run: RunStart)
      requires Valid() && Launched(run.report) && id == run.report.id && id !in pending && fault.WellFormed()
      requires !fault.Breaks(1)
      requires After(run, 1, now) && report == Checkpoint(run.report, 1, run.content, now)
      requires run.content == Render(run.report, wording)
      modifies this
      ensures Valid()
      ensures jobs == run.jobs[id := Run(run.report, fault, run.content, now)]
      ensures history == run.history + Writes(run.report, fault, run.content, now)
      ensures events == run.events + RunEvents(run.report, fault)
      ensures pending == old(pending) && nextReport == old(nextReport) && dispatched == old(dispatched)
    {
      var report := report.(progress := 50);
      if fault.Breaks(2) {
        RecordFailure(id, fault, now, run);
        return;
      }
      SaveCheckpoint(report, 2, now, run);
      report := report.(updatedAt := now);
      GenerateContent(id, report, fault, now, run);
    }

    /** `processReport` from the content on: the report is generated and saved at 75. */
    method GenerateContent(id: ReportId, report: Job, fault: Fault, now: Millis, ghost run: RunStart)
      requires Valid() && Launched(run.report) && id == run.report.id && id !in pending && fault.WellFormed()
      requires !fault.Breaks(1) && !fault.Breaks(2)
      requires After(run, 2, now) && report == Checkpoint(run.report, 2, run.content, now)
      requires run.content == Render(run.report, wording)
      modifies this
      ensures Valid()
      ensures jobs == run.jobs[id := Run(run.report, fault, run.content, now)]
      ensures history == run.history + Writes(run.report, fault, run.content, now)
      ensures events == run.events + RunEvents(run.report, fault)
      ensures pending == old(pending) && nextReport == old(nextReport) && dispatched == old(dispatched)
    {
      ContentIsFromForm(run.report, run.content, wording, now);
      var report := report.(generated := Some(Render(report, wording)), progress := 75);
      if fault.Breaks(3) {
        RecordFailure(id, fault, now, run);
        return;
      }
      SaveCheckpoint(report, 3, now, run);
      report := report.(updatedAt := now);
      Complete(id, report, fault, now, run);
    }

    /** `processReport` from the completion on: `completed` at 100, with the processing time. */
    method Complete(id: ReportId, report: Job, fault: Fault, now: Millis, ghost run: RunStart)
      requires Valid() && Launched(run.report) && id == run.report.id && id !in pending && fault.WellFormed()
      requires !fault.Breaks(1) && !fault.Breaks(2) && !fault.Breaks(3)
      requires After(run, 3, now) && report == Checkpoint(run.report, 3, run.content, now)
      modifies this
      ensures Valid()
      ensures jobs == run.jobs[id := Run(run.report, fault, run.content, now)]
      ensures history == run.history + Writes(run.report, fault, run.content, now)
      ensures events == run.events + RunEvents(run.report, fault)
      ensures pending == old(pending) && nextReport == old(nextReport) && dispatched == old(dispatched)
    {
      var report := report.(status := Completed, progress := 100, processingTime := now - report.createdAt);
      if fault.Breaks(4) {
        RecordFailure(id, fault, now, run);
        return;
      }
      SaveCheckpoint(report, 4, now, run);
      report := report.(updatedAt := now);
      Deliver(id, report, fault, now, run);
    }

    /** `processReport` from the PDF on: the PDF, the e-mail, and `delivered`. */
    method Deliver(id: ReportId, report: Job, fault: Fault, now: Millis, ghost run: RunStart)
      requires Valid() && Launched(run.report) && id == run.report.id && id !in pending && fault.WellFormed()
      requires !fault.Breaks(1) && !fault.Breaks(2) && !fault.Breaks(3) && !fault.Breaks(4)
      requires After(run, 4, now) && report == Checkpoint(run.report, 4, run.content, now)
      modifies this
      ensures Valid()
      ensures jobs == run.jobs[id := Run(run.report, fault, run.content, now)]
      ensures history == run.history + Writes(run.report, fault, run.content, now)
      ensures events == run.events + RunEvents(run.report, fault)
      ensures pending == old(pending) && nextReport == old(nextReport) && dispatched == old(dispatched)
    {
      if fault.PdfFails? || fault.EmailFails? {
        RecordFailure(id, fault, now, run);
        return;
      }
      var report := report.(emailSent := true, emailSentAt := Some(now), status := Delivered);
      if fault.Breaks(5) {
        RecordFailure(id, fault, now, run);
        return;
      }
      SaveCheckpoint(report, 5, now, run);
      assert events == run.events + EventsAfter(run.report, 5);
    }

    /** The state of the store after the first `k` saves of `run`. */
    ghost predicate After(run: RunStart, k: nat, now: Millis)
      requires k <= 5
      reads this`jobs, this`history, this`events
    {
      Reached(run, k, now, jobs, history, events)
    }

    /**
     * The `k`-th save of `run`, whose first `k - 1` saves went through, and
     * the event that follows it: the report as updated in memory is the
     * `k`-th checkpoint once stamped.
     */
    method SaveCheckpoint(report: Job, k: nat, now: Millis, ghost run: RunStart)
      requires Valid() && Launched(run.report) && 1 <= k <= 5 && run.report.id !in pending
      requires After(run, k - 1, now)
      requires report.(updatedAt := now) == Stage(Checkpoint(run.report, k - 1, run.content, now), k, run.content, now)
      modifies this
      ensures Valid() && After(run, k, now)
      ensures report.(updatedAt := now) == Checkpoint(run.report, k, run.content, now)
      ensures pending == old(pending) && nextReport == old(nextReport) && dispatched == old(dispatched)
    {
      SaveAdvancesRun(run, k, now, report, jobs, history, events);
      Save(report, now);
      if k <= 3 {
        events := events + [ProgressEvent(report.owner, report.id, 25 * k)];
      } else if k == 4 {
        events := events + [CompleteEvent(report.owner, report.id)];
      }
    }

    /**
     * The error handler of `processReport`, after `fault` broke `run`: the
     * report as last saved is reloaded, marked `failed` with the error's
     * message and saved, and the owner is told.
     */
    method RecordFailure(id: ReportId, fault: Fault, now: Millis, ghost run: RunStart)
      requires Valid() && fault.WellFormed() && !fault.NoFault? && Launched(run.report)
      requires id == run.report.id && id !in pending && After(run, SavesDone(fault), now)
      modifies this
      ensures Valid()
      ensures jobs == run.jobs[id := Run(run.report, fault, run.content, now)]
      ensures history == run.history + Writes(run.report, fault, run.content, now)
      ensures events == run.events + RunEvents(run.report, fault)
      ensures pending == old(pending) && nextReport == old(nextReport) && dispatched == old(dispatched)
    {
      BreakEndsRun(run, fault, now, jobs, history, events);
      var report := jobs[id];
      report := report.(status := Failed, error := Some(ErrorInfo(fault.message, now)));
      Save(report, now);
      events := events + [ErrorEvent(report.owner, id, fault.message)];
    }

    /**
     * `downloadReport`: 404 unless the report is the caller's and completed or
     * delivered; otherwise the download is counted and timed and the report
     * saved, then it is sent as JSON (format `json`) or as a PDF, whose
     * rendering may fail after the count (500).
     */
    method DownloadReport(userId: UserId, id: ReportId, format: Option<string>, pdfOk: bool, now: Millis)
      returns (r: DownloadOutcome)
      requires Valid()
      modifies this
      ensures Valid()
      ensures r.NotDownloadable? <==> !Downloadable(old(jobs), userId, id)
      ensures r.NotDownloadable? ==> jobs == old(jobs)
      ensures !r.NotDownloadable? ==>
        jobs == old(jobs)[id := old(jobs[id]).(downloadCount := old(jobs[id]).downloadCount + 1,
                                               lastDownloadAt := Some(now), updatedAt := now)]
      ensures r.JsonFile? <==> Downloadable(old(jobs), userId, id) && format == Some("json")
      ensures r.JsonFile? ==> r.content == old(jobs[id]).generated
      ensures r == PdfFailed <==> Downloadable(old(jobs), userId, id) && format != Some("json") && !pdfOk
      ensures pending == old(pending) && events == old(events) && dispatched == old(dispatched)
    {
      if !Downloadable(jobs, userId, id) {
        return NotDownloadable;
      }
      var report := jobs[id];
      report := report.(downloadCount := report.downloadCount + 1, lastDownloadAt := Some(now));
      Save(report, now);
      if format == Some("json") {
        return JsonFile(report.generated);
      }
      r := if pdfOk then PdfFile else PdfFailed;
    }

    /** `getReport`: the caller's own report, or nothing (404). */
    function GetReport(userId: UserId, id: ReportId): (r: Option<Job>)
      reads this
      ensures r.Some? <==> id in jobs && jobs[id].owner == userId
      ensures r.Some? ==> r.value == jobs[id]
    {
      if id in jobs && jobs[id].owner == userId then Some(jobs[id]) else None
    }

    /** `getReportStatus`: looked up by request id, for anyone who knows it; 404 when no report carries it. */
    function GetReportStatus(requestId: RequestId): (r: Option<StatusView>)
      requires Valid()
      reads this
      ensures r.None? <==> !RequestTaken(jobs, requestId)
      ensures r.Some? ==>
        && r.value.reportId in jobs && jobs[r.value.reportId].requestId == requestId
        && r.value.status == jobs[r.value.reportId].status && r.value.progress == jobs[r.value.reportId].progress
    {
      var ids := Ids();
      match FindRequest(jobs, ids, requestId)
      case None =>
        assert forall id :: id in jobs ==> ids[id] == id;
        None
      case Some(id) =>
        var j := jobs[id];
        Some(StatusView(j.status, j.progress, id))
    }

    /** The ids of the stored reports, in order. */
    function Ids(): (ids: seq<ReportId>)
      requires Valid()
      reads this
      ensures |ids| == nextReport
      ensures forall i :: 0 <= i < |ids| ==> ids[i] == i && i in jobs && jobs[i].id == i
    {
      seq(nextReport, i => i)
    }

    /**
     * `getUserReports`: the caller's reports (of the given status, if one is
     * given), newest first, without their content, after skipping `offset`
     * and keeping at most `limit`; `total` counts all the matching reports.
     * The page is the run of `Matching` (the matching reports, newest first)
     * that starts at `offset`. A negative `offset` is refused by the database
     * (500).
     */
    function GetUserReports(userId: UserId, status: Option<string>, limit: int, offset: int): (r: Result<Listing>)
      requires Valid()
      reads this
      ensures r.Failure? <==> offset < 0
      ensures r.Success? ==>
        var l := r.value;
        && l.total == |Filter(Ids(), Selector(jobs, userId, status))|
        && l.limit == limit && l.offset == offset
        && var m := Matching(jobs, Ids(), userId, status);
           && |l.reports| == (if offset >= |m| then 0
                              else if limit == 0 then |m| - offset
                              else Min(if limit < 0 then -limit else limit, |m| - offset))
           && forall i :: 0 <= i < |l.reports| ==> offset + i < |m| && l.reports[i] == Strip(jobs[m[offset + i]])
    {
      if offset < 0 then Failure("Failed to fetch reports")
      else
        var ids := Ids();
        Success(Listing(ListPage(jobs, ids, userId, status, limit, offset),
                        |Filter(ids, Selector(jobs, userId, status))|, limit, offset))
    }
  }
}
