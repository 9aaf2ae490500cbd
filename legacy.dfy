/**
 * The legacy submission pipeline (server.js, and its copy in
 * server-enhanced.js, over models/Submission.js): a URL is submitted, stored
 * as a `queued` submission and handed to the external n8n workflow by
 * webhook; the workflow writes the submission's status back, and a change
 * stream re-derives the progress from it; the results endpoint tells a
 * finished assessment from one still under way.
 *
 * The two servers differ in two places, chosen by `Server`: server.js always
 * calls a webhook (a hard-coded address when none is configured) and looks
 * assessments up by `requestId`; server-enhanced.js calls the webhook only
 * when one is configured and looks assessments up by `formData.reportId`.
 */
module Legacy {
  import opened Common

  datatype Server = Original | Enhanced

  // ---------------------------------------------------------------------------
  // status and progress
  // ---------------------------------------------------------------------------

  /** The status enum of models/Submission.js. */
  const SubmissionStatuses: seq<string> := ["queued", "processing", "done", "error"]

  /**
   * `getProgressForStatus(status)`: the `STATUS_PROGRESS` table, identical in
   * both servers, with 0 for a status the table does not list.
   */
  function ProgressForStatus(status: string): (p: nat)
    ensures p <= 100
    ensures p == 100 <==> status == "done"
    ensures p > 0 <==> status == "queued" || status == "processing" || status == "done"
    ensures status !in SubmissionStatuses ==> p == 0
    ensures status == "queued" ==> p == 25
    ensures status == "processing" ==> p == 75
  {
    if status == "queued" then 25
    else if status == "processing" then 75
    else if status == "done" then 100
    else 0
  }

  /** Progress rises along the lifecycle queued, processing, done; an error reports none. */
  lemma ProgressFollowsLifecycle()
    ensures ProgressForStatus("queued") < ProgressForStatus("processing") < ProgressForStatus("done")
    ensures ProgressForStatus("error") == 0
  {
  }

  /** The model enum of models/Submission.js and the whitelist of `/api/submit`. */
  const ValidModels: seq<string> := ["sonar", "sonar-pro", "sonar-deep-research"]
  const DefaultModel := "sonar"

  /** `model || 'sonar'`, accepted only when whitelisted. */
  function SelectModel(model: Option<string>): (m: Option<string>)
    ensures m.Some? <==> OrElse(model, DefaultModel) in ValidModels
    ensures m.Some? ==> m.value == OrElse(model, DefaultModel) && m.value in ValidModels
    ensures !Truthy(model) ==> m == Some(DefaultModel)
  {
    var selected := OrElse(model, DefaultModel);
    if selected in ValidModels then Some(selected) else None
  }

  // ---------------------------------------------------------------------------
  // records
  // ---------------------------------------------------------------------------

  /** The form fields of a submission; their values are not interpreted here. */
  type FormData = map<string, string>

  /**
   * A stored submission. `status` is a string because the external workflow
   * writes it straight into the collection, past the schema's enum.
   * `progress` is optional because the status endpoint falls back to the table
   * when it is missing.
   */
  datatype Submission = Submission(
    requestId: string, url: string, submittedBy: string, model: string,
    formData: FormData, status: string, progress: Option<int>,
    createdAt: Millis, updatedAt: Millis)

  /** The body posted to the workflow's webhook. */
  datatype WebhookPayload = WebhookPayload(
    requestId: string, url: string, submittedBy: string, model: string,
    formData: FormData, createdAt: Millis)

  datatype WebhookCall = WebhookCall(address: string, payload: WebhookPayload)

  /** A submitted record's progress is what the table gives for its status. */
  predicate Synced(s: Submission) {
    s.progress == Some(ProgressForStatus(s.status))
  }

  datatype SubmitReply =
    | Accepted(requestId: string, status: string, progress: nat, model: string)
    | Rejected(error: string)
    | Failed(error: string)
  {
    function Code(): nat {
      if Accepted? then 201 else if Rejected? then 400 else 500
    }
  }

  const UrlRequired := "URL is required"
  const InvalidUrl := "Invalid URL format"
  const InvalidModel := "Invalid model. Must be one of: sonar, sonar-pro, sonar-deep-research"
  const SubmitFailed := "Failed to submit request"

  /** What the status endpoint reports. */
  datatype StatusReply =
    | StatusNotFound
    | StatusOf(requestId: string, status: string, progress: int, url: string, submittedBy: string,
               createdAt: Millis, updatedAt: Millis)

  /** The three-way outcome of the results endpoint, besides the results themselves. */
  datatype ResultsReply = Found | RequestNotFound | NotComplete(status: string) | AssessmentNotFound
  {
    function Code(): nat {
      match this
      case Found => 200
      case RequestNotFound => 404
      case NotComplete(_) => 202
      case AssessmentNotFound => 404
    }
  }

  /**
   * The assessments the workflow has written, by the two keys the servers
   * look them up with: their own `requestId` and their `formData.reportId`.
   */
  datatype AssessmentKeys = AssessmentKeys(byRequestId: set<string>, byReportId: set<string>)

  // ---------------------------------------------------------------------------
  // the submissions collection
  // ---------------------------------------------------------------------------

  class SubmissionStore {
    var submissions: map<string, Submission>
    /** Every webhook call made, in order (its outcome never matters). */
    var webhookCalls: seq<WebhookCall>
    /** server.js's webhook address when none is configured. */
    const fallbackWebhook: string

    /** Each submission is stored under its own `requestId`. */
    ghost predicate Valid()
      reads this
    {
      forall id :: id in submissions ==> submissions[id].requestId == id
    }

    constructor ()
      ensures Valid() && submissions == map[] && webhookCalls == []
      ensures fallbackWebhook == "https://fissiparous-subintentional-kaidence.ngrok-free.dev/webhook/zuvomo-assessment"
    {
      submissions := map[];
      webhookCalls := [];
      fallbackWebhook := "https://fissiparous-subintentional-kaidence.ngrok-free.dev/webhook/zuvomo-assessment";
    }

    /**
     * `POST /api/submit`: 400 without a URL, with one that does not parse
     * (`urlParses` stands for `new URL(url)`), or with a model outside the
     * whitelist; otherwise a `queued` submission with progress 25 is stored
     * under `requestId`, the webhook is called as the server does it, and
     * the reply is 201 `queued` whatever the webhook did. A `requestId`
     * already stored makes the save fail on the unique index: 500, with
     * nothing stored and no webhook called.
     */
    method Submit(server: Server, url: Option<string>, urlParses: bool, submittedBy: Option<string>,
                  model: Option<string>, formData: Option<FormData>, requestId: string,
                  webhookSetting: Option<string>, now: Millis)
      returns (r: SubmitReply)
      requires Valid()
      modifies this
      ensures Valid()
      ensures !Truthy(url) ==> r == Rejected(UrlRequired)
      ensures Truthy(url) && !urlParses ==> r == Rejected(InvalidUrl)
      ensures Truthy(url) && urlParses && SelectModel(model).None? ==> r == Rejected(InvalidModel)
      ensures r.Failed? <==> Truthy(url) && urlParses && SelectModel(model).Some? && requestId in old(submissions)
      ensures r.Failed? ==> r == Failed(SubmitFailed)
      ensures !r.Accepted? ==> submissions == old(submissions) && webhookCalls == old(webhookCalls)
      ensures r.Accepted? <==> Truthy(url) && urlParses && SelectModel(model).Some? && requestId !in old(submissions)
      ensures r.Accepted? ==>
        var s := Submission(requestId, url.value, OrElse(submittedBy, "anonymous"), SelectModel(model).value,
                            formData.GetOr(map[]), "queued", Some(25), now, now);
        && r == Accepted(requestId, "queued", 25, s.model)
        && submissions == old(submissions)[requestId := s]
        && Synced(s)
        && webhookCalls == old(webhookCalls) + WebhookCalls(server, webhookSetting, s)
    {
      if !Truthy(url) {
        return Rejected(UrlRequired);
      }
      if !urlParses {
        return Rejected(InvalidUrl);
      }
      var selected := SelectModel(model);
      if selected.None? {
        return Rejected(InvalidModel);
      }
      if requestId in submissions {
        return Failed(SubmitFailed);
      }
      var s := Submission(requestId, url.value, OrElse(submittedBy, "anonymous"), selected.value,
                          formData.GetOr(map[]), "queued", Some(ProgressForStatus("queued")), now, now);
      submissions := submissions[requestId := s];
      webhookCalls := webhookCalls + WebhookCalls(server, webhookSetting, s);
      r := Accepted(requestId, "queued", ProgressForStatus("queued"), selected.value);
    }

    /**
     * The webhook calls of one submission: server.js always makes one, to the
     * configured address or else its fallback; server-enhanced.js makes one
     * only when an address is configured.
     */
    function WebhookCalls(server: Server, webhookSetting: Option<string>, s: Submission): (calls: seq<WebhookCall>)
      reads this
      ensures |calls| <= 1
      ensures server.Original? ==> |calls| == 1 && calls[0].address == OrElse(webhookSetting, fallbackWebhook)
      ensures server.Enhanced? ==> (|calls| == 1 <==> Truthy(webhookSetting))
      ensures server.Enhanced? && |calls| == 1 ==> calls[0].address == webhookSetting.value
      ensures |calls| == 1 ==> calls[0].payload.requestId == s.requestId && calls[0].payload.url == s.url
    {
      var payload := WebhookPayload(s.requestId, s.url, s.submittedBy, s.model, s.formData, s.createdAt);
      match server
      case Original => [WebhookCall(OrElse(webhookSetting, fallbackWebhook), payload)]
      case Enhanced => if Truthy(webhookSetting) then [WebhookCall(webhookSetting.value, payload)] else []
    }

    /**
     * The workflow writes `status` into a submission, and the change stream
     * reacts to the update: when the update carries a (non-empty) status, the
     * progress is re-derived from it. A submission that is not stored is not
     * touched.
     */
    method ApplyStatusUpdate(requestId: string, status: string, now: Millis)
      requires Valid()
      modifies this
      ensures Valid() && webhookCalls == old(webhookCalls)
      ensures requestId !in old(submissions) ==> submissions == old(submissions)
      ensures requestId in old(submissions) ==>
        var s := old(submissions)[requestId];
        && requestId in submissions
        && submissions == old(submissions)[requestId := submissions[requestId]]
        && submissions[requestId].status == status
        && (status != "" ==> Synced(submissions[requestId]) && submissions[requestId].updatedAt == now)
        && (status != "" ==>
              submissions[requestId] == s.(status := status, progress := Some(ProgressForStatus(status)), updatedAt := now))
        && (status == "" ==> submissions[requestId] == s.(status := status))
    {
      if requestId !in submissions {
        return;
      }
      submissions := submissions[requestId := submissions[requestId].(status := status)];
      OnStatusChange(requestId, status, now);
    }

    /** The change-stream handler for an update whose changed fields include `status`. */
    method OnStatusChange(requestId: string, updatedStatus: string, now: Millis)
      requires Valid() && requestId in submissions
      modifies this
      ensures Valid() && webhookCalls == old(webhookCalls)
      ensures updatedStatus == "" ==> submissions == old(submissions)
      ensures updatedStatus != "" ==>
        submissions == old(submissions)[requestId := old(submissions)[requestId].(
          progress := Some(ProgressForStatus(updatedStatus)), updatedAt := now)]
    {
      if updatedStatus != "" {
        UpdateSubmissionProgress(requestId, updatedStatus, now);
      }
    }

    /**
     * `updateSubmissionProgress(requestId, status)` (server.js; defined but
     * never called there): sets the progress the table gives for `status`
     * and the update time, leaving the status itself alone.
     */
    method UpdateSubmissionProgress(requestId: string, status: string, now: Millis)
      requires Valid()
      modifies this
      ensures Valid() && webhookCalls == old(webhookCalls)
      ensures requestId !in old(submissions) ==> submissions == old(submissions)
      ensures requestId in old(submissions) ==>
        submissions == old(submissions)[requestId := old(submissions)[requestId].(
          progress := Some(ProgressForStatus(status)), updatedAt := now)]
    {
      if requestId in submissions {
        submissions := submissions[requestId := submissions[requestId].(
          progress := Some(ProgressForStatus(status)), updatedAt := now)];
      }
    }

    /** `GET /api/status/:requestId`: 404 for an unknown id; the progress falls back to the table when missing. */
    function Status(requestId: string): (r: StatusReply)
      reads this
      ensures r.StatusNotFound? <==> requestId !in submissions
      ensures r.StatusOf? ==>
        var s := submissions[requestId];
        && r.status == s.status
        && (s.progress.Some? ==> r.progress == s.progress.value)
        && (s.progress.None? ==> r.progress == ProgressForStatus(s.status))
    {
      if requestId !in submissions then StatusNotFound
      else
        var s := submissions[requestId];
        StatusOf(s.requestId, s.status, s.progress.GetOr(ProgressForStatus(s.status)), s.url, s.submittedBy,
                 s.createdAt, s.updatedAt)
    }

    /**
     * `GET /api/results/:requestId`: the assessment when there is one (looked
     * up by the key the server uses); otherwise 404 for an unknown request,
     * 202 while the submission is not `done`, and 404 when it is done but the
     * assessment is missing.
     */
    function Results(server: Server, requestId: string, assessments: AssessmentKeys): (r: ResultsReply)
      reads this
      ensures r.Found? <==> requestId in AssessmentIndex(server, assessments)
      ensures r == RequestNotFound <==> requestId !in AssessmentIndex(server, assessments) && requestId !in submissions
      ensures r.NotComplete? <==>
        requestId !in AssessmentIndex(server, assessments) && requestId in submissions
        && submissions[requestId].status != "done"
      ensures r.NotComplete? ==> r.status == submissions[requestId].status
      ensures r == AssessmentNotFound <==>
        requestId !in AssessmentIndex(server, assessments) && requestId in submissions
        && submissions[requestId].status == "done"
    {
      if requestId in AssessmentIndex(server, assessments) then Found
      else if requestId !in submissions then RequestNotFound
      else if submissions[requestId].status != "done" then NotComplete(submissions[requestId].status)
      else AssessmentNotFound
    }
  }

  /** The assessments' key each server looks the request id up in. */
  function AssessmentIndex(server: Server, assessments: AssessmentKeys): set<string> {
    match server
    case Original => assessments.byRequestId
    case Enhanced => assessments.byReportId
  }

  /**
   * The two servers answer differently for an assessment stored under a
   * request id but linked to another report id: server.js returns it,
   * server-enhanced.js does not find it.
   */
  lemma ServersDisagreeOnLookup(store: SubmissionStore, requestId: string, assessments: AssessmentKeys)
    requires requestId in assessments.byRequestId && requestId !in assessments.byReportId
    ensures store.Results(Original, requestId, assessments).Code() == 200
    ensures store.Results(Enhanced, requestId, assessments).Code() != 200
  {
  }
}
