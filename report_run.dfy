/**
 * What one run of `processReport` (controllers/report.controller.js) does to
 * a report, as values: the five saves it makes, where a run can break, the
 * record it leaves behind and the socket events it emits to the owner.
 *
 * A run is one atomic step with one clock reading `now` (the two-second pause
 * is not modelled). A run breaks when a save throws (a database error), when
 * the PDF cannot be rendered or when the e-mail cannot be sent; the error
 * handler then reloads the report as last saved, marks it `failed` with the
 * error's message and saves it.
 */
module ReportRun {
  import opened Common
  import opened ReportModel
  import opened ReportContent
  import Ordering

  /** Where a run breaks, if it does: the `save`-th save (1 to 5), the PDF, or the e-mail. */
  datatype Fault =
    | NoFault
    | SaveFails(save: nat, message: string)
    | PdfFails(message: string)
    | EmailFails(message: string)
  {
    predicate WellFormed() {
      SaveFails? ==> 1 <= save <= 5
    }

    /** The `k`-th save throws. */
    predicate Breaks(k: nat) {
      SaveFails? && save == k
    }
  }

  /** How many saves of the run went through before it broke. */
  function SavesDone(f: Fault): (n: nat)
    requires f.WellFormed()
    ensures n <= 5
    ensures n == 5 <==> f.NoFault?
    ensures f.SaveFails? <==> n < 4 || (n == 4 && f.Breaks(5))
  {
    match f
    case NoFault => 5
    case SaveFails(k, _) => k - 1
    case PdfFails(_) => 4
    case EmailFails(_) => 4
  }

  function FaultMessage(f: Fault): string
    requires !f.NoFault?
  {
    f.message
  }

  /**
   * The report as the `k`-th save of a run writes it, from the report as the
   * previous save left it: 25 and `processing`; 50; the generated `content`
   * and 75; `completed`, 100 and the processing time; the e-mail flags and
   * `delivered`. Each save stamps `updatedAt`. The content is what
   * `generateReportContent` makes of the report (`ContentIsFromForm`).
   */
  function Stage(j: Job, k: nat, content: GeneratedReport, now: Millis): Job
    requires 1 <= k <= 5
  {
    if k == 1 then j.(status := Processing, progress := 25, updatedAt := now)
    else if k == 2 then j.(progress := 50, updatedAt := now)
    else if k == 3 then j.(generated := Some(content), progress := 75, updatedAt := now)
    else if k == 4 then j.(status := Completed, progress := 100, processingTime := now - j.createdAt, updatedAt := now)
    else j.(emailSent := true, emailSentAt := Some(now), status := Delivered, updatedAt := now)
  }

  /** The report after the first `k` saves of a run. */
  function Checkpoint(j: Job, k: nat, content: GeneratedReport, now: Millis): Job
    requires k <= 5
  {
    if k == 0 then j else Stage(Checkpoint(j, k - 1, content, now), k, content, now)
  }

  /** The progress written by the `k`-th save. */
  function ProgressAt(k: nat): int
    requires k <= 5
  {
    if k == 0 then 0 else if k <= 4 then 25 * k else 100
  }

  /** A report whose runner is scheduled: `processing` at 0, no content yet, not failed, not delivered. */
  predicate Launched(j: Job) {
    && SchemaValid(j) && Coherent(j)
    && j.status == Processing && j.progress == 0 && j.generated.None? && j.error.None? && !j.emailSent
  }

  /**
   * The shape of each checkpoint of a launched report: its progress, its
   * status, whether it holds content and whether it was e-mailed. Every
   * checkpoint passes the schema's validators and is coherent.
   */
  lemma {:induction false} CheckpointShape(j: Job, k: nat, content: GeneratedReport, now: Millis)
    requires Launched(j) && k <= 5
    ensures var c := Checkpoint(j, k, content, now);
      && c.progress == ProgressAt(k)
      && (1 <= k <= 3 ==> c.status == Processing)
      && (k == 4 ==> c.status == Completed)
      && (k == 5 ==> c.status == Delivered)
      && (c.generated.Some? <==> k >= 3)
      && (k >= 3 ==> c.generated == Some(content))
      && (c.emailSent <==> k == 5)
      && c.error.None?
      && c.id == j.id && c.owner == j.owner && c.requestId == j.requestId && c.documents == j.documents
      && SchemaValid(c) && Coherent(c)
  {
    if k > 0 {
      CheckpointShape(j, k - 1, content, now);
    }
  }

  /** Progress never goes down during a run. */
  lemma ProgressNeverDecreases(j: Job, k1: nat, k2: nat, content: GeneratedReport, now: Millis)
    requires Launched(j) && k1 <= k2 <= 5
    ensures Checkpoint(j, k1, content, now).progress <= Checkpoint(j, k2, content, now).progress
  {
    CheckpointShape(j, k1, content, now);
    CheckpointShape(j, k2, content, now);
  }

  /**
   * The content the runner generates after the second save, from the report
   * as saved, is the template filled from the report's own form fields.
   */
  lemma ContentIsFromForm(j: Job, content: GeneratedReport, w: Wording, now: Millis)
    requires Launched(j)
    ensures Render(Checkpoint(j, 2, content, now), w) == Render(j, w)
  {
    var c := Checkpoint(j, 2, content, now);
    assert Checkpoint(j, 0, content, now) == j;
    assert Checkpoint(j, 1, content, now) == j.(status := Processing, progress := 25, updatedAt := now);
    assert c == j.(status := Processing, progress := 50, updatedAt := now);
    ContentDependsOnFormOnly(c, j, w);
  }

  /**
   * The record a run leaves: the fifth checkpoint, or the last checkpoint
   * that was saved, marked `failed` with the error's message.
   */
  function Run(j: Job, f: Fault, content: GeneratedReport, now: Millis): Job
    requires f.WellFormed()
  {
    if f.NoFault? then Checkpoint(j, 5, content, now)
    else MarkFailed(Checkpoint(j, SavesDone(f), content, now), FaultMessage(f), now)
  }

  /** The error handler's update of the reloaded report. */
  function MarkFailed(j: Job, message: string, now: Millis): Job {
    j.(status := Failed, error := Some(ErrorInfo(message, now)), updatedAt := now)
  }

  /**
   * A run ends `delivered` exactly when nothing broke; otherwise it ends
   * `failed` with the error's message, keeping the progress of the last
   * save that went through. Either way the record is valid and coherent.
   */
  lemma RunOutcome(j: Job, f: Fault, content: GeneratedReport, now: Millis)
    requires Launched(j) && f.WellFormed()
    ensures var r := Run(j, f, content, now);
      && (r.status == Delivered <==> f.NoFault?)
      && (r.status == Delivered ==> r.emailSent && r.emailSentAt == Some(now) && r.progress == 100)
      && (!f.NoFault? ==>
            r.status == Failed && r.error == Some(ErrorInfo(FaultMessage(f), now))
            && r.progress == ProgressAt(SavesDone(f)))
      && r.id == j.id && r.owner == j.owner && r.requestId == j.requestId
      && SchemaValid(r) && Coherent(r)
  {
    CheckpointShape(j, SavesDone(f), content, now);
  }

  /**
   * A PDF or e-mail failure after the report was completed still turns it
   * `failed`, with its content and progress 100 kept and no e-mail recorded.
   */
  lemma DeliveryFailureFailsCompletedReport(j: Job, f: Fault, content: GeneratedReport, now: Millis)
    requires Launched(j) && (f.PdfFails? || f.EmailFails?)
    ensures var r := Run(j, f, content, now);
      && r.status == Failed && r.progress == 100 && r.generated == Some(content) && !r.emailSent
  {
    CheckpointShape(j, 4, content, now);
  }

  /** The saves of a run, in order: the checkpoints that went through, then the failure record if it broke. */
  function Writes(j: Job, f: Fault, content: GeneratedReport, now: Millis): seq<Job>
    requires f.WellFormed()
  {
    Checkpoints(j, SavesDone(f), content, now) + (if f.NoFault? then [] else [Run(j, f, content, now)])
  }

  function Checkpoints(j: Job, n: nat, content: GeneratedReport, now: Millis): (cs: seq<Job>)
    requires n <= 5
    ensures |cs| == n
  {
    if n == 0 then [] else Checkpoints(j, n - 1, content, now) + [Checkpoint(j, n, content, now)]
  }

  /** The `i`-th save of a run writes checkpoint `i + 1`. */
  lemma {:induction false} CheckpointsAt(j: Job, n: nat, content: GeneratedReport, now: Millis, i: nat)
    requires i < n <= 5
    ensures Checkpoints(j, n, content, now)[i] == Checkpoint(j, i + 1, content, now)
  {
    if i < n - 1 {
      CheckpointsAt(j, n - 1, content, now, i);
    }
  }

  /** The saved progress values rise 25, 50, 75, 100 (and 100 again for the delivery). */
  lemma WritesInOrder(j: Job, f: Fault, content: GeneratedReport, now: Millis)
    requires Launched(j) && f.WellFormed()
    ensures var ws := Writes(j, f, content, now);
      && |ws| == SavesDone(f) + (if f.NoFault? then 0 else 1)
      && forall i :: 0 <= i < SavesDone(f) ==> ws[i].progress == ProgressAt(i + 1)
  {
    var ws := Writes(j, f, content, now);
    forall i | 0 <= i < SavesDone(f)
      ensures ws[i].progress == ProgressAt(i + 1)
    {
      CheckpointsAt(j, SavesDone(f), content, now, i);
      CheckpointShape(j, i + 1, content, now);
    }
  }

  /** The events of a run, all sent to the owner's room. */
  datatype Event =
    | ProgressEvent(user: UserId, report: ReportId, progress: nat)
    | CompleteEvent(user: UserId, report: ReportId)
    | ErrorEvent(user: UserId, report: ReportId, message: string)

  /** The event that follows the `k`-th save: progress after the first three, completion after the fourth. */
  function StageEvents(j: Job, k: nat): seq<Event>
    requires 1 <= k <= 5
  {
    if k <= 3 then [ProgressEvent(j.owner, j.id, 25 * k)]
    else if k == 4 then [CompleteEvent(j.owner, j.id)]
    else []
  }

  /** The events that follow the first `n` saves. */
  function EventsAfter(j: Job, n: nat): seq<Event>
    requires n <= 5
  {
    if n == 0 then [] else EventsAfter(j, n - 1) + StageEvents(j, n)
  }

  /** The events of a run: those of the saves that went through, then an error event if it broke. */
  function RunEvents(j: Job, f: Fault): seq<Event>
    requires f.WellFormed()
  {
    EventsAfter(j, SavesDone(f)) + (if f.NoFault? then [] else [ErrorEvent(j.owner, j.id, FaultMessage(f))])
  }

  /**
   * The completion event is sent exactly when the fourth save went through,
   * and it comes after every progress event; progress rises from one event
   * to the next; an error event, when there is one, comes last.
   */
  lemma EventsInOrder(j: Job, f: Fault)
    requires f.WellFormed()
    ensures var es := RunEvents(j, f);
      && |es| == Ordering.Min(SavesDone(f), 4) + (if f.NoFault? then 0 else 1)
      && ((exists i :: 0 <= i < |es| && es[i].CompleteEvent?) <==> SavesDone(f) >= 4)
      && (forall i, k :: 0 <= i < k < |es| && es[k].ProgressEvent? ==> es[i].ProgressEvent? && es[i].progress < es[k].progress)
      && (forall i :: 0 <= i < |es| && es[i].ErrorEvent? ==> i == |es| - 1 && !f.NoFault?)
  {
    var n := SavesDone(f);
    var m := Ordering.Min(n, 4);
    var es := RunEvents(j, f);
    EventsAfterSpelled(j, n);
    assert forall i :: 0 <= i < m && i < 3 ==> es[i] == ProgressEvent(j.owner, j.id, 25 * (i + 1));
    if n >= 4 {
      assert es[3].CompleteEvent?;
    } else {
      assert forall i :: 0 <= i < |es| ==> es[i].ProgressEvent? || es[i].ErrorEvent?;
    }
  }

  /** The events after `n` saves, written out: 25, 50, 75, then the completion. */
  lemma EventsAfterSpelled(j: Job, n: nat)
    requires n <= 5
    ensures var full := [ProgressEvent(j.owner, j.id, 25), ProgressEvent(j.owner, j.id, 50),
                         ProgressEvent(j.owner, j.id, 75), CompleteEvent(j.owner, j.id)];
      EventsAfter(j, n) == full[..Ordering.Min(n, 4)]
  {
    var full := [ProgressEvent(j.owner, j.id, 25), ProgressEvent(j.owner, j.id, 50),
                 ProgressEvent(j.owner, j.id, 75), CompleteEvent(j.owner, j.id)];
    assert EventsAfter(j, 1) == full[..1];
    assert EventsAfter(j, 2) == full[..2];
    assert EventsAfter(j, 3) == full[..3];
    assert EventsAfter(j, 4) == full[..4];
  }
}
