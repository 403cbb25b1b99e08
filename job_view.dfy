/**
 * The job page: which controls it offers for the job's status, branch and
 * pull request, the status badge, the default pull-request title, and the
 * output log it accumulates from the server's event stream.
 */
module JobView {
  import opened Wrappers
  import opened Text

  /** The job resource as the server returns it; null fields are None. */
  datatype Job = Job(
    id: nat,
    jobType: string,
    status: string,
    branch: Option<string>,
    prUrl: Option<string>,
    prTitle: Option<string>,
    prBody: Option<string>,
    issueNo: Option<nat>,
    issueTitle: Option<string>,
    diff: Option<string>,
    log: Option<string>)

  /** `!!x` for a string that may be null: present and non-empty. */
  predicate Truthy(x: Option<string>) {
    x.Some? && x.value != ""
  }

  /** `x || ''` */
  function OrEmpty(x: Option<string>): (r: string)
    ensures Truthy(x) ==> r == x.value
    ensures !Truthy(x) ==> r == ""
  {
    if Truthy(x) then x.value else ""
  }

  /** `${x}` for a string that may be null. */
  function Interpolate(x: Option<string>): string {
    match x
    case Some(s) => s
    case None => "null"
  }

  datatype Badge = Success | Error | Accent | Warning | Neutral

  /** The badge shown beside the status. */
  function BadgeFor(status: string): (badge: Badge)
    ensures badge == Success <==> status == "completed"
    ensures badge == Error <==> status == "failed"
    ensures badge == Accent <==> status == "running"
    ensures badge == Warning <==> status == "cancelled"
    ensures badge == Neutral <==> status !in {"completed", "failed", "running", "cancelled"}
  {
    if status == "completed" then Success
    else if status == "failed" then Error
    else if status == "running" then Accent
    else if status == "cancelled" then Warning
    else Neutral
  }

  /** The controls the page offers. */
  datatype Actions = Actions(cancel: bool, retry: bool, delete: bool, createPr: bool, followUp: bool)

  /**
   * The controls for the page's `status` and the loaded job: Cancel while
   * running, Retry after a failure or a cancellation, Delete whenever not
   * running, and the pull-request and follow-up forms for a completed job
   * that has a branch and no pull request yet.
   */
  function OfferedActions(status: string, job: Job): (offered: Actions)
    ensures offered.cancel <==> status == "running"
    ensures offered.delete <==> status != "running"
    ensures offered.retry <==> status == "failed" || status == "cancelled"
    ensures offered.createPr <==> status == "completed" && Truthy(job.branch) && !Truthy(job.prUrl)
    ensures offered.followUp <==> offered.createPr
  {
    var forms := status == "completed" && Truthy(job.branch) && !Truthy(job.prUrl);
    Actions(status == "running", status == "failed" || status == "cancelled", status != "running", forms, forms)
  }

  /** Cancel and Delete are never offered together, nor Cancel and Retry; the forms never beside Cancel. */
  lemma ActionsExclusive(status: string, job: Job)
    ensures var offered := OfferedActions(status, job);
      && offered.cancel != offered.delete
      && !(offered.cancel && offered.retry)
      && (offered.createPr ==> !offered.cancel && !offered.retry && offered.delete)
  {
  }

  /** Once a pull request exists, neither the pull-request form nor the follow-up form comes back. */
  lemma PublishedJobOffersNoForms(status: string, job: Job)
    requires Truthy(job.prUrl)
    ensures !OfferedActions(status, job).createPr && !OfferedActions(status, job).followUp
  {
  }

  /**
   * The title the pull-request form starts with: the stored title, or
   * "type: Issue #n" for a job with an issue number, or "type: issue title".
   */
  function DefaultPrTitle(job: Job): (title: string)
    ensures Truthy(job.prTitle) ==> title == job.prTitle.value
    ensures !Truthy(job.prTitle) && job.issueNo.Some? ==>
      title == job.jobType + ": Issue #" + DecimalString(job.issueNo.value)
    ensures !Truthy(job.prTitle) && job.issueNo.None? ==>
      title == job.jobType + ": " + Interpolate(job.issueTitle)
  {
    if Truthy(job.prTitle) then job.prTitle.value
    else if job.issueNo.Some? then job.jobType + ": Issue #" + DecimalString(job.issueNo.value)
    else job.jobType + ": " + Interpolate(job.issueTitle)
  }

  /** The default title of an issue's job names the issue: its number reads back from the title. */
  lemma DefaultPrTitleNamesIssue(job: Job)
    requires !Truthy(job.prTitle) && job.issueNo.Some?
    ensures var title := DefaultPrTitle(job);
      var prefix := job.jobType + ": Issue #";
      && StartsWith(title, prefix)
      && AllDigits(title[|prefix|..])
      && ParseDecimal(title[|prefix|..]) == job.issueNo.value
  {
    var title := DefaultPrTitle(job);
    var prefix := job.jobType + ": Issue #";
    assert title[..|prefix|] == prefix;
    assert title[|prefix|..] == DecimalString(job.issueNo.value);
    ParseDecimalString(job.issueNo.value);
  }

  /** The chunks of a stream, joined in arrival order. */
  function Concat(chunks: seq<string>): string {
    if |chunks| == 0 then "" else chunks[0] + Concat(chunks[1..])
  }

  lemma {:induction false} ConcatAppend(chunks: seq<string>, chunk: string)
    ensures Concat(chunks + [chunk]) == Concat(chunks) + chunk
  {
    if |chunks| == 0 {
      assert chunks + [chunk] == [chunk];
    } else {
      assert (chunks + [chunk])[1..] == chunks[1..] + [chunk];
      ConcatAppend(chunks[1..], chunk);
    }
  }

  /** The three faces of the page. */
  datatype Screen = LoadingScreen | ErrorScreen(message: string) | JobScreen

  class JobPage {
    var job: Option<Job>
    var log: string
    var status: string
    var error: Option<string>
    var followUpMessage: string
    var followUpLoading: bool

    /** The page before the job has loaded. */
    constructor ()
      ensures job == None && log == "" && status == "" && error == None
      ensures followUpMessage == "" && !followUpLoading
    {
      job, log, status, error := None, "", "", None;
      followUpMessage, followUpLoading := "", false;
    }

    /**
     * What the page shows: a placeholder until the job or an error arrives,
     * the error alone while there is no job. An empty message is falsy, so
     * it leaves the placeholder.
     */
    function Shown(): (screen: Screen)
      reads this
      ensures screen == LoadingScreen <==> job.None? && !Truthy(error)
      ensures screen.ErrorScreen? <==> job.None? && Truthy(error)
      ensures screen.ErrorScreen? ==> screen.message == error.value && screen.message != ""
      ensures screen == JobScreen <==> job.Some?
    {
      if job.None? && !Truthy(error) then LoadingScreen
      else if job.None? then ErrorScreen(error.value)
      else JobScreen
    }

    /** The job arrived: the persisted log replaces whatever was shown. */
    method Loaded(loaded: Job)
      modifies this`job, this`log, this`status
      ensures job == Some(loaded) && log == OrEmpty(loaded.log) && status == loaded.status
    {
      job, log, status := Some(loaded), OrEmpty(loaded.log), loaded.status;
    }

    /** Loading the job, or one of the page's actions, failed. */
    method Failed(message: string)
      modifies this`error
      ensures error == Some(message)
    {
      error := Some(message);
    }

    /** A chunk of output arrived on the event stream: it goes at the end of the log. */
    method OnLog(chunk: string)
      modifies this`log
      ensures log == old(log) + chunk
    {
      log := log + chunk;
    }

    /** The stream's messages, delivered one after another, in order. */
    method OnLogAll(chunks: seq<string>)
      modifies this`log
      ensures log == old(log) + Concat(chunks)
    {
      var i := 0;
      while i < |chunks|
        invariant 0 <= i <= |chunks|
        invariant log == old(log) + Concat(chunks[..i])
      {
        ConcatAppend(chunks[..i], chunks[i]);
        assert chunks[..i + 1] == chunks[..i] + [chunks[i]];
        OnLog(chunks[i]);
        i := i + 1;
      }
      assert chunks[..i] == chunks;
    }

    /** The stream ended with a final status (or "disconnected"); the job is fetched again. */
    method OnDone(newStatus: string)
      modifies this`status
      ensures status == newStatus
    {
      status := newStatus;
    }

    /**
     * The job fetched after the stream ended: the persisted log replaces the
     * accumulated one; the status stays the one the stream reported.
     */
    method Refetched(fetched: Job)
      modifies this`job, this`log
      ensures job == Some(fetched) && log == OrEmpty(fetched.log)
    {
      job, log := Some(fetched), OrEmpty(fetched.log);
    }

    /** Cancelling returned the updated job. */
    method CancelReturned(updated: Job)
      modifies this`job, this`status
      ensures job == Some(updated) && status == updated.status
    {
      job, status := Some(updated), updated.status;
    }

    /** Opening the pull request returned the updated job. */
    method PrCreated(updated: Job)
      modifies this`job
      ensures job == Some(updated)
    {
      job := Some(updated);
    }

    /** The controls on a loaded page. */
    function Offered(): (offered: Actions)
      reads this
      requires job.Some?
      ensures offered.cancel <==> status == "running"
      ensures offered.delete <==> status != "running"
      ensures offered.retry <==> status == "failed" || status == "cancelled"
      ensures offered.createPr <==> status == "completed" && Truthy(job.value.branch) && !Truthy(job.value.prUrl)
      ensures offered.followUp <==> offered.createPr
    {
      OfferedActions(status, job.value)
    }

    method EditFollowUp(value: string)
      modifies this`followUpMessage
      ensures followUpMessage == value
    {
      followUpMessage := value;
    }

    /** The Send Feedback button: disabled for a message of white space alone, and while one is out. */
    function FollowUpDisabled(): (disabled: bool)
      reads this
      ensures disabled <==> Blank(followUpMessage) || followUpLoading
    {
      TrimEmptyIffBlank(followUpMessage);
      Trim(followUpMessage) == "" || followUpLoading
    }

    /**
     * Send Feedback: a message of white space alone sends nothing; otherwise
     * the trimmed message goes, and it is non-empty (Text.TrimIsIdempotent: trimming it
     * again changes nothing).
     */
    method SendFollowUp() returns (message: Option<string>)
      modifies this`error, this`followUpLoading
      ensures message == if Blank(followUpMessage) then None else Some(Trim(followUpMessage))
      ensures message.Some? ==> message.value != "" && error == None && followUpLoading
      ensures message.None? ==> error == old(error) && followUpLoading == old(followUpLoading)
    {
      var typed := followUpMessage;
      var trimmed := Trim(typed);
      TrimEmptyIffBlank(typed);
      if trimmed == "" {
        message := None;
      } else {
        followUpLoading, error := true, None;
        message := Some(trimmed);
      }
    }

    /** The follow-up job was created: the input is cleared (the page then moves to the new job). */
    method FollowUpSent()
      modifies this`followUpMessage, this`followUpLoading
      ensures followUpMessage == "" && !followUpLoading
    {
      followUpMessage, followUpLoading := "", false;
    }

    /** The follow-up was refused: the message is shown and the typed text kept. */
    method FollowUpFailed(message: string)
      modifies this`error, this`followUpLoading
      ensures error == Some(message) && !followUpLoading
    {
      error, followUpLoading := Some(message), false;
    }
  }
}
