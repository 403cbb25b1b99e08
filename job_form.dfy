/**
 * The "Assign Work" form of a project page: a job type, one of three modes
 * (a direct task, a new issue, or an existing issue by number), and the
 * request that starts the agent.
 */
module JobForm {
  import opened Wrappers
  import opened Text

  datatype JobType = Feat | Fix | Refactor | Chore

  /** The modes the form offers. */
  datatype Mode = Direct | Create | Import

  /** The `mode` field of the request; the form's Import is sent as `existing`. */
  datatype WireMode = WireDirect | WireCreate | Existing

  function WireModeOf(mode: Mode): (wire: WireMode)
    ensures wire == Existing <==> mode == Import
    ensures (wire == WireDirect <==> mode == Direct) && (wire == WireCreate <==> mode == Create)
  {
    match mode
    case Direct => WireDirect
    case Create => WireCreate
    case Import => Existing
  }

  /** The JSON body of `POST /projects/{id}/jobs`; an absent field is None. */
  datatype JobRequest = JobRequest(
    jobType: JobType,
    mode: WireMode,
    issueTitle: Option<string>,
    issueBody: Option<string>,
    issueNo: Option<nat>)

  /** The guard of the handler: a title for a direct task or a new issue, a number for an import. */
  function Accepts(mode: Mode, title: string, importId: string): (ok: bool)
    ensures mode == Import ==> (ok <==> !Blank(importId))
    ensures mode != Import ==> (ok <==> !Blank(title))
  {
    TrimEmptyIffBlank(importId);
    TrimEmptyIffBlank(title);
    if mode == Import then Trim(importId) != "" else Trim(title) != ""
  }

  /**
   * The request the form sends, or None when the guard rejects. The issue
   * number field only ever holds digits, so its `Number` is its decimal value.
   */
  function BuildRequest(jobType: JobType, mode: Mode, title: string, body: string, importId: string)
    : (request: Option<JobRequest>)
    requires AllDigits(importId)
    ensures request.Some? <==> Accepts(mode, title, importId)
    ensures request.Some? ==> request.value.jobType == jobType && request.value.mode == WireModeOf(mode)
  {
    if !Accepts(mode, title, importId) then None
    else if mode == Import then Some(JobRequest(jobType, Existing, None, None, Some(ParseDecimal(importId))))
    else if mode == Direct then Some(JobRequest(jobType, WireDirect, Some(Trim(title)), Some(Trim(body)), None))
    else Some(JobRequest(jobType, WireCreate, Some(Trim(title)), Some(Trim(body)), None))
  }

  /**
   * What each mode sends: an import carries only the issue number (the decimal
   * value of the field) and no title or body; a direct task or a new issue
   * carries the trimmed, non-empty title and the trimmed body and no number.
   */
  lemma RequestFields(jobType: JobType, mode: Mode, title: string, body: string, importId: string)
    requires AllDigits(importId) && Accepts(mode, title, importId)
    ensures var request := BuildRequest(jobType, mode, title, body, importId).value;
      && (mode == Import ==>
            && request.issueTitle == None && request.issueBody == None
            && request.issueNo == Some(ParseDecimal(importId)))
      && (mode != Import ==>
            && request.issueNo == None
            && request.issueTitle == Some(Trim(title)) && Trim(title) != ""
            && request.issueBody == Some(Trim(body)))
  {
  }

  /** Whatever the title, a title of white space alone sends no direct task or new issue. */
  lemma BlankTitleSendsNothing(jobType: JobType, mode: Mode, title: string, body: string, importId: string)
    requires AllDigits(importId) && mode != Import && Blank(title)
    ensures BuildRequest(jobType, mode, title, body, importId) == None
  {
    TrimEmptyIffBlank(title);
  }

  /** Importing issue n by typing its number sends a request for issue n, without title or body. */
  lemma ImportRequestsTypedIssue(jobType: JobType, title: string, body: string, n: nat)
    ensures AllDigits(DecimalString(n))
    ensures BuildRequest(jobType, Import, title, body, DecimalString(n))
      == Some(JobRequest(jobType, Existing, None, None, Some(n)))
  {
    ParseDecimalString(n);
    DigitsAreTrimmed(DecimalString(n));
  }

  class NewJobForm {
    var isCreating: bool
    var jobType: JobType
    var title: string
    var body: string
    var importId: string
    var mode: Mode
    var loading: bool
    var error: Option<string>

    /** The issue-number field holds decimal digits only. */
    predicate Valid()
      reads this
    {
      AllDigits(importId)
    }

    /** A closed form, type feat, mode direct, every field empty. */
    constructor ()
      ensures Valid()
      ensures !isCreating && jobType == Feat && mode == Direct
      ensures title == "" && body == "" && importId == "" && !loading && error == None
    {
      isCreating, jobType, mode := false, Feat, Direct;
      title, body, importId, loading, error := "", "", "", false, None;
    }

    /** The New Assignment / Cancel button. */
    method ToggleCreating()
      modifies this`isCreating
      ensures isCreating == !old(isCreating)
    {
      isCreating := !isCreating;
    }

    method SelectType(t: JobType)
      modifies this`jobType
      ensures jobType == t
    {
      jobType := t;
    }

    method SelectMode(m: Mode)
      modifies this`mode
      ensures mode == m
    {
      mode := m;
    }

    method EditTitle(value: string)
      modifies this`title
      ensures title == value
    {
      title := value;
    }

    method EditBody(value: string)
      modifies this`body
      ensures body == value
    {
      body := value;
    }

    /** Every edit of the issue number drops whatever is not a digit. */
    method EditImportId(value: string)
      modifies this`importId
      ensures Valid()
      ensures importId == KeepDigits(value)
      ensures AllDigits(value) ==> importId == value
    {
      importId := KeepDigits(value);
      KeepDigitsFixedIffDigits(value);
    }

    /** The Start button: disabled exactly when the guard rejects, or while a request is out. */
    function StartDisabled(): (disabled: bool)
      reads this
      requires Valid()
      ensures disabled <==> BuildRequest(jobType, mode, title, body, importId).None? || loading
    {
      (if mode == Import then Trim(importId) == "" else Trim(title) == "") || loading
    }

    /** Starting the job: sends the request the guard admits, and clears the error. */
    method Submit() returns (request: Option<JobRequest>)
      requires Valid()
      modifies this`loading, this`error
      ensures request == BuildRequest(old(jobType), old(mode), old(title), old(body), old(importId))
      ensures request.Some? ==> loading && error == None
      ensures request.None? ==> loading == old(loading) && error == old(error)
    {
      request := BuildRequest(jobType, mode, title, body, importId);
      if request.Some? {
        loading := true;
        error := None;
      }
    }

    /** The job was created: the form is emptied and closed. */
    method SubmitSucceeded()
      modifies this`title, this`body, this`importId, this`isCreating, this`loading
      ensures Valid()
      ensures title == "" && body == "" && importId == "" && !isCreating && !loading
    {
      title, body, importId := "", "", "";
      isCreating := false;
      loading := false;
    }

    /** Creating the job failed: the message is shown and every field is kept. */
    method SubmitFailed(message: string)
      modifies this`loading, this`error
      ensures error == Some(message) && !loading
    {
      error, loading := Some(message), false;
    }
  }
}
