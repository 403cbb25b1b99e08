/**
 * The job form of the older client copy: two modes only, a new issue (the
 * mode it opens in) or an existing issue by number. Its requests are the
 * newer form's requests for the same two modes.
 */
module LegacyJobForm {
  import opened Wrappers
  import opened Text
  import JobForm

  datatype Mode = Create | Import

  /** The mode the form opens in. */
  const DefaultMode: Mode := Create

  /**
   * A fresh form is in Create with nothing typed: its Start button is
   * disabled and its handler sends nothing until a title is typed.
   */
  lemma FreshFormWaitsForTitle(jobType: JobForm.JobType, body: string)
    ensures Embed(DefaultMode) == JobForm.Create
    ensures StartDisabled(DefaultMode, "", "", false)
    ensures BuildRequest(jobType, DefaultMode, "", body, "") == None
  {
  }

  /** The newer form's mode of the same name. */
  function Embed(mode: Mode): (m: JobForm.Mode)
    ensures m != JobForm.Direct
    ensures m == JobForm.Import <==> mode == Import
  {
    match mode
    case Create => JobForm.Create
    case Import => JobForm.Import
  }

  /**
   * The request the handler sends, or None when its guard rejects: for the
   * two modes both copies share, the newer form's request.
   */
  function BuildRequest(jobType: JobForm.JobType, mode: Mode, title: string, body: string, importId: string)
    : (request: Option<JobForm.JobRequest>)
    requires AllDigits(importId)
    ensures request == JobForm.BuildRequest(jobType, Embed(mode), title, body, importId)
    ensures request.Some? ==> request.value.mode != JobForm.WireDirect
  {
    if mode == Import then
      if Trim(importId) == "" then None
      else Some(JobForm.JobRequest(jobType, JobForm.Existing, None, None, Some(ParseDecimal(importId))))
    else
      if Trim(title) == "" then None
      else Some(JobForm.JobRequest(jobType, JobForm.WireCreate, Some(Trim(title)), Some(Trim(body)), None))
  }

  /** An existing issue is sent once any digit is typed; a new issue needs a title that is not all white space. */
  lemma GuardByMode(jobType: JobForm.JobType, mode: Mode, title: string, body: string, importId: string)
    requires AllDigits(importId)
    ensures mode == Create ==> (BuildRequest(jobType, mode, title, body, importId).Some? <==> !Blank(title))
    ensures mode == Import ==> (BuildRequest(jobType, mode, title, body, importId).Some? <==> importId != "")
  {
    TrimEmptyIffBlank(title);
    DigitsAreTrimmed(importId);
  }

  /** The Start button: disabled exactly when the handler's guard rejects, or while a request is out. */
  function StartDisabled(mode: Mode, title: string, importId: string, loading: bool): (disabled: bool)
    ensures disabled <==> loading || !JobForm.Accepts(Embed(mode), title, importId)
  {
    (if mode == Create then Trim(title) == "" else Trim(importId) == "") || loading
  }
}
