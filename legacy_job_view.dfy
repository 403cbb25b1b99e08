/**
 * The job page of the older client copy. Its handlers, controls, badge and
 * log handling are those of JobView; only the default pull-request title
 * differs: it always names an issue number, even for a job without one.
 */
module LegacyJobView {
  import opened Wrappers
  import opened Text
  import JobView

  /** `${n}` for a number that may be null. */
  function InterpolateNumber(n: Option<nat>): (s: string)
    ensures n.Some? ==> s == DecimalString(n.value)
    ensures n.None? ==> s == "null"
  {
    match n
    case Some(v) => DecimalString(v)
    case None => "null"
  }

  /** The stored title, or "type: Issue #n" whatever the job's origin. */
  function DefaultPrTitle(job: JobView.Job): (title: string)
    ensures JobView.Truthy(job.prTitle) ==> title == job.prTitle.value
    ensures !JobView.Truthy(job.prTitle) ==> StartsWith(title, job.jobType + ": Issue #")
  {
    if JobView.Truthy(job.prTitle) then job.prTitle.value
    else job.jobType + ": Issue #" + InterpolateNumber(job.issueNo)
  }

  /**
   * The two copies propose the same title except for a job with neither a
   * stored title nor an issue number (a direct task), where this copy
   * proposes "type: Issue #null" and the other "type: <issue title>".
   */
  lemma DefaultPrTitleAgrees(job: JobView.Job)
    ensures JobView.Truthy(job.prTitle) || job.issueNo.Some? ==>
      DefaultPrTitle(job) == JobView.DefaultPrTitle(job)
    ensures !JobView.Truthy(job.prTitle) && job.issueNo.None? ==>
      DefaultPrTitle(job) == job.jobType + ": Issue #null"
  {
  }

  /** For a direct task the two titles differ, whatever its title (short of "Issue #null" itself). */
  lemma DirectTaskTitleDiffers(job: JobView.Job)
    requires !JobView.Truthy(job.prTitle) && job.issueNo.None?
    requires job.issueTitle != Some("Issue #null")
    ensures DefaultPrTitle(job) != JobView.DefaultPrTitle(job)
  {
    var head := job.jobType + ": ";
    var legacy := head + "Issue #null";
    var newer := head + JobView.Interpolate(job.issueTitle);
    assert DefaultPrTitle(job) == legacy;
    assert JobView.DefaultPrTitle(job) == newer;
    assert legacy[|head|..] == "Issue #null";
    assert newer[|head|..] == JobView.Interpolate(job.issueTitle);
  }
}
