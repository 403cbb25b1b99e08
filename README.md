# claude-worker dashboard client, modelled in Dafny

claude-worker runs a coding agent on a project's repository and shows its jobs
in a React dashboard. This project models the decision logic of that
dashboard's client:

- the diff viewer, which splits a job's unified diff into rows and classifies
  each row by its prefix (`DiffViewer`);
- the agent-output viewer, with its own line classes and a cursor shown while
  the job runs (`LogViewer`);
- the "Create New Project" dialog: the directory browser, its ".." parent
  computation, picking a repository, and the submit guard (`ProjectModal`);
- the "Assign Work" form of a project page: the three modes, the guards, the
  request each mode sends, and the digits-only issue-number field (`JobForm`);
- the job page: the log built from the event stream, the controls offered for
  each status, the badge, the default pull-request title, and the follow-up
  message (`JobView`);
- the two-click confirm button, with time as an input (`Confirm`);
- the settings page: provider cards, connection tests keyed by provider name,
  the click guard and the border colours (`Settings`).

The repository holds two copies of the client, `apps/client` and the older
`client`. Where the older copy's logic is the same, one model serves both:

- The dialog's form state is `ProjectModal.ModalForm` for both copies. Only
  the newer copy has the reset-on-close effect, `ModalForm.Close`.
- The job page state, the badge and the action gating are `JobView` for both
  copies.

The older copy has its own module only where its code differs, or where an
equivalence is worth stating:

- `LegacyDiffViewer`: the identical viewer, written again and proved equal.
- `LegacyJobForm`: two modes instead of three.
- `LegacyJobView`: a different default pull-request title.

JavaScript's string built-ins live in `Text`:

- `trim`, with the WhiteSpace and LineTerminator characters of ECMAScript;
- `split('\n')`, `startsWith`, `includes`;
- `replace(/\D/g, '')`, and `Number` on a string of digits.

The server's answers are not computed: a listing, a job, a test result or a
failure arrives as the argument of the method that applies it. The requests
these pages decide on are method results: a directory listing
(`ModalForm.ToggleBrowser`, `ModalForm.GoUp`, `ModalForm.SelectDir`), a new
project (`ModalForm.Submit`), a new job (`NewJobForm.Submit`, and
`LegacyJobForm.BuildRequest` for the older form), a follow-up
(`JobPage.SendFollowUp`) and a connection test (`SettingsPage.Click`). The
other requests are left out, as listed below.

The older job form's success and failure steps (clear the fields and close
the form; show the message and keep the fields) are the newer form's,
`NewJobForm.SubmitSucceeded` and `NewJobForm.SubmitFailed`.

## Model

| member | source | states |
|---|---|---|
| Text.StartsWithAt | apps/client/src/components/atoms/DiffViewer.tsx:6-11 | a line that `startsWith` a pattern has the pattern's characters at the pattern's positions |
| Text.StartsWith | apps/client/src/components/atoms/DiffViewer.tsx:6-11 | `s.startsWith(p)`: `p` is no longer than `s` and is the prefix of `s` of its length |
| Text.ContainsIffOccurs | apps/client/src/components/molecules/LogViewer.tsx:10 | `includes` holds exactly when the pattern occurs at some index of the line |
| Text.Contains | apps/client/src/components/molecules/LogViewer.tsx:10 | `s.includes(p)`: `p` is a prefix of `s` or of one of its suffixes; ContainsIffOccurs gives the index form |
| Text.TrimStart | apps/client/src/routes/ProjectDetail.tsx:37 | the result is a suffix of the input, what it drops is all white space, and it does not start with white space |
| Text.TrimEnd | apps/client/src/routes/ProjectDetail.tsx:37 | the result is a prefix of the input, what it drops is all white space, and it does not end with white space |
| Text.Trim | apps/client/src/routes/JobDetail.tsx:92 | `trim` leaves a string that is empty or starts and ends with a character that is not white space |
| Text.TrimEmptyIffBlank | apps/client/src/routes/JobDetail.tsx:92 | `!s.trim()` holds exactly when every character of `s` is white space |
| Text.Blank | apps/client/src/routes/JobDetail.tsx:92 | every character is ECMAScript white space; TrimEmptyIffBlank ties it to `!s.trim()` |
| Text.TrimFixesTrimmed | apps/client/src/routes/JobDetail.tsx:96 | a string that neither starts nor ends with white space is unchanged by `trim` |
| Text.TrimIsIdempotent | apps/client/src/routes/JobDetail.tsx:96 | trimming the trimmed message again changes nothing |
| Text.Split | apps/client/src/components/atoms/DiffViewer.tsx:32 | `split('\n')` gives one piece more than there are newlines; no piece holds a newline; joining the pieces with newlines gives back the input |
| Text.SplitUnique | apps/client/src/components/molecules/LogViewer.tsx:31 | any newline-free pieces that join to the input are exactly the pieces `split` gives |
| Text.Display | apps/client/src/components/atoms/DiffViewer.tsx:40 | `line \|\| '\u00A0'`: what is shown is never empty, and a non-empty line is shown as it is |
| Text.KeepDigits | apps/client/src/routes/ProjectDetail.tsx:128 | `replace(/\D/g, '')` leaves only decimal digits, never lengthens the input, and keeps every digit of the input: each digit occurs as often in the result as in the input |
| Text.KeepDigitsAppend | apps/client/src/routes/ProjectDetail.tsx:128 | the filter of a concatenation is the concatenation of the filtered parts, so digits keep their order ("1a2" gives "12") |
| Text.KeepDigitsFixedIffDigits | client/src/routes/ProjectDetail.tsx:141 | the digit filter leaves its input unchanged exactly when the input is already all digits |
| Text.DigitsAreTrimmed | apps/client/src/routes/ProjectDetail.tsx:38 | a string of digits is unchanged by `trim`, so the import guard only asks that a digit was typed |
| Text.DecimalString | apps/client/src/routes/JobDetail.tsx:178 | a number written in a template is a non-empty digit string without a leading zero |
| Text.ParseDecimalString | apps/client/src/routes/ProjectDetail.tsx:43 | `Number` of the decimal string of n is n |
| Text.ParseDecimal | apps/client/src/routes/ProjectDetail.tsx:43 | `Number` of a k-digit string is below 10^k, and at least 10^(k-1) when it has no leading zero |
| Text.DecimalStringOfParse | apps/client/src/routes/ProjectDetail.tsx:43 | a digit string without a leading zero is the decimal string of its `Number`, so only leading zeros are lost |
| DiffViewer.ClassifyLine | apps/client/src/components/atoms/DiffViewer.tsx:5-13 | header exactly for `+++`, `---`, `diff ` and `index ` lines; range exactly for `@@` lines; add exactly for `+` but not `+++`; remove exactly for `-` but not `---`; context for everything else, the empty line included |
| DiffViewer.FirstCharDecides | apps/client/src/components/atoms/DiffViewer.tsx:6-11 | each prefix tested fixes the first character of the line, so the five classes do not overlap |
| DiffViewer.LineRows | apps/client/src/components/atoms/DiffViewer.tsx:36-41 | one row per line, in order, with the line's class and its display text |
| DiffViewer.Render | apps/client/src/components/atoms/DiffViewer.tsx:24-44 | a null or empty diff shows "No file changes" and nothing else. Otherwise there are newlines + 1 rows, and row k has line k's class and shows line k, or a non-breaking space for an empty line |
| LegacyDiffViewer.ClassifyLine | client/src/components/atoms/DiffViewer.tsx:5-13 | the older copy's classifier: the same header, range, add and remove conditions |
| LegacyDiffViewer.Render | client/src/components/atoms/DiffViewer.tsx:24-44 | the older viewer shows "No file changes" exactly for a null or empty diff |
| LegacyDiffViewer.ClassifyLineAgrees | client/src/components/atoms/DiffViewer.tsx:5-13 | both copies classify every line alike |
| LegacyDiffViewer.RenderAgrees | client/src/components/atoms/DiffViewer.tsx:23-46 | both copies show every diff, null or not, as the same rows |
| LogViewer.ClassifyLine | apps/client/src/components/molecules/LogViewer.tsx:8-14 | tool exactly for `▸ ` lines; header exactly for `[` lines containing `/5]`; divider exactly for `════` or `────` lines; error exactly for `Error:` lines; normal otherwise |
| LogViewer.FirstCharDecides | apps/client/src/components/molecules/LogViewer.tsx:9-12 | each prefix tested fixes the first character, so the tool test's priority never hides another class |
| LogViewer.BracketLineIsHeaderIffMarker | apps/client/src/components/molecules/LogViewer.tsx:10 | a line starting with `[` is a step header exactly when `/5]` occurs somewhere in it |
| LogViewer.Render | apps/client/src/components/molecules/LogViewer.tsx:31-46 | the cursor is shown exactly while the status is `running`; an empty log shows the waiting message. Otherwise there is one row per line, each with its class and display text |
| ProjectModal.TailSegmentLength | apps/client/src/components/organisms/CreateProjectModal.tsx:73 | the trailing run of non-slash characters: none of them is a slash, and the character before them is one |
| ProjectModal.StripIsRegexReplace | apps/client/src/components/organisms/CreateProjectModal.tsx:73 | where `/\/[^/]+$/` matches, everything from the match on is cut; where it does not match, the directory is unchanged |
| ProjectModal.StripLastSegment | apps/client/src/components/organisms/CreateProjectModal.tsx:73 | the replacement leaves a prefix of the directory; when it changes anything, it cut at a `/` that is followed by at least one character |
| ProjectModal.ParentDir | apps/client/src/components/organisms/CreateProjectModal.tsx:72-75 | the ".." target is never empty, and it is "/", the directory itself, or a proper prefix that ends just before a final `/segment` |
| ProjectModal.ParentDirFixedPoints | client/src/components/organisms/CreateProjectModal.tsx:59 | going up from "" or "/" gives "/"; a directory ending in "/" is its own parent |
| ProjectModal.ParentDirOfChild | apps/client/src/components/organisms/CreateProjectModal.tsx:73 | going up from `dir/seg`, for a non-empty slash-free `seg`, gives `dir`, or "/" when `dir` is empty |
| ProjectModal.ParentDirExamples | apps/client/src/components/organisms/CreateProjectModal.tsx:73 | "/a/b" goes up to "/a", "/x" to "/", and "/home/user/" stays put |
| ProjectModal.ModalForm.constructor | apps/client/src/components/organisms/CreateProjectModal.tsx:20-28 | a fresh dialog has every field empty and the browser hidden |
| ProjectModal.ModalForm.EditName | apps/client/src/components/organisms/CreateProjectModal.tsx:116 | typing sets the name |
| ProjectModal.ModalForm.EditPath | apps/client/src/components/organisms/CreateProjectModal.tsx:127 | typing sets the path |
| ProjectModal.ModalForm.ToggleBrowser | client/src/components/organisms/CreateProjectModal.tsx:42-46 | the Browse button flips the browser. The default listing is asked for exactly when the browser opens with no directory listed yet |
| ProjectModal.ModalForm.BrowseLoaded | apps/client/src/components/organisms/CreateProjectModal.tsx:34-36 | a listing replaces the directory and its entries |
| ProjectModal.ModalForm.BrowseFailed | apps/client/src/components/organisms/CreateProjectModal.tsx:37-38 | a failed listing shows its message |
| ProjectModal.ModalForm.SelectDir | client/src/components/organisms/CreateProjectModal.tsx:48-56 | a repository becomes the path, and its name becomes the project name only when none was typed; the browser closes. Any other directory is listed next, and name, path and browser are kept |
| ProjectModal.ModalForm.GoUp | apps/client/src/components/organisms/CreateProjectModal.tsx:72-75 | ".." asks for the listing of ParentDir of the directory shown, which is never empty |
| ProjectModal.ModalForm.SubmitDisabled | apps/client/src/components/organisms/CreateProjectModal.tsx:181 | the Create button is disabled exactly when the name or the path is empty or a request is out |
| ProjectModal.ModalForm.Submit | client/src/components/organisms/CreateProjectModal.tsx:63-70 | a request is sent exactly when both name and path are non-empty, and it carries them; nothing else changes otherwise |
| ProjectModal.ModalForm.SubmitSucceeded | apps/client/src/components/organisms/CreateProjectModal.tsx:86-91 | success ends the loading state |
| ProjectModal.ModalForm.SubmitFailed | apps/client/src/components/organisms/CreateProjectModal.tsx:88-91 | failure ends the loading state and shows the message; the fields are kept |
| ProjectModal.ModalForm.Close | apps/client/src/components/organisms/CreateProjectModal.tsx:51-60 | closing the dialog empties name, path, error, directory and entries, and hides the browser |
| JobForm.WireModeOf | apps/client/src/routes/ProjectDetail.tsx:42-46 | import is sent as `existing`; direct and create are sent under their own names |
| JobForm.Accepts | apps/client/src/routes/ProjectDetail.tsx:37-38 | the handler's guard: an import needs an issue number that is not all white space, a direct task or a new issue a title that is not all white space |
| JobForm.BuildRequest | apps/client/src/routes/ProjectDetail.tsx:36-46 | a request is sent exactly when the mode's guard accepts. It carries the chosen type and the mode's wire name |
| JobForm.RequestFields | apps/client/src/routes/ProjectDetail.tsx:42-46 | an import carries only the number's value and no title or body; direct and create carry the trimmed non-empty title and the trimmed body, and no number |
| JobForm.BlankTitleSendsNothing | apps/client/src/routes/ProjectDetail.tsx:37 | in direct or create mode, a title of white space alone sends nothing |
| JobForm.ImportRequestsTypedIssue | apps/client/src/routes/ProjectDetail.tsx:38-43 | typing the number n in import mode sends a request for issue n, with no title or body |
| JobForm.NewJobForm.constructor | apps/client/src/routes/ProjectDetail.tsx:18-23 | the form starts closed, with type feat and mode direct, and every field empty |
| JobForm.NewJobForm.ToggleCreating | apps/client/src/routes/ProjectDetail.tsx:74 | New Assignment / Cancel flips the form open or closed |
| JobForm.NewJobForm.SelectType | apps/client/src/routes/ProjectDetail.tsx:91 | picking a type sets it |
| JobForm.NewJobForm.SelectMode | apps/client/src/routes/ProjectDetail.tsx:111 | picking a mode sets it |
| JobForm.NewJobForm.EditTitle | apps/client/src/routes/ProjectDetail.tsx:138 | typing sets the title |
| JobForm.NewJobForm.EditBody | apps/client/src/routes/ProjectDetail.tsx:146 | typing sets the body |
| JobForm.NewJobForm.EditImportId | apps/client/src/routes/ProjectDetail.tsx:128 | every edit keeps only the digits, so the field always holds digits only; typed digits are kept as they are |
| JobForm.NewJobForm.StartDisabled | apps/client/src/routes/ProjectDetail.tsx:156 | Start is disabled exactly when the handler would send nothing, or while a request is out |
| JobForm.NewJobForm.Submit | apps/client/src/routes/ProjectDetail.tsx:36-46 | the request sent is BuildRequest of the form's fields. Sending marks loading and clears the error; sending nothing changes nothing |
| JobForm.NewJobForm.SubmitSucceeded | apps/client/src/routes/ProjectDetail.tsx:49-57 | success empties title, body and number, closes the form and ends loading |
| JobForm.NewJobForm.SubmitFailed | apps/client/src/routes/ProjectDetail.tsx:54-57 | failure shows the message and ends loading; every field is kept |
| LegacyJobForm.Embed | client/src/routes/ProjectDetail.tsx:23 | the older form's two modes are the newer form's create and import; it has no direct mode |
| LegacyJobForm.FreshFormWaitsForTitle | client/src/routes/ProjectDetail.tsx:23 | the older form opens in create mode, with Start disabled and nothing sent until a title is typed |
| LegacyJobForm.BuildRequest | client/src/routes/ProjectDetail.tsx:36-44 | the older form sends the same request as the newer form in the same mode, and never a direct one |
| LegacyJobForm.GuardByMode | client/src/routes/ProjectDetail.tsx:37-38 | a new issue is sent exactly when the title is not all white space; an import exactly when a digit was typed |
| LegacyJobForm.StartDisabled | client/src/routes/ProjectDetail.tsx:151 | Start is disabled exactly when the guard rejects, or while a request is out |
| JobView.OrEmpty | apps/client/src/routes/JobDetail.tsx:31 | `job.log \|\| ''` is the log when it is present and non-empty, and "" otherwise |
| JobView.Truthy | apps/client/src/routes/JobDetail.tsx:115-116 | `!!x` for a nullable string: present and non-empty |
| JobView.Interpolate | apps/client/src/routes/JobDetail.tsx:178 | `${x}` for a nullable string: the string itself, or "null" |
| JobView.BadgeFor | apps/client/src/routes/JobDetail.tsx:132 | completed gives success, failed error, running accent, cancelled warning; every other status gives neutral |
| JobView.OfferedActions | apps/client/src/routes/JobDetail.tsx:114-186 | Cancel exactly while running; Delete exactly when not running; Retry exactly after failed or cancelled. The pull-request and follow-up forms appear exactly for a completed job with a branch and no pull request |
| JobView.ActionsExclusive | client/src/routes/JobDetail.tsx:146-152 | Cancel and Delete are never offered together, nor Cancel and Retry, and the forms never appear beside Cancel |
| JobView.PublishedJobOffersNoForms | apps/client/src/routes/JobDetail.tsx:174-186 | once a pull request exists, neither form is offered, whatever the status |
| JobView.DefaultPrTitle | apps/client/src/routes/JobDetail.tsx:178 | the stored title if set; else "type: Issue #n" for a job with an issue number; else "type: " followed by the issue title ("null" when there is none) |
| JobView.DefaultPrTitleNamesIssue | apps/client/src/routes/JobDetail.tsx:178 | the default title of an issue's job starts with "type: Issue #", and the number read back from the rest is the issue number |
| JobView.ConcatAppend | apps/client/src/routes/JobDetail.tsx:40-42 | the chunks joined with one more chunk are the earlier join followed by that chunk |
| JobView.JobPage.constructor | apps/client/src/routes/JobDetail.tsx:18-25 | the page starts with no job, an empty log and status, no error and no follow-up message |
| JobView.JobPage.Shown | apps/client/src/routes/JobDetail.tsx:106-112 | "Loading" while there is no job and no non-empty error; the error alone while there is a non-empty error but no job; the page once the job is loaded |
| JobView.JobPage.Loaded | apps/client/src/routes/JobDetail.tsx:27-32 | a loaded job sets the job and the status, and its persisted log (or "") replaces the log |
| JobView.JobPage.Failed | apps/client/src/routes/JobDetail.tsx:33-35 | a failed load or action shows its message |
| JobView.JobPage.OnLog | apps/client/src/routes/JobDetail.tsx:40-42 | a streamed chunk goes at the end of the log |
| JobView.JobPage.OnLogAll | client/src/routes/JobDetail.tsx:40-42 | after chunks c1..cn, the log is the earlier log followed by c1 ... cn, in arrival order |
| JobView.JobPage.OnDone | apps/client/src/routes/JobDetail.tsx:44-45 | the end of the stream sets the status it reports |
| JobView.JobPage.Refetched | client/src/routes/JobDetail.tsx:46-48 | the job fetched after the stream ends replaces the job, and its persisted log (or "") replaces the log |
| JobView.JobPage.CancelReturned | apps/client/src/routes/JobDetail.tsx:54-58 | a cancelled job replaces the job and its status |
| JobView.JobPage.PrCreated | apps/client/src/routes/JobDetail.tsx:82-85 | the job returned by pull-request creation replaces the job |
| JobView.JobPage.Offered | client/src/routes/JobDetail.tsx:114-152 | on a loaded page: Cancel exactly while running, Delete exactly when not running, Retry exactly after a failure or a cancellation, and the pull-request and follow-up forms exactly for a completed job with a branch and no pull request |
| JobView.JobPage.EditFollowUp | apps/client/src/routes/JobDetail.tsx:196 | typing sets the follow-up message |
| JobView.JobPage.FollowUpDisabled | apps/client/src/routes/JobDetail.tsx:204 | Send Feedback is disabled exactly for a message of white space alone, or while one is out |
| JobView.JobPage.SendFollowUp | apps/client/src/routes/JobDetail.tsx:91-96 | a message of white space alone sends nothing and changes nothing. Otherwise the trimmed message, never empty, is sent, the error is cleared and loading starts |
| JobView.JobPage.FollowUpSent | client/src/routes/JobDetail.tsx:97-103 | an accepted follow-up clears the input and ends loading |
| JobView.JobPage.FollowUpFailed | apps/client/src/routes/JobDetail.tsx:99-103 | a refused follow-up shows the message and ends loading; the typed text is kept |
| LegacyJobView.InterpolateNumber | client/src/routes/JobDetail.tsx:179 | a number in a template is its decimal string; a null one is "null" |
| LegacyJobView.DefaultPrTitle | client/src/routes/JobDetail.tsx:179 | the stored title if set; otherwise a title starting "type: Issue #" |
| LegacyJobView.DefaultPrTitleAgrees | client/src/routes/JobDetail.tsx:179 | the older title equals the newer one unless there is neither a stored title nor an issue number; then it is "type: Issue #null" |
| LegacyJobView.DirectTaskTitleDiffers | client/src/routes/JobDetail.tsx:179 | for such a job the two copies propose different titles (short of an issue titled "Issue #null") |
| Confirm.WithDefaults | apps/client/src/components/molecules/ConfirmButton.tsx:16-18 | an absent confirmation text is "Are you sure?", an absent variant is danger, an absent size is small; given values are kept |
| Confirm.Press | apps/client/src/components/molecules/ConfirmButton.tsx:23-31 | a click confirms exactly when armed, and flips the armed state; arming adds a timer due 3000 ms later, and confirming adds none |
| Confirm.Due | apps/client/src/components/molecules/ConfirmButton.tsx:29 | the timers that have come due by the given time |
| Confirm.Pending | apps/client/src/components/molecules/ConfirmButton.tsx:29 | the timers still waiting after the given time |
| Confirm.DueAndPendingSplit | apps/client/src/components/molecules/ConfirmButton.tsx:29 | every timer is either due or still waiting |
| Confirm.Elapse | apps/client/src/components/molecules/ConfirmButton.tsx:29 | when time passes, the due timers run and leave; the button stays armed only if none of them ran |
| Confirm.PressKeepsWillDisarm | apps/client/src/components/molecules/ConfirmButton.tsx:27-29 | a click never leaves the button armed without a timer to disarm it |
| Confirm.ElapseKeepsWillDisarm | apps/client/src/components/molecules/ConfirmButton.tsx:29 | running due timers never leaves the button armed without a timer to disarm it |
| Confirm.TwoClicksConfirm | apps/client/src/components/molecules/ConfirmButton.tsx:23-31 | the first click does not act; a second click before any timer runs acts and disarms |
| Confirm.Clicks | apps/client/src/components/molecules/ConfirmButton.tsx:23 | the number of clicks in a history of events |
| Confirm.Run | apps/client/src/components/molecules/ConfirmButton.tsx:23-30 | the state after a history of clicks and timer runs, and the number of actions, which never exceeds the number of clicks |
| Confirm.ActionsCostTwoClicks | apps/client/src/components/molecules/ConfirmButton.tsx:23-31 | over any history of clicks and timers, twice the number of actions, plus one if the button ends armed, is at most the number of clicks plus one if it started armed |
| Confirm.StaleTimerCutsArmingShort | apps/client/src/components/molecules/ConfirmButton.tsx:29 | as written, arm at 0, confirm at 1000 and arm again at 2000: the first arming's timer disarms the button at 3000, one second after it was re-armed |
| Confirm.PressClearing | apps/client/src/components/molecules/ConfirmButton.tsx:24-30 | the corrected click: confirming also drops the pending timer |
| Confirm.PressClearingKeepsOneTimer | apps/client/src/components/molecules/ConfirmButton.tsx:24-30 | with the corrected click, an idle button has no timer and an armed one has exactly one |
| Confirm.ElapseKeepsOneTimer | apps/client/src/components/molecules/ConfirmButton.tsx:29 | running due timers keeps that property |
| Confirm.ClearingArmsForFullDelay | apps/client/src/components/molecules/ConfirmButton.tsx:29 | with the corrected click, a button armed at time a is disarmed by the clock exactly from a + 3000 on |
| Confirm.DueSnoc | apps/client/src/components/molecules/ConfirmButton.tsx:29 | with one more timer, the due timers are the earlier ones plus the new one exactly when it has come due |
| Confirm.PendingSnoc | apps/client/src/components/molecules/ConfirmButton.tsx:29 | with one more timer, the pending timers are the earlier ones plus the new one exactly when it has not come due |
| Confirm.ConfirmButton.constructor | apps/client/src/components/molecules/ConfirmButton.tsx:21 | a new button is not armed and has no timer |
| Confirm.ConfirmButton.Label | apps/client/src/components/molecules/ConfirmButton.tsx:35 | the label is the confirmation text while armed, the button's content otherwise |
| Confirm.ConfirmButton.Click | apps/client/src/components/molecules/ConfirmButton.tsx:23-31 | the click handler's new state and `onConfirm` call are those of Press; the button is never armed without a timer |
| Confirm.ConfirmButton.Tick | apps/client/src/components/molecules/ConfirmButton.tsx:29 | the clock reaching a time leaves the state Elapse gives; the button is never armed without a timer |
| Settings.Initialise | apps/client/src/routes/Settings.tsx:42-50 | one card per listed provider, in order, each untested with no message |
| Settings.UpdateNamed | apps/client/src/routes/Settings.tsx:53-69 | every card with the given name gets the new status and message; every other card is kept; the length is kept |
| Settings.UpdateNamedKeepsProviders | apps/client/src/routes/Settings.tsx:53-69 | updates never change which provider a card shows, its display name or its coming-soon flag |
| Settings.UpdateNamedOverrides | apps/client/src/routes/Settings.tsx:58-63 | of two updates to the same provider, the later wins |
| Settings.UpdateNamedCommutes | apps/client/src/routes/Settings.tsx:58-69 | updates to two different providers give the same cards in either order |
| Settings.Disabled | apps/client/src/routes/Settings.tsx:94-95 | a card is disabled exactly when the click guard refuses to start a test |
| Settings.CanStartTest | apps/client/src/routes/Settings.tsx:94 | the click guard admits a card exactly when it shows "Click to test", a check or a cross |
| Settings.BorderColor | apps/client/src/routes/Settings.tsx:73-80 | connected, error and testing get three different borders; untested gets the default |
| Settings.CardBorder | apps/client/src/routes/Settings.tsx:97 | a coming-soon provider has the default border whatever its status; any other has its status's border |
| Settings.IndicatorFor | apps/client/src/routes/Settings.tsx:117-142 | exactly one marker: "Coming Soon" for such a provider; otherwise spinner, check, cross or "Click to test" by status |
| Settings.MessageFor | apps/client/src/routes/Settings.tsx:145-149 | the message line appears exactly when there is a message; it is green exactly after a successful test, and shows the message |
| Settings.Outcome | apps/client/src/routes/Settings.tsx:61 | a finished test leaves connected exactly when it succeeded, else error, and never testing or untested |
| Settings.SettingsPage.constructor | apps/client/src/routes/Settings.tsx:40 | the page starts with no cards |
| Settings.SettingsPage.Loaded | apps/client/src/routes/Settings.tsx:42-50 | the server's list becomes the cards of Initialise |
| Settings.SettingsPage.Click | apps/client/src/routes/Settings.tsx:52-95 | a card the guard admits puts its provider in testing with no message, sends its test and leaves the card disabled. Any other card changes nothing and sends nothing |
| Settings.SettingsPage.TestReturned | apps/client/src/routes/Settings.tsx:57-63 | an answered test sets the provider's cards to connected or error, with the answer's message |
| Settings.SettingsPage.TestThrew | apps/client/src/routes/Settings.tsx:64-69 | a failed test request sets the provider's cards to error, with the failure's message |
| Settings.FinishedTestReenables | apps/client/src/routes/Settings.tsx:58-69 | after a test ends, no card of that provider is still testing, and each can be tested again unless it is coming soon |

## Left out

- The server and everything it does: the job engine, GitHub, git, the agent, the database. Its answers are method arguments.
- The requests that only fetch or act, and whose answers the model applies: the project and job fetches, the provider listing, Cancel, opening the pull request, Retry and Delete. `JobPage.Loaded`, `Refetched`, `CancelReturned`, `PrCreated` and `SettingsPage.Loaded` apply their answers; the job and project fetches, Cancel, Retry and Delete carry only an id, and the provider listing carries nothing. The pull-request request also carries the title and body typed into the pull-request form, which is left out with that form.
- The HTTP wrapper (`client/src/api.ts`) and the event-stream hook (`client/src/hooks/useSSE.ts`). Both are I/O; the stream enters only as `OnLog`/`OnDone` calls.
- Navigation after retry, delete and follow-up (`navigate(...)`), and reloading the project after a job is created. Both are routing and refetching, not state of these pages.
- Retry and Delete themselves are not methods. Both navigate away on success; on failure they only show the message, which `JobView.JobPage.Failed` models.
- The order in which asynchronous answers arrive. Each answer is applied when its method is called, in whatever order the caller chooses; `Settings.UpdateNamedCommutes` shows that order does not matter for tests of different providers.
- The directory browser's `browseLoading` spinner, the pull-request form component, and the job page's header text and breadcrumbs. These are presentation.
- The error-dismiss buttons (`setError(null)`). These are trivial.
- The scroll-to-end effect of the output viewer, date formatting, icons, and CSS classes.
- The older dialog has no reset-on-close effect: it unmounts instead. `ProjectModal.ModalForm.Close` models the newer copy only.
- Text: JavaScript strings are sequences of UTF-16 code units, and Dafny's `string` holds Unicode scalar values. Prefix and substring tests agree on the characters used here. Only `length`-based facts about characters outside the Basic Multilingual Plane would differ.
- JobForm.BuildRequest: `Number(importId)` is modelled as the exact decimal value. JavaScript's double loses precision above 2^53, which a realistic issue number never reaches.
- Text.DecimalString: `${n}` for an issue number (`${job.issueNo}` in the default pull-request title, used by JobView.DefaultPrTitle and LegacyJobView.InterpolateNumber) is modelled as the exact decimal digits. JavaScript prints a number of 1e21 or more in exponent notation ("1e+21"), so JobView.DefaultPrTitleNamesIssue holds for the program only below 1e21, which no issue number reaches.
- Confirm.ConfirmButton.Tick: the timer's real-time scheduling is an input. Time is a number passed to `Click` and `Tick`, and timers due at the same call all run.
- Timers that run after the component has unmounted are not modelled.

## Findings

| source | as written | input that shows it | evidently intended | confidence | as-written member | corrected member |
|---|---|---|---|---|---|---|
| apps/client/src/components/molecules/ConfirmButton.tsx:29 | each arming starts a timer that is never cancelled, so an earlier arming's timer can disarm a later arming | click at 0 ms (arms), 1000 ms (confirms), 2000 ms (arms): the button disarms at 3000 ms, after one second instead of three | confirming (or re-arming) cancels the pending timer, so every arming lasts the full 3 seconds | medium; not executed | Confirm.StaleTimerCutsArmingShort | Confirm.ClearingArmsForFullDelay |
