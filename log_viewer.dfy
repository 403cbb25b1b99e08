/**
 * The agent-output viewer of the job page: each line of the log is classified
 * by its prefix (and, for step headers, a "/5]" marker), and a blinking cursor
 * follows the output while the job runs.
 */
module LogViewer {
  import opened Text

  datatype LineKind = Tool | Header | Divider | Error | Normal

  /** "▸ ", the prefix of a tool-call line. */
  const ToolPrefix: string := "\U{25B8} "
  /** "════", a heavy rule. */
  const HeavyRule: string := "\U{2550}\U{2550}\U{2550}\U{2550}"
  /** "────", a light rule. */
  const LightRule: string := "\U{2500}\U{2500}\U{2500}\U{2500}"

  /** The prefix and substring tests, in the order the viewer applies them. */
  function ClassifyLine(line: string): (kind: LineKind)
    ensures kind == Tool <==> StartsWith(line, ToolPrefix)
    ensures kind == Header <==> StartsWith(line, "[") && Contains(line, "/5]")
    ensures kind == Divider <==> StartsWith(line, HeavyRule) || StartsWith(line, LightRule)
    ensures kind == Error <==> StartsWith(line, "Error:")
    ensures kind == Normal <==>
      && !StartsWith(line, ToolPrefix)
      && !(StartsWith(line, "[") && Contains(line, "/5]"))
      && !StartsWith(line, HeavyRule) && !StartsWith(line, LightRule)
      && !StartsWith(line, "Error:")
  {
    FirstCharDecides(line);
    if StartsWith(line, ToolPrefix) then Tool
    else if StartsWith(line, "[") && Contains(line, "/5]") then Header
    else if StartsWith(line, HeavyRule) || StartsWith(line, LightRule) then Divider
    else if StartsWith(line, "Error:") then Error
    else Normal
  }

  /** Each prefix the classifier tests starts with a different character. */
  lemma FirstCharDecides(line: string)
    ensures StartsWith(line, ToolPrefix) ==> line[0] == '\U{25B8}'
    ensures StartsWith(line, "[") ==> line[0] == '['
    ensures StartsWith(line, HeavyRule) ==> line[0] == '\U{2550}'
    ensures StartsWith(line, LightRule) ==> line[0] == '\U{2500}'
    ensures StartsWith(line, "Error:") ==> line[0] == 'E'
  {
    if StartsWith(line, ToolPrefix) { StartsWithAt(line, ToolPrefix, 0); }
    if StartsWith(line, "[") { StartsWithAt(line, "[", 0); }
    if StartsWith(line, HeavyRule) { StartsWithAt(line, HeavyRule, 0); }
    if StartsWith(line, LightRule) { StartsWithAt(line, LightRule, 0); }
    if StartsWith(line, "Error:") { StartsWithAt(line, "Error:", 0); }
  }

  /** A line opening with "[" is a step header exactly when "/5]" occurs somewhere in it. */
  lemma BracketLineIsHeaderIffMarker(line: string)
    requires StartsWith(line, "[")
    ensures ClassifyLine(line) == Header <==> exists i :: OccursAt(line, "/5]", i)
  {
    ContainsIffOccurs(line, "/5]");
  }

  datatype Row = Row(kind: LineKind, text: string)

  /** The body of the viewer: the waiting message, or one row per log line. */
  datatype Body = Waiting | Lines(rows: seq<Row>)

  datatype View = View(body: Body, cursor: bool)

  /** The viewer for the accumulated `log` of a job whose page status is `status`. */
  function Render(log: string, status: string): (view: View)
    ensures view.cursor <==> status == "running"
    ensures view.body == Waiting <==> log == ""
    ensures view.body.Lines? ==>
      var lines := Split(log);
      && |view.body.rows| == Count(log, '\n') + 1
      && (forall k :: 0 <= k < |lines| ==>
            && view.body.rows[k].kind == ClassifyLine(lines[k])
            && view.body.rows[k].text == Display(lines[k]))
  {
    var lines := Split(log);
    var body :=
      if log == "" then Waiting
      else Lines(seq(|lines|, k requires 0 <= k < |lines| => Row(ClassifyLine(lines[k]), Display(lines[k]))));
    View(body, status == "running")
  }
}
