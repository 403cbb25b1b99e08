/**
 * The unified-diff viewer of the job page (apps/client DiffViewer): each line
 * of a job's diff is classified by its prefix and shown as one row.
 */
module DiffViewer {
  import opened Wrappers
  import opened Text

  datatype LineKind = Add | Remove | Header | Range | Context

  /** The prefix tests, in the order the viewer applies them. */
  function ClassifyLine(line: string): (kind: LineKind)
    ensures kind == Header <==>
      StartsWith(line, "+++") || StartsWith(line, "---")
      || StartsWith(line, "diff ") || StartsWith(line, "index ")
    ensures kind == Range <==> StartsWith(line, "@@")
    ensures kind == Add <==> StartsWith(line, "+") && !StartsWith(line, "+++")
    ensures kind == Remove <==> StartsWith(line, "-") && !StartsWith(line, "---")
    ensures kind == Context <==>
      !StartsWith(line, "+") && !StartsWith(line, "-") && !StartsWith(line, "@@")
      && !StartsWith(line, "diff ") && !StartsWith(line, "index ")
  {
    FirstCharDecides(line);
    if StartsWith(line, "+++") || StartsWith(line, "---") then Header
    else if StartsWith(line, "@@") then Range
    else if StartsWith(line, "+") then Add
    else if StartsWith(line, "-") then Remove
    else if StartsWith(line, "diff ") then Header
    else if StartsWith(line, "index ") then Header
    else Context
  }

  /** Every prefix the classifier tests pins down the first character of the line. */
  lemma FirstCharDecides(line: string)
    ensures StartsWith(line, "+++") ==> StartsWith(line, "+")
    ensures StartsWith(line, "---") ==> StartsWith(line, "-")
    ensures StartsWith(line, "+") ==> line[0] == '+'
    ensures StartsWith(line, "-") ==> line[0] == '-'
    ensures StartsWith(line, "@@") ==> line[0] == '@'
    ensures StartsWith(line, "diff ") ==> line[0] == 'd'
    ensures StartsWith(line, "index ") ==> line[0] == 'i'
  {
    if StartsWith(line, "+++") { StartsWithAt(line, "+++", 0); }
    if StartsWith(line, "---") { StartsWithAt(line, "---", 0); }
    if StartsWith(line, "+") { StartsWithAt(line, "+", 0); }
    if StartsWith(line, "-") { StartsWithAt(line, "-", 0); }
    if StartsWith(line, "@@") { StartsWithAt(line, "@@", 0); }
    if StartsWith(line, "diff ") { StartsWithAt(line, "diff ", 0); }
    if StartsWith(line, "index ") { StartsWithAt(line, "index ", 0); }
  }

  /** One rendered row: its class and the text it shows. */
  datatype Row = Row(kind: LineKind, text: string)

  /** What the viewer shows: the "No file changes" message, or the rows. */
  datatype View = NoChanges | Rows(rows: seq<Row>)

  /** The rows for the lines of a diff, one per line, in order. */
  function LineRows(lines: seq<string>): (rows: seq<Row>)
    ensures |rows| == |lines|
    ensures forall k :: 0 <= k < |lines| ==>
      rows[k].kind == ClassifyLine(lines[k]) && rows[k].text == Display(lines[k])
  {
    seq(|lines|, k requires 0 <= k < |lines| => Row(ClassifyLine(lines[k]), Display(lines[k])))
  }

  /** The viewer for a job's `diff`, which is null before the job produced one. */
  function Render(diff: Option<string>): (view: View)
    ensures view == NoChanges <==> diff == None || diff == Some("")
    ensures view.Rows? ==>
      var lines := Split(diff.value);
      && |view.rows| == Count(diff.value, '\n') + 1
      && (forall k :: 0 <= k < |lines| ==>
            && view.rows[k].kind == ClassifyLine(lines[k])
            && view.rows[k].text != ""
            && (lines[k] != "" ==> view.rows[k].text == lines[k])
            && (lines[k] == "" ==> view.rows[k].text == "\U{00A0}"))
  {
    if diff == None || diff == Some("") then NoChanges
    else Rows(LineRows(Split(diff.value)))
  }
}
