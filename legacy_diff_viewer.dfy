/**
 * The diff viewer of the older client: the same prefix tests and the same
 * split into rows as the apps/client viewer, written out again.
 */
module LegacyDiffViewer {
  import opened Wrappers
  import opened Text
  import DiffViewer

  function ClassifyLine(line: string): (kind: DiffViewer.LineKind)
    ensures StartsWith(line, "+++") || StartsWith(line, "---") ==> kind == DiffViewer.Header
    ensures StartsWith(line, "@@") ==> kind == DiffViewer.Range
    ensures StartsWith(line, "diff ") || StartsWith(line, "index ") ==> kind == DiffViewer.Header
    ensures kind == DiffViewer.Add <==> StartsWith(line, "+") && !StartsWith(line, "+++")
    ensures kind == DiffViewer.Remove <==> StartsWith(line, "-") && !StartsWith(line, "---")
  {
    DiffViewer.FirstCharDecides(line);
    if StartsWith(line, "+++") || StartsWith(line, "---") then DiffViewer.Header
    else if StartsWith(line, "@@") then DiffViewer.Range
    else if StartsWith(line, "+") then DiffViewer.Add
    else if StartsWith(line, "-") then DiffViewer.Remove
    else if StartsWith(line, "diff ") then DiffViewer.Header
    else if StartsWith(line, "index ") then DiffViewer.Header
    else DiffViewer.Context
  }

  function Render(diff: Option<string>): (view: DiffViewer.View)
    ensures view == DiffViewer.NoChanges <==> diff == None || diff == Some("")
  {
    if diff == None || diff == Some("") then DiffViewer.NoChanges
    else
      var lines := Split(diff.value);
      DiffViewer.Rows(seq(|lines|, k requires 0 <= k < |lines| =>
        DiffViewer.Row(ClassifyLine(lines[k]), Display(lines[k]))))
  }

  /** Both copies classify every line alike, so the older viewer inherits every fact proved of the newer one. */
  lemma ClassifyLineAgrees(line: string)
    ensures ClassifyLine(line) == DiffViewer.ClassifyLine(line)
  {
  }

  /** Both copies show every diff, null or not, as the same rows. */
  lemma RenderAgrees(diff: Option<string>)
    ensures Render(diff) == DiffViewer.Render(diff)
  {
    if diff.Some? && diff.value != "" {
      var lines := Split(diff.value);
      var a := Render(diff).rows;
      var b := DiffViewer.Render(diff).rows;
      forall k | 0 <= k < |lines| ensures a[k] == b[k] {
        ClassifyLineAgrees(lines[k]);
      }
    }
  }
}
