/**
 * The "Create New Project" dialog: a name, a local path, and a directory
 * browser that walks the server's file system one listing at a time.
 *
 * The server's replies (a directory listing, a created project, an error) are
 * inputs of the methods that apply them; the requests the dialog sends are
 * the results of the methods that send them.
 */
module ProjectModal {
  import opened Wrappers

  /** The number of characters after the last '/' of `dir` (all of them when there is none). */
  function TailSegmentLength(dir: string): (n: nat)
    ensures n <= |dir|
    ensures forall k :: |dir| - n <= k < |dir| ==> dir[k] != '/'
    ensures n < |dir| ==> dir[|dir| - n - 1] == '/'
  {
    if |dir| == 0 || dir[|dir| - 1] == '/' then 0 else 1 + TailSegmentLength(dir[..|dir| - 1])
  }

  /** `dir.replace(/\/[^/]+$/, '')`: drops a final '/' followed by a non-empty, slash-free segment. */
  function StripLastSegment(dir: string): (stripped: string)
    ensures |stripped| <= |dir| && dir[..|stripped|] == stripped
    ensures stripped != dir ==> dir[|stripped|] == '/' && |stripped| + 1 < |dir|
  {
    var n := TailSegmentLength(dir);
    if 0 < n < |dir| then dir[..|dir| - n - 1] else dir
  }

  /** The pattern /\/[^/]+$/ matches `dir` starting at index `k`. */
  predicate SegmentMatchAt(dir: string, k: int) {
    && 0 <= k < |dir| - 1
    && dir[k] == '/'
    && forall j :: k < j < |dir| ==> dir[j] != '/'
  }

  /**
   * StripLastSegment is the regular-expression replacement: where the pattern
   * matches (there is at most one place), everything from the match on is cut;
   * where it does not match, the string is unchanged.
   */
  lemma StripIsRegexReplace(dir: string)
    ensures forall k :: SegmentMatchAt(dir, k) ==> StripLastSegment(dir) == dir[..k]
    ensures (forall k :: !SegmentMatchAt(dir, k)) ==> StripLastSegment(dir) == dir
  {
    var n := TailSegmentLength(dir);
    if 0 < n < |dir| {
      assert SegmentMatchAt(dir, |dir| - n - 1);
    }
  }

  /** `goUp`'s target: the stripped directory, or "/" when nothing is left. */
  function ParentDir(dir: string): (parent: string)
    ensures parent != ""
    ensures parent == "/" || parent == dir
         || (&& |parent| + 1 < |dir|
             && dir[..|parent|] == parent
             && dir[|parent|] == '/'
             && forall j :: |parent| < j < |dir| ==> dir[j] != '/')
  {
    var stripped := StripLastSegment(dir);
    if stripped == "" then "/" else stripped
  }

  /** Going up at the root, or at a directory with a trailing slash, stays put. */
  lemma ParentDirFixedPoints(dir: string)
    ensures dir == "" || dir == "/" ==> ParentDir(dir) == "/"
    ensures |dir| > 0 && dir[|dir| - 1] == '/' ==> ParentDir(dir) == dir
  {
  }

  /** Going up from `dir/seg` gives `dir`, or "/" when `dir` is empty. */
  lemma ParentDirOfChild(dir: string, seg: string)
    requires seg != "" && forall j :: 0 <= j < |seg| ==> seg[j] != '/'
    ensures ParentDir(dir + "/" + seg) == if dir == "" then "/" else dir
  {
    var full := dir + "/" + seg;
    assert SegmentMatchAt(full, |dir|) by {
      forall j | |dir| < j < |full| ensures full[j] != '/' {
        assert full[j] == seg[j - |dir| - 1];
      }
    }
    StripIsRegexReplace(full);
    assert full[..|dir|] == dir;
  }

  lemma ParentDirExamples()
    ensures ParentDir("/a/b") == "/a"
    ensures ParentDir("/x") == "/"
    ensures ParentDir("/home/user/") == "/home/user/"
  {
    assert "/a" + "/" + "b" == "/a/b";
    ParentDirOfChild("/a", "b");
    assert "" + "/" + "x" == "/x";
    ParentDirOfChild("", "x");
    ParentDirFixedPoints("/home/user/");
  }

  /** One line of a directory listing. */
  datatype BrowseEntry = BrowseEntry(name: string, path: string, isGitRepo: bool)

  /** A listing request; None asks for the server's default directory. */
  datatype BrowseRequest = BrowseRequest(dir: Option<string>)

  /** The request that creates the project. */
  datatype CreateProject = CreateProject(name: string, path: string)

  class ModalForm {
    var name: string
    var path: string
    var error: Option<string>
    var loading: bool
    var showBrowser: bool
    var browseDir: string
    var entries: seq<BrowseEntry>

    /** A freshly opened dialog: every field empty, the browser hidden. */
    constructor ()
      ensures name == "" && path == "" && error == None && !loading
      ensures !showBrowser && browseDir == "" && entries == []
    {
      name, path, error, loading := "", "", None, false;
      showBrowser, browseDir, entries := false, "", [];
    }

    method EditName(value: string)
      modifies this`name
      ensures name == value
    {
      name := value;
    }

    method EditPath(value: string)
      modifies this`path
      ensures path == value
    {
      path := value;
    }

    /**
     * The Browse button, followed by the effect on `showBrowser`: opening the
     * browser before any directory was listed asks for the default listing.
     */
    method ToggleBrowser() returns (request: Option<BrowseRequest>)
      modifies this`showBrowser
      ensures showBrowser == !old(showBrowser)
      ensures request == if showBrowser && browseDir == "" then Some(BrowseRequest(None)) else None
    {
      showBrowser := !showBrowser;
      request := if showBrowser && browseDir == "" then Some(BrowseRequest(None)) else None;
    }

    /** A listing arrived. */
    method BrowseLoaded(dir: string, listing: seq<BrowseEntry>)
      modifies this`browseDir, this`entries
      ensures browseDir == dir && entries == listing
    {
      browseDir, entries := dir, listing;
    }

    /** A listing request failed. */
    method BrowseFailed(message: string)
      modifies this`error
      ensures error == Some(message)
    {
      error := Some(message);
    }

    /**
     * Clicking an entry: a git repository becomes the project path (and its
     * name the project name, unless one was typed) and the browser closes;
     * any other directory is listed next.
     */
    method SelectDir(entry: BrowseEntry) returns (request: Option<BrowseRequest>)
      modifies this`path, this`name, this`showBrowser
      ensures entry.isGitRepo ==>
        && request == None
        && path == entry.path
        && name == (if old(name) == "" then entry.name else old(name))
        && !showBrowser
      ensures !entry.isGitRepo ==>
        && request == Some(BrowseRequest(Some(entry.path)))
        && path == old(path) && name == old(name) && showBrowser == old(showBrowser)
    {
      if entry.isGitRepo {
        path := entry.path;
        if name == "" {
          name := entry.name;
        }
        showBrowser := false;
        request := None;
      } else {
        request := Some(BrowseRequest(Some(entry.path)));
      }
    }

    /** The ".." button: lists the parent of the directory shown. */
    method GoUp() returns (request: BrowseRequest)
      ensures request == BrowseRequest(Some(ParentDir(browseDir)))
      ensures request.dir.value != ""
    {
      request := BrowseRequest(Some(ParentDir(browseDir)));
    }

    /**
     * The Create button is disabled exactly without a name or a path, or while
     * a request is out; an enabled button always leads Submit to send.
     */
    function SubmitDisabled(): (disabled: bool)
      reads this
      ensures disabled <==> name == "" || path == "" || loading
    {
      name == "" || path == "" || loading
    }

    /** Submitting: nothing is sent unless both a name and a path are given. */
    method Submit() returns (request: Option<CreateProject>)
      modifies this`loading, this`error
      ensures request.Some? <==> old(name) != "" && old(path) != ""
      ensures request.Some? ==> request.value == CreateProject(name, path) && loading && error == None
      ensures request.None? ==> loading == old(loading) && error == old(error)
    {
      if name == "" || path == "" {
        request := None;
        return;
      }
      loading, error := true, None;
      request := Some(CreateProject(name, path));
    }

    /** The project was created; the parent is told and closes the dialog. */
    method SubmitSucceeded()
      modifies this`loading
      ensures !loading
    {
      loading := false;
    }

    /** Creating the project failed: the message is shown and the fields are kept. */
    method SubmitFailed(message: string)
      modifies this`loading, this`error
      ensures !loading && error == Some(message)
    {
      loading, error := false, Some(message);
    }

    /** The effect on `open` turning false: the dialog forgets everything but the loading flag. */
    method Close()
      modifies this`name, this`path, this`error, this`showBrowser, this`browseDir, this`entries
      ensures name == "" && path == "" && error == None
      ensures !showBrowser && browseDir == "" && entries == []
    {
      name, path, error := "", "", None;
      showBrowser, browseDir, entries := false, "", [];
    }
  }
}
