/**
  Image file names as the source compares them, and the first-match image lookup
  of `get_image_by_name` (cytomine_utils/_utils.py, lines 147-158), also used
  inline by `upload_annotations` (line 260).
 */
module Images {
  import opened Wrappers

  /** An image instance: its id and its stored file name (a path). */
  datatype Image = Image(id: int, filename: string)

  /** `next` on a filter that kept nothing raises StopIteration. */
  datatype LookupError = StopIteration

  /** `s.split("/")[-1]`: the text after the last `/`, or all of `s` when it has none. */
  function LastSegment(s: string): (r: string)
    decreases |s|
    ensures '/' !in r
    ensures |r| <= |s|
  {
    if s == [] || s[|s| - 1] == '/' then []
    else LastSegment(s[..|s| - 1]) + [s[|s| - 1]]
  }

  /**
    The last segment is a suffix of `s` that is either all of `s` or preceded by a `/`:
    together with `'/' !in r` this is what `split("/")[-1]` returns.
   */
  lemma {:induction false} LastSegmentIsSuffix(s: string)
    ensures s[|s| - |LastSegment(s)|..] == LastSegment(s)
    ensures |LastSegment(s)| == |s| || s[|s| - |LastSegment(s)| - 1] == '/'
  {
    if s != [] && s[|s| - 1] != '/' {
      var init := s[..|s| - 1];
      LastSegmentIsSuffix(init);
      assert s == init + [s[|s| - 1]];
    }
  }

  /**
    `Path(s).name` for a POSIX path: the last component once empty and `.`
    components are dropped, or the empty string when none is left.
   */
  function PathName(s: string): (r: string)
    decreases |s|
    ensures '/' !in r && r != "."
    ensures LastSegment(s) != "" && LastSegment(s) != "." ==> r == LastSegment(s)
  {
    var seg := LastSegment(s);
    if seg != "" && seg != "." then seg
    else if |seg| == |s| then ""
    else PathName(s[..|s| - |seg| - 1])
  }

  /**
    Path names ignore a trailing `/` or `/.`, and the empty path and `.` have the
    empty name. With the ensures of PathName this fixes the name of every path.
   */
  lemma PathNameCollapses(s: string)
    ensures PathName(s + "/") == PathName(s)
    ensures PathName(s + "/.") == PathName(s)
    ensures PathName("") == "" && PathName(".") == ""
  {
    TrailingSlashDropped(s);
    TrailingDotDropped(s);
    assert LastSegment(".") == "." by {
      assert "."[..0] == "";
    }
  }

  /** The step of PathName past a trailing `/`. */
  lemma TrailingSlashDropped(s: string)
    ensures PathName(s + "/") == PathName(s)
  {
    var t := s + "/";
    assert t[|t| - 1] == '/';
    assert LastSegment(t) == "";
    assert t[..|t| - 0 - 1] == s;
  }

  /** The step of PathName past a trailing `/.`. */
  lemma TrailingDotDropped(s: string)
    ensures PathName(s + "/.") == PathName(s)
  {
    var t := s + "/.";
    assert t[..|t| - 1] == s + "/";
    assert LastSegment(s + "/") == "";
    assert LastSegment(t) == ".";
    assert t[..|t| - 1 - 1] == s;
  }

  /** A trailing slash separates the two notions of an image's name. */
  lemma TrailingSlashNames()
    ensures LastSegment("slides/a.svs/") == ""
    ensures PathName("slides/a.svs/") == "a.svs"
  {
    assert LastSegment("slides/a.svs") == "a.svs" by {
      assert "slides/a.svs"[..|"slides/a.svs"| - 1] == "slides/a.sv";
      assert "slides/a.sv"[..|"slides/a.sv"| - 1] == "slides/a.s";
      assert "slides/a.s"[..|"slides/a.s"| - 1] == "slides/a.";
      assert "slides/a."[..|"slides/a."| - 1] == "slides/a";
      assert "slides/a"[..|"slides/a"| - 1] == "slides/";
      assert LastSegment("slides/") == "";
    }
    assert "slides/a.svs/"[..|"slides/a.svs/"| - 1] == "slides/a.svs";
  }

  /** The filter of the lookup: the file name's last segment is the query. */
  predicate NamedBy(img: Image, name: string)
  {
    LastSegment(img.filename) == name
  }

  /** The position of the first image at or after `from` that is named `name`. */
  function FirstNamed(images: seq<Image>, name: string, from: nat): (r: Option<nat>)
    requires from <= |images|
    decreases |images| - from
    ensures r.Some? ==>
      from <= r.value < |images| && NamedBy(images[r.value], name) &&
      forall j :: from <= j < r.value ==> !NamedBy(images[j], name)
    ensures r.None? ==> forall j :: from <= j < |images| ==> !NamedBy(images[j], name)
  {
    if from == |images| then None
    else if NamedBy(images[from], name) then Some(from)
    else FirstNamed(images, name, from + 1)
  }

  /** The first image named `name`, or StopIteration when no image is. */
  function ImageByName(images: seq<Image>, name: string): (r: Result<Image, LookupError>)
    ensures r.Failure? <==> forall k :: 0 <= k < |images| ==> !NamedBy(images[k], name)
    ensures r.Success? ==>
      exists k :: 0 <= k < |images| && images[k] == r.value && NamedBy(images[k], name) &&
        forall j :: 0 <= j < k ==> !NamedBy(images[j], name)
  {
    match FirstNamed(images, name, 0)
    case None => Failure(StopIteration)
    case Some(k) => Success(images[k])
  }
}
