/** The two pure pieces of `ImageFileController.getImage`: the path-traversal filter
    applied to the requested file name, and the content-type default. */
module ImageFileController {
  import opened Common

  /** A "../" or "..\" sequence starts at index `i`. */
  predicate TraversalAt(s: string, i: nat)
    requires i + 3 <= |s|
  {
    s[i] == '.' && s[i + 1] == '.' && (s[i + 2] == '/' || s[i + 2] == '\\')
  }

  /** One left-to-right pass of `replaceAll("\\.\\.[\\\\/]", "")`: each match is dropped
      and the scan resumes after it, so matches never overlap. */
  function Sanitize(s: string): (r: string)
    ensures |r| <= |s|
    decreases |s|
  {
    if |s| >= 3 && TraversalAt(s, 0) then Sanitize(s[3..])
    else if s == [] then []
    else [s[0]] + Sanitize(s[1..])
  }

  /** The number of matches that pass drops. */
  function Removed(s: string): nat
    decreases |s|
  {
    if |s| >= 3 && TraversalAt(s, 0) then 1 + Removed(s[3..])
    else if s == [] then 0
    else Removed(s[1..])
  }

  /** Each dropped match takes exactly three characters with it. */
  lemma {:induction false} SanitizeLength(s: string)
    ensures |Sanitize(s)| == |s| - 3 * Removed(s)
    decreases |s|
  {
    if |s| >= 3 && TraversalAt(s, 0) {
      SanitizeLength(s[3..]);
    } else if s != [] {
      SanitizeLength(s[1..]);
    }
  }

  /** A name with no traversal sequence comes back unchanged. */
  lemma {:induction false} CleanNameUnchanged(s: string)
    requires forall i: nat :: i + 3 <= |s| ==> !TraversalAt(s, i)
    ensures Sanitize(s) == s
    ensures Removed(s) == 0
    decreases |s|
  {
    if s != [] {
      var t := s[1..];
      forall i: nat | i + 3 <= |t|
        ensures !TraversalAt(t, i)
      {
        assert !TraversalAt(s, i + 1);
      }
      CleanNameUnchanged(t);
      if |s| >= 3 {
        assert !TraversalAt(s, 0);
      }
      assert s == [s[0]] + t;
    }
  }

  /** The filter makes a single pass and is not repeated to a fixed point: "....//"
      loses one match and still holds one. */
  lemma SinglePass()
    ensures Sanitize("....//") == "../"
    ensures Removed("....//") == 1
    ensures Sanitize(Sanitize("....//")) == ""
  {
    var s := "....//";
    assert !TraversalAt(s, 0);
    assert s[1..] == "...//";
    assert !TraversalAt(s[1..], 0);
    assert s[1..][1..] == "..//";
    assert TraversalAt("..//", 0);
    assert "..//"[3..] == "/";
    assert Sanitize("/") == "/" by {
      assert "/"[1..] == [];
    }
    assert Removed("/") == 0 by {
      assert "/"[1..] == [];
    }
    assert TraversalAt("../", 0);
    assert "../"[3..] == [];
  }

  /** The content type sent back: the probed type, or "application/octet-stream" when
      probing yields nothing. */
  function ContentTypeOrDefault(probed: Option<string>): (r: string)
    ensures probed.Some? ==> r == probed.value
    ensures probed.None? ==> r == "application/octet-stream"
  {
    match probed
    case Some(t) => t
    case None => "application/octet-stream"
  }
}
