/** Go's `path.Join` and `path.Clean` for slash-separated paths, written over path elements. */
module GoPath {
  import opened GoStrings

  /** An element that `Clean` keeps as it is: not empty, not `.` and not `..`. */
  predicate IsNormalElement(e: string)
  {
    e != "" && e != "." && e != ".."
  }

  /** The element-by-element pass of `Clean`: empty and `.` elements vanish, and `..` removes the
      element before it; a `..` with nothing to remove is kept in a relative path and dropped
      after the root of a rooted one. */
  function CleanElements(elems: seq<string>, rooted: bool, kept: seq<string>): seq<string>
    decreases |elems|
  {
    if elems == [] then kept
    else
      var e := elems[0];
      var kept' :=
        if e == "" || e == "." then kept
        else if e == ".." then
          (if |kept| > 0 && kept[|kept| - 1] != ".." then kept[..|kept| - 1]
           else if rooted then kept
           else kept + [".."])
        else kept + [e];
      CleanElements(elems[1..], rooted, kept')
  }

  /** `path.Clean`: the shortest path naming the same file by purely lexical processing;
      the empty result is `.`. */
  function Clean(p: string): (r: string)
    ensures r != ""
    ensures p != "" && p[0] == '/' ==> r[0] == '/'
  {
    if p == [] then "."
    else
      var rooted := p[0] == '/';
      var out := (if rooted then "/" else "") + Join(CleanElements(Split(p, '/'), rooted, []), '/');
      if out == [] then "." else out
  }

  /** `path.Join`: the non-empty elements from the first non-empty one on, joined by `/`, then
      cleaned; all-empty input gives the empty string. */
  function JoinPath(elems: seq<string>): (r: string)
    ensures r == "" <==> forall i :: 0 <= i < |elems| ==> elems[i] == ""
    decreases |elems|
  {
    if elems == [] then ""
    else if elems[0] != "" then Clean(Join(elems, '/'))
    else
      assert forall i :: 1 <= i < |elems| ==> elems[i] == elems[1..][i - 1];
      JoinPath(elems[1..])
  }

  /** Path elements that `Clean` leaves alone: normal, and none holding a `/`. */
  predicate AreCleanElements(elems: seq<string>)
  {
    forall i :: 0 <= i < |elems| ==> IsNormalElement(elems[i]) && '/' !in elems[i]
  }

  /** Normal elements pass through the cleaning pass unchanged. */
  lemma {:induction false} CleanNormalElements(elems: seq<string>, rooted: bool, kept: seq<string>)
    requires forall i :: 0 <= i < |elems| ==> IsNormalElement(elems[i])
    ensures CleanElements(elems, rooted, kept) == kept + elems
  {
    if elems != [] {
      CleanNormalElements(elems[1..], rooted, kept + [elems[0]]);
      assert kept + [elems[0]] + elems[1..] == kept + elems;
    }
  }

  /** A rooted path made of clean elements is its own cleaned form. */
  lemma CleanAbsoluteIsClean(elems: seq<string>)
    requires |elems| >= 1 && AreCleanElements(elems)
    ensures Clean("/" + Join(elems, '/')) == "/" + Join(elems, '/')
  {
    var j := Join(elems, '/');
    var p := "/" + j;
    assert p[0] == '/' && p[1..] == j;
    assert Split(p, '/') == [""] + Split(j, '/');
    SplitJoin(elems, '/');
    assert CleanElements([""] + elems, true, []) == elems by {
      assert ([""] + elems)[1..] == elems;
      CleanNormalElements(elems, true, []);
      assert [] + elems == elems;
    }
  }
}
