/**
 * Go's path.Base, which the service applies both to the browser's raw location
 * (to recognise the login page) and to the path of the snapshot URL (to get the key).
 */
module GoPath {

  /** The longest prefix of p that does not end in '/'. */
  function StripTrailingSlashes(p: string): (s: string)
    ensures |s| <= |p| && s == p[..|s|]
    ensures s == [] || s[|s| - 1] != '/'
    ensures forall i | |s| <= i < |p| :: p[i] == '/'
    decreases |p|
  {
    if |p| > 0 && p[|p| - 1] == '/' then StripTrailingSlashes(p[..|p| - 1]) else p
  }

  /** The part of s after its last '/', or all of s when s has no '/'. */
  function AfterLastSlash(s: string): (e: string)
    ensures |e| <= |s| && e == s[|s| - |e|..]
    ensures '/' !in e
    ensures |e| < |s| ==> s[|s| - |e| - 1] == '/'
    decreases |s|
  {
    if s == [] || s[|s| - 1] == '/' then [] else AfterLastSlash(s[..|s| - 1]) + [s[|s| - 1]]
  }

  /**
   * path.Base: "." for the empty path, "/" for a path made of slashes only,
   * otherwise the last element once trailing slashes are removed.
   */
  function Base(p: string): (r: string)
    ensures r != []
    ensures '/' in r ==> r == "/"
  {
    if p == [] then "."
    else
      var e := AfterLastSlash(StripTrailingSlashes(p));
      if e == [] then "/" else e
  }

  /** s is elem, or ends in "/" + elem. */
  predicate EndsWithElement(s: string, elem: string)
  {
    s == elem || (|s| > |elem| && s[|s| - |elem|..] == elem && s[|s| - |elem| - 1] == '/')
  }

  lemma {:induction false} AfterSlashThenSegment(x: string, seg: string)
    requires x == [] || x[|x| - 1] == '/'
    requires '/' !in seg
    ensures AfterLastSlash(x + seg) == seg
    decreases |seg|
  {
    if seg == [] {
      assert x + seg == x;
    } else {
      var s, init, last := x + seg, seg[..|seg| - 1], seg[|seg| - 1];
      assert last in seg;
      assert s[|s| - 1] == last;
      assert s[..|s| - 1] == x + init;
      assert AfterLastSlash(s) == AfterLastSlash(x + init) + [last];
      assert '/' !in init by {
        forall c | c in init ensures c in seg { }
      }
      AfterSlashThenSegment(x, init);
      assert init + [last] == seg;
    }
  }

  /** A slash-free, non-empty last element is what Base returns. */
  lemma BaseOfLastElement(dir: string, elem: string)
    requires elem != [] && '/' !in elem
    ensures Base(dir + "/" + elem) == elem
    ensures Base(elem) == elem
  {
    var p := dir + "/" + elem;
    assert p[|p| - 1] == elem[|elem| - 1];
    assert StripTrailingSlashes(p) == p;
    assert (dir + "/")[|dir + "/"| - 1] == '/';
    AfterSlashThenSegment(dir + "/", elem);
    assert elem[|elem| - 1] in elem;
    assert StripTrailingSlashes(elem) == elem;
    AfterSlashThenSegment([], elem);
    assert [] + elem == elem;
  }

  /** A one-element absolute path has that element as its Base. */
  lemma BaseOfRootElement(elem: string)
    requires elem != [] && '/' !in elem
    ensures Base("/" + elem) == elem
  {
    var p := "/" + elem;
    assert p[|p| - 1] == elem[|elem| - 1];
    assert elem[|elem| - 1] in elem;
    assert StripTrailingSlashes(p) == p;
    AfterSlashThenSegment("/", elem);
  }

  /** The special cases of path.Base: "." for the empty path, "/" for a path of slashes only. */
  lemma BaseOfSlashes(p: string)
    requires forall i | 0 <= i < |p| :: p[i] == '/'
    ensures Base(p) == if p == [] then "." else "/"
  {
  }

  /** Trailing slashes never change the last element of a non-empty path. */
  lemma BaseIgnoresTrailingSlash(p: string)
    requires p != []
    ensures Base(p + "/") == Base(p)
  {
    var q := p + "/";
    assert q[..|q| - 1] == p;
    assert StripTrailingSlashes(q) == StripTrailingSlashes(p);
  }

  /**
   * Base(p) is a given element exactly when p, with trailing slashes removed,
   * is that element or ends in "/" followed by it.
   */
  lemma BaseIsElementIff(p: string, elem: string)
    requires elem != [] && '/' !in elem && elem != "."
    ensures Base(p) == elem <==> EndsWithElement(StripTrailingSlashes(p), elem)
  {
    if EndsWithElement(StripTrailingSlashes(p), elem) {
      EndingGivesBase(p, elem);
    }
    if Base(p) == elem {
      BaseGivesEnding(p, elem);
    }
  }

  lemma EndingGivesBase(p: string, elem: string)
    requires elem != [] && '/' !in elem
    requires EndsWithElement(StripTrailingSlashes(p), elem)
    ensures Base(p) == elem
  {
    var s := StripTrailingSlashes(p);
    assert p != [] by { assert |s| >= |elem| > 0; }
    if s == elem {
      assert [] + elem == elem;
      AfterSlashThenSegment([], elem);
    } else {
      var dir := s[..|s| - |elem|];
      assert s == dir + elem;
      AfterSlashThenSegment(dir, elem);
    }
  }

  lemma BaseGivesEnding(p: string, elem: string)
    requires elem != [] && '/' !in elem && elem != "."
    requires Base(p) == elem
    ensures EndsWithElement(StripTrailingSlashes(p), elem)
  {
    assert p != [];
    var s := StripTrailingSlashes(p);
    assert AfterLastSlash(s) == elem;
  }
}
