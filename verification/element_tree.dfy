/** The part of ElementTree that the settings reader relies on: a parsed
    document as an immutable tree, and `find` for a path of plain tag steps,
    which yields the first matching element in document order. */
module ElementTree {
  import opened Wrappers
  import opened Strings

  /** An element: its tag, its own text (absent when the element has none)
      and its child elements in document order. */
  datatype Element = Element(tag: string, text: Option<string>, children: seq<Element>)

  /** The element reached from `e` by following the child positions in `p`. */
  function Descend(e: Element, p: seq<nat>): Option<Element>
    decreases |p|
  {
    if p == [] then Some(e)
    else if p[0] < |e.children| then Descend(e.children[p[0]], p[1..])
    else None
  }

  /** The child positions `p` lead from `e` through elements whose tags are
      `steps`, one step per level. */
  ghost predicate Matches(e: Element, steps: seq<string>, p: seq<nat>)
    decreases |steps|
  {
    && |p| == |steps|
    && (steps != [] ==>
          && p[0] < |e.children|
          && e.children[p[0]].tag == steps[0]
          && Matches(e.children[p[0]], steps[1..], p[1..]))
  }

  /** Lexicographic order on position paths of one length; among elements at
      the same depth this is document order. */
  ghost predicate LexLeq(p: seq<nat>, q: seq<nat>)
    requires |p| == |q|
    decreases |p|
  {
    p == [] || p[0] < q[0] || (p[0] == q[0] && LexLeq(p[1..], q[1..]))
  }

  /** `p` is the first position path, in document order, that matches `steps`. */
  ghost predicate FirstMatch(e: Element, steps: seq<string>, p: seq<nat>)
  {
    Matches(e, steps, p) && forall q :: Matches(e, steps, q) ==> LexLeq(p, q)
  }

  /** The position of the first element below `e` reached through `steps`. */
  function FindPath(e: Element, steps: seq<string>): (r: Option<seq<nat>>)
    ensures r.Some? ==> Matches(e, steps, r.value)
    decreases e, 1, 0
  {
    if steps == [] then Some([]) else FindChild(e, 0, steps)
  }

  /** The first match of `steps` that starts at one of the children of `e`
      from position `i` on. */
  function FindChild(e: Element, i: nat, steps: seq<string>): (r: Option<seq<nat>>)
    requires steps != [] && i <= |e.children|
    ensures r.Some? ==> Matches(e, steps, r.value) && r.value[0] >= i
    decreases e, 0, |e.children| - i
  {
    if i == |e.children| then None
    else
      var c := e.children[i];
      var below := if c.tag == steps[0] then FindPath(c, steps[1..]) else None;
      if below.Some? then Some([i] + below.value)
      else FindChild(e, i + 1, steps)
  }

  /** Whatever matches `steps` below `e`, the search finds a match no later
      in document order. */
  lemma {:induction false} FindPathFirst(e: Element, steps: seq<string>, q: seq<nat>)
    requires Matches(e, steps, q)
    ensures FindPath(e, steps).Some? && LexLeq(FindPath(e, steps).value, q)
    decreases e, 1, 0
  {
    if steps != [] {
      FindChildFirst(e, 0, steps, q);
    }
  }

  lemma {:induction false} FindChildFirst(e: Element, i: nat, steps: seq<string>, q: seq<nat>)
    requires steps != [] && i <= |e.children|
    requires Matches(e, steps, q) && i <= q[0]
    ensures FindChild(e, i, steps).Some? && LexLeq(FindChild(e, i, steps).value, q)
    decreases e, 0, |e.children| - i
  {
    var c := e.children[i];
    if i == q[0] {
      FindPathFirst(c, steps[1..], q[1..]);
      var below := FindPath(c, steps[1..]).value;
      assert ([i] + below)[1..] == below;
    } else if c.tag == steps[0] && FindPath(c, steps[1..]).Some? {
    } else {
      FindChildFirst(e, i + 1, steps, q);
    }
  }

  lemma {:induction false} LexLeqAntisymmetric(p: seq<nat>, q: seq<nat>)
    requires |p| == |q| && LexLeq(p, q) && LexLeq(q, p)
    ensures p == q
    decreases |p|
  {
    if p != [] {
      LexLeqAntisymmetric(p[1..], q[1..]);
      assert p == [p[0]] + p[1..] && q == [q[0]] + q[1..];
    }
  }

  /** A match always leads to an element, and that element has the last tag. */
  lemma {:induction false} MatchReachesElement(e: Element, steps: seq<string>, p: seq<nat>)
    requires Matches(e, steps, p) && steps != []
    ensures Descend(e, p).Some? && Descend(e, p).value.tag == steps[|steps| - 1]
    decreases |steps|
  {
    if |steps| > 1 {
      MatchReachesElement(e.children[p[0]], steps[1..], p[1..]);
    }
  }

  /** The search answers with the first match in document order, and answers
      nothing exactly when nothing matches. */
  lemma FindPathIsFirstMatch(e: Element, steps: seq<string>)
    ensures FindPath(e, steps).None? ==> forall q :: !Matches(e, steps, q)
    ensures (forall q :: !Matches(e, steps, q)) ==> FindPath(e, steps).None?
    ensures FindPath(e, steps).Some? ==> FirstMatch(e, steps, FindPath(e, steps).value)
    ensures forall p :: FirstMatch(e, steps, p) ==> FindPath(e, steps) == Some(p)
  {
    forall q | Matches(e, steps, q)
      ensures FindPath(e, steps).Some? && LexLeq(FindPath(e, steps).value, q)
    {
      FindPathFirst(e, steps, q);
    }
    forall p | FirstMatch(e, steps, p)
      ensures FindPath(e, steps) == Some(p)
    {
      var found := FindPath(e, steps).value;
      LexLeqAntisymmetric(found, p);
    }
    if FindPath(e, steps).Some? {
      var found := FindPath(e, steps).value;
      assert Matches(e, steps, found);
      assert !(forall q :: !Matches(e, steps, q));
    }
  }

  /** Punctuation that ElementPath reads as path syntax rather than as part
      of a tag name. */
  const PathPunctuation: set<char> :=
    {'/', '.', '*', ':', '[', ']', '(', ')', '@', '=', '!', '{', '}', '\'', '"'}

  /** Unicode spaces beyond ASCII. ElementPath's tokenizer does not split at
      them; they are kept out of plain tags only so that no claim is made
      about steps that hold them. */
  const WideSpaces: set<char> :=
    {'\U{0085}', '\U{00A0}', '\U{1680}', '\U{2000}', '\U{2001}', '\U{2002}', '\U{2003}',
     '\U{2004}', '\U{2005}', '\U{2006}', '\U{2007}', '\U{2008}', '\U{2009}', '\U{200A}',
     '\U{2028}', '\U{2029}', '\U{202F}', '\U{205F}', '\U{3000}'}

  /** A character that is path syntax or ASCII whitespace (space, tab, line
      feed, vertical tab, form feed, carriage return), which the tokenizer
      splits off; other control characters and the Unicode spaces are
      included as well, so that no claim is made about them. */
  predicate IsPathSyntax(c: char)
  {
    c in PathPunctuation || c <= ' ' || c in WideSpaces
  }

  /** A step that names a tag and nothing else. */
  predicate PlainTag(step: string)
  {
    step != [] && forall i :: 0 <= i < |step| ==> !IsPathSyntax(step[i])
  }

  /** Every step of the path names a tag and nothing else. */
  predicate PlainSteps(steps: seq<string>)
  {
    forall k :: 0 <= k < |steps| ==> PlainTag(steps[k])
  }

  /** What `find(path)` gives for a path relative to the root element. */
  datatype Found =
    | Match(element: Element)  // the first element the path leads to
    | NoMatch                  // no element: find returns None
    | LibraryDefined           // the answer depends on the ElementTree release; not modelled

  /** `find(path)` on a document whose root is `root`: a path of plain tag
      steps separated by `/` yields the first element it leads to in
      document order, or nothing. The empty path and any other path syntax
      are left to the library. */
  function Find(root: Element, path: string): (r: Found)
    ensures r.Match? ==> exists p :: FirstMatch(root, Split(path, '/'), p) && Descend(root, p) == Some(r.element)
    ensures r.NoMatch? ==> forall q :: !Matches(root, Split(path, '/'), q)
    ensures r.LibraryDefined? <==> path == [] || !PlainSteps(Split(path, '/'))
  {
    var steps := Split(path, '/');
    if path == [] || !PlainSteps(steps) then LibraryDefined
    else
      FindPathIsFirstMatch(root, steps);
      match FindPath(root, steps)
      case None => NoMatch
      case Some(p) =>
        MatchReachesElement(root, steps, p);
        Match(Descend(root, p).value)
  }

  /** A step holding a vertical tab or a form feed is split by ElementPath's
      tokenizer, so the answer is left to the library. */
  lemma ControlWhitespaceLeftToLibrary(root: Element)
    ensures Find(root, "a\U{000C}b").LibraryDefined?
    ensures Find(root, "a\U{000B}b").LibraryDefined?
  {
    SplitJoin(["a\U{000C}b"], '/');
    assert IsPathSyntax("a\U{000C}b"[1]);
    SplitJoin(["a\U{000B}b"], '/');
    assert IsPathSyntax("a\U{000B}b"[1]);
  }
}
