/** The reader of the media centre's own `guisettings.xml`: the document is
    parsed once, when the reader is made, and queried with dotted paths such
    as `settings.audiooutput.mode`, whose first step names the root element. */
module GuiSettings {
  import opened Wrappers
  import opened Strings
  import opened ElementTree

  /** Why a query has no answer. */
  datatype QueryError =
    | KeyError        // the query is empty, names another root, or leads nowhere
    | LeftToLibrary   // the answer is whatever ElementTree's `find` does with the path; not modelled

  class GuiSettingsReader {
    /** The root element of the parsed document; it never changes. */
    const doc: Element

    /** Reading and parsing the file are the host's; the parsed tree is given. */
    constructor (parsed: Element)
      ensures doc == parsed
    {
      doc := parsed;
    }

    /** The text of the element a dotted query names. */
    function GetSetting(query: string): (r: Result<Option<string>, QueryError>)
      ensures query == [] ==> r == Failure(KeyError)
      ensures query != [] && Split(query, '.')[0] != doc.tag ==> r == Failure(KeyError)
      ensures r.Success? ==> |Split(query, '.')| > 1 && Split(query, '.')[0] == doc.tag
      ensures r.Success? ==>
        exists p :: |p| >= 1 && Descend(doc, p).Some? && r.value == Descend(doc, p).value.text
    {
      if query == [] then Failure(KeyError)
      else
        var stepList := Split(query, '.');
        var rootTag := stepList[0];
        var pathRemainder := if |stepList| > 1 then Join(stepList[1..], '/') else [];
        if doc.tag != rootTag then Failure(KeyError)
        else
          match Find(doc, pathRemainder)
          case LibraryDefined => Failure(LeftToLibrary)
          case NoMatch => Failure(KeyError)
          case Match(el) => Success(el.text)
    }
  }

  /** A query built from a root tag and plain tag steps: it fails on a
      different root, fails when no element is reached, and otherwise gives
      the own text of the first element reached in document order. */
  lemma GetSettingPlainQuery(reader: GuiSettingsReader, rootTag: string, steps: seq<string>)
    requires '.' !in rootTag
    requires |steps| >= 1 && PlainSteps(steps)
    ensures var r := reader.GetSetting(Join([rootTag] + steps, '.'));
      && (rootTag != reader.doc.tag ==> r == Failure(KeyError))
      && (rootTag == reader.doc.tag && (forall q :: !Matches(reader.doc, steps, q)) ==> r == Failure(KeyError))
      && (forall p :: rootTag == reader.doc.tag && FirstMatch(reader.doc, steps, p) ==>
            Descend(reader.doc, p).Some? && r == Success(Descend(reader.doc, p).value.text))
  {
    var query := Join([rootTag] + steps, '.');
    forall k | 0 <= k < |[rootTag] + steps| ensures '.' !in ([rootTag] + steps)[k] {
      if k > 0 {
        assert ([rootTag] + steps)[k] == steps[k - 1];
        assert PlainTag(steps[k - 1]);
        assert IsPathSyntax('.');
      }
    }
    SplitJoin([rootTag] + steps, '.');
    assert Split(query, '.')[1..] == steps;
    forall k | 0 <= k < |steps| ensures '/' !in steps[k] {
      assert PlainTag(steps[k]);
      assert IsPathSyntax('/');
    }
    SplitJoin(steps, '/');
    var remainder := Join(steps, '/');
    assert Split(remainder, '/') == steps;
    assert PlainTag(steps[0]);
    assert remainder != [];
    FindPathIsFirstMatch(reader.doc, steps);
    forall p | rootTag == reader.doc.tag && FirstMatch(reader.doc, steps, p)
      ensures Descend(reader.doc, p).Some? && reader.GetSetting(query) == Success(Descend(reader.doc, p).value.text)
    {
      MatchReachesElement(reader.doc, steps, p);
    }
  }

  /** A query whose root tag is the whole query leaves the answer to the
      library's `find('')` when the root tag matches, and fails otherwise. */
  lemma GetSettingRootOnly(reader: GuiSettingsReader, rootTag: string)
    requires rootTag != [] && '.' !in rootTag
    ensures reader.GetSetting(rootTag) ==
      if rootTag == reader.doc.tag then Failure(LeftToLibrary) else Failure(KeyError)
  {
  }

  /** `<root><child1><child2>val</child2></child1></root>` answers
      `root.child1.child2` with `val`, and fails on another root tag. */
  lemma NestedQueryExample(reader: GuiSettingsReader)
    requires reader.doc == Element("root", None, [Element("child1", None, [Element("child2", Some("val"), [])])])
    ensures reader.GetSetting("root.child1.child2") == Success(Some("val"))
    ensures reader.GetSetting("wrongroot.child1.child2") == Failure(KeyError)
  {
    var steps := ["child1", "child2"];
    var child1 := reader.doc.children[0];
    var child2 := child1.children[0];
    assert FindPath(child2, []) == Some([]);
    assert ["child2"][1..] == [];
    assert [0] + [] == [0];
    assert FindChild(child1, 0, ["child2"]) == Some([0]);
    assert FindPath(child1, ["child2"]) == Some([0]);
    assert steps[1..] == ["child2"];
    assert [0] + [0] == [0, 0];
    assert FindChild(reader.doc, 0, steps) == Some([0, 0]);
    FindPathIsFirstMatch(reader.doc, steps);
    assert Descend(reader.doc, [0, 0]) == Some(child2);
    QueryPieces();
    GetSettingPlainQuery(reader, "root", steps);
    GetSettingPlainQuery(reader, "wrongroot", steps);
  }

  lemma QueryPieces()
    ensures PlainSteps(["child1", "child2"])
    ensures Join(["root", "child1", "child2"], '.') == "root.child1.child2"
    ensures Join(["wrongroot", "child1", "child2"], '.') == "wrongroot.child1.child2"
  {
    ExampleStepPlain("child1");
    ExampleStepPlain("child2");
    assert ["child1", "child2"][1..] == ["child2"];
    assert Join(["child1", "child2"], '.') == "child1.child2";
    assert ["root", "child1", "child2"][1..] == ["child1", "child2"];
    assert ["wrongroot", "child1", "child2"][1..] == ["child1", "child2"];
  }

  lemma ExampleStepPlain(step: string)
    requires step != [] && forall i :: 0 <= i < |step| ==> 'a' <= step[i] <= 'z' || '0' <= step[i] <= '9'
    ensures PlainTag(step)
  {
  }
}
