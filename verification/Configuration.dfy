/**
 * The configuration tree: documents merged key by key, later ones winning, then decoded, defaulted and
 * validated. Reading and parsing a file, and what the decoder makes of a value, are inputs.
 */
module Configuration {
  import opened Basics

  datatype Result<+T, +E> = Ok(value: T) | Err(error: E)

  /** A value in a document, as the decoder sees it for its field. */
  datatype Leaf<+T> = Value(value: T) | Null | Undecodable

  /** The execution section: a mapping, or another value in its place: null, or one that is no section. */
  datatype Section = Fields(defaultImage: Option<Leaf<string>>) | NotMapping(isNull: bool)

  /** A parsed document, and equally the merged tree: the keys it defines. */
  datatype Tree = Tree(execution: Option<Section>, test: Option<Leaf<bool>>)

  /** What a provider returned: a document, or an error of reading or parsing. */
  datatype Content = Readable(document: Tree) | Unreadable

  datatype Settings = Settings(defaultImage: string, test: bool)

  datatype Error = LoadError | DecodeError | ConfigError(field: string, tag: string) | WatchError

  const EMPTY := Tree(None, None)
  const NO_SETTINGS := Settings("", false)
  const DEFAULT_IMAGE := "tofuutils/tenv:latest"

  // ---------- merging ----------

  function MergeSection(a: Option<Section>, b: Option<Section>): Option<Section> {
    if b.None? then a
    else if a.Some? && a.value.Fields? && b.value.Fields? && b.value.defaultImage.None? then a
    else b
  }

  function Merge(tree: Tree, doc: Tree): Tree {
    Tree(MergeSection(tree.execution, doc.execution), if doc.test.Some? then doc.test else tree.test)
  }

  /** The load loop: all documents merged, or None when one of them could not be read. */
  function MergeAll(contents: seq<Content>): Option<Tree> {
    if contents == [] then Some(EMPTY)
    else
      var rest, last := MergeAll(contents[..|contents| - 1]), contents[|contents| - 1];
      if rest.Some? && last.Readable? then Some(Merge(rest.value, last.document)) else None
  }

  predicate AllReadable(contents: seq<Content>) {
    forall i :: 0 <= i < |contents| ==> contents[i].Readable?
  }

  /** The document at i satisfies p and no later one does. */
  ghost predicate IsLast(contents: seq<Content>, i: int, p: Tree -> bool) {
    && 0 <= i < |contents| && contents[i].Readable? && p(contents[i].document)
    && forall j :: i < j < |contents| ==> contents[j].Readable? && !p(contents[j].document)
  }

  ghost predicate Nowhere(contents: seq<Content>, p: Tree -> bool) {
    forall i :: 0 <= i < |contents| ==> contents[i].Readable? && !p(contents[i].document)
  }

  function DefinesTest(): Tree -> bool {
    (d: Tree) => d.test.Some?
  }

  /** The document says something about the default image: a value for it, or a section that is no mapping. */
  function DefinesImage(): Tree -> bool {
    (d: Tree) => d.execution.Some? && (d.execution.value.Fields? ==> d.execution.value.defaultImage.Some?)
  }

  function DefinesExecution(): Tree -> bool {
    (d: Tree) => d.execution.Some?
  }

  /** The meaning of the test key: the last document that has it. */
  ghost predicate TestMeans(contents: seq<Content>, test: Option<Leaf<bool>>) {
    if test.None? then Nowhere(contents, DefinesTest())
    else exists i :: IsLast(contents, i, DefinesTest()) && contents[i].document.test == test
  }

  /**
   * The meaning of the execution section: the last document that says something about the image, except
   * that a mapping after a section that was none leaves an empty mapping.
   */
  ghost predicate SectionMeans(contents: seq<Content>, section: Option<Section>) {
    match section
    case None => Nowhere(contents, DefinesExecution())
    case Some(Fields(None)) =>
      || (Nowhere(contents, DefinesImage()) && !Nowhere(contents, DefinesExecution()))
      || (exists i :: IsLast(contents, i, DefinesImage()) && contents[i].document.execution.value.NotMapping?
                      && !IsLast(contents, i, DefinesExecution()))
    case Some(Fields(_)) =>
      exists i :: IsLast(contents, i, DefinesImage()) && contents[i].document.execution == section
    case Some(NotMapping(_)) =>
      exists i :: IsLast(contents, i, DefinesExecution()) && contents[i].document.execution == section
  }

  lemma LastOrNowhere(contents: seq<Content>, more: Content, p: Tree -> bool)
    requires more.Readable?
    ensures p(more.document) ==> IsLast(contents + [more], |contents|, p)
    ensures !p(more.document) && Nowhere(contents, p) ==> Nowhere(contents + [more], p)
    ensures forall i :: !p(more.document) && IsLast(contents, i, p) ==> IsLast(contents + [more], i, p)
    ensures forall i :: i < |contents| && IsLast(contents + [more], i, p) ==> IsLast(contents, i, p)
    ensures Nowhere(contents + [more], p) ==> Nowhere(contents, p)
  {
    var all := contents + [more];
    assert all[|contents|] == more;
    assert forall i :: 0 <= i < |contents| ==> all[i] == contents[i];
  }

  lemma SectionStep(contents: seq<Content>, more: Content, section: Option<Section>)
    requires more.Readable? && SectionMeans(contents, section)
    ensures SectionMeans(contents + [more], MergeSection(section, more.document.execution))
  {
    var all := contents + [more];
    var d := more.document;
    LastOrNowhere(contents, more, DefinesExecution());
    LastOrNowhere(contents, more, DefinesImage());
    assert forall i :: 0 <= i < |contents| ==> all[i] == contents[i];
    assert all[|contents|] == more;
    match section {
      case None => assert Nowhere(contents, DefinesImage());
      case Some(NotMapping(_)) =>
        var i :| IsLast(contents, i, DefinesExecution()) && contents[i].document.execution == section;
        assert IsLast(contents, i, DefinesImage());
      case Some(Fields(Some(_))) =>
        var i :| IsLast(contents, i, DefinesImage()) && contents[i].document.execution == section;
      case Some(Fields(None)) =>
    }
  }

  /** The merged tree has, for each key, what the documents mean by it; loading fails exactly on an unreadable one. */
  lemma {:induction false} LastDocumentWins(contents: seq<Content>)
    ensures MergeAll(contents).Some? <==> AllReadable(contents)
    ensures MergeAll(contents).Some? ==>
              && TestMeans(contents, MergeAll(contents).value.test)
              && SectionMeans(contents, MergeAll(contents).value.execution)
  {
    if contents != [] {
      var rest, last := contents[..|contents| - 1], contents[|contents| - 1];
      assert contents == rest + [last];
      LastDocumentWins(rest);
      if MergeAll(contents).Some? {
        LastOrNowhere(rest, last, DefinesTest());
        SectionStep(rest, last, MergeAll(rest).value.execution);
      }
    }
  }

  // ---------- hydration ----------

  function ImageLeaf(tree: Tree): Leaf<string> {
    match tree.execution
    case None => Null
    case Some(NotMapping(isNull)) => if isNull then Null else Undecodable
    case Some(Fields(None)) => Null
    case Some(Fields(Some(leaf))) => leaf
  }

  /** Decode, fill in the default, validate: a missing or null key is a zero value. */
  function Hydrate(tree: Tree): Result<Settings, Error> {
    var image := ImageLeaf(tree);
    if image.Undecodable? || tree.test == Some(Undecodable) then Err(DecodeError)
    else
      var text := if image.Value? && image.value != "" then image.value else DEFAULT_IMAGE;
      if tree.test == Some(Value(true)) then Ok(Settings(text, true))
      else Err(ConfigError("SoyplaneSettings.Test", "required"))
  }

  function Loaded(contents: seq<Content>): Result<(Tree, Settings), Error> {
    var tree := MergeAll(contents);
    if tree.None? then Err(LoadError)
    else
      match Hydrate(tree.value)
      case Err(e) => Err(e)
      case Ok(settings) => Ok((tree.value, settings))
  }

  /** The last document to give the image, when there is one, gives this leaf. */
  ghost predicate LastImage(contents: seq<Content>, leaf: Leaf<string>) {
    exists i :: IsLast(contents, i, DefinesImage()) && contents[i].document.execution == Some(Fields(Some(leaf)))
  }

  /** The last execution section is this one. */
  ghost predicate LastSection(contents: seq<Content>, section: Section) {
    exists i :: IsLast(contents, i, DefinesExecution()) && contents[i].document.execution == Some(section)
  }

  ghost predicate LastTest(contents: seq<Content>, leaf: Leaf<bool>) {
    exists i :: IsLast(contents, i, DefinesTest()) && contents[i].document.test == Some(leaf)
  }

  lemma LastTestUnique(contents: seq<Content>, test: Option<Leaf<bool>>, leaf: Leaf<bool>)
    requires TestMeans(contents, test) && LastTest(contents, leaf)
    ensures test == Some(leaf)
  {
    var i :| IsLast(contents, i, DefinesTest()) && contents[i].document.test == Some(leaf);
    if test.Some? {
      var j :| IsLast(contents, j, DefinesTest()) && contents[j].document.test == test;
      assert i == j;
    }
  }

  lemma LastImageUnique(contents: seq<Content>, section: Option<Section>, leaf: Leaf<string>)
    requires SectionMeans(contents, section) && LastImage(contents, leaf)
    ensures section == Some(Fields(Some(leaf)))
  {
    var i :| IsLast(contents, i, DefinesImage()) && contents[i].document.execution == Some(Fields(Some(leaf)));
    assert forall j :: IsLast(contents, j, DefinesImage()) ==> i == j;
    assert forall d :: DefinesImage()(d) ==> DefinesExecution()(d);
    assert forall j :: IsLast(contents, j, DefinesExecution()) && contents[j].document.execution.value.NotMapping? ==>
        IsLast(contents, j, DefinesImage());
  }

  lemma LastSectionUnique(contents: seq<Content>, section: Option<Section>, last: Section)
    requires SectionMeans(contents, section) && LastSection(contents, last) && last.NotMapping?
    ensures section == Some(last)
  {
    var i :| IsLast(contents, i, DefinesExecution()) && contents[i].document.execution == Some(last);
    assert forall d :: DefinesImage()(d) ==> DefinesExecution()(d);
    assert IsLast(contents, i, DefinesImage());
    assert forall j :: IsLast(contents, j, DefinesImage()) ==> i == j;
    assert forall j :: IsLast(contents, j, DefinesExecution()) ==> i == j;
  }

  /** What decides the image cannot be decoded: the last value given for it, or a last section that is no mapping. */
  ghost predicate BadImage(contents: seq<Content>) {
    LastImage(contents, Undecodable) || LastSection(contents, NotMapping(false))
  }

  /**
   * Layered meaning. Loading succeeds exactly when every provider could be read, what was last given for the
   * image decodes, and the last value given for test is true; then the image is the last value given for it,
   * or the default when that is absent, null or empty. An unreadable provider is the first error reported, then
   * a value that does not decode, and last that test is not set.
   */
  lemma LayeredMeaning(contents: seq<Content>)
    ensures Loaded(contents).Ok? <==> AllReadable(contents) && LastTest(contents, Value(true)) && !BadImage(contents)
    ensures Loaded(contents) == Err(LoadError) <==> !AllReadable(contents)
    ensures Loaded(contents) == Err(DecodeError) <==>
              AllReadable(contents) && (BadImage(contents) || LastTest(contents, Undecodable))
    ensures Loaded(contents) == Err(ConfigError("SoyplaneSettings.Test", "required")) <==>
              && AllReadable(contents) && !BadImage(contents)
              && !LastTest(contents, Undecodable) && !LastTest(contents, Value(true))
    ensures Loaded(contents).Ok? ==>
              var image := Loaded(contents).value.1.defaultImage;
              && Loaded(contents).value.1.test && image != ""
              && (forall text :: text != "" && LastImage(contents, Value(text)) ==> image == text)
              && ((forall text :: text != "" ==> !LastImage(contents, Value(text))) ==>
                    image == "tofuutils/tenv:latest")
  {
    LastDocumentWins(contents);
    var tree := MergeAll(contents);
    if tree.Some? {
      MergedTest(contents, tree.value);
      MergedImage(contents, tree.value);
    }
  }

  lemma MergedTest(contents: seq<Content>, tree: Tree)
    requires TestMeans(contents, tree.test)
    ensures forall leaf :: tree.test == Some(leaf) <==> LastTest(contents, leaf)
  {
    forall leaf | LastTest(contents, leaf) ensures tree.test == Some(leaf) {
      LastTestUnique(contents, tree.test, leaf);
    }
  }

  lemma MergedImage(contents: seq<Content>, tree: Tree)
    requires SectionMeans(contents, tree.execution)
    ensures forall leaf :: tree.execution == Some(Fields(Some(leaf))) <==> LastImage(contents, leaf)
    ensures forall isNull :: tree.execution == Some(NotMapping(isNull)) <==> LastSection(contents, NotMapping(isNull))
  {
    forall leaf | LastImage(contents, leaf) ensures tree.execution == Some(Fields(Some(leaf))) {
      LastImageUnique(contents, tree.execution, leaf);
    }
    forall isNull | LastSection(contents, NotMapping(isNull)) ensures tree.execution == Some(NotMapping(isNull)) {
      LastSectionUnique(contents, tree.execution, NotMapping(isNull));
    }
  }

  /** Without providers there is nothing to load: the empty tree never validates, since test is false. */
  lemma NothingNeverLoads()
    ensures Loaded([]) == Err(ConfigError("SoyplaneSettings.Test", "required"))
  {
  }
}
