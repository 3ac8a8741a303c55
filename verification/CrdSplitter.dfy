/** Splitting the embedded multi-document stream into one document per CustomResourceDefinition. */
module CrdSplitter {
  import opened Wrappers
  import opened Objects

  /** One document of the stream: undecodable, or decoded with what the splitter looks at. */
  datatype Document = Garbled | Document(kind: string, name: string, payload: string, marshals: bool)

  datatype SplitError = DecodeFailed | MarshalFailed(name: string) | NoCrds

  const CRD_KIND := "CustomResourceDefinition"

  function FileOf(name: string): string {
    "crd-" + name + ".yaml"
  }

  predicate IsCrd(d: Document) {
    d.Document? && d.kind == CRD_KIND && d.name != ""
  }

  predicate Broken(d: Document) {
    d.Garbled? || (IsCrd(d) && !d.marshals)
  }

  function CrdOf(d: Document): K8sObject
    requires IsCrd(d)
  {
    CustomResourceDefinition(d.name, d.payload)
  }

  /** The first broken document decides the error. */
  function FirstError(docs: seq<Document>): Option<SplitError> {
    if docs == [] then None
    else if Broken(docs[0]) then Some(if docs[0].Garbled? then DecodeFailed else MarshalFailed(docs[0].name))
    else FirstError(docs[1..])
  }

  /** Later documents overwrite earlier ones of the same name. */
  function Collected(docs: seq<Document>): map<string, K8sObject> {
    if docs == [] then map[]
    else
      var last := docs[|docs| - 1];
      var before := Collected(docs[..|docs| - 1]);
      if IsCrd(last) then before[FileOf(last.name) := CrdOf(last)] else before
  }

  function Split(docs: seq<Document>): Result<map<string, K8sObject>, SplitError> {
    match FirstError(docs)
    case Some(e) => Failure(e)
    case None => if Collected(docs) == map[] then Failure(NoCrds) else Success(Collected(docs))
  }

  method SplitCrds(docs: seq<Document>) returns (r: Result<map<string, K8sObject>, SplitError>)
    ensures r == Split(docs)
  {
    var result: map<string, K8sObject> := map[];
    for i := 0 to |docs|
      invariant result == Collected(docs[..i])
      invariant FirstError(docs) == FirstError(docs[i..])
    {
      var d := docs[i];
      assert docs[i..][1..] == docs[i + 1..];
      assert docs[..i + 1][..i] == docs[..i];
      if d.Garbled? {
        return Failure(DecodeFailed);
      }
      if !IsCrd(d) {
        continue;
      }
      if !d.marshals {
        return Failure(MarshalFailed(d.name));
      }
      result := result[FileOf(d.name) := CrdOf(d)];
    }
    assert docs[..|docs|] == docs;
    if result == map[] {
      return Failure(NoCrds);
    }
    return Success(result);
  }

  lemma FileOfInjective(a: string, b: string)
    ensures FileOf(a) == FileOf(b) <==> a == b
  {
    assert FileOf(a)[4..|FileOf(a)| - 5] == a;
    assert FileOf(b)[4..|FileOf(b)| - 5] == b;
  }

  // ---- what the stream says, in terms of its documents

  /** The document defines the CRD called `name`. */
  predicate Defines(d: Document, name: string) {
    d.Document? && d.kind == "CustomResourceDefinition" && name != "" && d.name == name
  }

  /** The document cannot be decoded, or defines a CRD and cannot be marshalled. */
  ghost predicate Breaks(d: Document) {
    d.Garbled? || (!d.marshals && Defines(d, d.name))
  }

  /** `i` is where the stream last defines the CRD called `name`. */
  ghost predicate LastDefinition(docs: seq<Document>, i: nat, name: string) {
    && i < |docs| && Defines(docs[i], name)
    && forall j :: i < j < |docs| ==> !Defines(docs[j], name)
  }

  /** The names the stream defines. */
  function DefinedNames(docs: seq<Document>): set<string> {
    set d | d in docs && d.Document? && Defines(d, d.name) :: d.name
  }

  lemma {:induction false} CollectedFiles(docs: seq<Document>, file: string)
    ensures file in Collected(docs) <==>
            exists i: nat :: i < |docs| && docs[i].Document? && Defines(docs[i], docs[i].name) &&
                             file == "crd-" + docs[i].name + ".yaml"
  {
    if docs != [] {
      var before := docs[..|docs| - 1];
      CollectedFiles(before, file);
      if i: nat :| i < |before| && before[i].Document? && Defines(before[i], before[i].name) &&
                   file == FileOf(before[i].name) {
        assert docs[i] == before[i];
      }
    }
  }

  lemma {:induction false} LastDefinitionWins(docs: seq<Document>, i: nat, name: string)
    requires LastDefinition(docs, i, name)
    ensures Lookup(Collected(docs), "crd-" + name + ".yaml") ==
            Some(CustomResourceDefinition(docs[i].name, docs[i].payload))
  {
    var n := |docs| - 1;
    if i < n {
      assert LastDefinition(docs[..n], i, name);
      LastDefinitionWins(docs[..n], i, name);
      if IsCrd(docs[n]) {
        FileOfInjective(name, docs[n].name);
      }
    }
  }

  /**
   A file exists exactly for the names the stream defines, and holds the name and the payload of the last document that
   defines it.
   */
  lemma CollectedHoldsLastDefinitions(docs: seq<Document>, file: string)
    ensures file in Collected(docs) <==>
            exists i: nat :: i < |docs| && docs[i].Document? && Defines(docs[i], docs[i].name) &&
                             file == "crd-" + docs[i].name + ".yaml"
    ensures forall i: nat, name: string :: LastDefinition(docs, i, name) && file == "crd-" + name + ".yaml" ==>
                                   Lookup(Collected(docs), file) ==
                                   Some(CustomResourceDefinition(name, docs[i].payload))
  {
    CollectedFiles(docs, file);
    forall i: nat, name: string | LastDefinition(docs, i, name) && file == "crd-" + name + ".yaml"
      ensures Lookup(Collected(docs), file) == Some(CustomResourceDefinition(name, docs[i].payload))
    {
      LastDefinitionWins(docs, i, name);
    }
  }

  /** Streams whose last definitions of a name differ in the payload are split differently. */
  lemma PayloadsMatter(a: seq<Document>, i: nat, b: seq<Document>, j: nat, name: string)
    requires LastDefinition(a, i, name) && LastDefinition(b, j, name) && a[i].payload != b[j].payload
    requires Split(a).Success?
    ensures Split(a) != Split(b)
  {
    LastDefinitionWins(a, i, name);
    LastDefinitionWins(b, j, name);
  }

  /** There are as many files as names. */
  lemma {:induction false} OneFilePerName(docs: seq<Document>)
    ensures |Collected(docs)| == |DefinedNames(docs)|
  {
    if docs != [] {
      var n := |docs| - 1;
      var before, last := docs[..n], docs[n];
      OneFilePerName(before);
      assert docs == before + [last];
      if IsCrd(last) {
        assert DefinedNames(docs) == DefinedNames(before) + {last.name};
        NameHasFile(before, last.name);
      } else {
        assert DefinedNames(docs) == DefinedNames(before);
      }
    }
  }

  lemma NameHasFile(docs: seq<Document>, name: string)
    requires name != ""
    ensures FileOf(name) in Collected(docs) <==> name in DefinedNames(docs)
  {
    CollectedFiles(docs, FileOf(name));
    if FileOf(name) in Collected(docs) {
      var i: nat :| i < |docs| && docs[i].Document? && Defines(docs[i], docs[i].name) &&
                    FileOf(name) == FileOf(docs[i].name);
      FileOfInjective(name, docs[i].name);
    }
  }

  lemma {:induction false} LastDefinitionExists(docs: seq<Document>, name: string) returns (i: nat)
    requires name in DefinedNames(docs)
    ensures LastDefinition(docs, i, name)
  {
    var n := |docs| - 1;
    if Defines(docs[n], name) {
      i := n;
    } else {
      assert docs == docs[..n] + [docs[n]];
      i := LastDefinitionExists(docs[..n], name);
    }
  }

  /** The error is that of the first document that breaks the stream. */
  lemma {:induction false} FirstBreakDecides(docs: seq<Document>, i: nat)
    requires i < |docs| && Breaks(docs[i]) && forall j :: 0 <= j < i ==> !Breaks(docs[j])
    ensures Split(docs) == Failure(if docs[i].Garbled? then DecodeFailed else MarshalFailed(docs[i].name))
  {
    FirstErrorAt(docs, i);
  }

  lemma {:induction false} FirstErrorAt(docs: seq<Document>, i: nat)
    requires i < |docs| && Breaks(docs[i]) && forall j :: 0 <= j < i ==> !Breaks(docs[j])
    ensures FirstError(docs) == Some(if docs[i].Garbled? then DecodeFailed else MarshalFailed(docs[i].name))
  {
    if i > 0 {
      assert !Breaks(docs[0]);
      assert forall j :: 0 <= j < i - 1 ==> docs[1..][j] == docs[j + 1];
      FirstErrorAt(docs[1..], i - 1);
    }
  }

  lemma {:induction false} NoBreakNoError(docs: seq<Document>)
    requires forall d :: d in docs ==> !Breaks(d)
    ensures FirstError(docs).None?
  {
    if docs != [] {
      assert docs[0] in docs;
      NoBreakNoError(docs[1..]);
    }
  }

  lemma {:induction false} FirstBreak(docs: seq<Document>, k: nat) returns (i: nat)
    requires k < |docs| && Breaks(docs[k])
    ensures i <= k && Breaks(docs[i]) && forall j :: 0 <= j < i ==> !Breaks(docs[j])
  {
    if j: nat :| j < k && Breaks(docs[j]) {
      i := FirstBreak(docs, j);
    } else {
      i := k;
    }
  }

  /** Splitting fails exactly on a document that breaks the stream or when no document defines a CRD. */
  lemma SplitFailsExactly(docs: seq<Document>)
    ensures Split(docs).Failure? <==> (exists d :: d in docs && Breaks(d)) || DefinedNames(docs) == {}
    ensures Split(docs) == Failure(NoCrds) <==> (forall d :: d in docs ==> !Breaks(d)) && DefinedNames(docs) == {}
  {
    if d :| d in docs && Breaks(d) {
      var k: nat :| k < |docs| && docs[k] == d;
      var i := FirstBreak(docs, k);
      FirstBreakDecides(docs, i);
    } else {
      NoBreakNoError(docs);
      OneFilePerName(docs);
    }
  }

  /** Every file is named after the CRD it holds. */
  lemma {:induction false} CollectedFilesNameTheirCrds(docs: seq<Document>)
    ensures forall f :: f in Collected(docs) ==>
              Collected(docs)[f].CustomResourceDefinition? && f == FileOf(Collected(docs)[f].name)
  {
    if docs != [] {
      CollectedFilesNameTheirCrds(docs[..|docs| - 1]);
    }
  }

  lemma SplitYieldsCollected(docs: seq<Document>)
    requires Split(docs).Success?
    ensures Split(docs).value == Collected(docs)
  {
  }

  lemma SplitFilesNameTheirCrds(docs: seq<Document>)
    requires Split(docs).Success?
    ensures forall f :: f in Split(docs).value ==>
              Split(docs).value[f].CustomResourceDefinition? && f == FileOf(Split(docs).value[f].name)
  {
    CollectedFilesNameTheirCrds(docs);
  }
}
