/**
 * The working copy's microflows, as far as the generators read and write them: each
 * microflow document with its module, folder, name and graph, looked up by qualified
 * name (`findMicroflowByQualifiedName`).
 */
module WorkingCopies {
  import opened Wrappers
  import opened MendixModel
  import opened Microflow
  import opened NameGuard

  datatype MicroflowDocument = MicroflowDocument(
    moduleName: string,
    folderName: string,
    name: string,
    microflowReturnType: DataType,
    allowConcurrentExecution: bool,
    objects: seq<MicroflowObject>,
    flows: seq<SequenceFlow>)

  /** A document's qualified name: its module's name, a dot, its own name (folders do not count). */
  function QualifiedName(moduleName: string, name: string): string {
    moduleName + "." + name
  }

  function DocumentQualifiedName(d: MicroflowDocument): string {
    QualifiedName(d.moduleName, d.name)
  }

  function QualifiedNames(docs: seq<MicroflowDocument>): (r: set<string>)
    ensures forall q :: q in r <==> exists i :: 0 <= i < |docs| && DocumentQualifiedName(docs[i]) == q
    decreases |docs|
  {
    if docs == [] then {}
    else
      var init := docs[..|docs| - 1];
      assert forall i :: 0 <= i < |init| ==> init[i] == docs[i];
      QualifiedNames(init) + {DocumentQualifiedName(docs[|docs| - 1])}
  }

  lemma QualifiedNamesSnoc(docs: seq<MicroflowDocument>, d: MicroflowDocument)
    ensures QualifiedNames(docs + [d]) == QualifiedNames(docs) + {DocumentQualifiedName(d)}
  {
    assert (docs + [d])[..|docs + [d]| - 1] == docs;
  }

  /** The document a builder has produced, placed in a module and folder. */
  function Document(moduleName: string, folderName: string, mf: MicroflowBuilder): MicroflowDocument
    reads mf
  {
    MicroflowDocument(moduleName, folderName, mf.name, mf.microflowReturnType, mf.allowConcurrentExecution,
                      mf.objects, mf.flows)
  }

  class WorkingCopy {
    var microflows: seq<MicroflowDocument>

    constructor (microflows: seq<MicroflowDocument>)
      ensures this.microflows == microflows
    {
      this.microflows := microflows;
    }

    /** `findMicroflowByQualifiedName`: the first microflow with that qualified name, if any. */
    function FindMicroflowByQualifiedName(q: string): (r: Option<MicroflowDocument>)
      reads this
      ensures r.Some? <==> q in QualifiedNames(microflows)
      ensures r.Some? ==> r.value in microflows && DocumentQualifiedName(r.value) == q
    {
      FirstWithName(microflows, q)
    }

    method AddMicroflow(d: MicroflowDocument)
      modifies this
      ensures microflows == old(microflows) + [d]
    {
      microflows := microflows + [d];
    }
  }

  function FirstWithName(docs: seq<MicroflowDocument>, q: string): (r: Option<MicroflowDocument>)
    ensures r.Some? <==> q in QualifiedNames(docs)
    ensures r.Some? ==> r.value in docs && DocumentQualifiedName(r.value) == q
    decreases |docs|
  {
    if docs == [] then None
    else if DocumentQualifiedName(docs[0]) == q then Some(docs[0])
    else
      var r := FirstWithName(docs[1..], q);
      assert forall i :: 0 <= i < |docs| - 1 ==> docs[1..][i] == docs[i + 1];
      assert q in QualifiedNames(docs) ==> exists i :: 1 <= i < |docs| && DocumentQualifiedName(docs[i]) == q;
      r
  }

  /** The documents of a list of candidates, one each. */
  function Documents<T>(ts: seq<T>, document: T -> MicroflowDocument): (r: seq<MicroflowDocument>)
    ensures |r| == |ts| && forall i :: 0 <= i < |ts| ==> r[i] == document(ts[i])
  {
    seq(|ts|, i requires 0 <= i < |ts| => document(ts[i]))
  }

  lemma DocumentsSnoc<T>(ts: seq<T>, t: T, document: T -> MicroflowDocument)
    ensures Documents(ts + [t], document) == Documents(ts, document) + [document(t)]
  {
  }

  /** Documents named by their candidates' qualified names carry exactly those names. */
  lemma {:induction false} DocumentsNames<T>(docs: seq<MicroflowDocument>, ts: seq<T>, qualifiedName: T -> string,
                                             document: T -> MicroflowDocument)
    requires forall t :: DocumentQualifiedName(document(t)) == qualifiedName(t)
    ensures QualifiedNames(docs + Documents(ts, document)) == QualifiedNames(docs) + NamesOf(ts, qualifiedName)
    decreases |ts|
  {
    if ts == [] {
      assert docs + Documents(ts, document) == docs;
    } else {
      var init := ts[..|ts| - 1];
      var t := ts[|ts| - 1];
      assert ts == init + [t];
      DocumentsNames(docs, init, qualifiedName, document);
      NamesOfAppend(init, t, qualifiedName);
      DocumentsSnoc(init, t, document);
      AppendAssociative(docs, Documents(init, document), document(t));
      QualifiedNamesSnoc(docs + Documents(init, document), document(t));
    }
  }

  /**
   * One step of a guarded run against the working copy it has produced so far: the
   * next candidate is skipped exactly when its qualified name is already in the working
   * copy (`findMicroflowByQualifiedName` finds it), and otherwise its document is appended.
   */
  lemma GuardedRunStep<T>(docs: seq<MicroflowDocument>, candidates: seq<T>, c: T, qualifiedName: T -> string,
                          document: T -> MicroflowDocument)
    requires forall t :: DocumentQualifiedName(document(t)) == qualifiedName(t)
    ensures var existing := QualifiedNames(docs);
      var created := Created(existing, candidates, qualifiedName);
      var current := docs + Documents(created, document);
      var next := Created(existing, candidates + [c], qualifiedName);
      && (qualifiedName(c) in QualifiedNames(current) ==> next == created)
      && (qualifiedName(c) !in QualifiedNames(current) ==> docs + Documents(next, document) == current + [document(c)])
  {
    var existing := QualifiedNames(docs);
    var created := Created(existing, candidates, qualifiedName);
    DocumentsNames(docs, created, qualifiedName, document);
    CreatedSnoc(existing, candidates, c, qualifiedName);
    if qualifiedName(c) !in QualifiedNames(docs + Documents(created, document)) {
      DocumentsSnoc(created, c, document);
      AppendAssociative(docs, Documents(created, document), document(c));
    }
  }

  lemma AppendAssociative<T>(a: seq<T>, b: seq<T>, x: T)
    ensures a + (b + [x]) == (a + b) + [x]
  {
  }

}
