/**
 * src/CreateMicroflowFromPages.ts: one logging microflow per page,
 * `CustomLogging.ACT_<local page name>_OpenWithLog`, opening the page with its
 * parameter entity (the first data-view entity of the page), in a folder of the
 * logging module named after the page's own module.
 */
module CreateMicroflowFromPages {
  import opened Wrappers
  import opened MendixModel
  import opened Containers
  import opened Folders
  import opened WorkingCopies
  import opened NameGuard
  import opened PageLogging

  /**
   * A `DirectEntityRef` found on a page: the qualified name of the entity it refers to
   * (none when the by-name reference does not resolve, so `entity` is null), and whether
   * its container is a data view source.
   */
  datatype EntityRef = EntityRef(entity: Option<string>, inDataViewSource: bool)

  /** What a call that may throw gives back: its value, or the exception. */
  datatype Outcome<T> = Returned(value: T) | Threw

  /** A page: its qualified name, its container chain, whether it is excluded, its direct entity refs in traversal order. */
  datatype Page = Page(qualifiedName: string, container: Container, excluded: bool, directEntityRefs: seq<EntityRef>)

  /** `i` is the first data-view entity ref. */
  predicate IsFirstDataViewRef(refs: seq<EntityRef>, i: int) {
    && 0 <= i < |refs|
    && refs[i].inDataViewSource
    && forall j :: 0 <= j < i ==> !refs[j].inDataViewSource
  }

  /** The entity of the first data-view entity ref, if there is such a ref (itself none when the ref does not resolve). */
  function FirstDataViewEntity(refs: seq<EntityRef>): (r: Option<Option<string>>)
    ensures r.None? <==> forall i :: 0 <= i < |refs| ==> !refs[i].inDataViewSource
    ensures r.Some? ==> exists i :: IsFirstDataViewRef(refs, i) && r.value == refs[i].entity
    decreases |refs|
  {
    if refs == [] then None
    else if refs[0].inDataViewSource then
      assert IsFirstDataViewRef(refs, 0);
      Some(refs[0].entity)
    else
      var r := FirstDataViewEntity(refs[1..]);
      assert forall i :: 1 <= i < |refs| ==> refs[i] == refs[1..][i - 1];
      assert forall i :: IsFirstDataViewRef(refs[1..], i) ==> IsFirstDataViewRef(refs, i + 1);
      r
  }

  /**
   * `getPageParameterFromPage`: none for an excluded page or a page without a data-view
   * entity ref; otherwise the entity of the first one, whatever follows it. Reading
   * `entity.qualifiedName` throws when that ref does not resolve.
   */
  function PageParameter(page: Page): (r: Outcome<Option<string>>)
    ensures r.Threw? <==>
              !page.excluded && exists i :: IsFirstDataViewRef(page.directEntityRefs, i) && page.directEntityRefs[i].entity.None?
    ensures r == Returned(None) <==>
              page.excluded || forall i :: 0 <= i < |page.directEntityRefs| ==> !page.directEntityRefs[i].inDataViewSource
    ensures r.Returned? && r.value.Some? ==>
              exists i :: IsFirstDataViewRef(page.directEntityRefs, i) && page.directEntityRefs[i].entity == r.value
  {
    if page.excluded then Returned(None)
    else
      match FirstDataViewEntity(page.directEntityRefs)
      case None => Returned(None)
      case Some(None) => Threw
      case Some(Some(entity)) => Returned(Some(entity))
  }

  /** `ACT_<local page name>_OpenWithLog`. */
  function PageMicroflowName(pageName: string): string {
    "ACT_" + AfterFirstDot(pageName) + "_OpenWithLog"
  }

  /** Two pages share a logging microflow name exactly when their local names agree. */
  lemma PageMicroflowNameIffLocalName(pageName1: string, pageName2: string)
    ensures PageMicroflowName(pageName1) == PageMicroflowName(pageName2) <==> AfterFirstDot(pageName1) == AfterFirstDot(pageName2)
  {
    var a, b := AfterFirstDot(pageName1), AfterFirstDot(pageName2);
    if PageMicroflowName(pageName1) == PageMicroflowName(pageName2) {
      var m1, m2 := PageMicroflowName(pageName1), PageMicroflowName(pageName2);
      assert |a| == |b|;
      forall i | 0 <= i < |a|
        ensures a[i] == b[i]
      {
        assert a[i] == m1[4 + i] && b[i] == m2[4 + i];
      }
    }
  }

  /**
   * So pages of different modules with the same local name get one and the same
   * logging microflow name, `ACT_<local name>_OpenWithLog`.
   */
  lemma SameLocalNameInTwoModules(moduleName1: string, moduleName2: string, name: string)
    requires '.' !in moduleName1 && '.' !in moduleName2
    ensures PageMicroflowName(moduleName1 + "." + name) == PageMicroflowName(moduleName2 + "." + name)
                                                        == "ACT_" + name + "_OpenWithLog"
  {
    AfterFirstDotOfQualifiedName(moduleName1, name);
    AfterFirstDotOfQualifiedName(moduleName2, name);
  }

  /**
   * `createMicroflows`: creates the page's logging microflow in `folderName` unless a
   * microflow of that qualified name already exists in the logging module.
   */
  method CreatePageMicroflow(wc: WorkingCopy, loggingModuleName: string, pageName: string, entityName: Option<string>,
                             folderName: string)
    modifies wc
    ensures var q := QualifiedName(loggingModuleName, PageMicroflowName(pageName));
      && (q in QualifiedNames(old(wc.microflows)) ==> wc.microflows == old(wc.microflows))
      && (q !in QualifiedNames(old(wc.microflows)) ==>
            wc.microflows == old(wc.microflows)
                             + [LoggingDocument(loggingModuleName, folderName, PageMicroflowName(pageName), pageName, entityName, "false")])
  {
    var microflowName := PageMicroflowName(pageName);
    var mf := wc.FindMicroflowByQualifiedName(QualifiedName(loggingModuleName, microflowName));
    if mf.None? {
      CreateLoggingMicroflow(wc, loggingModuleName, folderName, microflowName, pageName, entityName, "false");
    }
  }

  // ---------------------------------------------------------------------------
  // The per-page loop.

  /** What the loop tries to create for one page: its name, its parameter and the folder (named after its module). */
  datatype PageTarget = PageTarget(pageName: string, entityName: Option<string>, moduleName: string)

  function PageTargetName(t: PageTarget): string {
    QualifiedName(LoggingModuleName, PageMicroflowName(t.pageName))
  }

  function PageDocument(t: PageTarget): MicroflowDocument {
    LoggingDocument(LoggingModuleName, t.moduleName, PageMicroflowName(t.pageName), t.pageName, t.entityName, "false")
  }

  /**
   * The loop gets through the page: `getPageParameterFromPage` returns, and the page's
   * container chain reaches a module (otherwise `getContainingModuleName` fails on the
   * project's null container).
   */
  predicate PageHandled(page: Page) {
    PageParameter(page).Returned? && ContainingModuleName(page.container).Some?
  }

  /** The loop gets through every page. */
  predicate AllHandled(pages: seq<Page>) {
    forall i :: 0 <= i < |pages| ==> PageHandled(pages[i])
  }

  lemma AllHandledSnoc(pages: seq<Page>, page: Page)
    requires AllHandled(pages) && PageHandled(page)
    ensures AllHandled(pages + [page])
  {
    assert forall i :: 0 <= i < |pages| ==> (pages + [page])[i] == pages[i];
  }

  function PageTargets(pages: seq<Page>): (r: seq<PageTarget>)
    requires AllHandled(pages)
    ensures |r| == |pages|
    ensures forall i :: 0 <= i < |pages| ==>
              r[i] == PageTarget(pages[i].qualifiedName, PageParameter(pages[i]).value, ContainingModuleName(pages[i].container).value)
  {
    seq(|pages|, i requires 0 <= i < |pages| =>
          PageTarget(pages[i].qualifiedName, PageParameter(pages[i]).value, ContainingModuleName(pages[i].container).value))
  }

  lemma PageTargetsSnoc(pages: seq<Page>, i: nat)
    requires i < |pages| && AllHandled(pages)
    ensures AllHandled(pages[..i]) && AllHandled(pages[..i + 1])
    ensures PageTargets(pages[..i + 1]) == PageTargets(pages[..i]) + [PageTargets(pages)[i]]
  {
    var prefix, shorter := pages[..i + 1], pages[..i];
    assert forall j :: 0 <= j < i + 1 ==> prefix[j] == pages[j];
    assert forall j :: 0 <= j < i ==> shorter[j] == pages[j];
    var targets, expected := PageTargets(prefix), PageTargets(shorter) + [PageTargets(pages)[i]];
    forall j | 0 <= j < i + 1
      ensures targets[j] == expected[j]
    {
    }
  }

  /** One page of the loop, whose module is known, as one step of the guarded run. */
  lemma PageStep(docs: seq<MicroflowDocument>, pages: seq<Page>, i: nat)
    requires i < |pages| && AllHandled(pages[..i]) && PageHandled(pages[i])
    ensures AllHandled(pages[..i + 1])
    ensures var existing := QualifiedNames(docs);
      var current := docs + Documents(Created(existing, PageTargets(pages[..i]), PageTargetName), PageDocument);
      var next := docs + Documents(Created(existing, PageTargets(pages[..i + 1]), PageTargetName), PageDocument);
      var t := PageTarget(pages[i].qualifiedName, PageParameter(pages[i]).value, ContainingModuleName(pages[i].container).value);
      && (PageTargetName(t) in QualifiedNames(current) ==> next == current)
      && (PageTargetName(t) !in QualifiedNames(current) ==> next == current + [PageDocument(t)])
  {
    var prefix := pages[..i + 1];
    assert prefix == pages[..i] + [pages[i]];
    AllHandledSnoc(pages[..i], pages[i]);
    assert prefix[..i] == pages[..i] && prefix[..i + 1] == prefix;
    PageTargetsSnoc(prefix, i);
    var t := PageTargets(prefix)[i];
    assert t == PageTarget(pages[i].qualifiedName, PageParameter(pages[i]).value, ContainingModuleName(pages[i].container).value);
    assert PageTargets(prefix) == PageTargets(pages[..i]) + [t];
    GuardedRunStep(docs, PageTargets(pages[..i]), t, PageTargetName, PageDocument);
  }

  /** The names of the modules the pages' container chains reach. */
  function PageModuleNames(pages: seq<Page>): set<string> {
    set j | 0 <= j < |pages| && ContainingModuleName(pages[j].container).Some? :: ContainingModuleName(pages[j].container).value
  }

  /** The page's container chain reaches a module, and that module's name is one of `names`. */
  predicate ModuleNameIn(page: Page, names: set<string>) {
    ContainingModuleName(page.container).Some? && ContainingModuleName(page.container).value in names
  }

  /**
   * The folders the page loop has created under `folder` since it held `before`: the
   * earlier folders are kept in order; each added one is named after one of
   * `moduleNames` and not after one of the names `traverseFind` found at the start
   * (`folderNames`); and every name the loop treats as found (`names`) is one of
   * those or the name of a child folder of `folder`.
   */
  predicate ModuleFoldersAdded(folder: FolderBase, before: seq<FolderBase>, names: set<string>,
                               folderNames: set<string>, moduleNames: set<string>)
    reads folder
  {
    && |before| <= |folder.folders| && folder.folders[..|before|] == before
    && (forall k :: |before| <= k < |folder.folders| ==>
          folder.folders[k].name !in folderNames && folder.folders[k].name in moduleNames)
    && folderNames <= names
    && (forall n :: n in names ==> n in folderNames || HasFolder(folder, n))
  }

  /**
   * The folder for one page's module: when `traverseFind` finds a folder of the
   * module's name (`names`) it is used; otherwise one is found or created under
   * `folder`, and from then on it is found too. Either way the folder has the
   * module's name.
   */
  method ModuleFolder(folder: FolderBase, names: set<string>, moduleName: string,
                      ghost before: seq<FolderBase>, ghost folderNames: set<string>, ghost moduleNames: set<string>)
    returns (moduleFolderName: string, namesAfter: set<string>)
    modifies folder
    requires moduleName in moduleNames
    requires ModuleFoldersAdded(folder, before, names, folderNames, moduleNames)
    ensures ModuleFoldersAdded(folder, before, namesAfter, folderNames, moduleNames)
    ensures moduleFolderName == moduleName && namesAfter == names + {moduleName}
    ensures |old(folder.folders)| <= |folder.folders| && folder.folders[..|old(folder.folders)|] == old(folder.folders)
    ensures forall k :: |old(folder.folders)| <= k < |folder.folders| ==> fresh(folder.folders[k]) && folder.folders[k].folders == []
  {
    moduleFolderName, namesAfter := moduleName, names;
    if moduleName !in names {
      var newFolder := CreateFolder(folder, moduleName);
      namesAfter := names + {moduleName};
      moduleFolderName := newFolder.name;
    }
  }

  /** The modules, and their folders, whose folders `execute` may change. */
  function ModulesAndFolders(modules: seq<FolderBase>): set<FolderBase>
    reads set i | 0 <= i < |modules| :: modules[i]
  {
    (set i | 0 <= i < |modules| :: modules[i])
      + (set i, j | 0 <= i < |modules| && 0 <= j < |modules[i].folders| :: modules[i].folders[j])
  }

  /**
   * One page of the loop, whose module is known: the folder for its module, then its
   * logging microflow in that folder.
   */
  method HandlePage(wc: WorkingCopy, folder: FolderBase, pages: seq<Page>, i: nat, names: set<string>,
                    ghost docs: seq<MicroflowDocument>, ghost before: seq<FolderBase>, ghost folderNames: set<string>,
                    ghost moduleNames: set<string>)
    returns (namesAfter: set<string>)
    requires i < |pages| && AllHandled(pages[..i]) && PageHandled(pages[i])
    requires ContainingModuleName(pages[i].container).value in moduleNames
    requires wc.microflows == docs + Documents(Created(QualifiedNames(docs), PageTargets(pages[..i]), PageTargetName), PageDocument)
    requires ModuleFoldersAdded(folder, before, names, folderNames, moduleNames)
    modifies wc, folder
    ensures AllHandled(pages[..i + 1])
    ensures wc.microflows == docs + Documents(Created(QualifiedNames(docs), PageTargets(pages[..i + 1]), PageTargetName), PageDocument)
    ensures ModuleFoldersAdded(folder, before, namesAfter, folderNames, moduleNames)
    ensures namesAfter == names + {ContainingModuleName(pages[i].container).value}
    ensures |old(folder.folders)| <= |folder.folders| && folder.folders[..|old(folder.folders)|] == old(folder.folders)
    ensures forall k :: |old(folder.folders)| <= k < |folder.folders| ==> fresh(folder.folders[k]) && folder.folders[k].folders == []
  {
    var moduleName := ContainingModuleName(pages[i].container).value;
    var moduleFolderName;
    moduleFolderName, namesAfter := ModuleFolder(folder, names, moduleName, before, folderNames, moduleNames);
    PageMicroflowStep(wc, pages, i, moduleFolderName, docs);
  }

  /** The microflow part of one page: `createMicroflows` in the folder named after the page's module. */
  method PageMicroflowStep(wc: WorkingCopy, pages: seq<Page>, i: nat, moduleFolderName: string, ghost docs: seq<MicroflowDocument>)
    requires i < |pages| && AllHandled(pages[..i]) && PageHandled(pages[i])
    requires ContainingModuleName(pages[i].container) == Some(moduleFolderName)
    requires wc.microflows == docs + Documents(Created(QualifiedNames(docs), PageTargets(pages[..i]), PageTargetName), PageDocument)
    modifies wc
    ensures AllHandled(pages[..i + 1])
    ensures wc.microflows == docs + Documents(Created(QualifiedNames(docs), PageTargets(pages[..i + 1]), PageTargetName), PageDocument)
  {
    CreatePageMicroflow(wc, LoggingModuleName, pages[i].qualifiedName, PageParameter(pages[i]).value, moduleFolderName);
    PageStep(docs, pages, i);
  }

  /**
   * The page loop of `execute`: every page is handled in turn. Its module's folder is
   * looked up among the logging module's folders (`folderNames`, the names
   * `traverseFind` can find) and created under `folder` when missing; its logging
   * microflow is created unless one of that name exists; and the page is counted
   * whether or not anything was created. A page whose container chain reaches no
   * module stops the loop (`getContainingModuleName` fails on the project's null
   * container).
   */
  method HandlePages(wc: WorkingCopy, folder: FolderBase, pages: seq<Page>, folderNames: set<string>)
    returns (completed: bool, count: nat)
    modifies wc, folder
    ensures completed <==> AllHandled(pages)
    ensures completed ==>
              && count == |pages|
              && wc.microflows == old(wc.microflows)
                                  + Documents(Created(QualifiedNames(old(wc.microflows)), PageTargets(pages), PageTargetName),
                                              PageDocument)
    ensures |old(folder.folders)| <= |folder.folders| && folder.folders[..|old(folder.folders)|] == old(folder.folders)
    ensures forall k :: |old(folder.folders)| <= k < |folder.folders| ==>
              && fresh(folder.folders[k]) && folder.folders[k].folders == []
              && folder.folders[k].name !in folderNames && folder.folders[k].name in PageModuleNames(pages)
    ensures completed ==> forall n :: n in PageModuleNames(pages) ==> n in folderNames || HasFolder(folder, n)
  {
    var names := folderNames;
    count := 0;
    ghost var docs := wc.microflows;
    ghost var moduleNames := PageModuleNames(pages);
    assert docs == docs + Documents(Created(QualifiedNames(docs), PageTargets(pages[..0]), PageTargetName), PageDocument);
    for i := 0 to |pages|
      invariant count == i
      invariant AllHandled(pages[..i])
      invariant wc.microflows == docs + Documents(Created(QualifiedNames(docs), PageTargets(pages[..i]), PageTargetName), PageDocument)
      invariant ModuleFoldersAdded(folder, old(folder.folders), names, folderNames, moduleNames)
      invariant forall k :: |old(folder.folders)| <= k < |folder.folders| ==> fresh(folder.folders[k]) && folder.folders[k].folders == []
      invariant forall j :: 0 <= j < i ==> ModuleNameIn(pages[j], names)
    {
      var pageParameterEntityName := PageParameter(pages[i]);
      var moduleName := ContainingModuleName(pages[i].container);
      if pageParameterEntityName.Threw? || moduleName.None? {
        assert !PageHandled(pages[i]);
        return false, count;
      }
      ghost var foldersBefore := folder.folders;
      assert ContainingModuleName(pages[i].container).value in moduleNames;
      ghost var namesBefore := names;
      names := HandlePage(wc, folder, pages, i, names, docs, old(folder.folders), folderNames, moduleNames);
      forall j | 0 <= j < i + 1
        ensures ModuleNameIn(pages[j], names)
      {
        if j < i {
          assert ModuleNameIn(pages[j], namesBefore);
        }
      }
      forall k | |old(folder.folders)| <= k < |folder.folders|
        ensures fresh(folder.folders[k]) && folder.folders[k].folders == []
      {
        if k < |foldersBefore| {
          assert folder.folders[k] == foldersBefore[k];
        }
      }
      count := count + 1;
    }
    assert pages[..|pages|] == pages;
    completed := true;
  }

  /**
   * `execute`: with no module named `CustomLogging`, nothing is created, counted or
   * committed. Otherwise the configured folder is found or created in it, the pages
   * are handled (`HandlePages`), and the working copy is committed; a page whose
   * container chain reaches no module makes `execute` fail before the commit.
   */
  /** No child folder of a module is itself one of the modules (a `Folder` is never a `Module`). */
  predicate ModulesAreNotFolders(modules: seq<FolderBase>)
    reads set i | 0 <= i < |modules| :: modules[i]
  {
    forall i, j, k :: 0 <= i < |modules| && 0 <= j < |modules[i].folders| && 0 <= k < |modules| ==>
      modules[i].folders[j] != modules[k]
  }

  method Execute(wc: WorkingCopy, modules: seq<FolderBase>, pages: seq<Page>, knownFolderNames: set<string>, folderName: string)
    returns (committed: bool, count: nat)
    requires ModulesAreNotFolders(modules)
    modifies wc, ModulesAndFolders(modules)
    ensures FindByName(modules, LoggingModuleName).None? ==>
              forall i :: 0 <= i < |modules| ==> modules[i].folders == old(modules[i].folders)
    ensures FindByName(modules, LoggingModuleName).Some? ==>
              var loggingModule := modules[FindByName(modules, LoggingModuleName).value];
              && HasFolder(loggingModule, folderName)
              && FoundOrAdded(old(loggingModule.folders), loggingModule.folders, folderName)
              && (forall i :: 0 <= i < |modules| && modules[i] != loggingModule ==> modules[i].folders == old(modules[i].folders))
              && (committed ==>
                    var folder := loggingModule.folders[FindByName(loggingModule.folders, folderName).value];
                    forall n :: n in PageModuleNames(pages) ==> n in knownFolderNames + {folderName} || HasFolder(folder, n))
    ensures FindByName(modules, LoggingModuleName).None? ==> !committed && count == 0 && wc.microflows == old(wc.microflows)
    ensures FindByName(modules, LoggingModuleName).Some? && AllHandled(pages) ==>
              && committed
              && count == |pages|
              && wc.microflows == old(wc.microflows)
                                  + Documents(Created(QualifiedNames(old(wc.microflows)), PageTargets(pages), PageTargetName),
                                              PageDocument)
    ensures !AllHandled(pages) ==> !committed
  {
    var found := FindByName(modules, LoggingModuleName);
    if found.None? {
      return false, 0;
    }
    var loggingModule := modules[found.value];
    var folder := CreateFolder(loggingModule, folderName);
    ghost var moduleFolders := loggingModule.folders;
    assert forall i :: 0 <= i < |modules| ==> folder != modules[i];
    committed, count := HandlePages(wc, folder, pages, knownFolderNames + {folderName});
    assert loggingModule.folders == moduleFolders;
  }
}
