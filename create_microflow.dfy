/**
 * src/CreateMicroflow.ts: one logging microflow for the fixed test page
 * `CustomLogging.Page_Test`, named `ACT_Page_<module>_<local page name>_Open`, in the
 * configured folder of the `CustomLogging` module; the page is opened without a
 * parameter and the end event returns `true`.
 */
module CreateMicroflow {
  import opened Wrappers
  import opened MendixModel
  import opened Folders
  import opened WorkingCopies
  import opened PageLogging

  /** The page the script opens. */
  const TestPageName: string := "CustomLogging.Page_Test"

  /** `ACT_Page_<module>_<local page name>_Open`. */
  function OpenMicroflowName(moduleName: string, pageName: string): string {
    "ACT_Page_" + moduleName + "_" + AfterFirstDot(pageName) + "_Open"
  }

  /** Within one module, two pages get the same microflow name exactly when their local names agree. */
  lemma OpenMicroflowNameIffLocalName(moduleName: string, pageName1: string, pageName2: string)
    ensures OpenMicroflowName(moduleName, pageName1) == OpenMicroflowName(moduleName, pageName2)
            <==> AfterFirstDot(pageName1) == AfterFirstDot(pageName2)
  {
    var a, b := AfterFirstDot(pageName1), AfterFirstDot(pageName2);
    if OpenMicroflowName(moduleName, pageName1) == OpenMicroflowName(moduleName, pageName2) {
      var m1, m2 := OpenMicroflowName(moduleName, pageName1), OpenMicroflowName(moduleName, pageName2);
      var k := |"ACT_Page_" + moduleName + "_"|;
      assert |a| == |b|;
      forall i | 0 <= i < |a|
        ensures a[i] == b[i]
      {
        assert a[i] == m1[k + i] && b[i] == m2[k + i];
      }
    }
  }

  /** For a page `<logging module>.<name>`, the microflow is `ACT_Page_<module>_<name>_Open`. */
  lemma OpenMicroflowNameOfQualifiedPage(moduleName: string, pageModuleName: string, name: string)
    requires '.' !in pageModuleName
    ensures OpenMicroflowName(moduleName, pageModuleName + "." + name) == "ACT_Page_" + moduleName + "_" + name + "_Open"
  {
    AfterFirstDotOfQualifiedName(pageModuleName, name);
  }

  /** The document `createLoggingMicroflow` produces here: no page parameter, return value `true`. */
  function OpenDocument(moduleName: string, folderName: string, pageName: string): MicroflowDocument {
    LoggingDocument(moduleName, folderName, OpenMicroflowName(moduleName, pageName), pageName, None, "true")
  }

  /** The microflows after `createMicroflows`: the document is added unless its qualified name is taken. */
  function WithOpenMicroflow(docs: seq<MicroflowDocument>, moduleName: string, folderName: string, pageName: string)
    : seq<MicroflowDocument>
  {
    if QualifiedName(moduleName, OpenMicroflowName(moduleName, pageName)) in QualifiedNames(docs) then docs
    else docs + [OpenDocument(moduleName, folderName, pageName)]
  }

  /** Running the script a second time creates nothing, whatever folder it is pointed at. */
  lemma WithOpenMicroflowIdempotent(docs: seq<MicroflowDocument>, moduleName: string, folderName1: string,
                                    folderName2: string, pageName: string)
    ensures var once := WithOpenMicroflow(docs, moduleName, folderName1, pageName);
      WithOpenMicroflow(once, moduleName, folderName2, pageName) == once
  {
    var q := QualifiedName(moduleName, OpenMicroflowName(moduleName, pageName));
    if q !in QualifiedNames(docs) {
      QualifiedNamesSnoc(docs, OpenDocument(moduleName, folderName1, pageName));
    }
  }

  /** After `createMicroflows`, the working copy holds a microflow of the expected qualified name. */
  lemma WithOpenMicroflowHasName(docs: seq<MicroflowDocument>, moduleName: string, folderName: string, pageName: string)
    ensures QualifiedName(moduleName, OpenMicroflowName(moduleName, pageName))
            in QualifiedNames(WithOpenMicroflow(docs, moduleName, folderName, pageName))
    ensures QualifiedNames(docs) <= QualifiedNames(WithOpenMicroflow(docs, moduleName, folderName, pageName))
  {
    var q := QualifiedName(moduleName, OpenMicroflowName(moduleName, pageName));
    if q !in QualifiedNames(docs) {
      QualifiedNamesSnoc(docs, OpenDocument(moduleName, folderName, pageName));
    }
  }

  /**
   * `createMicroflows`: finds or creates the configured folder in the module, then
   * creates the page's logging microflow in it unless one of that name exists.
   */
  method CreateMicroflows(wc: WorkingCopy, moduleBase: FolderBase, pageName: string, folderName: string)
    modifies wc, moduleBase
    ensures HasFolder(moduleBase, folderName)
    ensures FoundOrAdded(old(moduleBase.folders), moduleBase.folders, folderName)
    ensures wc.microflows == WithOpenMicroflow(old(wc.microflows), moduleBase.name, folderName, pageName)
  {
    ghost var microflows0 := wc.microflows;
    var microflowName := OpenMicroflowName(moduleBase.name, pageName);
    var folder := CreateFolder(moduleBase, folderName);
    ghost var folders1 := moduleBase.folders;
    assert wc.microflows == microflows0;
    var mf := wc.FindMicroflowByQualifiedName(QualifiedName(moduleBase.name, microflowName));
    if mf.None? {
      CreateLoggingMicroflow(wc, moduleBase.name, folder.name, microflowName, pageName, None, "true");
      assert wc.microflows == microflows0 + [OpenDocument(moduleBase.name, folderName, pageName)];
    }
    assert moduleBase.folders == folders1;
  }

  /**
   * `execute`: with a module named `CustomLogging`, the first such module gets the
   * test page's logging microflow, in the configured folder which is found or created
   * there, and the working copy is committed; without one, nothing changes and
   * nothing is committed.
   */
  method Execute(wc: WorkingCopy, modules: seq<FolderBase>, folderName: string) returns (committed: bool)
    modifies wc, set i | 0 <= i < |modules| :: modules[i]
    ensures committed <==> FindByName(modules, LoggingModuleName).Some?
    ensures !committed ==> wc.microflows == old(wc.microflows)
    ensures !committed ==> forall i :: 0 <= i < |modules| ==> modules[i].folders == old(modules[i].folders)
    ensures committed ==> wc.microflows == WithOpenMicroflow(old(wc.microflows), LoggingModuleName, folderName, TestPageName)
    ensures committed ==>
              var loggingModule := modules[FindByName(modules, LoggingModuleName).value];
              HasFolder(loggingModule, folderName) && FoundOrAdded(old(loggingModule.folders), loggingModule.folders, folderName)
    ensures committed ==>
              forall i :: 0 <= i < |modules| && modules[i] != modules[FindByName(modules, LoggingModuleName).value] ==>
                modules[i].folders == old(modules[i].folders)
  {
    var found := FindByName(modules, LoggingModuleName);
    if found.None? {
      return false;
    }
    var loggingModule := modules[found.value];
    CreateMicroflows(wc, loggingModule, TestPageName, folderName);
    committed := true;
  }
}
