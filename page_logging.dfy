/**
 * What src/CreateMicroflowFromPages.ts and src/CreateMicroflow.ts share: the qualified
 * page name's local part (`pageName.substring(pageName.indexOf(".") + 1)`) and
 * `createLoggingMicroflow`, the fixed chain
 *
 *   start -> IPAddress -> BrowserType -> log(page) -> open page -> end
 *
 * laid out left to right on the main row. The two files differ only in whether the
 * page's parameter is passed on and in the end event's return value.
 */
module PageLogging {
  import opened Wrappers
  import opened MendixModel
  import opened Microflow
  import opened WorkingCopies

  /** The module the logging microflows are created in. */
  const LoggingModuleName: string := "CustomLogging"
  const IPAddressJavaAction: string := "CustomLogging.Java_IPAddress"
  const BrowserTypeJavaAction: string := "CustomLogging.Java_BrowserType"

  // ---------------------------------------------------------------------------
  // Page names.

  /** `s.indexOf(".")`: the index of the first dot, or -1 when there is none. */
  function IndexOfDot(s: string): (r: int)
    ensures -1 <= r < |s|
    ensures r == -1 <==> '.' !in s
    ensures r >= 0 ==> s[r] == '.' && '.' !in s[..r]
    decreases |s|
  {
    if s == [] then -1
    else if s[0] == '.' then 0
    else
      var r := IndexOfDot(s[1..]);
      assert s == [s[0]] + s[1..];
      if r == -1 then -1
      else
        assert s[..r + 1] == [s[0]] + s[1..][..r];
        r + 1
  }

  /**
   * `pageName.substring(pageName.indexOf(".") + 1)`: what follows the first dot; the
   * whole name when there is no dot, since `indexOf` gives -1.
   */
  function AfterFirstDot(s: string): (r: string)
    ensures '.' !in s ==> r == s
    ensures '.' in s ==> |r| < |s| && s == s[..|s| - |r| - 1] + "." + r && '.' !in s[..|s| - |r| - 1]
  {
    var i := IndexOfDot(s);
    assert i >= 0 ==> s == s[..i] + "." + s[i + 1..];
    s[i + 1..]
  }

  /** For a qualified name `<module>.<name>`, the local part is `<name>`, dots in it included. */
  lemma AfterFirstDotOfQualifiedName(moduleName: string, name: string)
    requires '.' !in moduleName
    ensures AfterFirstDot(moduleName + "." + name) == name
  {
    var s := moduleName + "." + name;
    assert s[..|moduleName|] == moduleName;
    assert s[|moduleName| + 1..] == name;
  }

  // ---------------------------------------------------------------------------
  // The logging microflow.

  /** The flow `createLoggingMicroflow` draws between two consecutive objects of its chain. */
  function Link(origin: ObjectRef, destination: ObjectRef): SequenceFlow {
    NewSequenceFlow(origin, destination, Right, Left, None)
  }

  /**
   * `createLoggingMicroflow`: the builder state its calls produce. The parameter, when
   * the page has one, is added after the log activity, so it takes the next index and
   * the page-open activity the one after.
   */
  function LoggingMicroflow(pageName: string, entityName: Option<string>, returnValue: string): BuilderState {
    var start := WithObject(InitialState, GenerateStartEvent(), 0, 0, None, Right, Left, None);
    var ipAddress := WithObject(start, GenerateJavaAction(IPAddressJavaAction, true, "IPAddress"), 200, 0, Some(0),
                                Right, Left, None);
    var browserType := WithObject(ipAddress, GenerateJavaAction(BrowserTypeJavaAction, true, "BrowserType"), 200, 0, Some(1),
                                  Right, Left, None);
    var log := WithObject(browserType, GenerateLogMessage(pageName), 200, 0, Some(2), Right, Left, None);
    var withParameter := if entityName.Some? then WithInputParameter(log, entityName.value, ObjectType(entityName.value))
                         else log;
    var pageOpen := WithObject(withParameter, GeneratePageOpenCall(pageName, entityName), 200, 0, Some(3), Right, Left, None);
    WithObject(pageOpen, GenerateEndEvent(returnValue), 100, 0, Some(|withParameter.objects|), Right, Left, None)
  }

  /**
   * The logging microflow: start at (0, 100), the two Java actions, the log message
   * and the page-open activity 200 apart and the end event 100 further, all on the
   * row y = 100; the page parameter (if any) at (0, 0), 30x30, typed by the entity;
   * five Right-to-Left flows without a case, one between each consecutive pair of the
   * main row; the end event returns `returnValue`.
   */
  lemma LoggingMicroflowShape(pageName: string, entityName: Option<string>, returnValue: string)
    ensures var r := LoggingMicroflow(pageName, entityName, returnValue);
      var p := if entityName.Some? then 1 else 0;
      && |r.objects| == 6 + p
      && r.objects[0] == MicroflowObject(StartEvent, Point(0, 100), Some(Size(20, 20)))
      && r.objects[1] == MicroflowObject(ActionActivity(JavaActionCallAction(IPAddressJavaAction, true, "IPAddress"), Default),
                                         Point(200, 100), None)
      && r.objects[2] == MicroflowObject(ActionActivity(JavaActionCallAction(BrowserTypeJavaAction, true, "BrowserType"), Default),
                                         Point(400, 100), None)
      && r.objects[3] == MicroflowObject(ActionActivity(LogMessageAction(pageName), Default), Point(600, 100), None)
      && (entityName.Some? ==>
            r.objects[4] == MicroflowObject(ParameterObject(entityName.value, ObjectType(entityName.value)), Point(0, 0),
                                            Some(Size(30, 30))))
      && r.objects[4 + p] == MicroflowObject(ActionActivity(ShowPageAction(pageName, entityName), Default), Point(800, 100), None)
      && r.objects[5 + p] == MicroflowObject(EndEvent(returnValue), Point(900, 100), Some(Size(20, 20)))
      && r.flows == [Link(0, 1), Link(1, 2), Link(2, 3), Link(3, 4 + p), Link(4 + p, 5 + p)]
  {
  }

  /** The microflow has an input parameter exactly when the page has a parameter entity. */
  lemma LoggingParameterIffEntity(pageName: string, entityName: Option<string>, returnValue: string)
    ensures var r := LoggingMicroflow(pageName, entityName, returnValue);
      (exists j :: 0 <= j < |r.objects| && r.objects[j].kind.ParameterObject?) <==> entityName.Some?
  {
    LoggingMicroflowShape(pageName, entityName, returnValue);
    var r := LoggingMicroflow(pageName, entityName, returnValue);
    if entityName.Some? {
      assert r.objects[4].kind.ParameterObject?;
    } else {
      forall j | 0 <= j < |r.objects|
        ensures !r.objects[j].kind.ParameterObject?
      {
        assert j in {0, 1, 2, 3, 4, 5};
      }
    }
  }

  /** The document `createLoggingMicroflow` leaves in the working copy: a Boolean microflow in `folderName`. */
  function LoggingDocument(moduleName: string, folderName: string, microflowName: string, pageName: string,
                           entityName: Option<string>, returnValue: string): MicroflowDocument
  {
    var r := LoggingMicroflow(pageName, entityName, returnValue);
    MicroflowDocument(moduleName, folderName, microflowName, BooleanType, true, r.objects, r.flows)
  }

  /** `createLoggingMicroflow`: builds the chain in a new microflow and adds it to the working copy. */
  method CreateLoggingMicroflow(wc: WorkingCopy, moduleName: string, folderName: string, microflowName: string,
                                pageName: string, entityName: Option<string>, returnValue: string)
    modifies wc
    ensures wc.microflows
              == old(wc.microflows) + [LoggingDocument(moduleName, folderName, microflowName, pageName, entityName, returnValue)]
  {
    var mf := new MicroflowBuilder(microflowName, BooleanType);
    var startEvent := mf.AddObjectToMicroflow(GenerateStartEvent(), 0, 0, None, Right, Left, None);
    ghost var start := mf.State();
    var lastActivity := startEvent;
    var ipAddress := mf.AddObjectToMicroflow(GenerateJavaAction(IPAddressJavaAction, true, "IPAddress"), 200, 0,
                                             Some(lastActivity), Right, Left, None);
    ghost var afterIpAddress := mf.State();
    assert afterIpAddress == WithObject(start, GenerateJavaAction(IPAddressJavaAction, true, "IPAddress"), 200, 0, Some(0),
                                        Right, Left, None);
    lastActivity := ipAddress;
    var browserType := mf.AddObjectToMicroflow(GenerateJavaAction(BrowserTypeJavaAction, true, "BrowserType"), 200, 0,
                                               Some(lastActivity), Right, Left, None);
    ghost var afterBrowserType := mf.State();
    lastActivity := browserType;
    var logging := mf.AddObjectToMicroflow(GenerateLogMessage(pageName), 200, 0, Some(lastActivity), Right, Left, None);
    ghost var afterLog := mf.State();
    assert afterLog == WithObject(afterBrowserType, GenerateLogMessage(pageName), 200, 0, Some(2), Right, Left, None);
    lastActivity := logging;
    if entityName.Some? {
      mf.AddInputParameter(entityName.value, ObjectType(entityName.value));
    }
    ghost var withParameter := mf.State();
    assert lastActivity == 3 && |withParameter.objects| == |afterLog.objects| + (if entityName.Some? then 1 else 0);
    var pageOpen := mf.AddObjectToMicroflow(GeneratePageOpenCall(pageName, entityName), 200, 0, Some(lastActivity),
                                            Right, Left, None);
    assert pageOpen == |withParameter.objects|;
    lastActivity := pageOpen;
    var endEvent := mf.AddObjectToMicroflow(GenerateEndEvent(returnValue), 100, 0, Some(lastActivity), Right, Left, None);
    assert mf.State() == LoggingMicroflow(pageName, entityName, returnValue);
    wc.AddMicroflow(Document(moduleName, folderName, mf));
  }
}
