/**
 * src/ValidationCreator.ts: for every selected entity, a validation microflow
 *
 *   parameter, start -> create IsValid := 'true' -> diamond(attribute 1) -> ... -> end($IsValid)
 *
 * where each diamond is a split on the attribute's validity expression whose false
 * path sets the flag to false and gives validation feedback, and whose two paths meet
 * again in a merge that becomes the tail for the next attribute.
 *
 * The pure functions `ValidationActivities`, `ValidationChain` and `ValidationMicroflow`
 * give the builder state the source's calls produce; the methods are proved to produce
 * exactly those states, and the lemmas state the shape of the generated graph.
 */
module ValidationCreator {
  import opened Wrappers
  import opened MendixModel
  import opened Microflow
  import opened Folders
  import opened WorkingCopies
  import opened NameGuard
  import opened Seqs

  /** An attribute with its type's `structureTypeName`. */
  datatype Attribute = Attribute(name: string, typeName: string)
  datatype Entity = Entity(name: string, attributes: seq<Attribute>)
  /** A domain model with its module (`containerAsModule`, also its `containerAsFolderBase`). */
  datatype DomainModel = DomainModel(containerAsModule: FolderBase, entities: seq<Entity>)

  /** The settings read from the configuration module, which is not part of this model. */
  datatype ModuleConfig = ModuleConfig(name: string, entities: seq<string>)
  datatype Config = Config(
    validationMicroflowPrefix: string,
    validVariableName: string,
    requiredFieldMessage: string,
    folderName: string,
    modules: seq<ModuleConfig>)

  // ---------------------------------------------------------------------------
  // The expression table.

  datatype SplitTemplate = BareReference | NotEmpty | NotEmptyAndPositive | NotEmptyAndNotBlank

  /** `typeSplitExpressions`: the attribute types with a validity expression. */
  const TypeSplitExpressions: map<string, SplitTemplate> := map[
    "DomainModels$BooleanAttributeType" := BareReference,
    "DomainModels$CurrencyAttributeType" := NotEmptyAndPositive,
    "DomainModels$DateTimeAttributeType" := NotEmpty,
    "DomainModels$DecimalAttributeType" := NotEmptyAndPositive,
    "DomainModels$EnumerationAttributeType" := NotEmpty,
    "DomainModels$FloatAttributeType" := NotEmptyAndPositive,
    "DomainModels$IntegerAttributeType" := NotEmptyAndPositive,
    "DomainModels$LongAttributeType" := NotEmptyAndPositive,
    "DomainModels$StringAttributeType" := NotEmptyAndNotBlank]

  function Instantiate(t: SplitTemplate, variableName: string): string {
    match t
    case BareReference => variableName
    case NotEmpty => variableName + " != empty"
    case NotEmptyAndPositive => variableName + " != empty and " + variableName + " > 0"
    case NotEmptyAndNotBlank => variableName + " != empty and " + variableName + " != ''"
  }

  const NumericAttributeTypes: set<string> := {
    "DomainModels$CurrencyAttributeType", "DomainModels$DecimalAttributeType", "DomainModels$FloatAttributeType",
    "DomainModels$IntegerAttributeType", "DomainModels$LongAttributeType"}

  /** The validity expression for an attribute type, if the table has one. */
  function SplitExpression(typeName: string, variableName: string): Option<string> {
    if typeName in TypeSplitExpressions then Some(Instantiate(TypeSplitExpressions[typeName], variableName)) else None
  }

  /**
   * The table covers exactly nine types: Boolean gives the bare reference, DateTime
   * and Enumeration a non-empty test, the five numeric types non-empty and positive,
   * String non-empty and not ''.
   */
  lemma SplitExpressionTable(typeName: string, v: string)
    ensures SplitExpression(typeName, v).Some? <==>
              typeName in NumericAttributeTypes + {"DomainModels$BooleanAttributeType", "DomainModels$DateTimeAttributeType",
                                                   "DomainModels$EnumerationAttributeType", "DomainModels$StringAttributeType"}
    ensures typeName == "DomainModels$BooleanAttributeType" ==> SplitExpression(typeName, v) == Some(v)
    ensures typeName in {"DomainModels$DateTimeAttributeType", "DomainModels$EnumerationAttributeType"} ==>
              SplitExpression(typeName, v) == Some(v + " != empty")
    ensures typeName in NumericAttributeTypes ==> SplitExpression(typeName, v) == Some(v + " != empty and " + v + " > 0")
    ensures typeName == "DomainModels$StringAttributeType" ==> SplitExpression(typeName, v) == Some(v + " != empty and " + v + " != ''")
  {
  }

  /** The attribute reference the split tests: `$<Entity>/<Attribute>`. */
  function VariableName(entity: Entity, attribute: Attribute): string {
    "$" + entity.name + "/" + attribute.name
  }

  // ---------------------------------------------------------------------------
  // The specification of the builder calls.

  /** The four objects of a diamond at cursor (x, y). */
  function DiamondObjects(entity: Entity, attribute: Attribute, cfg: Config, x: int, y: int): seq<MicroflowObject>
    requires attribute.typeName in TypeSplitExpressions
  {
    [MicroflowObject(ExclusiveSplit(SplitExpression(attribute.typeName, VariableName(entity, attribute)).value, attribute.name),
                     Point(x + 200, y), None),
     MicroflowObject(ActionActivity(ChangeVariableAction(cfg.validVariableName, "false"), Default), Point(x + 200, y + 100), None),
     MicroflowObject(ActionActivity(ValidationFeedbackAction(entity.name, attribute.name, cfg.requiredFieldMessage), Default),
                     Point(x + 400, y + 100), None),
     MicroflowObject(ExclusiveMerge, Point(x + 400, y), None)]
  }

  /** The five flows of a diamond whose split is object `n`, entered from tail `t`. */
  function DiamondFlows(t: ObjectRef, n: ObjectRef): seq<SequenceFlow> {
    [NewSequenceFlow(t, n, Right, Left, None),
     NewSequenceFlow(n, n + 1, Bottom, Top, Some(EnumerationCase("false"))),
     NewSequenceFlow(n + 1, n + 2, Right, Left, None),
     NewSequenceFlow(n + 2, n + 3, Top, Bottom, None),
     NewSequenceFlow(n, n + 3, Right, Left, Some(EnumerationCase("true")))]
  }

  /**
   * `addValidationActivities`: the new state and the new tail. An attribute whose type
   * has no validity expression adds nothing and leaves the tail where it was. Otherwise
   * the diamond adds split, change-variable (to "false"), feedback and merge, in that
   * order, and five flows: tail->split, split->change on "false", change->feedback,
   * feedback->merge and split->merge on "true". The cursor goes right 200, down 100,
   * right 200 and up 100, a net (+400, 0), so the merge sits on the split's row; the
   * merge is the new tail.
   */
  function ValidationActivities(s: BuilderState, entity: Entity, attribute: Attribute, connectFrom: ObjectRef, cfg: Config)
    : (BuilderState, ObjectRef)
  {
    if attribute.typeName !in TypeSplitExpressions then (s, connectFrom)
    else
      var split := |s.objects|;
      (s.(objects := s.objects + DiamondObjects(entity, attribute, cfg, s.microflowCurrentX, s.microflowCurrentY),
          flows := s.flows + DiamondFlows(connectFrom, split),
          microflowCurrentX := s.microflowCurrentX + 400),
       split + 3)
  }

  /** The `forEach` over the attributes, threading the tail. */
  function ValidationChain(s: BuilderState, entity: Entity, attributes: seq<Attribute>, connectFrom: ObjectRef, cfg: Config)
    : (BuilderState, ObjectRef)
    decreases |attributes|
  {
    if attributes == [] then (s, connectFrom)
    else
      var prev := ValidationChain(s, entity, attributes[..|attributes| - 1], connectFrom, cfg);
      ValidationActivities(prev.0, entity, attributes[|attributes| - 1], prev.1, cfg)
  }

  /** The parameter type: an object of the entity, named by its qualified name. */
  function EntityType(moduleName: string, entity: Entity): DataType {
    ObjectType(moduleName + "." + entity.name)
  }

  /** The first calls of `createValidationMicroflow`: parameter, start event, `IsValid := 'true'`. */
  function ValidationPrologue(moduleName: string, entity: Entity, cfg: Config): BuilderState {
    var s0 := WithInputParameter(InitialState, entity.name, EntityType(moduleName, entity));
    var s1 := WithObject(s0, GenerateStartEvent(), 0, 0, None, Right, Left, None);
    WithObject(s1, GenerateCreateVariableActivity(BooleanType, cfg.validVariableName, "true"), 100, 0, Some(1), Right, Left, None)
  }

  /** `createValidationMicroflow`: the state of the finished builder. */
  function ValidationMicroflow(moduleName: string, entity: Entity, cfg: Config): BuilderState {
    var chain := ValidationChain(ValidationPrologue(moduleName, entity, cfg), entity, entity.attributes, 2, cfg);
    WithObject(chain.0, GenerateEndEvent("$" + cfg.validVariableName), 100, 0, Some(chain.1), Right, Left, None)
  }

  // ---------------------------------------------------------------------------
  // Projections used to state the shape.

  /** The attributes that get a diamond, in declaration order. */
  function Supported(attributes: seq<Attribute>): seq<Attribute>
    decreases |attributes|
  {
    if attributes == [] then []
    else
      var last := attributes[|attributes| - 1];
      Supported(attributes[..|attributes| - 1]) + (if last.typeName in TypeSplitExpressions then [last] else [])
  }

  function AttributeNames(attributes: seq<Attribute>): seq<string>
    decreases |attributes|
  {
    if attributes == [] then [] else AttributeNames(attributes[..|attributes| - 1]) + [attributes[|attributes| - 1].name]
  }

  /** The captions of the exclusive splits, in object order. */
  function SplitCaptions(objects: seq<MicroflowObject>): seq<string>
    decreases |objects|
  {
    if objects == [] then []
    else
      var last := objects[|objects| - 1];
      SplitCaptions(objects[..|objects| - 1]) + (if last.kind.ExclusiveSplit? then [last.kind.caption] else [])
  }

  /** The attributes validation feedback is given on, in object order. */
  function FeedbackAttributes(objects: seq<MicroflowObject>): seq<string>
    decreases |objects|
  {
    if objects == [] then []
    else
      var last := objects[|objects| - 1];
      FeedbackAttributes(objects[..|objects| - 1])
        + (if IsFeedbackActivity(last.kind) then [last.kind.action.attributeName] else [])
  }

  predicate IsChangeActivity(k: ObjectKind) {
    k.ActionActivity? && k.action.ChangeVariableAction?
  }

  predicate IsFeedbackActivity(k: ObjectKind) {
    k.ActionActivity? && k.action.ValidationFeedbackAction?
  }

  /** The flows leaving object `j`, in order. */
  function Outgoing(flows: seq<SequenceFlow>, j: ObjectRef): seq<SequenceFlow>
    decreases |flows|
  {
    if flows == [] then []
    else
      var last := flows[|flows| - 1];
      Outgoing(flows[..|flows| - 1], j) + (if last.origin == j then [last] else [])
  }

  lemma {:induction false} SplitCaptionsAppend(a: seq<MicroflowObject>, b: seq<MicroflowObject>)
    ensures SplitCaptions(a + b) == SplitCaptions(a) + SplitCaptions(b)
    ensures FeedbackAttributes(a + b) == FeedbackAttributes(a) + FeedbackAttributes(b)
    decreases |b|
  {
    if b == [] {
      assert a + b == a;
    } else {
      assert (a + b)[..|a + b| - 1] == a + b[..|b| - 1];
      SplitCaptionsAppend(a, b[..|b| - 1]);
    }
  }

  lemma {:induction false} OutgoingAppend(a: seq<SequenceFlow>, b: seq<SequenceFlow>, j: ObjectRef)
    ensures Outgoing(a + b, j) == Outgoing(a, j) + Outgoing(b, j)
    decreases |b|
  {
    if b == [] {
      assert a + b == a;
    } else {
      assert (a + b)[..|a + b| - 1] == a + b[..|b| - 1];
      OutgoingAppend(a, b[..|b| - 1], j);
    }
  }

  lemma {:induction false} OutgoingNone(flows: seq<SequenceFlow>, j: ObjectRef)
    requires forall i :: 0 <= i < |flows| ==> flows[i].origin != j
    ensures Outgoing(flows, j) == []
    decreases |flows|
  {
    if flows != [] {
      OutgoingNone(flows[..|flows| - 1], j);
    }
  }

  lemma CaptionsSnoc(a: seq<MicroflowObject>, o: MicroflowObject)
    ensures SplitCaptions(a + [o]) == SplitCaptions(a) + (if o.kind.ExclusiveSplit? then [o.kind.caption] else [])
    ensures FeedbackAttributes(a + [o]) == FeedbackAttributes(a) + (if IsFeedbackActivity(o.kind) then [o.kind.action.attributeName] else [])
  {
    assert (a + [o])[..|a + [o]| - 1] == a;
  }

  // ---------------------------------------------------------------------------
  // The chain: counts, order and layout.

  /**
   * The chain appends four objects and five flows per supported attribute, keeps what
   * was there, moves the cursor (+400, 0) per supported attribute, and returns the last
   * merge, or the incoming tail when nothing was added.
   */
  lemma {:induction false} ChainCounts(s: BuilderState, entity: Entity, attributes: seq<Attribute>, t: ObjectRef, cfg: Config)
    ensures var r := ValidationChain(s, entity, attributes, t, cfg);
      var k := |Supported(attributes)|;
      && |r.0.objects| == |s.objects| + 4 * k
      && |r.0.flows| == |s.flows| + 5 * k
      && r.0.objects[..|s.objects|] == s.objects
      && r.0.flows[..|s.flows|] == s.flows
      && r.0.microflowCurrentX == s.microflowCurrentX + 400 * k
      && r.0.microflowCurrentY == s.microflowCurrentY
      && r.0.inputParameterCurrentX == s.inputParameterCurrentX
      && r.0.inputParameterCurrentY == s.inputParameterCurrentY
      && r.1 == (if k == 0 then t else |r.0.objects| - 1)
    decreases |attributes|
  {
    if attributes != [] {
      var init := attributes[..|attributes| - 1];
      var a := attributes[|attributes| - 1];
      ChainCounts(s, entity, init, t, cfg);
      var prev := ValidationChain(s, entity, init, t, cfg);
      var r := ValidationChain(s, entity, attributes, t, cfg);
      if a.typeName in TypeSplitExpressions {
        assert Supported(attributes) == Supported(init) + [a];
        assert r.0.objects[..|s.objects|] == prev.0.objects[..|s.objects|];
        assert r.0.flows[..|s.flows|] == prev.0.flows[..|s.flows|];
      } else {
        assert Supported(attributes) == Supported(init);
      }
    }
  }

  /** A diamond has one split, captioned with the attribute's name, and one feedback activity, on that attribute. */
  lemma DiamondCaptions(entity: Entity, attribute: Attribute, cfg: Config, x: int, y: int)
    requires attribute.typeName in TypeSplitExpressions
    ensures SplitCaptions(DiamondObjects(entity, attribute, cfg, x, y)) == [attribute.name]
    ensures FeedbackAttributes(DiamondObjects(entity, attribute, cfg, x, y)) == [attribute.name]
  {
    var d := DiamondObjects(entity, attribute, cfg, x, y);
    assert d == [d[0]] + [d[1]] + [d[2]] + [d[3]];
    SplitCaptionsAppend([d[0]] + [d[1]] + [d[2]], [d[3]]);
    SplitCaptionsAppend([d[0]] + [d[1]], [d[2]]);
    SplitCaptionsAppend([d[0]], [d[1]]);
    CaptionsSnoc([], d[0]);
    CaptionsSnoc([], d[1]);
    CaptionsSnoc([], d[2]);
    CaptionsSnoc([], d[3]);
  }

  /** The chain's splits carry the supported attributes' names, and its feedback activities name them, in declaration order. */
  lemma {:induction false} ChainCaptions(s: BuilderState, entity: Entity, attributes: seq<Attribute>, t: ObjectRef, cfg: Config)
    ensures var r := ValidationChain(s, entity, attributes, t, cfg);
      && SplitCaptions(r.0.objects) == SplitCaptions(s.objects) + AttributeNames(Supported(attributes))
      && FeedbackAttributes(r.0.objects) == FeedbackAttributes(s.objects) + AttributeNames(Supported(attributes))
    decreases |attributes|
  {
    if attributes != [] {
      var init := attributes[..|attributes| - 1];
      var a := attributes[|attributes| - 1];
      ChainCaptions(s, entity, init, t, cfg);
      var prev := ValidationChain(s, entity, init, t, cfg);
      if a.typeName in TypeSplitExpressions {
        assert Supported(attributes) == Supported(init) + [a];
        assert AttributeNames(Supported(init) + [a]) == AttributeNames(Supported(init)) + [a.name] by {
          assert (Supported(init) + [a])[..|Supported(init) + [a]| - 1] == Supported(init);
        }
        var d := DiamondObjects(entity, a, cfg, prev.0.microflowCurrentX, prev.0.microflowCurrentY);
        assert ValidationChain(s, entity, attributes, t, cfg).0.objects == prev.0.objects + d;
        SplitCaptionsAppend(prev.0.objects, d);
        DiamondCaptions(entity, a, cfg, prev.0.microflowCurrentX, prev.0.microflowCurrentY);
      } else {
        assert Supported(attributes) == Supported(init);
      }
    }
  }

  /**
   * Everything the chain adds is a split, a merge or an activity; splits and merges sit
   * on the cursor's row and the activities one row (100) below.
   */
  lemma {:induction false} ChainLayout(s: BuilderState, entity: Entity, attributes: seq<Attribute>, t: ObjectRef, cfg: Config)
    ensures var r := ValidationChain(s, entity, attributes, t, cfg).0;
      && |s.objects| <= |r.objects|
      && r.microflowCurrentY == s.microflowCurrentY
      && (forall j :: |s.objects| <= j < |r.objects| ==>
            && (r.objects[j].kind.ExclusiveSplit? || r.objects[j].kind.ExclusiveMerge? || r.objects[j].kind.ActionActivity?)
            && r.objects[j].relativeMiddlePoint.y
                 == (if r.objects[j].kind.ActionActivity? then s.microflowCurrentY + 100 else s.microflowCurrentY))
    decreases |attributes|
  {
    if attributes != [] {
      var init := attributes[..|attributes| - 1];
      var a := attributes[|attributes| - 1];
      ChainLayout(s, entity, init, t, cfg);
      var prev := ValidationChain(s, entity, init, t, cfg);
      var r := ValidationChain(s, entity, attributes, t, cfg).0;
      if a.typeName in TypeSplitExpressions {
        var d := DiamondObjects(entity, a, cfg, prev.0.microflowCurrentX, prev.0.microflowCurrentY);
        assert r.objects == prev.0.objects + d;
        forall j | |s.objects| <= j < |r.objects|
          ensures && (r.objects[j].kind.ExclusiveSplit? || r.objects[j].kind.ExclusiveMerge? || r.objects[j].kind.ActionActivity?)
                  && r.objects[j].relativeMiddlePoint.y
                       == (if r.objects[j].kind.ActionActivity? then s.microflowCurrentY + 100 else s.microflowCurrentY)
        {
          if j < |prev.0.objects| {
            assert r.objects[j] == prev.0.objects[j];
          } else {
            assert r.objects[j] == d[j - |prev.0.objects|];
          }
        }
      }
    }
  }

  // ---------------------------------------------------------------------------
  // The chain: wiring.

  /** Object `j` has an incoming flow from an earlier object at index `lo` or later. */
  ghost predicate HasIncoming(flows: seq<SequenceFlow>, j: ObjectRef, lo: ObjectRef) {
    exists i :: 0 <= i < |flows| && flows[i].destination == j && lo <= flows[i].origin < j
  }

  /**
   * Every flow leaves an object at `lo` or later and enters an object at `k` or later;
   * every object from `k` on has an incoming flow from an earlier object at `lo` or later.
   */
  ghost predicate Wired(s: BuilderState, lo: ObjectRef, k: ObjectRef) {
    && (forall i :: 0 <= i < |s.flows| ==>
          lo <= s.flows[i].origin < |s.objects| && k <= s.flows[i].destination < |s.objects|)
    && (forall j :: k <= j < |s.objects| ==> HasIncoming(s.flows, j, lo))
  }

  /** The two exits of split `j`: to the change activity on "false" and to the merge on "true". */
  function SplitExits(j: ObjectRef): seq<SequenceFlow> {
    [NewSequenceFlow(j, j + 1, Bottom, Top, Some(EnumerationCase("false"))),
     NewSequenceFlow(j, j + 3, Right, Left, Some(EnumerationCase("true")))]
  }

  /**
   * Every exclusive split `j` opens a single-entry single-exit region: exactly two
   * flows leave it, on "false" to the change activity j+1 and on "true" to the merge
   * j+3, and the false path runs j+1 -> j+2 (feedback) -> j+3 with one flow each.
   */
  ghost predicate SplitsBranch(s: BuilderState) {
    forall j :: 0 <= j < |s.objects| && s.objects[j].kind.ExclusiveSplit? ==> SplitAt(s.objects, s.flows, j)
  }

  /** The region of split `j`, as `SplitsBranch` requires it. */
  ghost predicate SplitAt(objects: seq<MicroflowObject>, flows: seq<SequenceFlow>, j: ObjectRef) {
    && j + 3 < |objects|
    && IsChangeActivity(objects[j + 1].kind)
    && IsFeedbackActivity(objects[j + 2].kind)
    && objects[j + 3].kind == ExclusiveMerge
    && Outgoing(flows, j) == SplitExits(j)
    && Outgoing(flows, j + 1) == [NewSequenceFlow(j + 1, j + 2, Right, Left, None)]
    && Outgoing(flows, j + 2) == [NewSequenceFlow(j + 2, j + 3, Top, Bottom, None)]
  }

  /** A tail the next diamond or the end event can hang from: not inside a diamond's split or false path. */
  ghost predicate ValidTail(s: BuilderState, t: ObjectRef, lo: ObjectRef) {
    && lo <= t < |s.objects|
    && !s.objects[t].kind.ExclusiveSplit?
    && !IsChangeActivity(s.objects[t].kind)
    && !IsFeedbackActivity(s.objects[t].kind)
  }

  lemma DiamondKeepsWired(s: BuilderState, entity: Entity, attribute: Attribute, t: ObjectRef, cfg: Config, lo: ObjectRef, k: ObjectRef)
    requires attribute.typeName in TypeSplitExpressions
    requires Wired(s, lo, k) && ValidTail(s, t, lo) && k <= |s.objects|
    ensures Wired(ValidationActivities(s, entity, attribute, t, cfg).0, lo, k)
  {
    var r := ValidationActivities(s, entity, attribute, t, cfg).0;
    var n, m := |s.objects|, |s.flows|;
    forall j | k <= j < |r.objects|
      ensures HasIncoming(r.flows, j, lo)
    {
      if j < n {
        assert HasIncoming(s.flows, j, lo);
        var i :| 0 <= i < |s.flows| && s.flows[i].destination == j && lo <= s.flows[i].origin < j;
        assert r.flows[i] == s.flows[i];
      } else {
        assert r.flows[m + (j - n)].destination == j;
      }
    }
    forall i | 0 <= i < |r.flows|
      ensures lo <= r.flows[i].origin < |r.objects| && k <= r.flows[i].destination < |r.objects|
    {
      if i < m {
        assert r.flows[i] == s.flows[i];
      } else {
        assert r.flows[i] == DiamondFlows(t, n)[i - m];
      }
    }
  }

  /** The flows of a diamond that leave `j`, one candidate flow at a time. */
  lemma DiamondOutgoingAt(t: ObjectRef, n: ObjectRef, j: ObjectRef)
    ensures var d := DiamondFlows(t, n);
      Outgoing(d, j) == Outgoing([d[0]], j) + Outgoing([d[1]], j) + Outgoing([d[2]], j) + Outgoing([d[3]], j) + Outgoing([d[4]], j)
  {
    var d := DiamondFlows(t, n);
    assert d == [d[0]] + [d[1]] + [d[2]] + [d[3]] + [d[4]];
    OutgoingAppend([d[0]] + [d[1]] + [d[2]] + [d[3]], [d[4]], j);
    OutgoingAppend([d[0]] + [d[1]] + [d[2]], [d[3]], j);
    OutgoingAppend([d[0]] + [d[1]], [d[2]], j);
    OutgoingAppend([d[0]], [d[1]], j);
  }

  lemma OutgoingSingle(f: SequenceFlow, j: ObjectRef)
    ensures Outgoing([f], j) == (if f.origin == j then [f] else [])
  {
    assert [f][..0] == [];
  }

  /** The exits of a diamond's own split and false path; nothing else in it leaves an object before the split. */
  lemma DiamondOutgoing(t: ObjectRef, n: ObjectRef)
    requires t < n
    ensures Outgoing(DiamondFlows(t, n), n) == SplitExits(n)
    ensures Outgoing(DiamondFlows(t, n), n + 1) == [NewSequenceFlow(n + 1, n + 2, Right, Left, None)]
    ensures Outgoing(DiamondFlows(t, n), n + 2) == [NewSequenceFlow(n + 2, n + 3, Top, Bottom, None)]
    ensures forall j: ObjectRef :: j < n && j != t ==> Outgoing(DiamondFlows(t, n), j) == []
  {
    var d := DiamondFlows(t, n);
    forall j: ObjectRef | n <= j <= n + 2
      ensures Outgoing(d, j) == (if j == n then [d[1], d[4]] else if j == n + 1 then [d[2]] else [d[3]])
    {
      DiamondOutgoingAt(t, n, j);
      OutgoingSingle(d[0], j);
      OutgoingSingle(d[1], j);
      OutgoingSingle(d[2], j);
      OutgoingSingle(d[3], j);
      OutgoingSingle(d[4], j);
    }
    forall j: ObjectRef | j < n && j != t
      ensures Outgoing(d, j) == []
    {
      OutgoingNone(d, j);
    }
  }

  /** Appending objects, and flows that leave none of its three objects, keeps a split's region. */
  lemma SplitAtKept(objects: seq<MicroflowObject>, flows: seq<SequenceFlow>, objs: seq<MicroflowObject>,
                    d: seq<SequenceFlow>, j: ObjectRef)
    requires SplitAt(objects, flows, j)
    requires Outgoing(d, j) == [] && Outgoing(d, j + 1) == [] && Outgoing(d, j + 2) == []
    ensures SplitAt(objects + objs, flows + d, j)
  {
    OutgoingAppend(flows, d, j);
    OutgoingAppend(flows, d, j + 1);
    OutgoingAppend(flows, d, j + 2);
    assert (objects + objs)[j + 1] == objects[j + 1];
    assert (objects + objs)[j + 2] == objects[j + 2];
    assert (objects + objs)[j + 3] == objects[j + 3];
  }

  /** A new diamond's split heads a region, when no earlier flow leaves an object past the old ones. */
  lemma SplitAtNew(objects: seq<MicroflowObject>, flows: seq<SequenceFlow>, entity: Entity, attribute: Attribute,
                   cfg: Config, x: int, y: int, t: ObjectRef)
    requires attribute.typeName in TypeSplitExpressions
    requires t < |objects|
    requires forall i :: 0 <= i < |flows| ==> flows[i].origin < |objects|
    ensures SplitAt(objects + DiamondObjects(entity, attribute, cfg, x, y), flows + DiamondFlows(t, |objects|), |objects|)
  {
    var n := |objects|;
    var d := DiamondFlows(t, n);
    DiamondOutgoing(t, n);
    OutgoingAppend(flows, d, n);
    OutgoingAppend(flows, d, n + 1);
    OutgoingAppend(flows, d, n + 2);
    OutgoingNone(flows, n);
    OutgoingNone(flows, n + 1);
    OutgoingNone(flows, n + 2);
  }

  lemma DiamondKeepsSplits(s: BuilderState, entity: Entity, attribute: Attribute, t: ObjectRef, cfg: Config, lo: ObjectRef)
    requires attribute.typeName in TypeSplitExpressions
    requires SplitsBranch(s) && ValidTail(s, t, lo)
    requires forall i :: 0 <= i < |s.flows| ==> s.flows[i].origin < |s.objects|
    ensures var r := ValidationActivities(s, entity, attribute, t, cfg);
      SplitsBranch(r.0) && ValidTail(r.0, r.1, lo)
  {
    var r := ValidationActivities(s, entity, attribute, t, cfg).0;
    var n := |s.objects|;
    var d := DiamondFlows(t, n);
    var objs := DiamondObjects(entity, attribute, cfg, s.microflowCurrentX, s.microflowCurrentY);
    assert r.flows == s.flows + d && r.objects == s.objects + objs;
    DiamondOutgoing(t, n);
    forall j | 0 <= j < |r.objects| && r.objects[j].kind.ExclusiveSplit?
      ensures SplitAt(r.objects, r.flows, j)
    {
      if j < n {
        assert r.objects[j] == s.objects[j];
        assert SplitAt(s.objects, s.flows, j);
        assert t != j && t != j + 1 && t != j + 2;
        SplitAtKept(s.objects, s.flows, objs, d, j);
      } else {
        assert r.objects[j] == objs[j - n];
        SplitAtNew(s.objects, s.flows, entity, attribute, cfg, s.microflowCurrentX, s.microflowCurrentY, t);
      }
    }
  }

  /**
   * The chain keeps the microflow wired (every new object is entered from an earlier
   * one, nothing new enters below `k` or leaves below `lo`), keeps every split a
   * two-way branch that rejoins at its merge, and returns a tail outside any diamond.
   */
  lemma {:induction false} ChainKeepsWiring(s: BuilderState, entity: Entity, attributes: seq<Attribute>, t: ObjectRef,
                                            cfg: Config, lo: ObjectRef, k: ObjectRef)
    requires Wired(s, lo, k) && SplitsBranch(s) && ValidTail(s, t, lo) && k <= |s.objects|
    ensures var r := ValidationChain(s, entity, attributes, t, cfg);
      Wired(r.0, lo, k) && SplitsBranch(r.0) && ValidTail(r.0, r.1, lo) && |s.objects| <= |r.0.objects|
    decreases |attributes|
  {
    if attributes != [] {
      var init := attributes[..|attributes| - 1];
      ChainKeepsWiring(s, entity, init, t, cfg, lo, k);
      var prev := ValidationChain(s, entity, init, t, cfg);
      var a := attributes[|attributes| - 1];
      if a.typeName in TypeSplitExpressions {
        DiamondKeepsWired(prev.0, entity, a, prev.1, cfg, lo, k);
        DiamondKeepsSplits(prev.0, entity, a, prev.1, cfg, lo);
      }
    }
  }

  // ---------------------------------------------------------------------------
  // The whole validation microflow.

  /**
   * Before the chain: the entity parameter at (0, 0) named after the entity, the start
   * event at (0, 100) with no incoming flow, `IsValid := 'true'` at (100, 100) entered
   * from the start; the main cursor stands at (100, 100).
   */
  lemma PrologueShape(moduleName: string, entity: Entity, cfg: Config)
    ensures var p := ValidationPrologue(moduleName, entity, cfg);
      && p.objects == [MicroflowObject(ParameterObject(entity.name, EntityType(moduleName, entity)), Point(0, 0), Some(Size(30, 30))),
                       MicroflowObject(StartEvent, Point(0, 100), Some(Size(20, 20))),
                       MicroflowObject(ActionActivity(CreateVariableAction(BooleanType, cfg.validVariableName, "true"), Default),
                                       Point(100, 100), None)]
      && p.flows == [NewSequenceFlow(1, 2, Right, Left, None)]
      && p.microflowCurrentX == 100 && p.microflowCurrentY == 100
  {
  }

  /** The microflow's end: one end event returning `$<validVariableName>`, hung from the chain's tail. */
  function WithEnd(chain: (BuilderState, ObjectRef), cfg: Config): BuilderState {
    WithObject(chain.0, GenerateEndEvent("$" + cfg.validVariableName), 100, 0, Some(chain.1), Right, Left, None)
  }

  lemma ValidationMicroflowIsChainWithEnd(moduleName: string, entity: Entity, cfg: Config)
    ensures ValidationMicroflow(moduleName, entity, cfg)
              == WithEnd(ValidationChain(ValidationPrologue(moduleName, entity, cfg), entity, entity.attributes, 2, cfg), cfg)
  {
  }

  /**
   * The generated microflow: the prologue, one diamond per supported attribute, and an
   * end event returning `$<validVariableName>` at (200 + 400 k, 100): 4 + 4k objects
   * and 2 + 5k flows.
   */
  lemma ValidationMicroflowShape(moduleName: string, entity: Entity, cfg: Config)
    ensures var r := ValidationMicroflow(moduleName, entity, cfg);
      var k := |Supported(entity.attributes)|;
      && |r.objects| == 4 + 4 * k
      && |r.flows| == 2 + 5 * k
      && r.objects[..3] == ValidationPrologue(moduleName, entity, cfg).objects
      && r.objects[|r.objects| - 1] == MicroflowObject(EndEvent("$" + cfg.validVariableName), Point(200 + 400 * k, 100), Some(Size(20, 20)))
  {
    var p := ValidationPrologue(moduleName, entity, cfg);
    PrologueShape(moduleName, entity, cfg);
    var chain := ValidationChain(p, entity, entity.attributes, 2, cfg);
    ValidationMicroflowIsChainWithEnd(moduleName, entity, cfg);
    ChainCounts(p, entity, entity.attributes, 2, cfg);
    var r := WithEnd(chain, cfg);
    assert r.objects[..3] == chain.0.objects[..3];
  }

  /**
   * The splits of the generated microflow are captioned with the supported attributes'
   * names and its feedback activities name them, in declaration order.
   */
  lemma ValidationMicroflowCaptions(moduleName: string, entity: Entity, cfg: Config)
    ensures var r := ValidationMicroflow(moduleName, entity, cfg);
      && SplitCaptions(r.objects) == AttributeNames(Supported(entity.attributes))
      && FeedbackAttributes(r.objects) == AttributeNames(Supported(entity.attributes))
  {
    var p := ValidationPrologue(moduleName, entity, cfg);
    PrologueShape(moduleName, entity, cfg);
    var chain := ValidationChain(p, entity, entity.attributes, 2, cfg);
    ValidationMicroflowIsChainWithEnd(moduleName, entity, cfg);
    ChainCaptions(p, entity, entity.attributes, 2, cfg);
    var r := WithEnd(chain, cfg);
    var end := r.objects[|r.objects| - 1];
    assert r.objects == chain.0.objects + [end];
    CaptionsSnoc(chain.0.objects, end);
    assert SplitCaptions(p.objects) == [] && FeedbackAttributes(p.objects) == [] by {
      CaptionsSnoc([], p.objects[0]);
      CaptionsSnoc([p.objects[0]], p.objects[1]);
      CaptionsSnoc([p.objects[0], p.objects[1]], p.objects[2]);
      assert [p.objects[0], p.objects[1]] + [p.objects[2]] == p.objects;
    }
  }

  /** The start event (object 1) is the only start and the last object the only end. */
  lemma ValidationMicroflowEvents(moduleName: string, entity: Entity, cfg: Config)
    ensures var r := ValidationMicroflow(moduleName, entity, cfg);
      && (forall j :: 0 <= j < |r.objects| ==> (r.objects[j].kind.StartEvent? <==> j == 1))
      && (forall j :: 0 <= j < |r.objects| ==> (r.objects[j].kind.EndEvent? <==> j == |r.objects| - 1))
  {
    var p := ValidationPrologue(moduleName, entity, cfg);
    PrologueShape(moduleName, entity, cfg);
    var c := ValidationChain(p, entity, entity.attributes, 2, cfg).0;
    var r := ValidationMicroflow(moduleName, entity, cfg);
    ValidationMicroflowIsChainWithEnd(moduleName, entity, cfg);
    ChainCounts(p, entity, entity.attributes, 2, cfg);
    ChainLayout(p, entity, entity.attributes, 2, cfg);
    assert r.objects == c.objects + [r.objects[|r.objects| - 1]];
    forall j | 0 <= j < |r.objects|
      ensures (r.objects[j].kind.StartEvent? <==> j == 1) && (r.objects[j].kind.EndEvent? <==> j == |r.objects| - 1)
    {
      if j < 3 {
        assert r.objects[j] == c.objects[..3][j] == p.objects[j];
      } else if j < |c.objects| {
        assert r.objects[j] == c.objects[j];
      }
    }
  }

  /** Hanging a non-split object from a valid tail keeps the microflow wired and every split branching. */
  lemma HangKeepsWiring(s: BuilderState, obj: MicroflowObject, t: ObjectRef, lo: ObjectRef, k: ObjectRef)
    requires Wired(s, lo, k) && SplitsBranch(s) && ValidTail(s, t, lo) && k <= |s.objects|
    requires !obj.kind.ExclusiveSplit?
    ensures var r := WithObject(s, obj, 100, 0, Some(t), Right, Left, None);
      Wired(r, lo, k) && SplitsBranch(r)
  {
    var r := WithObject(s, obj, 100, 0, Some(t), Right, Left, None);
    var n := |s.objects|;
    var f := NewSequenceFlow(t, n, Right, Left, None);
    assert r.flows == s.flows + [f];
    assert r.objects == s.objects + [r.objects[n]];
    forall j | k <= j < |r.objects|
      ensures HasIncoming(r.flows, j, lo)
    {
      if j < n {
        assert HasIncoming(s.flows, j, lo);
        var i :| 0 <= i < |s.flows| && s.flows[i].destination == j && lo <= s.flows[i].origin < j;
        assert r.flows[i] == s.flows[i];
      } else {
        assert r.flows[|s.flows|] == f;
      }
    }
    forall i | 0 <= i < |r.flows|
      ensures lo <= r.flows[i].origin < |r.objects| && k <= r.flows[i].destination < |r.objects|
    {
      if i < |s.flows| {
        assert r.flows[i] == s.flows[i];
      }
    }
    forall j | 0 <= j < |r.objects| && r.objects[j].kind.ExclusiveSplit?
      ensures SplitAt(r.objects, r.flows, j)
    {
      assert j < n && r.objects[j] == s.objects[j];
      assert SplitAt(s.objects, s.flows, j);
      assert t != j && t != j + 1 && t != j + 2;
      OutgoingSingle(f, j);
      OutgoingSingle(f, j + 1);
      OutgoingSingle(f, j + 2);
      SplitAtKept(s.objects, s.flows, [r.objects[n]], [f], j);
    }
  }

  /**
   * The generated microflow is one control flow: the parameter (object 0) has no
   * flows and nothing enters the start event (object 1); every other object has an
   * incoming flow from an earlier object at index 1 or later, so by induction on the
   * index each is reachable from the start; and every split branches on "false" and
   * "true" and rejoins at its merge.
   */
  lemma ValidationMicroflowWiring(moduleName: string, entity: Entity, cfg: Config)
    ensures var r := ValidationMicroflow(moduleName, entity, cfg);
      Wired(r, 1, 2) && SplitsBranch(r)
  {
    var p := ValidationPrologue(moduleName, entity, cfg);
    PrologueShape(moduleName, entity, cfg);
    assert HasIncoming(p.flows, 2, 1) by { assert p.flows[0].destination == 2; }
    assert Wired(p, 1, 2);
    assert SplitsBranch(p);
    var chain := ValidationChain(p, entity, entity.attributes, 2, cfg);
    ChainKeepsWiring(p, entity, entity.attributes, 2, cfg, 1, 2);
    ValidationMicroflowIsChainWithEnd(moduleName, entity, cfg);
    HangKeepsWiring(chain.0, GenerateEndEvent("$" + cfg.validVariableName), chain.1, 1, 2);
  }

  // ---------------------------------------------------------------------------
  // The builder calls.

  /** `addValidationActivities`: drives the builder through one diamond, or does nothing for an unsupported type. */
  method AddValidationActivities(mf: MicroflowBuilder, entity: Entity, attribute: Attribute, connectFrom: ObjectRef, cfg: Config)
    returns (tail: ObjectRef)
    modifies mf
    ensures (mf.State(), tail) == ValidationActivities(old(mf.State()), entity, attribute, connectFrom, cfg)
  {
    if attribute.typeName !in TypeSplitExpressions {
      return connectFrom;
    }
    var splitExpression := Instantiate(TypeSplitExpressions[attribute.typeName], VariableName(entity, attribute));
    var exclusiveSplit := mf.AddObjectToMicroflow(GenerateExclusiveSplit(splitExpression, attribute.name), 200, 0,
                                                  Some(connectFrom), Right, Left, None);
    var changeVariableActivity := mf.AddObjectToMicroflow(GenerateChangeVariableActivity(cfg.validVariableName, "false"), 0, 100,
                                                          Some(exclusiveSplit), Bottom, Top, Some(GenerateEnumerationCase("false")));
    var feedbackActivity := mf.AddObjectToMicroflow(
      GenerateValidationFeedbackActivity(entity.name, attribute.name, cfg.requiredFieldMessage), 200, 0,
      Some(changeVariableActivity), Right, Left, None);
    var merge := mf.AddObjectToMicroflow(GenerateMerge(), 0, -100, Some(feedbackActivity), Top, Bottom, None);
    mf.AddSequenceFlow(exclusiveSplit, merge, Right, Left, Some(GenerateEnumerationCase("true")));
    tail := merge;
    assert mf.objects == old(mf.objects) + DiamondObjects(entity, attribute, cfg, old(mf.microflowCurrentX), old(mf.microflowCurrentY));
    assert mf.flows == old(mf.flows) + DiamondFlows(connectFrom, |old(mf.objects)|);
  }

  /** The document `createValidationMicroflow` leaves in the working copy. */
  function ValidationDocument(moduleName: string, folderName: string, microflowName: string, entity: Entity, cfg: Config)
    : MicroflowDocument
  {
    var r := ValidationMicroflow(moduleName, entity, cfg);
    MicroflowDocument(moduleName, folderName, microflowName, BooleanType, true, r.objects, r.flows)
  }

  /**
   * `createValidationMicroflow`: builds the validation microflow of `entity` in
   * `folder` and adds it to the working copy; the microflow returns a Boolean.
   */
  method CreateValidationMicroflow(wc: WorkingCopy, microflowName: string, moduleName: string, entity: Entity,
                                   folder: FolderBase, cfg: Config)
    modifies wc
    ensures wc.microflows == old(wc.microflows) + [ValidationDocument(moduleName, folder.name, microflowName, entity, cfg)]
  {
    var mf := new MicroflowBuilder(microflowName, BooleanType);
    mf.AddInputParameter(entity.name, EntityType(moduleName, entity));
    var startEvent := mf.AddObjectToMicroflow(GenerateStartEvent(), 0, 0, None, Right, Left, None);
    var lastActivity := startEvent;
    var createVariableActivity := mf.AddObjectToMicroflow(
      GenerateCreateVariableActivity(BooleanType, cfg.validVariableName, "true"), 100, 0, Some(lastActivity), Right, Left, None);
    lastActivity := createVariableActivity;
    ghost var prologue := mf.State();
    assert prologue == ValidationPrologue(moduleName, entity, cfg);
    for i := 0 to |entity.attributes|
      modifies mf
      invariant (mf.State(), lastActivity) == ValidationChain(prologue, entity, entity.attributes[..i], 2, cfg)
    {
      lastActivity := AddValidationActivities(mf, entity, entity.attributes[i], lastActivity, cfg);
      assert entity.attributes[..i + 1][..i] == entity.attributes[..i];
    }
    assert entity.attributes[..|entity.attributes|] == entity.attributes;
    var endEvent := mf.AddObjectToMicroflow(GenerateEndEvent("$" + cfg.validVariableName), 100, 0, Some(lastActivity),
                                            Right, Left, None);
    wc.AddMicroflow(Document(moduleName, folder.name, mf));
  }

  // ---------------------------------------------------------------------------
  // Which entities get a validation microflow.

  function ModuleNames(modules: seq<ModuleConfig>): (r: seq<string>)
    ensures |r| == |modules| && forall i :: 0 <= i < |modules| ==> r[i] == modules[i].name
  {
    seq(|modules|, i requires 0 <= i < |modules| => modules[i].name)
  }

  /** `getDomainModels`: the domain models of the configured modules, in working-copy order. */
  function SelectDomainModels(all: seq<DomainModel>, cfg: Config): (r: seq<DomainModel>)
    ensures forall i :: 0 <= i < |r| ==> r[i] in all && r[i].containerAsModule.name in ModuleNames(cfg.modules)
    ensures forall i :: 0 <= i < |all| && all[i].containerAsModule.name in ModuleNames(cfg.modules) ==> all[i] in r
    decreases |all|
  {
    if all == [] then []
    else
      var init := all[..|all| - 1];
      var last := all[|all| - 1];
      assert all == init + [last];
      SelectDomainModels(init, cfg) + (if last.containerAsModule.name in ModuleNames(cfg.modules) then [last] else [])
  }

  /** Selecting from a list with one more domain model at the end. */
  lemma SelectDomainModelsSnoc(all: seq<DomainModel>, dm: DomainModel, cfg: Config)
    ensures SelectDomainModels(all + [dm], cfg)
            == SelectDomainModels(all, cfg) + if dm.containerAsModule.name in ModuleNames(cfg.modules) then [dm] else []
  {
    assert (all + [dm])[..|all|] == all;
  }

  /**
   * The selection is a filter: it distributes over concatenation, and keeps a single
   * domain model exactly when its module is configured.
   */
  lemma {:induction false} SelectDomainModelsAppend(a: seq<DomainModel>, b: seq<DomainModel>, cfg: Config)
    ensures SelectDomainModels(a + b, cfg) == SelectDomainModels(a, cfg) + SelectDomainModels(b, cfg)
    ensures forall dm: DomainModel {:trigger SelectDomainModels([dm], cfg)} ::
              SelectDomainModels([dm], cfg) == if dm.containerAsModule.name in ModuleNames(cfg.modules) then [dm] else []
    decreases |b|
  {
    if b == [] {
      assert a + b == a && SelectDomainModels(b, cfg) == [];
    } else {
      var init, last := b[..|b| - 1], b[|b| - 1];
      LastSplit(a, b);
      var kept := if last.containerAsModule.name in ModuleNames(cfg.modules) then [last] else [];
      SelectDomainModelsSnoc(a + init, last, cfg);
      SelectDomainModelsSnoc(init, last, cfg);
      SelectDomainModelsAppend(a, init, cfg);
      var x, y := SelectDomainModels(a, cfg), SelectDomainModels(init, cfg);
      ConcatAssociative(x, y, kept);
    }
    forall dm: DomainModel
      ensures SelectDomainModels([dm], cfg) == if dm.containerAsModule.name in ModuleNames(cfg.modules) then [dm] else []
    {
      SelectDomainModelsSnoc([], dm, cfg);
      assert [] + [dm] == [dm];
    }
  }

  /** `config.app.modules.filter(m => m.name == module.name)[0]`: the first configuration of a module. */
  function ModuleConfigFor(modules: seq<ModuleConfig>, name: string): (r: Option<ModuleConfig>)
    ensures r.Some? <==> name in ModuleNames(modules)
    ensures r.Some? ==> r.value in modules && r.value.name == name
    decreases |modules|
  {
    if modules == [] then None
    else if modules[0].name == name then Some(modules[0])
    else
      assert ModuleNames(modules) == [modules[0].name] + ModuleNames(modules[1..]);
      ModuleConfigFor(modules[1..], name)
  }

  /** Every domain model of the list has a module configuration. */
  predicate AllConfigured(dms: seq<DomainModel>, cfg: Config) {
    forall k :: 0 <= k < |dms| ==> ModuleConfigFor(cfg.modules, dms[k].containerAsModule.name).Some?
  }

  /** Every selected domain model has a module configuration, so the driver may look it up. */
  lemma SelectedModulesAreConfigured(all: seq<DomainModel>, cfg: Config)
    ensures AllConfigured(SelectDomainModels(all, cfg), cfg)
  {
  }

  /**
   * The entities to process: all of them when the module configures no entity names,
   * otherwise those whose name is configured, in domain-model order.
   */
  function EntitiesToProcess(entities: seq<Entity>, configured: seq<string>): (r: seq<Entity>)
    ensures |configured| == 0 ==> r == entities
    ensures |configured| > 0 ==> forall e :: e in r <==> e in entities && e.name in configured
    decreases |entities|
  {
    if |configured| == 0 || entities == [] then entities
    else
      var init := entities[..|entities| - 1];
      var last := entities[|entities| - 1];
      assert entities == init + [last];
      EntitiesToProcess(init, configured) + (if last.name in configured then [last] else [])
  }

  /** Selecting from a list with one more entity at the end, when entity names are configured. */
  lemma EntitiesToProcessSnoc(entities: seq<Entity>, e: Entity, configured: seq<string>)
    requires |configured| > 0
    ensures EntitiesToProcess(entities + [e], configured)
            == EntitiesToProcess(entities, configured) + if e.name in configured then [e] else []
  {
    assert (entities + [e])[..|entities|] == entities;
  }

  /**
   * With entity names configured, the selection is a filter: it distributes over
   * concatenation and keeps a single entity exactly when its name is configured.
   */
  lemma {:induction false} EntitiesToProcessAppend(a: seq<Entity>, b: seq<Entity>, configured: seq<string>)
    requires |configured| > 0
    ensures EntitiesToProcess(a + b, configured) == EntitiesToProcess(a, configured) + EntitiesToProcess(b, configured)
    ensures forall e: Entity {:trigger EntitiesToProcess([e], configured)} ::
              EntitiesToProcess([e], configured) == if e.name in configured then [e] else []
    decreases |b|
  {
    if b == [] {
      assert a + b == a && EntitiesToProcess(b, configured) == [];
    } else {
      var init, last := b[..|b| - 1], b[|b| - 1];
      var kept := if last.name in configured then [last] else [];
      EntitiesToProcessAppend(a, init, configured);
      var x, y := EntitiesToProcess(a, configured), EntitiesToProcess(init, configured);
      LastSplit(a, b);
      EntitiesToProcessSnoc(a + init, last, configured);
      EntitiesToProcessSnoc(init, last, configured);
      ConcatAssociative(x, y, kept);
    }
    forall e: Entity
      ensures EntitiesToProcess([e], configured) == if e.name in configured then [e] else []
    {
      EntitiesToProcessSnoc([], e, configured);
      assert [] + [e] == [e];
    }
  }

  /** One microflow the driver tries to create: `<module>.<prefix><Entity>`. */
  datatype ValidationTarget = ValidationTarget(moduleName: string, microflowName: string, entity: Entity)

  function TargetQualifiedName(t: ValidationTarget): string {
    QualifiedName(t.moduleName, t.microflowName)
  }

  function EntityTargets(moduleName: string, entities: seq<Entity>, cfg: Config): (r: seq<ValidationTarget>)
    ensures |r| == |entities|
    ensures forall i :: 0 <= i < |entities| ==>
              r[i] == ValidationTarget(moduleName, cfg.validationMicroflowPrefix + entities[i].name, entities[i])
  {
    seq(|entities|, i requires 0 <= i < |entities| =>
          ValidationTarget(moduleName, cfg.validationMicroflowPrefix + entities[i].name, entities[i]))
  }

  lemma EntityTargetsSnoc(moduleName: string, entities: seq<Entity>, j: nat, cfg: Config)
    requires j < |entities|
    ensures EntityTargets(moduleName, entities[..j + 1], cfg)
              == EntityTargets(moduleName, entities[..j], cfg)
                 + [ValidationTarget(moduleName, cfg.validationMicroflowPrefix + entities[j].name, entities[j])]
  {
  }

  function DomainModelTargets(dm: DomainModel, cfg: Config): seq<ValidationTarget>
    requires ModuleConfigFor(cfg.modules, dm.containerAsModule.name).Some?
  {
    var moduleConfig := ModuleConfigFor(cfg.modules, dm.containerAsModule.name).value;
    EntityTargets(dm.containerAsModule.name, EntitiesToProcess(dm.entities, moduleConfig.entities), cfg)
  }

  /** The candidates of a run, domain model by domain model, entity by entity. */
  function Targets(dms: seq<DomainModel>, cfg: Config): seq<ValidationTarget>
    requires AllConfigured(dms, cfg)
    decreases |dms|
  {
    if dms == [] then []
    else Targets(dms[..|dms| - 1], cfg) + DomainModelTargets(dms[|dms| - 1], cfg)
  }

  /** The document the driver creates for a target. */
  function TargetDocument(t: ValidationTarget, cfg: Config): MicroflowDocument {
    ValidationDocument(t.moduleName, cfg.folderName, t.microflowName, t.entity, cfg)
  }

  /** `TargetDocument` with the configuration fixed, as the guarded run takes it. */
  function TargetDocuments(cfg: Config): ValidationTarget -> MicroflowDocument {
    t => TargetDocument(t, cfg)
  }

  lemma TargetDocumentNamed(cfg: Config)
    ensures forall t :: DocumentQualifiedName(TargetDocuments(cfg)(t)) == TargetQualifiedName(t)
  {
  }

  lemma TargetsSnoc(dms: seq<DomainModel>, i: nat, cfg: Config)
    requires i < |dms|
    requires AllConfigured(dms, cfg)
    ensures AllConfigured(dms[..i], cfg) && AllConfigured(dms[..i + 1], cfg)
    ensures Targets(dms[..i + 1], cfg) == Targets(dms[..i], cfg) + DomainModelTargets(dms[i], cfg)
  {
    assert dms[..i + 1][..i] == dms[..i];
  }

  // ---------------------------------------------------------------------------
  // The driver.

  /** The modules of a list of domain models, the objects whose folders the driver may change. */
  function ModuleBases(dms: seq<DomainModel>): (r: set<FolderBase>)
    ensures forall k :: 0 <= k < |dms| ==> dms[k].containerAsModule in r
  {
    set k | 0 <= k < |dms| :: dms[k].containerAsModule
  }

  lemma SelectedModuleBases(all: seq<DomainModel>, cfg: Config)
    ensures ModuleBases(SelectDomainModels(all, cfg)) <= ModuleBases(all)
  {
    var r := SelectDomainModels(all, cfg);
    forall b | b in ModuleBases(r)
      ensures b in ModuleBases(all)
    {
      var k :| 0 <= k < |r| && r[k].containerAsModule == b;
      var j :| 0 <= j < |all| && all[j] == r[k];
    }
  }

  /** One entity of the entity loop as one step of the guarded run: skipped when its name exists, else its document is appended. */
  lemma EntityStep(docs: seq<MicroflowDocument>, done: seq<ValidationTarget>, moduleName: string, entities: seq<Entity>,
                   j: nat, cfg: Config)
    requires j < |entities|
    ensures var existing := QualifiedNames(docs);
      var current := docs + Documents(Created(existing, done + EntityTargets(moduleName, entities[..j], cfg), TargetQualifiedName),
                                      TargetDocuments(cfg));
      var next := docs + Documents(Created(existing, done + EntityTargets(moduleName, entities[..j + 1], cfg), TargetQualifiedName),
                                   TargetDocuments(cfg));
      var microflowName := cfg.validationMicroflowPrefix + entities[j].name;
      && (QualifiedName(moduleName, microflowName) in QualifiedNames(current) ==> next == current)
      && (QualifiedName(moduleName, microflowName) !in QualifiedNames(current) ==>
            next == current + [ValidationDocument(moduleName, cfg.folderName, microflowName, entities[j], cfg)])
  {
    TargetDocumentNamed(cfg);
    var candidates := done + EntityTargets(moduleName, entities[..j], cfg);
    var target := ValidationTarget(moduleName, cfg.validationMicroflowPrefix + entities[j].name, entities[j]);
    EntityTargetsSnoc(moduleName, entities, j, cfg);
    AppendAssociative(done, EntityTargets(moduleName, entities[..j], cfg), target);
    GuardedRunStep(docs, candidates, target, TargetQualifiedName, TargetDocuments(cfg));
  }

  /**
   * The entity loop of `createMicroflows` for one module: creates `<prefix><Entity>` in
   * `folder` for each entity unless a microflow of that qualified name exists,
   * continuing a guarded run that started from the working copy `docs`.
   */
  method CreateModuleMicroflows(wc: WorkingCopy, moduleName: string, folder: FolderBase, entities: seq<Entity>, cfg: Config,
                                ghost docs: seq<MicroflowDocument>, ghost done: seq<ValidationTarget>)
    requires folder.name == cfg.folderName
    requires wc.microflows == docs + Documents(Created(QualifiedNames(docs), done, TargetQualifiedName), TargetDocuments(cfg))
    modifies wc
    ensures wc.microflows == docs + Documents(Created(QualifiedNames(docs), done + EntityTargets(moduleName, entities, cfg),
                                                      TargetQualifiedName), TargetDocuments(cfg))
  {
    assert done + EntityTargets(moduleName, entities[..0], cfg) == done;
    for j := 0 to |entities|
      invariant wc.microflows == docs + Documents(Created(QualifiedNames(docs), done + EntityTargets(moduleName, entities[..j], cfg),
                                                          TargetQualifiedName), TargetDocuments(cfg))
    {
      var entity := entities[j];
      var microflowName := cfg.validationMicroflowPrefix + entity.name;
      EntityStep(docs, done, moduleName, entities, j, cfg);
      var mf := wc.FindMicroflowByQualifiedName(QualifiedName(moduleName, microflowName));
      if mf.None? {
        CreateValidationMicroflow(wc, microflowName, moduleName, entity, folder, cfg);
      }
    }
    assert entities[..|entities|] == entities;
  }

  /**
   * The body of `createMicroflows` for one domain model: finds or creates the
   * validation folder in its module (leaving the module's folders alone when it is
   * already there), then runs the entity loop for the entities to process.
   */
  method CreateDomainModelMicroflows(wc: WorkingCopy, dm: DomainModel, cfg: Config,
                                     ghost docs: seq<MicroflowDocument>, ghost done: seq<ValidationTarget>)
    requires ModuleConfigFor(cfg.modules, dm.containerAsModule.name).Some?
    requires wc.microflows == docs + Documents(Created(QualifiedNames(docs), done, TargetQualifiedName), TargetDocuments(cfg))
    modifies wc, dm.containerAsModule
    ensures wc.microflows == docs + Documents(Created(QualifiedNames(docs), done + DomainModelTargets(dm, cfg), TargetQualifiedName),
                                              TargetDocuments(cfg))
    ensures HasFolder(dm.containerAsModule, cfg.folderName)
    ensures FoundOrAdded(old(dm.containerAsModule.folders), dm.containerAsModule.folders, cfg.folderName)
  {
    var moduleBase := dm.containerAsModule;
    var folder := CreateFolder(moduleBase, cfg.folderName);
    var moduleConfig := ModuleConfigFor(cfg.modules, moduleBase.name).value;
    var entities := EntitiesToProcess(dm.entities, moduleConfig.entities);
    CreateModuleMicroflows(wc, moduleBase.name, folder, entities, cfg, docs, done);
  }

  /**
   * `createMicroflows`: runs the per-domain-model body for each domain model in turn.
   * The working copy gains exactly the documents of the guarded run over all
   * candidates, and every module has gained the validation folder, once, unless it had
   * one already.
   */
  method CreateMicroflows(wc: WorkingCopy, domainModels: seq<DomainModel>, cfg: Config)
    requires AllConfigured(domainModels, cfg)
    modifies wc, ModuleBases(domainModels)
    ensures wc.microflows == old(wc.microflows)
              + Documents(Created(QualifiedNames(old(wc.microflows)), Targets(domainModels, cfg), TargetQualifiedName),
                          TargetDocuments(cfg))
    ensures forall k :: 0 <= k < |domainModels| ==>
              var moduleBase := domainModels[k].containerAsModule;
              HasFolder(moduleBase, cfg.folderName) && FoundOrAdded(old(moduleBase.folders), moduleBase.folders, cfg.folderName)
  {
    assert Targets(domainModels[..0], cfg) == [];
    for i := 0 to |domainModels|
      invariant wc.microflows == old(wc.microflows)
                  + Documents(Created(QualifiedNames(old(wc.microflows)), Targets(domainModels[..i], cfg), TargetQualifiedName),
                              TargetDocuments(cfg))
      invariant forall k :: 0 <= k < |domainModels| ==>
                  var moduleBase := domainModels[k].containerAsModule;
                  moduleBase.folders == old(moduleBase.folders)
                  || FoundOrAdded(old(moduleBase.folders), moduleBase.folders, cfg.folderName)
      invariant forall k :: 0 <= k < i ==>
                  var moduleBase := domainModels[k].containerAsModule;
                  FoundOrAdded(old(moduleBase.folders), moduleBase.folders, cfg.folderName)
    {
      TargetsSnoc(domainModels, i, cfg);
      label Before:
      CreateDomainModelMicroflows(wc, domainModels[i], cfg, old(wc.microflows), Targets(domainModels[..i], cfg));
      forall k | 0 <= k < |domainModels|
        ensures var moduleBase := domainModels[k].containerAsModule;
          && (moduleBase.folders == old(moduleBase.folders)
              || FoundOrAdded(old(moduleBase.folders), moduleBase.folders, cfg.folderName))
          && (k <= i ==> FoundOrAdded(old(moduleBase.folders), moduleBase.folders, cfg.folderName))
      {
        var moduleBase := domainModels[k].containerAsModule;
        if moduleBase == domainModels[i].containerAsModule {
          if old@Before(moduleBase.folders) != old(moduleBase.folders) {
            FoundOrAddedTwice(old(moduleBase.folders), old@Before(moduleBase.folders), moduleBase.folders, cfg.folderName);
          }
        } else {
          assert moduleBase.folders == old@Before(moduleBase.folders);
        }
      }
    }
    forall k | 0 <= k < |domainModels|
      ensures HasFolder(domainModels[k].containerAsModule, cfg.folderName)
    {
      var moduleBase := domainModels[k].containerAsModule;
      FoundOrAddedTwice(old(moduleBase.folders), moduleBase.folders, moduleBase.folders, cfg.folderName);
    }
    assert domainModels[..|domainModels|] == domainModels;
  }

  /**
   * `execute`: selects the configured modules' domain models, creates their validation
   * microflows, and commits; the commit happens whether or not anything was created.
   */
  method Execute(wc: WorkingCopy, allDomainModels: seq<DomainModel>, cfg: Config) returns (committed: bool)
    modifies wc, ModuleBases(allDomainModels)
    ensures committed
    ensures var dms := SelectDomainModels(allDomainModels, cfg);
      wc.microflows == old(wc.microflows)
        + Documents(Created(QualifiedNames(old(wc.microflows)), Targets(dms, cfg), TargetQualifiedName), TargetDocuments(cfg))
    ensures forall k :: 0 <= k < |allDomainModels| ==>
              var moduleBase := allDomainModels[k].containerAsModule;
              && (moduleBase.name in ModuleNames(cfg.modules) ==>
                    HasFolder(moduleBase, cfg.folderName)
                    && FoundOrAdded(old(moduleBase.folders), moduleBase.folders, cfg.folderName))
              && (moduleBase.name !in ModuleNames(cfg.modules) ==> moduleBase.folders == old(moduleBase.folders))
  {
    var domainModels := SelectDomainModels(allDomainModels, cfg);
    SelectedModulesAreConfigured(allDomainModels, cfg);
    SelectedModuleBases(allDomainModels, cfg);
    CreateMicroflows(wc, domainModels, cfg);
    committed := true;
    forall k | 0 <= k < |allDomainModels| && allDomainModels[k].containerAsModule.name in ModuleNames(cfg.modules)
      ensures var moduleBase := allDomainModels[k].containerAsModule;
        HasFolder(moduleBase, cfg.folderName) && FoundOrAdded(old(moduleBase.folders), moduleBase.folders, cfg.folderName)
    {
      var j :| 0 <= j < |domainModels| && domainModels[j] == allDomainModels[k];
    }
  }
}
