/**
 * The microflow builder of src/mendix-component-creators/Microflow.ts: a microflow
 * under construction with an append-only object collection, an append-only list of
 * sequence flows, one layout cursor for the main flow and one for input parameters.
 *
 * `BuilderState` is the abstract value of a builder; the pure functions
 * `WithInputParameter`, `WithObject` and `WithSequenceFlow` give the state after one
 * builder call, and the class methods are proved to produce exactly that state.
 */
module Microflow {
  import opened Wrappers
  import opened MendixModel

  /** How far each input parameter is placed from the previous one. */
  const InputParameterXOffset: int := 100
  const InputParameterYOffset: int := 0

  /** The abstract value of a builder. */
  datatype BuilderState = BuilderState(
    objects: seq<MicroflowObject>,
    flows: seq<SequenceFlow>,
    inputParameterCurrentX: int,
    inputParameterCurrentY: int,
    microflowCurrentX: int,
    microflowCurrentY: int)

  /** A fresh builder: no objects or flows, parameter cursor at (-100, 0), main cursor at (0, 100). */
  const InitialState: BuilderState := BuilderState([], [], -100, 0, 0, 100)

  /** The point a newly created SDK object starts at, before the builder places it. */
  const Unplaced: Point := Point(0, 0)

  // ---------------------------------------------------------------------------
  // The generate* factories: fresh, unconnected objects.

  function GenerateStartEvent(): MicroflowObject {
    MicroflowObject(StartEvent, Unplaced, Some(Size(20, 20)))
  }

  function GenerateEndEvent(returnValue: string): MicroflowObject {
    MicroflowObject(EndEvent(returnValue), Unplaced, Some(Size(20, 20)))
  }

  /** An activity with the SDK's default background colour. */
  function GenerateActivity(action: Action): MicroflowObject {
    MicroflowObject(ActionActivity(action, Default), Unplaced, None)
  }

  function GenerateCreateVariableActivity(variableType: DataType, variableName: string, initialValue: string): MicroflowObject {
    GenerateActivity(CreateVariableAction(variableType, variableName, initialValue))
  }

  function GenerateChangeVariableActivity(variableName: string, variableValue: string): MicroflowObject {
    GenerateActivity(ChangeVariableAction(variableName, variableValue))
  }

  /** `generateExcusiveSplit` (sic): an exclusive split on an expression, with a caption. */
  function GenerateExclusiveSplit(splitExpression: string, caption: string): MicroflowObject {
    MicroflowObject(ExclusiveSplit(splitExpression, caption), Unplaced, None)
  }

  function GenerateMerge(): MicroflowObject {
    MicroflowObject(ExclusiveMerge, Unplaced, None)
  }

  function GenerateEnumerationCase(caseValue: string): CaseValue {
    EnumerationCase(caseValue)
  }

  /** Validation feedback on `attributeName` of the object variable named after the entity. */
  function GenerateValidationFeedbackActivity(entityName: string, attributeName: string, message: string): MicroflowObject {
    GenerateActivity(ValidationFeedbackAction(entityName, attributeName, message))
  }

  /**
   * The callers also use `generateJavaAction`, `generateLogMessage` and
   * `generatePageOpenCall`, which the class does not define; these three build an
   * activity carrying the arguments the callers pass.
   */
  function GenerateJavaAction(javaAction: string, useReturnVariable: bool, outputVariableName: string): MicroflowObject {
    GenerateActivity(JavaActionCallAction(javaAction, useReturnVariable, outputVariableName))
  }

  function GenerateLogMessage(message: string): MicroflowObject {
    GenerateActivity(LogMessageAction(message))
  }

  function GeneratePageOpenCall(pageName: string, pageParameter: Option<string>): MicroflowObject {
    GenerateActivity(ShowPageAction(pageName, pageParameter))
  }

  // ---------------------------------------------------------------------------
  // The state after one builder call.

  /** The flow `addSequenceFlow` creates. */
  function NewSequenceFlow(origin: ObjectRef, destination: ObjectRef, from: ConnectorPosition, to: ConnectorPosition,
                           caseValue: Option<CaseValue>): SequenceFlow
  {
    SequenceFlow(origin, destination, ConnectorIndex(from), ConnectorIndex(to),
                 Size(0, 0), Size(0, 0), caseValue.GetOr(NoCase))
  }

  function WithInputParameter(s: BuilderState, parameterName: string, variableType: DataType): BuilderState {
    var x := s.inputParameterCurrentX + InputParameterXOffset;
    var y := s.inputParameterCurrentY + InputParameterYOffset;
    var parameter := MicroflowObject(ParameterObject(parameterName, variableType), Point(x, y), Some(Size(30, 30)));
    s.(objects := s.objects + [parameter], inputParameterCurrentX := x, inputParameterCurrentY := y)
  }

  function WithSequenceFlow(s: BuilderState, origin: ObjectRef, destination: ObjectRef,
                            from: ConnectorPosition, to: ConnectorPosition, caseValue: Option<CaseValue>): BuilderState
  {
    s.(flows := s.flows + [NewSequenceFlow(origin, destination, from, to, caseValue)])
  }

  /** `addObjectToMicroflow`; the added object's reference is `|s.objects|`. */
  function WithObject(s: BuilderState, obj: MicroflowObject, xOffset: int, yOffset: int, connectFrom: Option<ObjectRef>,
                      from: ConnectorPosition, to: ConnectorPosition, caseValue: Option<CaseValue>): BuilderState
  {
    var x := s.microflowCurrentX + xOffset;
    var y := s.microflowCurrentY + yOffset;
    var placed := s.(objects := s.objects + [obj.(relativeMiddlePoint := Point(x, y))],
                     microflowCurrentX := x, microflowCurrentY := y);
    match connectFrom
    case None => placed
    case Some(origin) => WithSequenceFlow(placed, origin, |s.objects|, from, to, caseValue)
  }

  // ---------------------------------------------------------------------------
  // The builder object.

  class MicroflowBuilder {
    const name: string
    const microflowReturnType: DataType
    const allowConcurrentExecution: bool

    var objects: seq<MicroflowObject>
    var flows: seq<SequenceFlow>
    var inputParameterCurrentX: int
    var inputParameterCurrentY: int
    var microflowCurrentX: int
    var microflowCurrentY: int

    ghost function State(): BuilderState
      reads this
    {
      BuilderState(objects, flows, inputParameterCurrentX, inputParameterCurrentY, microflowCurrentX, microflowCurrentY)
    }

    constructor (name: string, returnType: DataType)
      ensures this.name == name && microflowReturnType == returnType && allowConcurrentExecution
      ensures objects == [] && flows == []
      ensures inputParameterCurrentX == -100 && inputParameterCurrentY == 0
      ensures microflowCurrentX == 0 && microflowCurrentY == 100
      ensures State() == InitialState
    {
      this.name := name;
      microflowReturnType := returnType;
      allowConcurrentExecution := true;
      objects, flows := [], [];
      inputParameterCurrentX, inputParameterCurrentY := -100, 0;
      microflowCurrentX, microflowCurrentY := 0, 100;
    }

    /** Places a 30x30 parameter one step right of the previous one; the main cursor and the flows do not move. */
    method AddInputParameter(parameterName: string, variableType: DataType)
      modifies this
      ensures inputParameterCurrentX == old(inputParameterCurrentX) + InputParameterXOffset
      ensures inputParameterCurrentY == old(inputParameterCurrentY) + InputParameterYOffset
      ensures objects == old(objects) + [MicroflowObject(ParameterObject(parameterName, variableType),
                                                         Point(inputParameterCurrentX, inputParameterCurrentY),
                                                         Some(Size(30, 30)))]
      ensures flows == old(flows)
      ensures microflowCurrentX == old(microflowCurrentX) && microflowCurrentY == old(microflowCurrentY)
      ensures State() == WithInputParameter(old(State()), parameterName, variableType)
    {
      inputParameterCurrentX := inputParameterCurrentX + InputParameterXOffset;
      inputParameterCurrentY := inputParameterCurrentY + InputParameterYOffset;
      var parameter := MicroflowObject(ParameterObject(parameterName, variableType),
                                       Point(inputParameterCurrentX, inputParameterCurrentY), Some(Size(30, 30)));
      objects := objects + [parameter];
    }

    /**
     * Appends `objectToAdd`, moves the main cursor by the offsets and stamps the new
     * cursor on the object; wires one flow from `connectFrom` when there is one.
     */
    method AddObjectToMicroflow(objectToAdd: MicroflowObject, xOffset: int, yOffset: int, connectFrom: Option<ObjectRef>,
                                from: ConnectorPosition, to: ConnectorPosition, caseValue: Option<CaseValue>)
      returns (added: ObjectRef)
      modifies this
      ensures added == |old(objects)|
      ensures microflowCurrentX == old(microflowCurrentX) + xOffset
      ensures microflowCurrentY == old(microflowCurrentY) + yOffset
      ensures objects == old(objects) + [objectToAdd.(relativeMiddlePoint := Point(microflowCurrentX, microflowCurrentY))]
      ensures connectFrom.None? ==> flows == old(flows)
      ensures connectFrom.Some? ==> flows == old(flows) + [NewSequenceFlow(connectFrom.value, added, from, to, caseValue)]
      ensures inputParameterCurrentX == old(inputParameterCurrentX) && inputParameterCurrentY == old(inputParameterCurrentY)
      ensures State() == WithObject(old(State()), objectToAdd, xOffset, yOffset, connectFrom, from, to, caseValue)
    {
      added := |objects|;
      microflowCurrentX := microflowCurrentX + xOffset;
      microflowCurrentY := microflowCurrentY + yOffset;
      objects := objects + [objectToAdd.(relativeMiddlePoint := Point(microflowCurrentX, microflowCurrentY))];
      if connectFrom.Some? {
        AddSequenceFlow(connectFrom.value, added, from, to, caseValue);
      }
    }

    /** Appends one flow; never merges it with an existing one. */
    method AddSequenceFlow(origin: ObjectRef, destination: ObjectRef, from: ConnectorPosition, to: ConnectorPosition,
                           caseValue: Option<CaseValue>)
      modifies this
      ensures flows == old(flows) + [SequenceFlow(origin, destination, ConnectorIndex(from), ConnectorIndex(to),
                                                  Size(0, 0), Size(0, 0), caseValue.GetOr(NoCase))]
      ensures objects == old(objects)
      ensures inputParameterCurrentX == old(inputParameterCurrentX) && inputParameterCurrentY == old(inputParameterCurrentY)
      ensures microflowCurrentX == old(microflowCurrentX) && microflowCurrentY == old(microflowCurrentY)
      ensures State() == WithSequenceFlow(old(State()), origin, destination, from, to, caseValue)
    {
      flows := flows + [NewSequenceFlow(origin, destination, from, to, caseValue)];
    }
  }

  // ---------------------------------------------------------------------------
  // Properties of successive builder calls.

  /** One object placement: what `addObjectToMicroflow` is given, without wiring. */
  datatype Placement = Placement(obj: MicroflowObject, xOffset: int, yOffset: int)

  /** The state after placing each object in turn, without flows. */
  function PlaceAll(s: BuilderState, ps: seq<Placement>): BuilderState
    decreases |ps|
  {
    if ps == [] then s
    else
      var last := ps[|ps| - 1];
      WithObject(PlaceAll(s, ps[..|ps| - 1]), last.obj, last.xOffset, last.yOffset, None, Right, Left, None)
  }

  /** Sum of the x offsets of a run of placements. */
  function SumX(ps: seq<Placement>): int
    decreases |ps|
  {
    if ps == [] then 0 else SumX(ps[..|ps| - 1]) + ps[|ps| - 1].xOffset
  }

  /**
   * Placing k objects appends exactly k objects, leaves the flows alone, and the j-th
   * placed object sits at the old cursor plus the first j+1 offsets.
   */
  lemma {:induction false} PlaceAllPositions(s: BuilderState, ps: seq<Placement>)
    ensures var r := PlaceAll(s, ps);
      && |r.objects| == |s.objects| + |ps|
      && r.objects[..|s.objects|] == s.objects
      && r.flows == s.flows
      && r.microflowCurrentX == s.microflowCurrentX + SumX(ps)
      && (forall j :: |s.objects| <= j < |r.objects| ==>
            r.objects[j].relativeMiddlePoint.x == s.microflowCurrentX + SumX(ps[..j - |s.objects| + 1]))
  {
    if ps != [] {
      var init := ps[..|ps| - 1];
      PlaceAllPositions(s, init);
      var r0 := PlaceAll(s, init);
      var r := PlaceAll(s, ps);
      assert r.objects == r0.objects + [ps[|ps| - 1].obj.(relativeMiddlePoint := Point(r.microflowCurrentX, r.microflowCurrentY))];
      forall j | |s.objects| <= j < |r.objects|
        ensures r.objects[j].relativeMiddlePoint.x == s.microflowCurrentX + SumX(ps[..j - |s.objects| + 1])
      {
        var k := j - |s.objects|;
        if k < |ps| - 1 {
          assert ps[..k + 1] == init[..k + 1];
        } else {
          assert ps[..k + 1] == ps;
        }
      }
    }
  }

  lemma {:induction false} SumXPrefixIncreasing(ps: seq<Placement>, i: nat, j: nat)
    requires i < j <= |ps|
    requires forall k :: 0 <= k < |ps| ==> ps[k].xOffset > 0
    ensures SumX(ps[..i]) < SumX(ps[..j])
  {
    assert ps[..j][..j - 1] == ps[..j - 1];
    if i < j - 1 {
      SumXPrefixIncreasing(ps, i, j - 1);
    }
  }

  /** Layout monotonicity: with positive x offsets, successive objects get strictly increasing x. */
  lemma PositiveOffsetsIncreaseX(s: BuilderState, ps: seq<Placement>, i: nat, j: nat)
    requires i < j < |ps|
    requires forall k :: 0 <= k < |ps| ==> ps[k].xOffset > 0
    ensures |PlaceAll(s, ps).objects| == |s.objects| + |ps|
    ensures PlaceAll(s, ps).objects[|s.objects| + i].relativeMiddlePoint.x
          < PlaceAll(s, ps).objects[|s.objects| + j].relativeMiddlePoint.x
  {
    PlaceAllPositions(s, ps);
    SumXPrefixIncreasing(ps, i + 1, j + 1);
  }

  /** The state after adding input parameters in turn. */
  function AddParameters(s: BuilderState, names: seq<string>, t: DataType): BuilderState
    decreases |names|
  {
    if names == [] then s
    else WithInputParameter(AddParameters(s, names[..|names| - 1], t), names[|names| - 1], t)
  }

  /**
   * On a fresh builder, the k-th input parameter (counting from 1) sits at
   * (100 * (k - 1), 0), is 30x30 and carries its name; parameters touch neither the
   * main cursor nor the flows.
   */
  lemma {:induction false} KthInputParameter(names: seq<string>, t: DataType)
    ensures var r := AddParameters(InitialState, names, t);
      && |r.objects| == |names|
      && r.flows == []
      && r.microflowCurrentX == 0 && r.microflowCurrentY == 100
      && r.inputParameterCurrentX == 100 * |names| - 100
      && (forall k :: 0 <= k < |names| ==>
            r.objects[k] == MicroflowObject(ParameterObject(names[k], t), Point(100 * k, 0), Some(Size(30, 30))))
  {
    if names != [] {
      var init := names[..|names| - 1];
      KthInputParameter(init, t);
      var r0 := AddParameters(InitialState, init, t);
      var r := AddParameters(InitialState, names, t);
      assert r.objects == r0.objects + [MicroflowObject(ParameterObject(names[|names| - 1], t),
                                                        Point(100 * (|names| - 1), 0), Some(Size(30, 30)))];
      forall k | 0 <= k < |names|
        ensures r.objects[k] == MicroflowObject(ParameterObject(names[k], t), Point(100 * k, 0), Some(Size(30, 30)))
      {
        if k < |names| - 1 {
          assert r.objects[k] == r0.objects[k];
          assert init[k] == names[k];
        }
      }
    }
  }

  /** A flow is added exactly when there is an object to connect from, and it ends at the new object. */
  lemma WithObjectWiresIffConnected(s: BuilderState, obj: MicroflowObject, dx: int, dy: int, connectFrom: Option<ObjectRef>,
                                    from: ConnectorPosition, to: ConnectorPosition, caseValue: Option<CaseValue>)
    ensures var r := WithObject(s, obj, dx, dy, connectFrom, from, to, caseValue);
      && r.objects == s.objects + [obj.(relativeMiddlePoint := Point(s.microflowCurrentX + dx, s.microflowCurrentY + dy))]
      && (connectFrom.None? <==> r.flows == s.flows)
      && (connectFrom.Some? ==>
            r.flows == s.flows + [SequenceFlow(connectFrom.value, |s.objects|, ConnectorIndex(from), ConnectorIndex(to),
                                               Size(0, 0), Size(0, 0), caseValue.GetOr(NoCase))])
  {
    var r := WithObject(s, obj, dx, dy, connectFrom, from, to, caseValue);
    if connectFrom.Some? {
      assert |r.flows| == |s.flows| + 1;
    }
  }

  /** No de-duplication: two identical `addSequenceFlow` calls add two identical flows. */
  lemma SequenceFlowsNotDeduplicated(s: BuilderState, origin: ObjectRef, destination: ObjectRef,
                                     from: ConnectorPosition, to: ConnectorPosition, caseValue: Option<CaseValue>)
    ensures var r := WithSequenceFlow(WithSequenceFlow(s, origin, destination, from, to, caseValue),
                                      origin, destination, from, to, caseValue);
      && |r.flows| == |s.flows| + 2
      && r.flows[|s.flows|] == r.flows[|s.flows| + 1]
      && r.objects == s.objects
  {
  }
}
