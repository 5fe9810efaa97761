/**
 * The parts of the Mendix model that the scripts read and write, as plain values:
 * data types, actions, activity colours, microflow objects and sequence flows.
 * SDK objects are references in the source; here an object of a microflow is
 * identified by its index in the microflow's object collection (`ObjectRef`).
 */
module MendixModel {
  import opened Wrappers

  datatype Point = Point(x: int, y: int)
  datatype Size = Size(width: int, height: int)

  /** Connector sides of a microflow object; the SDK stores them as indices. */
  datatype ConnectorPosition = Top | Right | Bottom | Left

  /** The members of the enum in the order they are declared. */
  const DeclaredConnectors: seq<ConnectorPosition> := [Top, Right, Bottom, Left]

  /**
   * The numeric value of the enum member. TypeScript numbers the members of an enum
   * without initialisers from 0 in declaration order: Top = 0, Right = 1, Bottom = 2,
   * Left = 3.
   */
  function ConnectorIndex(p: ConnectorPosition): (i: nat)
    ensures i < |DeclaredConnectors| && DeclaredConnectors[i] == p
  {
    match p
    case Top => 0
    case Right => 1
    case Bottom => 2
    case Left => 3
  }

  /** Reverse lookup of the enum, as TypeScript's `ConnectorPosition[i]` does. */
  function ConnectorAt(i: int): (p: Option<ConnectorPosition>)
    ensures p.Some? <==> 0 <= i < 4
  {
    if i == 0 then Some(Top)
    else if i == 1 then Some(Right)
    else if i == 2 then Some(Bottom)
    else if i == 3 then Some(Left)
    else None
  }

  /** The enum's indices and members are in one-to-one correspondence. */
  lemma ConnectorIndexRoundTrip(p: ConnectorPosition, i: int)
    ensures ConnectorAt(ConnectorIndex(p)) == Some(p)
    ensures ConnectorAt(i).Some? ==> ConnectorIndex(ConnectorAt(i).value) == i
  {
  }

  /** Data types of variables, parameters and microflow return values. */
  datatype DataType =
    | BooleanType
    | ObjectType(entity: string)        // the entity's qualified name
    | OtherDataType(structureTypeName: string)

  /** The action carried by an action activity. */
  datatype Action =
    | CreateVariableAction(variableType: DataType, variableName: string, initialValue: string)
    | ChangeVariableAction(changeVariableName: string, value: string)
    | ValidationFeedbackAction(objectVariableName: string, attributeName: string, feedbackMessage: string)
    | JavaActionCallAction(javaAction: string, useReturnVariable: bool, outputVariableName: string)
    | LogMessageAction(message: string)
    | ShowPageAction(pageName: string, pageParameter: Option<string>)
    | ChangeListAction
    | DeleteAction
    | MicroflowCallAction
    | OtherAction(structureTypeName: string)

  /** The values of the SDK's `ActionActivityColor` enumeration. */
  datatype ActivityColour = Default | Red | Orange | Yellow | Green | Blue | Purple | Gray

  /** The kinds of object a microflow's object collection holds, with their payload. */
  datatype ObjectKind =
    | StartEvent
    | EndEvent(returnValue: string)
    | ActionActivity(action: Action, backgroundColor: ActivityColour)
    | ExclusiveSplit(expression: string, caption: string)
    | ExclusiveMerge
    | ParameterObject(name: string, variableType: DataType)
    | OtherObject(structureTypeName: string)
  {
    /** The SDK's `structureTypeName` of an object of this kind. */
    function StructureTypeName(): string {
      match this
      case StartEvent => "Microflows$StartEvent"
      case EndEvent(_) => "Microflows$EndEvent"
      case ActionActivity(_, _) => "Microflows$ActionActivity"
      case ExclusiveSplit(_, _) => "Microflows$ExclusiveSplit"
      case ExclusiveMerge => "Microflows$ExclusiveMerge"
      case ParameterObject(_, _) => "Microflows$MicroflowParameterObject"
      case OtherObject(t) => t
    }
  }

  /**
   * A microflow object: its kind, its `relativeMiddlePoint` and its `size`
   * (None when the script leaves the SDK's default size in place).
   */
  datatype MicroflowObject = MicroflowObject(kind: ObjectKind, relativeMiddlePoint: Point, size: Option<Size>)

  /** Index of an object in its microflow's object collection. */
  type ObjectRef = nat

  /** The case value of a sequence flow. */
  datatype CaseValue = NoCase | EnumerationCase(value: string)

  datatype SequenceFlow = SequenceFlow(
    origin: ObjectRef,
    destination: ObjectRef,
    originConnectionIndex: nat,
    destinationConnectionIndex: nat,
    originBezierVector: Size,
    destinationBezierVector: Size,
    caseValue: CaseValue)
}
