/**
 * src/MicroflowActivityColours.ts and its copy script3.ts: every action activity of
 * every microflow is recoloured by the kind of its action, in place; a counter records
 * the activities of the five coloured kinds whose colour actually changed, and the
 * working copy is committed only when that counter is positive.
 */
module MicroflowActivityColours {
  import opened MendixModel

  /** The five action kinds with a colour of their own; their recolouring is counted. */
  predicate Coloured(action: Action) {
    action.CreateVariableAction? || action.ChangeListAction? || action.DeleteAction?
    || action.MicroflowCallAction? || action.LogMessageAction?
  }

  /**
   * The colour an activity gets from its action: create variable yellow, change list
   * blue, delete red, microflow call green, log message gray, anything else (change
   * variable included) the default colour.
   */
  function ColourFor(action: Action): (r: ActivityColour)
    ensures r != Default <==> Coloured(action)
    ensures r == Yellow <==> action.CreateVariableAction?
    ensures r == Blue <==> action.ChangeListAction?
    ensures r == Red <==> action.DeleteAction?
    ensures r == Green <==> action.MicroflowCallAction?
    ensures r == Gray <==> action.LogMessageAction?
  {
    match action
    case CreateVariableAction(_, _, _) => Yellow
    case ChangeListAction => Blue
    case DeleteAction => Red
    case MicroflowCallAction => Green
    case LogMessageAction(_) => Gray
    case _ => Default
  }

  /** What the pass leaves of one object: an action activity gets its action's colour, anything else is untouched. */
  function Recolour(o: MicroflowObject): MicroflowObject {
    match o.kind
    case ActionActivity(action, _) => o.(kind := ActionActivity(action, ColourFor(action)))
    case _ => o
  }

  /** What the pass adds to the counter for one object: 1 for a coloured activity of another colour, else 0. */
  function Change(o: MicroflowObject): nat {
    match o.kind
    case ActionActivity(action, colour) => if Coloured(action) && colour != ColourFor(action) then 1 else 0
    case _ => 0
  }

  function Recoloured(objects: seq<MicroflowObject>): (r: seq<MicroflowObject>)
    ensures |r| == |objects| && forall i :: 0 <= i < |objects| ==> r[i] == Recolour(objects[i])
  {
    seq(|objects|, i requires 0 <= i < |objects| => Recolour(objects[i]))
  }

  /** The number of changes the pass counts over a microflow's objects. */
  function Changes(objects: seq<MicroflowObject>): nat
    decreases |objects|
  {
    if objects == [] then 0
    else Changes(objects[..|objects| - 1]) + Change(objects[|objects| - 1])
  }

  /** The pass only ever sets an activity's colour: kinds, actions, positions and sizes stay. */
  lemma RecolourKeepsAllButColour(o: MicroflowObject)
    ensures Recolour(o).relativeMiddlePoint == o.relativeMiddlePoint && Recolour(o).size == o.size
    ensures Recolour(o).kind.ActionActivity? <==> o.kind.ActionActivity?
    ensures o.kind.ActionActivity? ==>
              Recolour(o).kind.action == o.kind.action && Recolour(o).kind.backgroundColor == ColourFor(o.kind.action)
    ensures !o.kind.ActionActivity? ==> Recolour(o) == o
  {
  }

  /** A change is counted exactly when a coloured activity's colour is rewritten. */
  lemma ChangeIffColourRewritten(o: MicroflowObject)
    ensures Change(o) == 1 <==> o.kind.ActionActivity? && Coloured(o.kind.action) && Recolour(o) != o
    ensures Change(o) == 0 <==> !(o.kind.ActionActivity? && Coloured(o.kind.action) && Recolour(o) != o)
  {
    if o.kind.ActionActivity? && Coloured(o.kind.action) && Recolour(o) == o {
      assert Recolour(o).kind.backgroundColor == o.kind.backgroundColor;
    }
  }

  /**
   * The default colour is set without being counted: an activity of any other kind of
   * action that carries a colour is reset, and the counter does not move.
   */
  lemma DefaultResetUncounted(o: MicroflowObject)
    requires o.kind.ActionActivity? && !Coloured(o.kind.action) && o.kind.backgroundColor != Default
    ensures Recolour(o) != o && Change(o) == 0
  {
    assert Recolour(o).kind.backgroundColor == Default;
  }

  /** So a microflow can be changed by the pass while the counter stays at zero. */
  lemma ChangedButNotCounted(o: MicroflowObject)
    requires o.kind.ActionActivity? && !Coloured(o.kind.action) && o.kind.backgroundColor != Default
    ensures Recoloured([o]) != [o] && Changes([o]) == 0
  {
    DefaultResetUncounted(o);
    assert Recoloured([o])[0] == Recolour(o);
    assert [o][..0] == [];
  }

  lemma {:induction false} ChangesSnoc(objects: seq<MicroflowObject>, o: MicroflowObject)
    ensures Changes(objects + [o]) == Changes(objects) + Change(o)
  {
    assert (objects + [o])[..|objects|] == objects;
  }

  /** The counter is bounded by the number of objects, and is zero exactly when no object's colour is rewritten. */
  lemma {:induction false} ChangesZeroIffColoured(objects: seq<MicroflowObject>)
    ensures Changes(objects) == 0 <==> forall i :: 0 <= i < |objects| ==> Change(objects[i]) == 0
    ensures Changes(objects) <= |objects|
    decreases |objects|
  {
    if objects != [] {
      var init := objects[..|objects| - 1];
      ChangesZeroIffColoured(init);
      assert forall i :: 0 <= i < |init| ==> init[i] == objects[i];
    }
  }

  /** After a pass every activity has its action's colour, so a second pass changes nothing and counts nothing. */
  lemma {:induction false} RecolouredIsFixedPoint(objects: seq<MicroflowObject>)
    ensures Recoloured(Recoloured(objects)) == Recoloured(objects)
    ensures Changes(Recoloured(objects)) == 0
    decreases |objects|
  {
    var r := Recoloured(objects);
    forall i | 0 <= i < |r|
      ensures Change(r[i]) == 0 && Recolour(r[i]) == r[i]
    {
    }
    ChangesZeroIffColoured(r);
  }

  /**
   * The body of `processMF`'s `forEach` for one object: an action activity of a coloured
   * kind gets its colour, counted when it differed; any other activity is set to the
   * default colour, uncounted; other objects are left alone.
   */
  method RecolourObject(objects: array<MicroflowObject>, i: nat, changes: nat) returns (changesAfter: nat)
    requires i < objects.Length
    modifies objects
    ensures objects[..] == old(objects[..])[i := Recolour(old(objects[i]))]
    ensures changesAfter == changes + Change(old(objects[i]))
  {
    changesAfter := changes;
    var o := objects[i];
    match o.kind {
      case ActionActivity(action, colour) =>
        var target := ColourFor(action);
        if Coloured(action) {
          if colour != target {
            objects[i] := o.(kind := ActionActivity(action, target));
            changesAfter := changesAfter + 1;
          }
        } else {
          objects[i] := o.(kind := ActionActivity(action, Default));
        }
      case _ =>
    }
  }

  /**
   * `processMF`: recolours the microflow's objects in place and returns the counter
   * increased by the changes it counted.
   */
  method ProcessMicroflow(objects: array<MicroflowObject>, changes: nat) returns (changesAfter: nat)
    modifies objects
    ensures objects[..] == Recoloured(old(objects[..]))
    ensures changesAfter == changes + Changes(old(objects[..]))
  {
    ghost var before := objects[..];
    changesAfter := changes;
    for i := 0 to objects.Length
      invariant forall j :: 0 <= j < i ==> objects[j] == Recolour(before[j])
      invariant forall j :: i <= j < objects.Length ==> objects[j] == before[j]
      invariant changesAfter == changes + Changes(before[..i])
    {
      changesAfter := RecolourObject(objects, i, changesAfter);
      ChangesSnoc(before[..i], before[i]);
      assert before[..i + 1] == before[..i] + [before[i]];
    }
    assert before[..objects.Length] == before;
  }

  /** The objects of every microflow, in order. */
  ghost function Contents(microflows: seq<array<MicroflowObject>>): seq<seq<MicroflowObject>>
    reads set i | 0 <= i < |microflows| :: microflows[i]
  {
    seq(|microflows|, i requires 0 <= i < |microflows| reads set j | 0 <= j < |microflows| :: microflows[j] => microflows[i][..])
  }

  /** The changes counted over all microflows. */
  function TotalChanges(contents: seq<seq<MicroflowObject>>): nat
    decreases |contents|
  {
    if contents == [] then 0
    else TotalChanges(contents[..|contents| - 1]) + Changes(contents[|contents| - 1])
  }

  /** Nothing is counted over microflows whose every activity already has its colour. */
  lemma {:induction false} TotalChangesOfRecoloured(contents: seq<seq<MicroflowObject>>)
    ensures TotalChanges(seq(|contents|, i requires 0 <= i < |contents| => Recoloured(contents[i]))) == 0
    decreases |contents|
  {
    var r := seq(|contents|, i requires 0 <= i < |contents| => Recoloured(contents[i]));
    if contents != [] {
      var init := contents[..|contents| - 1];
      TotalChangesOfRecoloured(init);
      assert r[..|r| - 1] == seq(|init|, i requires 0 <= i < |init| => Recoloured(init[i]));
      RecolouredIsFixedPoint(contents[|contents| - 1]);
    }
  }

  /**
   * `processAllMicroflows`: runs `processMF` over every microflow, threading the
   * counter from zero, and commits exactly when it ends positive.
   */
  method ProcessAllMicroflows(microflows: seq<array<MicroflowObject>>) returns (committed: bool, changes: nat)
    requires forall i, j :: 0 <= i < j < |microflows| ==> microflows[i] != microflows[j]
    modifies set i | 0 <= i < |microflows| :: microflows[i]
    ensures forall i :: 0 <= i < |microflows| ==> microflows[i][..] == Recoloured(old(microflows[i][..]))
    ensures changes == TotalChanges(old(Contents(microflows)))
    ensures committed <==> changes > 0
  {
    ghost var before := Contents(microflows);
    changes := 0;
    for i := 0 to |microflows|
      invariant forall j :: 0 <= j < i ==> microflows[j][..] == Recoloured(before[j])
      invariant forall j :: i <= j < |microflows| ==> microflows[j][..] == before[j]
      invariant changes == TotalChanges(before[..i])
    {
      changes := ProcessMicroflow(microflows[i], changes);
      assert before[..i + 1][..i] == before[..i];
    }
    assert before[..|microflows|] == before;
    committed := changes > 0;
  }

  /** Run twice, the second pass commits nothing. */
  method ProcessAllMicroflowsTwice(microflows: seq<array<MicroflowObject>>) returns (second: bool)
    requires forall i, j :: 0 <= i < j < |microflows| ==> microflows[i] != microflows[j]
    modifies set i | 0 <= i < |microflows| :: microflows[i]
    ensures !second
  {
    var _, _ := ProcessAllMicroflows(microflows);
    ghost var original := old(Contents(microflows));
    assert Contents(microflows) == seq(|original|, i requires 0 <= i < |original| => Recoloured(original[i]));
    TotalChangesOfRecoloured(original);
    var changes;
    second, changes := ProcessAllMicroflows(microflows);
  }
}
