/**
 * The idempotency guard: before creating a named microflow the generators look its
 * qualified name up and skip it when it exists. Run over a list of candidates, in
 * order, against a working copy that grows as microflows are created.
 */
module NameGuard {

  /**
   * The candidates a run creates, in order: a candidate is created when its qualified
   * name is neither among the `existing` names nor that of a candidate created
   * earlier in the same run.
   */
  function Created<T>(existing: set<string>, candidates: seq<T>, qualifiedName: T -> string): seq<T>
    decreases |candidates|
  {
    if candidates == [] then []
    else
      var prev := Created(existing, candidates[..|candidates| - 1], qualifiedName);
      var c := candidates[|candidates| - 1];
      if qualifiedName(c) in existing || qualifiedName(c) in NamesOf(prev, qualifiedName) then prev
      else prev + [c]
  }

  function NamesOf<T>(ts: seq<T>, qualifiedName: T -> string): (r: set<string>)
    ensures forall i :: 0 <= i < |ts| ==> qualifiedName(ts[i]) in r
    ensures forall q :: q in r ==> exists i :: 0 <= i < |ts| && qualifiedName(ts[i]) == q
    decreases |ts|
  {
    if ts == [] then {}
    else
      var init := ts[..|ts| - 1];
      assert forall i :: 0 <= i < |init| ==> init[i] == ts[i];
      NamesOf(init, qualifiedName) + {qualifiedName(ts[|ts| - 1])}
  }

  lemma NamesOfAppend<T>(ts: seq<T>, t: T, qualifiedName: T -> string)
    ensures NamesOf(ts + [t], qualifiedName) == NamesOf(ts, qualifiedName) + {qualifiedName(t)}
  {
    assert (ts + [t])[..|ts|] == ts;
  }

  /** A run over one more candidate: the earlier run, plus the candidate when its name is new. */
  lemma CreatedSnoc<T>(existing: set<string>, candidates: seq<T>, c: T, qualifiedName: T -> string)
    ensures var prev := Created(existing, candidates, qualifiedName);
      Created(existing, candidates + [c], qualifiedName)
        == if qualifiedName(c) in existing + NamesOf(prev, qualifiedName) then prev else prev + [c]
  {
    assert (candidates + [c])[..|candidates|] == candidates;
  }

  /** Each of `ts` is one of the candidates, and its name is not among the existing names. */
  ghost predicate NewCandidates<T>(ts: seq<T>, candidates: seq<T>, existing: set<string>, qualifiedName: T -> string) {
    forall i :: 0 <= i < |ts| ==> ts[i] in candidates && qualifiedName(ts[i]) !in existing
  }

  /** A run creates only candidates, and only ones whose names were absent. */
  lemma {:induction false} CreatedAreNew<T>(existing: set<string>, candidates: seq<T>, qualifiedName: T -> string)
    ensures NewCandidates(Created(existing, candidates, qualifiedName), candidates, existing, qualifiedName)
    decreases |candidates|
  {
    if candidates != [] {
      var init := candidates[..|candidates| - 1];
      var c := candidates[|candidates| - 1];
      CreatedAreNew(existing, init, qualifiedName);
      var prev := Created(existing, init, qualifiedName);
      var r := Created(existing, candidates, qualifiedName);
      forall i | 0 <= i < |r|
        ensures r[i] in candidates && qualifiedName(r[i]) !in existing
      {
        if i < |prev| {
          assert r[i] == prev[i] && prev[i] in init;
        } else {
          assert r[i] == c;
        }
      }
    }
  }

  /** No two of the microflows share a qualified name. */
  predicate NamesDistinct<T>(ts: seq<T>, qualifiedName: T -> string) {
    forall i, j :: 0 <= i < j < |ts| ==> qualifiedName(ts[i]) != qualifiedName(ts[j])
  }

  /** A run creates each name at most once. */
  lemma {:induction false} CreatedDistinct<T>(existing: set<string>, candidates: seq<T>, qualifiedName: T -> string)
    ensures NamesDistinct(Created(existing, candidates, qualifiedName), qualifiedName)
    decreases |candidates|
  {
    if candidates != [] {
      var init := candidates[..|candidates| - 1];
      var c := candidates[|candidates| - 1];
      CreatedDistinct(existing, init, qualifiedName);
      var prev := Created(existing, init, qualifiedName);
      if !(qualifiedName(c) in existing || qualifiedName(c) in NamesOf(prev, qualifiedName)) {
        var r := prev + [c];
        assert Created(existing, candidates, qualifiedName) == r;
        forall i, j | 0 <= i < j < |r|
          ensures qualifiedName(r[i]) != qualifiedName(r[j])
        {
          if j == |prev| {
            assert qualifiedName(prev[i]) in NamesOf(prev, qualifiedName);
          } else {
            assert r[i] == prev[i] && r[j] == prev[j];
          }
        }
      }
    }
  }

  /** After a run, every candidate's name exists. */
  lemma {:induction false} CreatedCovers<T>(existing: set<string>, candidates: seq<T>, qualifiedName: T -> string)
    ensures var r := Created(existing, candidates, qualifiedName);
      forall c :: c in candidates ==> qualifiedName(c) in existing + NamesOf(r, qualifiedName)
    decreases |candidates|
  {
    if candidates != [] {
      var init := candidates[..|candidates| - 1];
      var c := candidates[|candidates| - 1];
      CreatedCovers(existing, init, qualifiedName);
      var prev := Created(existing, init, qualifiedName);
      assert candidates == init + [c];
      if !(qualifiedName(c) in existing || qualifiedName(c) in NamesOf(prev, qualifiedName)) {
        NamesOfAppend(prev, c, qualifiedName);
      }
    }
  }

  /**
   * What a run creates: only candidates whose names were absent, each name at most
   * once, and afterwards every candidate's name exists.
   */
  lemma CreatedOnlyNew<T>(existing: set<string>, candidates: seq<T>, qualifiedName: T -> string)
    ensures var r := Created(existing, candidates, qualifiedName);
      && (forall i :: 0 <= i < |r| ==> r[i] in candidates && qualifiedName(r[i]) !in existing)
      && (forall i, j :: 0 <= i < j < |r| ==> qualifiedName(r[i]) != qualifiedName(r[j]))
      && (forall c :: c in candidates ==> qualifiedName(c) in existing + NamesOf(r, qualifiedName))
  {
    CreatedAreNew(existing, candidates, qualifiedName);
    CreatedDistinct(existing, candidates, qualifiedName);
    CreatedCovers(existing, candidates, qualifiedName);
  }

  /** When every candidate's name already exists, a run creates nothing. */
  lemma {:induction false} NothingCreatedWhenAllExist<T>(existing: set<string>, candidates: seq<T>, qualifiedName: T -> string)
    requires forall c :: c in candidates ==> qualifiedName(c) in existing
    ensures Created(existing, candidates, qualifiedName) == []
    decreases |candidates|
  {
    if candidates != [] {
      var init := candidates[..|candidates| - 1];
      assert forall x :: x in init ==> x in candidates;
      NothingCreatedWhenAllExist(existing, init, qualifiedName);
      assert candidates[|candidates| - 1] in candidates;
    }
  }

  /** Idempotence: a second run over the same candidates, after the first run's microflows exist, creates nothing. */
  lemma SecondRunCreatesNothing<T>(existing: set<string>, candidates: seq<T>, qualifiedName: T -> string)
    ensures var first := Created(existing, candidates, qualifiedName);
      Created(existing + NamesOf(first, qualifiedName), candidates, qualifiedName) == []
  {
    CreatedOnlyNew(existing, candidates, qualifiedName);
    NothingCreatedWhenAllExist(existing + NamesOf(Created(existing, candidates, qualifiedName), qualifiedName),
                               candidates, qualifiedName);
  }
}
