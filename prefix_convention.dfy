/**
 * src/script1.ts: lists the microflows of the configured modules whose names start
 * with none of the naming-convention prefixes, as `<module>.<microflow>`, in the order
 * the microflows are processed.
 */
module PrefixConvention {
  import opened Wrappers
  import opened Containers

  /** The naming-convention prefixes. */
  const Prefixes: seq<string> := ["IVK_", "ACT_", "SUB_", "WS_", "ACo_", "ADe_", "BCo_", "BDe_"]

  /** The modules to check; with an empty list nothing is checked. */
  const ModuleList: seq<string> := ["MyFirstModule"]

  /** A microflow as the check sees it: its name and the container it sits in. */
  datatype MicroflowEntry = MicroflowEntry(name: string, container: Container)

  /** `s.startsWith(prefix)`: case-sensitive, character by character. */
  predicate StartsWith(s: string, prefix: string) {
    |prefix| <= |s| && s[..|prefix|] == prefix
  }

  /** `list.find(element => element == name)`: the first element equal to `name`, if any. */
  function FindEqual(list: seq<string>, name: string): (r: Option<string>)
    ensures r.Some? <==> name in list
    ensures r.Some? ==> r.value == name
  {
    if list == [] then None
    else if list[0] == name then Some(list[0])
    else FindEqual(list[1..], name)
  }

  /** `prefixes.find(element => name.startsWith(element))`: the first prefix of `name` in the list, if any. */
  function FindPrefix(prefixes: seq<string>, name: string): (r: Option<string>)
    ensures r.None? <==> forall i :: 0 <= i < |prefixes| ==> !StartsWith(name, prefixes[i])
    ensures r.Some? ==> exists i :: 0 <= i < |prefixes| && prefixes[i] == r.value && StartsWith(name, r.value)
                                  && forall j :: 0 <= j < i ==> !StartsWith(name, prefixes[j])
    decreases |prefixes|
  {
    if prefixes == [] then None
    else if StartsWith(name, prefixes[0]) then Some(prefixes[0])
    else
      var r := FindPrefix(prefixes[1..], name);
      assert forall i :: 1 <= i < |prefixes| ==> prefixes[1..][i - 1] == prefixes[i];
      r
  }

  /** JavaScript truthiness of what `find` returns: nothing found, or an empty string found, is false. */
  predicate Truthy(r: Option<string>) {
    r.Some? && r.value != ""
  }

  /** The entry `processMF` pushes: the module's name, a dot, the microflow's name. */
  function EntryName(moduleName: string, microflowName: string): string {
    moduleName + "." + microflowName
  }

  /**
   * `processMF`'s decision: the first non-folder container is a module, the module
   * list finds its name, and the prefix list finds no prefix of the microflow's name.
   */
  predicate Flagged(prefixes: seq<string>, moduleList: seq<string>, m: MicroflowEntry) {
    var c := EnclosingNonFolder(m.container);
    c.Module? && Truthy(FindEqual(moduleList, c.name)) && !Truthy(FindPrefix(prefixes, m.name))
  }

  /** The list `processAllMicroflows` reports: one entry per flagged microflow, in order. */
  function MissingPrefixes(prefixes: seq<string>, moduleList: seq<string>, microflows: seq<MicroflowEntry>): seq<string>
    decreases |microflows|
  {
    if microflows == [] then []
    else
      var m := microflows[|microflows| - 1];
      MissingPrefixes(prefixes, moduleList, microflows[..|microflows| - 1])
      + (if Flagged(prefixes, moduleList, m) then [EntryName(EnclosingNonFolder(m.container).name, m.name)] else [])
  }

  /**
   * With no empty string among the prefixes and module names, a microflow is flagged
   * exactly when its folder chain ends in a listed module and no prefix starts its name.
   */
  lemma FlaggedIff(prefixes: seq<string>, moduleList: seq<string>, m: MicroflowEntry)
    requires "" !in prefixes && "" !in moduleList
    ensures Flagged(prefixes, moduleList, m) <==>
              && (exists moduleName :: moduleName in moduleList && InModule(m.container, moduleName))
              && (forall p :: p in prefixes ==> !StartsWith(m.name, p))
  {
    var c := EnclosingNonFolder(m.container);
    if c.Module? && c.name in moduleList {
      assert InModule(m.container, c.name);
    }
    if exists p :: p in prefixes && StartsWith(m.name, p) {
      var p :| p in prefixes && StartsWith(m.name, p);
      var i :| 0 <= i < |prefixes| && prefixes[i] == p;
      assert FindPrefix(prefixes, m.name).Some?;
    }
  }

  /**
   * With the script's own lists, which hold no empty string, a microflow is flagged
   * exactly when its folder chain ends in `MyFirstModule` and none of the eight
   * prefixes starts its name.
   */
  lemma ScriptListsFlaggedIff(m: MicroflowEntry)
    ensures Flagged(Prefixes, ModuleList, m) <==>
              InModule(m.container, "MyFirstModule") && forall i :: 0 <= i < |Prefixes| ==> !StartsWith(m.name, Prefixes[i])
  {
    FlaggedIff(Prefixes, ModuleList, m);
    if InModule(m.container, "MyFirstModule") {
      assert "MyFirstModule" in ModuleList;
    }
  }

  /** A name that starts with a prefix of the list is never flagged. */
  lemma PrefixedNeverFlagged(prefixes: seq<string>, moduleList: seq<string>, m: MicroflowEntry, i: nat)
    requires i < |prefixes| && prefixes[i] != "" && StartsWith(m.name, prefixes[i])
    requires forall j :: 0 <= j < |prefixes| ==> prefixes[j] != ""
    ensures !Flagged(prefixes, moduleList, m)
  {
    assert FindPrefix(prefixes, m.name).Some?;
  }

  /** The report holds exactly the flagged microflows' entries, one at most per microflow. */
  lemma {:induction false} MissingPrefixesIff(prefixes: seq<string>, moduleList: seq<string>,
                                              microflows: seq<MicroflowEntry>, entry: string)
    ensures |MissingPrefixes(prefixes, moduleList, microflows)| <= |microflows|
    ensures entry in MissingPrefixes(prefixes, moduleList, microflows) <==>
              exists i :: 0 <= i < |microflows| && Flagged(prefixes, moduleList, microflows[i])
                          && entry == EntryName(EnclosingNonFolder(microflows[i].container).name, microflows[i].name)
    decreases |microflows|
  {
    if microflows != [] {
      var init := microflows[..|microflows| - 1];
      MissingPrefixesIff(prefixes, moduleList, init, entry);
      assert forall i :: 0 <= i < |init| ==> init[i] == microflows[i];
    }
  }

  /** An empty module list reports nothing. */
  lemma {:induction false} EmptyModuleListReportsNothing(prefixes: seq<string>, microflows: seq<MicroflowEntry>)
    ensures MissingPrefixes(prefixes, [], microflows) == []
    decreases |microflows|
  {
    if microflows != [] {
      EmptyModuleListReportsNothing(prefixes, microflows[..|microflows| - 1]);
    }
  }

  /** The script's report and the microflows whose names it pushes. */
  class PrefixReport {
    var prefixMicroflows: seq<string>

    constructor ()
      ensures prefixMicroflows == []
    {
      prefixMicroflows := [];
    }

    /** `processMF`: climbs the folders, then pushes the microflow's entry when it is flagged. */
    method ProcessMicroflow(prefixes: seq<string>, moduleList: seq<string>, m: MicroflowEntry)
      modifies this
      ensures prefixMicroflows == old(prefixMicroflows)
                                  + if Flagged(prefixes, moduleList, m)
                                    then [EntryName(EnclosingNonFolder(m.container).name, m.name)] else []
    {
      var myContainer := ClimbFolders(m.container);
      if myContainer.Module? {
        var myModule := myContainer;
        if Truthy(FindEqual(moduleList, myModule.name)) {
          if !Truthy(FindPrefix(prefixes, m.name)) {
            prefixMicroflows := prefixMicroflows + [EntryName(myModule.name, m.name)];
          }
        }
      }
    }
  }

  /**
   * `processAllMicroflows`: processes every microflow in turn into a fresh report and
   * returns the report and its length, the number the script prints.
   */
  method ProcessAllMicroflows(prefixes: seq<string>, moduleList: seq<string>, microflows: seq<MicroflowEntry>)
    returns (report: seq<string>, count: nat)
    ensures report == MissingPrefixes(prefixes, moduleList, microflows)
    ensures count == |report| <= |microflows|
  {
    var r := new PrefixReport();
    for i := 0 to |microflows|
      invariant r.prefixMicroflows == MissingPrefixes(prefixes, moduleList, microflows[..i])
    {
      r.ProcessMicroflow(prefixes, moduleList, microflows[i]);
      assert microflows[..i + 1][..i] == microflows[..i];
    }
    assert microflows[..|microflows|] == microflows;
    report := r.prefixMicroflows;
    count := |report|;
    MissingPrefixesIff(prefixes, moduleList, microflows, "");
  }
}
