/**
 * Folder bases (modules and folders) and `createFolder`, which finds a child folder by
 * name or creates it. The same function appears three times in the source
 * (src/ValidationCreator.ts, src/CreateMicroflowFromPages.ts, src/CreateMicroflow.ts).
 */
module Folders {
  import opened Wrappers

  /** A module or folder; its child folders are updated in place when one is created. */
  class FolderBase {
    const name: string
    var folders: seq<FolderBase>

    constructor (name: string)
      ensures this.name == name && folders == []
    {
      this.name := name;
      folders := [];
    }
  }

  /** `folders.find(f => f.name == name)`: the index of the first folder with that name. */
  function FindByName(folders: seq<FolderBase>, name: string): (r: Option<nat>)
    ensures r.Some? ==> r.value < |folders| && folders[r.value].name == name
    ensures r.Some? ==> forall j :: 0 <= j < r.value ==> folders[j].name != name
    ensures r.None? <==> forall j :: 0 <= j < |folders| ==> folders[j].name != name
    decreases |folders|
  {
    if folders == [] then None
    else if folders[0].name == name then Some(0)
    else
      match FindByName(folders[1..], name)
      case None => None
      case Some(i) => Some(i + 1)
  }

  /** The folder base has a child folder of that name. */
  predicate HasFolder(base: FolderBase, name: string)
    reads base
  {
    FindByName(base.folders, name).Some?
  }

  /** Appending a folder keeps an earlier match, and makes a missing name findable when the new folder has it. */
  lemma FindByNameAppend(folders: seq<FolderBase>, f: FolderBase, name: string)
    ensures FindByName(folders, name).Some? ==> FindByName(folders + [f], name) == FindByName(folders, name)
    ensures f.name == name ==> FindByName(folders + [f], name).Some?
  {
    var r := FindByName(folders + [f], name);
    if FindByName(folders, name).Some? {
      var i := FindByName(folders, name).value;
      assert (folders + [f])[i] == folders[i];
    }
    if f.name == name {
      assert (folders + [f])[|folders|] == f;
    }
  }

  /**
   * The effect of `createFolder` on a folder base's child folders: none when a folder
   * of that name was there; otherwise exactly one folder of that name appended, the
   * earlier ones kept in order.
   */
  predicate FoundOrAdded(before: seq<FolderBase>, after: seq<FolderBase>, name: string) {
    && (FindByName(before, name).Some? ==> after == before)
    && (FindByName(before, name).None? ==>
          |after| == |before| + 1 && after[..|before|] == before && after[|before|].name == name)
  }

  /** After find-or-create the name is found, and a second find-or-create of it changes nothing. */
  lemma FoundOrAddedTwice(before: seq<FolderBase>, middle: seq<FolderBase>, after: seq<FolderBase>, name: string)
    requires FoundOrAdded(before, middle, name)
    ensures FindByName(middle, name).Some?
    ensures FoundOrAdded(middle, after, name) ==> after == middle && FoundOrAdded(before, after, name)
  {
    if FindByName(before, name).None? {
      assert middle == before + [middle[|before|]];
      FindByNameAppend(before, middle[|before|], name);
    }
  }

  /**
   * `createFolder`: returns the first child folder of `base` named `folderName`, or
   * creates exactly one such folder when there is none.
   */
  method CreateFolder(base: FolderBase, folderName: string) returns (folder: FolderBase)
    modifies base
    ensures folder.name == folderName
    ensures FindByName(old(base.folders), folderName).Some? ==>
              base.folders == old(base.folders) && folder == base.folders[FindByName(base.folders, folderName).value]
    ensures FindByName(old(base.folders), folderName).None? ==>
              fresh(folder) && folder.folders == [] && base.folders == old(base.folders) + [folder]
    ensures FindByName(base.folders, folderName).Some?
    ensures base.folders[FindByName(base.folders, folderName).value] == folder
    ensures FoundOrAdded(old(base.folders), base.folders, folderName)
  {
    var found := FindByName(base.folders, folderName);
    if found.Some? {
      folder := base.folders[found.value];
    } else {
      folder := new FolderBase(folderName);
      base.folders := base.folders + [folder];
      FindByNameAppend(old(base.folders), folder, folderName);
      assert base.folders[|old(base.folders)|] == folder;
    }
  }

  /** Calling `createFolder` twice with the same name creates at most one folder and returns the same folder. */
  method CreateFolderTwice(base: FolderBase, folderName: string) returns (first: FolderBase, second: FolderBase)
    modifies base
    ensures first == second
    ensures |base.folders| <= |old(base.folders)| + 1
  {
    first := CreateFolder(base, folderName);
    second := CreateFolder(base, folderName);
  }
}
