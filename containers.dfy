/**
 * The container chain of a document (folders inside folders inside a module inside
 * the project) and the three ways the scripts climb it to find the enclosing module:
 *  - `getContainingModuleName` of src/CreateMicroflowFromPages.ts climbs until it
 *    meets a container whose type is `Projects$Module`;
 *  - `getContainingModuleName` of src/GetMicroflow.ts and src/GetDomainModel.ts climbs
 *    while the container is a `Projects$Folder` and reads the name of what it stops at;
 *  - `processMF` of src/script1.ts loops while the container is a folder and then
 *    checks that it stopped at a module.
 */
module Containers {
  import opened Wrappers

  datatype Container =
    | Folder(name: string, container: Container)
    | Module(name: string)
    | Project       // the root; its container is null

  function StructureTypeName(c: Container): string {
    match c
    case Folder(_, _) => "Projects$Folder"
    case Module(_) => "Projects$Module"
    case Project => "Projects$Project"
  }

  /** The first container on the chain that is not a folder. */
  function EnclosingNonFolder(c: Container): (r: Container)
    ensures !r.Folder?
    ensures c.Folder? || r == c
  {
    match c
    case Folder(_, parent) => EnclosingNonFolder(parent)
    case _ => c
  }

  /**
   * src/CreateMicroflowFromPages.ts: recurse to the container until the type is a
   * module. Passing the project, whose container is null, throws; that is `None`.
   */
  function ContainingModuleName(c: Container): Option<string> {
    if StructureTypeName(c) != "Projects$Module" then
      match c
      case Folder(_, parent) => ContainingModuleName(parent)
      case _ => None
    else Some(c.name)
  }

  /**
   * src/GetMicroflow.ts and src/GetDomainModel.ts: recurse while the container is a
   * folder, then read the stopping container's name as a module's; the project has no
   * name, so that reads as undefined, `None`.
   */
  function FolderClimbModuleName(c: Container): Option<string> {
    if StructureTypeName(c) == "Projects$Folder" then FolderClimbModuleName(c.container)
    else if c.Module? then Some(c.name)
    else None
  }

  /** A chain of folders that ends in the named module. */
  predicate InModule(c: Container, moduleName: string) {
    EnclosingNonFolder(c) == Module(moduleName)
  }

  /** The folder climb finds a module name exactly when the first non-folder ancestor is that module. */
  lemma {:induction false} FolderClimbFindsEnclosingModule(c: Container)
    ensures FolderClimbModuleName(c) == (if EnclosingNonFolder(c).Module? then Some(EnclosingNonFolder(c).name) else None)
  {
    match c
    case Folder(_, parent) => FolderClimbFindsEnclosingModule(parent);
    case Module(_) =>
    case Project =>
  }

  /** The two recursive walks agree on every chain. */
  lemma {:induction false} ModuleWalksAgree(c: Container)
    ensures ContainingModuleName(c) == FolderClimbModuleName(c)
  {
    match c
    case Folder(_, parent) => ModuleWalksAgree(parent);
    case Module(_) =>
    case Project =>
  }

  /** Both walks return the module's name for any chain of folders that ends in a module. */
  lemma ModuleWalksFindModule(c: Container, moduleName: string)
    requires InModule(c, moduleName)
    ensures ContainingModuleName(c) == Some(moduleName)
    ensures FolderClimbModuleName(c) == Some(moduleName)
  {
    FolderClimbFindsEnclosingModule(c);
    ModuleWalksAgree(c);
  }

  /** The `while (myContainer instanceof projects.Folder)` loop of src/script1.ts. */
  method ClimbFolders(start: Container) returns (c: Container)
    ensures c == EnclosingNonFolder(start)
  {
    c := start;
    while c.Folder?
      invariant EnclosingNonFolder(c) == EnclosingNonFolder(start)
      decreases c
    {
      c := c.container;
    }
  }
}
