# Mendix SDK scripts: a Dafny model

This project models the scripts of the Mendix SDK scripts repository that generate and
normalise microflows in a Mendix working copy. It covers:

- **The microflow builder** (`Microflow`, from src/mendix-component-creators/Microflow.ts).
  A class with an append-only object collection and flow list, a main layout cursor that
  starts at (0, 100), and an input-parameter cursor that starts at (-100, 0). Each method is
  proved to produce the state given by a pure function (`WithObject`, `WithInputParameter`,
  `WithSequenceFlow`). The layout and wiring lemmas are stated about those functions.
- **The validation-microflow generator** (`ValidationCreator`, from src/ValidationCreator.ts).
  It holds the expression table and the split/change/feedback/merge "diamond" added per
  attribute. The attribute loop threads the tail. The whole microflow is proved to have
  its shape (counts, layout, captions, wiring). The driver is modelled too: it selects
  domain models and entities, finds or creates the folder, and applies the name guard.
- **The name guard** (`NameGuard`, `WorkingCopies`). All generators look up a qualified
  name and create a microflow only when it is absent. Run over a list of candidates, this
  creates only new names, each at most once, and a second run creates nothing.
- **Folders** (`Folders`). `createFolder` finds a child folder by name or creates it.
- **The page-logging generators** (`PageLogging`, `CreateMicroflowFromPages`,
  `CreateMicroflow`). They cover:
  - name derivation from the page's qualified name;
  - the page parameter, which is the first data-view entity ref;
  - the fixed start → IPAddress → BrowserType → log → open page → end chain;
  - the per-page loop and its count;
  - the `CustomLogging` module precondition.
- **The container walks** (`Containers`). These are the three ways the scripts climb from a
  document to its module, proved to agree.
- **The activity recolour pass** (`MicroflowActivityColours`, from
  src/MicroflowActivityColours.ts and its copy script3.ts). It works in place over arrays of
  microflow objects, with the change counter and the commit-only-if-changed decision.
- **The prefix-convention check** (`PrefixConvention`, from src/script1.ts).
- **The export helpers** (`FileExport`, from src/GetPage.ts, src/GetMicroflow.ts and
  src/GetDomainModel.ts). They cover:
  - file-name sanitising;
  - collision renaming against the set of existing files;
  - `getModuleDocumentName`;
  - the export loops that choose which documents are written, and in what order.

SDK objects are plain values. An object of a microflow is identified by its index in the
object collection (`ObjectRef`). The remote SDK, promises, the configuration module and the
file system's contents are replaced by parameters:
- the configuration is a `Config` value;
- SDK enumerations (`allPages`, `allMicroflows`, …) are given sequences;
- `fs.existsSync` is a set of existing paths;
- a module is never one of the child folders of a module (`ModulesAreNotFolders`), as the
  SDK's `Module` and `Folder` types guarantee.

Where the code does something other than its names or comments suggest, the model
follows the code:
- A page with several data-view entity refs gets the first one as its parameter; no error
  is raised. When that first ref's entity does not resolve, reading its qualified name
  throws, the page loop stops and nothing is committed.
- src/ValidationCreator.ts commits whether or not anything was created.
  src/CreateMicroflow.ts commits whenever a `CustomLogging` module exists.
  src/CreateMicroflowFromPages.ts commits when a `CustomLogging` module exists and the
  loop gets through every page: each page's parameter lookup returns and its chain
  reaches a module.
- The recolour pass does not count resets to the default colour. So a pass can change a
  microflow and still not commit (`ChangedButNotCounted`).
- `getModuleDocumentName` names 17 document types by their `name`, plus the domain model.

## Model

| member | source | states |
|---|---|---|
| MendixModel.ConnectorIndex | src/mendix-component-creators/Microflow.ts:162-168 | A member's value is its position in declaration order, as TypeScript numbers an enum without initialisers: Top 0, Right 1, Bottom 2, Left 3 |
| MendixModel.ConnectorAt | src/mendix-component-creators/Microflow.ts:160-169 | The enum's reverse lookup is defined exactly on 0..3 |
| MendixModel.ConnectorIndexRoundTrip | src/mendix-component-creators/Microflow.ts:162-168 | Enum members and indices correspond one to one, in both directions |
| Microflow.MicroflowBuilder.constructor | src/mendix-component-creators/Microflow.ts:6-27 | A new builder has the name and return type, allows concurrent execution, has no objects or flows, and has its cursors at (-100, 0) and (0, 100) |
| Microflow.MicroflowBuilder.AddInputParameter | src/mendix-component-creators/Microflow.ts:29-39 | Appends one 30x30 parameter with the name and type at the parameter cursor moved by (100, 0); the flows and the main cursor are unchanged |
| Microflow.MicroflowBuilder.AddObjectToMicroflow | src/mendix-component-creators/Microflow.ts:41-59 | Appends exactly the object, moves the main cursor by the offsets and stamps the new cursor on it; appends one flow from `connectFrom` to it when there is one, none otherwise; returns its reference |
| Microflow.MicroflowBuilder.AddSequenceFlow | src/mendix-component-creators/Microflow.ts:61-77 | Appends one flow with the origin, destination, port indices, zero bezier vectors and the case (NoCase when none); nothing else changes |
| Microflow.PlaceAllPositions | src/mendix-component-creators/Microflow.ts:48-54 | Placing k objects appends k objects and no flows; the j-th is at the old x plus the first j+1 offsets |
| Microflow.SumXPrefixIncreasing | src/mendix-component-creators/Microflow.ts:51-54 | With positive x offsets, the cursor's accumulated x strictly grows along the placements |
| Microflow.PositiveOffsetsIncreaseX | src/mendix-component-creators/Microflow.ts:51-54 | With positive x offsets, later objects get strictly larger x |
| Microflow.KthInputParameter | src/mendix-component-creators/Microflow.ts:6-39 | On a fresh builder the k-th parameter (from 0) is at (100k, 0), 30x30, with its name and type; parameters leave the main cursor and the flows alone |
| Microflow.WithObjectWiresIffConnected | src/mendix-component-creators/Microflow.ts:56-58 | A flow is added if and only if there is an object to connect from, and it ends at the new object |
| Microflow.SequenceFlowsNotDeduplicated | src/mendix-component-creators/Microflow.ts:61-77 | Two identical flow additions add two identical flows; the objects are unchanged |
| ValidationCreator.SplitExpressionTable | src/ValidationCreator.ts:8-18 | The table covers exactly nine attribute types, each with its expression: bare reference, `!= empty`, `!= empty and > 0`, or `!= empty and != ''` |
| ValidationCreator.AddValidationActivities | src/ValidationCreator.ts:143-177 | Drives the builder to exactly the state and tail of `ValidationActivities`: unchanged for an unsupported type, one diamond otherwise |
| ValidationCreator.ChainCounts | src/ValidationCreator.ts:132-177 | The attribute loop adds 4 objects and 5 flows per supported attribute and keeps what was there; it moves the cursor by (+400, 0) per supported attribute; it returns the last merge, or the incoming tail when nothing was added |
| ValidationCreator.DiamondCaptions | src/ValidationCreator.ts:153-166 | A diamond has one split captioned with the attribute's name and one feedback activity on that attribute |
| ValidationCreator.ChainCaptions | src/ValidationCreator.ts:132-134 | The loop's splits are captioned, and its feedback activities name, the supported attributes in declaration order |
| ValidationCreator.ChainLayout | src/ValidationCreator.ts:156-170 | Everything the loop adds is a split, merge or activity; splits and merges sit on the cursor's row and activities one row (100) below |
| ValidationCreator.DiamondOutgoing | src/ValidationCreator.ts:156-174 | A diamond's split has exactly the false and true exits, its change and feedback activities one exit each, and nothing else leaves an earlier object |
| ValidationCreator.DiamondKeepsWired | src/ValidationCreator.ts:156-174 | A diamond hung from a valid tail keeps every object entered from an earlier one |
| ValidationCreator.DiamondKeepsSplits | src/ValidationCreator.ts:156-176 | A diamond keeps every split a two-way branch that rejoins at its merge, and returns a valid tail |
| ValidationCreator.ChainKeepsWiring | src/ValidationCreator.ts:132-134 | The whole loop preserves wiring, branching splits and a valid tail |
| ValidationCreator.PrologueShape | src/ValidationCreator.ts:113-129 | Parameter at (0, 0) named after the entity, start at (0, 100) with no incoming flow, `IsValid := 'true'` at (100, 100) entered from the start |
| ValidationCreator.ValidationMicroflowIsChainWithEnd | src/ValidationCreator.ts:131-140 | The microflow is the prologue, the attribute loop from the create-variable activity, and the end hung from the loop's tail |
| ValidationCreator.ValidationMicroflowShape | src/ValidationCreator.ts:107-141 | 4 + 4k objects and 2 + 5k flows for k supported attributes, starting with the prologue; the end returns `$<validVariableName>` at (200 + 400k, 100) |
| ValidationCreator.ValidationMicroflowCaptions | src/ValidationCreator.ts:132-134 | The microflow's splits and feedback activities name the supported attributes, in declaration order |
| ValidationCreator.ValidationMicroflowEvents | src/ValidationCreator.ts:117-140 | Object 1 is the only start event and the last object the only end event |
| ValidationCreator.HangKeepsWiring | src/ValidationCreator.ts:136-139 | Hanging the end event from the tail keeps the microflow wired and its splits branching |
| ValidationCreator.ValidationMicroflowWiring | src/ValidationCreator.ts:107-141 | The generated microflow is one control flow: every object after the start is entered from an earlier one, and every split branches on false/true and rejoins at its merge |
| ValidationCreator.CreateValidationMicroflow | src/ValidationCreator.ts:107-141 | Appends exactly the document of `ValidationMicroflow` (Boolean, in the folder) to the working copy |
| ValidationCreator.ModuleNames | src/ValidationCreator.ts:47 | The configured modules' names, in order |
| ValidationCreator.SelectDomainModels | src/ValidationCreator.ts:46-61 | Exactly the domain models whose module is configured are selected |
| ValidationCreator.SelectDomainModelsAppend | src/ValidationCreator.ts:46-61 | The selection is a filter: it distributes over concatenation, and keeps a single domain model exactly when its module is configured |
| ValidationCreator.ModuleConfigFor | src/ValidationCreator.ts:69 | A configuration is found exactly when the module is configured, and it has the module's name |
| ValidationCreator.SelectedModulesAreConfigured | src/ValidationCreator.ts:46-69 | Every selected domain model has a configuration, so the `[0]` lookup succeeds |
| ValidationCreator.EntitiesToProcess | src/ValidationCreator.ts:70-80 | All entities when none are configured; otherwise exactly the configured ones |
| ValidationCreator.EntitiesToProcessAppend | src/ValidationCreator.ts:70-80 | With entity names configured, the selection is a filter: it distributes over concatenation, and keeps a single entity exactly when its name is configured |
| ValidationCreator.EntityTargets | src/ValidationCreator.ts:83-84 | One candidate `<prefix><Entity>` per entity, in order |
| ValidationCreator.TargetDocumentNamed | src/ValidationCreator.ts:84-88 | The created document carries the qualified name the guard looked up |
| ValidationCreator.EntityStep | src/ValidationCreator.ts:86-92 | One entity: skipped when its qualified name exists in the working copy so far, else its document is appended |
| ValidationCreator.CreateModuleMicroflows | src/ValidationCreator.ts:83-93 | The entity loop continues the guarded run by exactly the module's candidates |
| ValidationCreator.CreateDomainModelMicroflows | src/ValidationCreator.ts:64-95 | One domain model: the module's folder of the configured name exists afterwards (its folders unchanged if it did before, exactly one appended otherwise), and the run is extended by its candidates |
| ValidationCreator.CreateMicroflows | src/ValidationCreator.ts:63-96 | The working copy gains exactly the guarded run's documents over all candidates, and every domain model's module has the folder, found or appended once however many of its domain models are processed |
| ValidationCreator.Execute | src/ValidationCreator.ts:25-42 | Selects, creates as above, and always commits; a configured module ends with the folder (found, or appended once), an unconfigured one keeps its folders |
| NameGuard.CreatedOnlyNew | src/ValidationCreator.ts:86-92 | A run creates only candidates whose names were absent, each name at most once, and afterwards every candidate's name exists |
| NameGuard.NothingCreatedWhenAllExist | src/ValidationCreator.ts:86-92 | When every candidate's name exists, nothing is created |
| NameGuard.SecondRunCreatesNothing | src/ValidationCreator.ts:86-92 | Idempotence: a second run after the first creates nothing |
| WorkingCopies.WorkingCopy.FindMicroflowByQualifiedName | src/ValidationCreator.ts:86 | Finds a microflow exactly when one has that qualified name, and the one found has it |
| WorkingCopies.GuardedRunStep | src/CreateMicroflowFromPages.ts:88-94 | One guarded step: skipped exactly when the name is in the working copy so far, otherwise the document is appended |
| Folders.FindByName | src/ValidationCreator.ts:99 | The index of the first folder with that name, or none exactly when no folder has it |
| Folders.CreateFolder | src/ValidationCreator.ts:98-105 | Returns the first child of that name with the folders unchanged, or appends exactly one new, empty folder of that name; afterwards the name is found and yields the returned folder; the copies in src/CreateMicroflowFromPages.ts:97-105 and src/CreateMicroflow.ts:65-72 do the same |
| Folders.FoundOrAddedTwice | src/ValidationCreator.ts:98-105 | After a find-or-create the name is found, so a second one of the same name changes nothing, and both together are one find-or-create |
| Folders.CreateFolderTwice | src/ValidationCreator.ts:98-105 | Two calls with one name return the same folder and add at most one |
| Containers.EnclosingNonFolder | src/script1.ts:37-42 | The first ancestor that is not a folder; the container itself when it is not a folder |
| Containers.ClimbFolders | src/script1.ts:37-42 | The `while` loop stops at exactly the first non-folder ancestor |
| Containers.FolderClimbFindsEnclosingModule | src/GetMicroflow.ts:63-70 | Climbing while the container is a folder finds a name exactly when the first non-folder ancestor is a module |
| Containers.ModuleWalksAgree | src/CreateMicroflowFromPages.ts:184-191 | Climbing until a module and climbing while a folder agree on every chain |
| Containers.ModuleWalksFindModule | src/GetDomainModel.ts:99-106 | Both walks return the module's name for a folder chain ending in that module |
| PageLogging.IndexOfDot | src/CreateMicroflowFromPages.ts:84 | `indexOf(".")`: -1 exactly when there is no dot, else the first dot |
| PageLogging.AfterFirstDot | src/CreateMicroflowFromPages.ts:84 | The whole name when there is no dot, else exactly what follows the first dot |
| PageLogging.AfterFirstDotOfQualifiedName | src/CreateMicroflow.ts:48 | For `<module>.<name>` the local part is `<name>`, dots in it included |
| PageLogging.LoggingMicroflowShape | src/CreateMicroflowFromPages.ts:107-150 | Start, IPAddress, BrowserType, log, open page, end at x 0, 200, 400, 600, 800, 900 on y = 100; parameter (if any) at (0, 0); five Right-to-Left flows; the end returns the given value; src/CreateMicroflow.ts:74-110 builds the same chain without a parameter, returning "true" |
| PageLogging.LoggingParameterIffEntity | src/CreateMicroflowFromPages.ts:133-138 | There is an input parameter exactly when the page has a parameter entity |
| PageLogging.CreateLoggingMicroflow | src/CreateMicroflowFromPages.ts:107-150 | The builder calls append exactly the logging document to the working copy |
| CreateMicroflowFromPages.FirstDataViewEntity | src/CreateMicroflowFromPages.ts:173-179 | None exactly when no ref is in a data view source; otherwise the entity of the first such ref, itself none when the ref does not resolve |
| CreateMicroflowFromPages.PageParameter | src/CreateMicroflowFromPages.ts:170-182 | Throws exactly when the page is not excluded and its first data-view ref does not resolve; returns none exactly for an excluded page or one without a data-view ref; otherwise returns the first data-view ref's entity, whatever follows |
| CreateMicroflowFromPages.PageMicroflowNameIffLocalName | src/CreateMicroflowFromPages.ts:84-86 | Two pages get the same microflow name exactly when their local names agree |
| CreateMicroflowFromPages.SameLocalNameInTwoModules | src/CreateMicroflowFromPages.ts:84-86 | Pages of different modules with the same local name share `ACT_<name>_OpenWithLog` |
| CreateMicroflowFromPages.CreatePageMicroflow | src/CreateMicroflowFromPages.ts:82-95 | Nothing changes when the qualified name exists in the logging module; otherwise exactly the logging document (returning "false") is appended |
| CreateMicroflowFromPages.PageTargets | src/CreateMicroflowFromPages.ts:33-38 | One target per page: its name, parameter and module name |
| CreateMicroflowFromPages.PageStep | src/CreateMicroflowFromPages.ts:33-58 | One page of the loop is one guarded step |
| CreateMicroflowFromPages.ModuleFolder | src/CreateMicroflowFromPages.ts:40-51 | The page's folder has its module's name; a folder is appended only when no folder of that name was found, the earlier folders are kept, and the added one is fresh and empty |
| CreateMicroflowFromPages.PageMicroflowStep | src/CreateMicroflowFromPages.ts:51-57 | The page's microflow is created as one guarded step of the run |
| CreateMicroflowFromPages.HandlePage | src/CreateMicroflowFromPages.ts:33-58 | One page: its module's folder (found or added), then its microflow as one guarded step |
| CreateMicroflowFromPages.HandlePages | src/CreateMicroflowFromPages.ts:32-60 | The loop completes exactly when, for every page, the parameter lookup returns and the chain reaches a module; then the count is the number of pages and the working copy gains exactly the guarded run's documents. The configured folder keeps its earlier child folders in order; each added one is fresh, empty and named after a page's module that `traverseFind` did not find; when the loop completes, every page's module name was found or is a child folder |
| CreateMicroflowFromPages.Execute | src/CreateMicroflowFromPages.ts:14-77 | Without `CustomLogging`, nothing is created, counted or committed and no module's folders change; otherwise the configured folder is found or appended once in `CustomLogging`, other modules keep their folders, the pages are handled as in `HandlePages`, and the commit happens exactly when the loop completes |
| CreateMicroflow.OpenMicroflowNameIffLocalName | src/CreateMicroflow.ts:48-50 | Within one module, two pages get the same name exactly when their local names agree |
| CreateMicroflow.OpenMicroflowNameOfQualifiedPage | src/CreateMicroflow.ts:48-50 | For `<module>.<name>` the microflow is `ACT_Page_<logging module>_<name>_Open` |
| CreateMicroflow.WithOpenMicroflowIdempotent | src/CreateMicroflow.ts:55-61 | Running the creation twice creates nothing the second time, whatever the folder |
| CreateMicroflow.WithOpenMicroflowHasName | src/CreateMicroflow.ts:55-61 | Afterwards the qualified name exists, and every earlier name still does |
| CreateMicroflow.CreateMicroflows | src/CreateMicroflow.ts:46-63 | The folder exists afterwards (folders unchanged if it did before, one appended otherwise), and the microflows are `WithOpenMicroflow` of the old ones |
| CreateMicroflow.Execute | src/CreateMicroflow.ts:10-41 | Commits exactly when a `CustomLogging` module exists; only then is the test page's microflow added and the folder found or appended once in that module, while every other module keeps its folders; otherwise no module's folders change |
| MicroflowActivityColours.ColourFor | src/MicroflowActivityColours.ts:35-64 | Each of the five kinds gets its colour exactly; the default colour exactly for any other action; the copy in script3.ts:45-74 does the same |
| MicroflowActivityColours.Recoloured | src/MicroflowActivityColours.ts:25-68 | The pass maps each object, position by position, to its recoloured form |
| MicroflowActivityColours.RecolourKeepsAllButColour | src/MicroflowActivityColours.ts:22-69 | Only an action activity's colour is set; objects of other kinds, positions and sizes are untouched |
| MicroflowActivityColours.ChangeIffColourRewritten | src/MicroflowActivityColours.ts:35-59 | A change is counted exactly when a coloured activity's colour is rewritten |
| MicroflowActivityColours.DefaultResetUncounted | src/MicroflowActivityColours.ts:62-64 | Resetting another activity to the default colour changes it without counting; the copy in script3.ts:72-74 does the same |
| MicroflowActivityColours.ChangedButNotCounted | src/MicroflowActivityColours.ts:62-64 | So a microflow can be changed while its count stays zero |
| MicroflowActivityColours.ChangesZeroIffColoured | src/MicroflowActivityColours.ts:35-59 | The count is zero exactly when no object would be counted, and at most the number of objects |
| MicroflowActivityColours.RecolouredIsFixedPoint | src/MicroflowActivityColours.ts:35-64 | After a pass, a second pass changes nothing and counts nothing; the copy in script3.ts:45-74 does the same |
| MicroflowActivityColours.RecolourObject | src/MicroflowActivityColours.ts:25-68 | One object is replaced by its recoloured form in place; the counter grows by its change |
| MicroflowActivityColours.ProcessMicroflow | src/MicroflowActivityColours.ts:22-69 | The array becomes the recoloured objects and the counter grows by the microflow's changes; the copy in script3.ts:30-79 does the same |
| MicroflowActivityColours.TotalChangesOfRecoloured | src/MicroflowActivityColours.ts:75-89 | Over recoloured microflows the total count is zero |
| MicroflowActivityColours.ProcessAllMicroflows | src/MicroflowActivityColours.ts:75-89 | Every microflow is recoloured; the count is the total of changes; it commits exactly when the count is positive; the copy in script3.ts:85-99 does the same |
| MicroflowActivityColours.ProcessAllMicroflowsTwice | src/MicroflowActivityColours.ts:82-87 | A second run does not commit |
| PrefixConvention.FindEqual | src/script1.ts:47 | Found exactly when the name is in the list |
| PrefixConvention.FindPrefix | src/script1.ts:50 | None exactly when no prefix starts the name; otherwise the first prefix that does |
| PrefixConvention.FlaggedIff | src/script1.ts:45-52 | With no empty strings in the lists, a microflow is reported exactly when its folder chain ends in a listed module and no prefix starts its name |
| PrefixConvention.ScriptListsFlaggedIff | src/script1.ts:18-52 | With the script's own prefix and module lists, a microflow is reported exactly when its folder chain ends in `MyFirstModule` and none of the eight prefixes starts its name |
| PrefixConvention.PrefixedNeverFlagged | src/script1.ts:50 | A name starting with a listed (non-empty) prefix is never reported |
| PrefixConvention.MissingPrefixesIff | src/script1.ts:62-68 | The report holds exactly the reported microflows' `<module>.<name>` entries, at most one per microflow |
| PrefixConvention.EmptyModuleListReportsNothing | src/script1.ts:20-21 | An empty module list reports nothing |
| PrefixConvention.PrefixReport.ProcessMicroflow | src/script1.ts:36-55 | Appends the microflow's entry exactly when it is reported |
| PrefixConvention.ProcessAllMicroflows | src/script1.ts:62-73 | The report is `MissingPrefixes` of the microflows in order, and the printed count is its length, at most the number of microflows |
| FileExport.ReplaceForbiddenClean | src/GetPage.ts:83-84 | A clean name is unchanged; a clean replacement leaves no forbidden character; the name never shrinks unless the replacement is empty |
| FileExport.ReplaceForbiddenPointwise | src/GetPage.ts:84 | With a one-character replacement, each character is kept or replaced in place |
| FileExport.ReplaceForbiddenAppend | src/GetPage.ts:84 | The global replace acts on each part of a concatenation separately |
| FileExport.WithJsSuffix | src/GetPage.ts:85-87 | `.js` is appended exactly when missing, so the result ends in `.js` |
| FileExport.Sanitised | src/GetPage.ts:83-87 | The sanitised name ends in `.js` and has no forbidden character when the replacement has none |
| FileExport.DecimalString | src/GetPage.ts:91 | `${attempt}` is a non-empty string of digits that reads back as the number (`DigitsValue`), with no leading zero |
| FileExport.SanitisedAfterCollision | src/GetPage.ts:90-92 | After a collision the retried name is longer; for a clean name it is `<name><attempt>.js` |
| FileExport.UniquePath | src/GetPage.ts:82-96 | The path returned does not exist, and is `basePath/<sanitised>` when that path does not exist; the copies in src/GetMicroflow.ts:117-131 and src/GetDomainModel.ts:152-166 do the same |
| FileExport.UniquePathShape | src/GetPage.ts:82-96 | The path is `basePath/` plus a name ending in `.js`, clean when the replacement is |
| FileExport.CollisionAppendsSameNumber | src/GetPage.ts:90-93 | Each retry appends the same number: `x.js` then `x.js1.js` |
| FileExport.ModuleDocumentName | src/GetMicroflow.ts:73-115 | The name for the 17 listed types, `__Domain Model__` for a domain model, the id otherwise; the copy in src/GetDomainModel.ts:108-150 does the same |
| FileExport.WithName | src/GetMicroflow.ts:34-40 | Exactly the documents with that name are kept |
| FileExport.WithNameAppend | src/GetMicroflow.ts:34-40 | `filter` distributes over concatenation, and keeps a single document exactly when it has the name |
| FileExport.ExportedInOrderFresh | src/GetMicroflow.ts:53-59 | No export overwrites an existing file or one written earlier in the run; all end in `.js` |
| FileExport.FirstWithEntityRef | src/GetPage.ts:48-56 | The first page with a direct entity ref, or the length when none has one |
| FileExport.FileSystem.WriteFile | src/GetPage.ts:77 | Writing a file adds exactly its path to the existing paths |
| FileExport.WriteNext | src/GetMicroflow.ts:55-58 | One iteration writes the document to its unique path against the files existing so far and extends the in-order record by it |
| FileExport.WriteAll | src/GetMicroflow.ts:53-59 | Each document, in order, is written to its unique path against the files existing so far |
| FileExport.ExportMicroflows | src/GetMicroflow.ts:32-61 | Exactly the microflows of that name are written, in order |
| FileExport.ExportPages | src/GetPage.ts:31-80 | The pages of that name are written in order up to the first with a direct entity ref, which ends the export unwritten |

## Left out

- The remote SDK: client, working-copy creation, loading, and `commit`. Commit is a boolean result.
- Promise sequencing, and the module-level `changes` and `prefixMicroflows` accumulators shared between callbacks. These are state threaded through sequential loops.
- Console logging, and the commented-out code.
- The configuration module is not part of this model. Its settings are the `Config` parameter and explicit parameters.
- SDK traversal (`allPages`, `allMicroflows`, `allDomainModels`, `traverse`) is not modelled. Its results are given sequences in the SDK's order.
- `traverseFind` over the logging module is not modelled. It is the set of folder names it can find, which is extended as folders are created.
- `findEntityByQualifiedName` is not modelled. The parameter's type is the entity's qualified name.
- `generateJavaAction`, `generateLogMessage` and `generatePageOpenCall` are called but not defined in the builder class. They are modelled as building an activity that carries their arguments.
- SDK object construction and registration are not modelled, nor translations and texts: the concurrency error message and the feedback template's text object.
- `JavaScriptSerializer.serializeToJs` and the written file contents are not modelled. Only which paths are written is modelled.
- `fs.mkdirSync` and the base-path and project-path existence checks before an export are not modelled.
- `exportDomainModel` is not modelled: it only logs the first domain model and stops.
- `path.join` is modelled as `basePath + "/" + filename`, without normalising `.` and `..` segments or duplicate separators.
- `String.replace` special replacement patterns (`$&`, `$1`, …) are not modelled. The replacement is inserted literally, as it is for the scripts' `'_'`.
- ValidationCreator.ModuleConfigFor: does not state that the configuration found is the first match, only that it is configured under that name.
- ValidationCreator.CreateMicroflows: requires every domain model to be configured, because the source fails on the `[0]` of an empty filter. The driver only passes selected domain models, which `SelectedModulesAreConfigured` shows are configured.
- CreateMicroflowFromPages.HandlePages: when a page's parameter lookup throws or its chain reaches no module, where the source fails mid-loop, the microflows created so far are not stated; only the folder facts are.
- CreateMicroflowFromPages.Execute: the state left when the page loop fails is not stated either. Only the absence of a commit is stated.
- CreateMicroflowFromPages.CreatePageMicroflow: the target folder is identified by name in the created document, not by object identity.
- MicroflowActivityColours.ProcessAllMicroflows: requires the microflows' object arrays to be distinct. The SDK loads each microflow once, so aliasing between them is not modelled.
- FileExport.ExportPages: the file write happens after serialising and after the entity-ref scan. Only the set of written paths and their order are modelled.
