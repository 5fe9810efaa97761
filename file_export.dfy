/**
 * The export helpers of src/GetPage.ts, src/GetMicroflow.ts and src/GetDomainModel.ts:
 * the file path each exported document is written to (forbidden characters replaced,
 * `.js` appended when missing, renamed on a collision with an existing file), the name
 * a module document is known by, and the export loops that choose which documents are
 * written. The file system is the set of paths that exist.
 */
module FileExport {
  import opened Wrappers
  import opened Seqs

  // ---------------------------------------------------------------------------
  // File names.

  /** The characters `/[/\\?%*:|"<>]/g` matches. */
  predicate Forbidden(c: char) {
    c == '/' || c == '\\' || c == '?' || c == '%' || c == '*' || c == ':' || c == '|' || c == '"' || c == '<' || c == '>'
  }

  predicate NoForbidden(s: string) {
    forall i :: 0 <= i < |s| ==> !Forbidden(s[i])
  }

  /** `s.replace(/[/\\?%*:|"<>]/g, replaceValue)`: every forbidden character becomes `replaceValue`. */
  function ReplaceForbidden(s: string, replaceValue: string): string
    decreases |s|
  {
    if s == [] then []
    else (if Forbidden(s[0]) then replaceValue else [s[0]]) + ReplaceForbidden(s[1..], replaceValue)
  }

  /**
   * A clean name is left as it is; a clean replacement leaves a clean name; and the
   * name never shrinks unless the replacement is empty.
   */
  lemma {:induction false} ReplaceForbiddenClean(s: string, replaceValue: string)
    ensures NoForbidden(s) ==> ReplaceForbidden(s, replaceValue) == s
    ensures NoForbidden(replaceValue) ==> NoForbidden(ReplaceForbidden(s, replaceValue))
    ensures (NoForbidden(s) || |replaceValue| >= 1) ==> |ReplaceForbidden(s, replaceValue)| >= |s|
    decreases |s|
  {
    if s != [] {
      var tail := s[1..];
      ReplaceForbiddenClean(tail, replaceValue);
      assert NoForbidden(s) ==> NoForbidden(tail) by {
        if NoForbidden(s) {
          forall i | 0 <= i < |tail| ensures !Forbidden(tail[i]) { assert tail[i] == s[i + 1]; }
        }
      }
      var head := if Forbidden(s[0]) then replaceValue else [s[0]];
      var rest := ReplaceForbidden(tail, replaceValue);
      if NoForbidden(s) {
        assert head == [s[0]];
        assert s == [s[0]] + tail;
      }
      if NoForbidden(replaceValue) {
        assert NoForbidden(head);
        var r := head + rest;
        forall i | 0 <= i < |r| ensures !Forbidden(r[i]) {
          if i < |head| { assert r[i] == head[i]; } else { assert r[i] == rest[i - |head|]; }
        }
      }
    }
  }

  /** With a one-character replacement, as the scripts use, each character is kept or replaced in place. */
  lemma {:induction false} ReplaceForbiddenPointwise(s: string, c: char)
    ensures var r := ReplaceForbidden(s, [c]);
      |r| == |s| && forall i :: 0 <= i < |s| ==> r[i] == if Forbidden(s[i]) then c else s[i]
    decreases |s|
  {
    if s != [] {
      ReplaceForbiddenPointwise(s[1..], c);
      var rest := ReplaceForbidden(s[1..], [c]);
      var r := ReplaceForbidden(s, [c]);
      assert r == (if Forbidden(s[0]) then [c] else [s[0]]) + rest;
      assert forall i :: 1 <= i < |s| ==> r[i] == rest[i - 1] && s[i] == s[1..][i - 1];
    }
  }

  lemma {:induction false} ReplaceForbiddenAppend(a: string, b: string, replaceValue: string)
    ensures ReplaceForbidden(a + b, replaceValue) == ReplaceForbidden(a, replaceValue) + ReplaceForbidden(b, replaceValue)
    decreases |a|
  {
    if a == [] {
      assert a + b == b;
    } else {
      var ab := a + b;
      assert ab[0] == a[0];
      assert ab[1..] == a[1..] + b;
      ReplaceForbiddenAppend(a[1..], b, replaceValue);
      var head := if Forbidden(a[0]) then replaceValue else [a[0]];
      var tailA, tailB := ReplaceForbidden(a[1..], replaceValue), ReplaceForbidden(b, replaceValue);
      assert head + (tailA + tailB) == (head + tailA) + tailB;
    }
  }

  predicate EndsWith(s: string, suffix: string) {
    |suffix| <= |s| && s[|s| - |suffix|..] == suffix
  }

  /** `if (!filename.endsWith(".js")) filename += '.js'`. */
  function WithJsSuffix(s: string): (r: string)
    ensures EndsWith(r, ".js")
    ensures EndsWith(s, ".js") ==> r == s
    ensures !EndsWith(s, ".js") ==> r == s + ".js"
  {
    if EndsWith(s, ".js") then s
    else
      var r := s + ".js";
      assert r[|r| - 3..] == ".js";
      r
  }

  /** The file name `getSanitisedAndUniqueFilePath` first tries: null read as "", forbidden characters replaced, `.js` ensured. */
  function Sanitised(filename: Option<string>, replaceValue: string): (r: string)
    ensures EndsWith(r, ".js")
    ensures NoForbidden(replaceValue) ==> NoForbidden(r)
  {
    var replaced := ReplaceForbidden(filename.GetOr(""), replaceValue);
    ReplaceForbiddenClean(filename.GetOr(""), replaceValue);
    assert NoForbidden(".js");
    assert NoForbidden(replaced) ==> NoForbidden(replaced + ".js");
    WithJsSuffix(replaced)
  }

  /** `path.join(basePath, filename)`, without the normalisation of `.` and `..` segments. */
  function Join(basePath: string, filename: string): string {
    basePath + "/" + filename
  }

  /** The number a string of decimal digits denotes, most significant digit first. */
  function DigitsValue(s: string): nat
    requires forall i :: 0 <= i < |s| ==> '0' <= s[i] <= '9'
    decreases |s|
  {
    if s == [] then 0 else 10 * DigitsValue(s[..|s| - 1]) + (s[|s| - 1] - '0') as nat
  }

  /**
   * `${attempt}`: the decimal digits of a non-negative number, which read back as that
   * number, with no leading zero.
   */
  function DecimalString(n: nat): (r: string)
    ensures |r| >= 1 && forall i :: 0 <= i < |r| ==> '0' <= r[i] <= '9'
    ensures DigitsValue(r) == n
    ensures |r| > 1 ==> r[0] != '0'
  {
    if n < 10 then ["0123456789"[n]]
    else
      var init, last := DecimalString(n / 10), "0123456789"[n % 10];
      assert (init + [last])[..|init|] == init;
      init + [last]
  }

  /** A name already sanitised is left as it is by sanitising, and grows by the digits appended to it. */
  lemma SanitisedAfterCollision(name: string, replaceValue: string, attempt: nat)
    requires EndsWith(name, ".js") && (NoForbidden(name) || |replaceValue| >= 1)
    ensures var next := Sanitised(Some(name + DecimalString(attempt)), replaceValue);
      |next| > |name| && (NoForbidden(name) ==> next == name + DecimalString(attempt) + ".js")
  {
    var digits := DecimalString(attempt);
    var replacedName, replacedDigits := ReplaceForbidden(name, replaceValue), ReplaceForbidden(digits, replaceValue);
    ReplaceForbiddenAppend(name, digits, replaceValue);
    ReplaceForbiddenClean(name, replaceValue);
    assert NoForbidden(digits);
    ReplaceForbiddenClean(digits, replaceValue);
    var replaced := replacedName + digits;
    assert ReplaceForbidden(name + digits, replaceValue) == replaced;
    assert Sanitised(Some(name + digits), replaceValue) == WithJsSuffix(replaced);
    if NoForbidden(name) {
      assert replaced == name + digits;
      LastIsDigitNotJs(replaced, digits);
    }
  }

  /** A string ending in a digit does not end in `.js`. */
  lemma LastIsDigitNotJs(s: string, digits: string)
    requires |digits| >= 1 && |digits| <= |s| && s[|s| - |digits|..] == digits
    requires forall i :: 0 <= i < |digits| ==> '0' <= digits[i] <= '9'
    ensures !EndsWith(s, ".js")
  {
    assert s[|s| - 1] == digits[|digits| - 1];
    if |s| >= 3 {
      assert s[|s| - 3..][2] == s[|s| - 1];
    }
  }

  /** The paths in `existing` at least as long as `path`: what is left for a collision. */
  function LongerPaths(existing: set<string>, length: nat): set<string> {
    set p | p in existing && |p| >= length
  }

  /**
   * `getSanitisedAndUniqueFilePath`: the first candidate path that does not exist. On
   * a collision, the sanitised name with `attempt` appended is sanitised again; since
   * `attempt++` passes the old value, every retry appends the same number.
   */
  function UniquePath(basePath: string, filename: Option<string>, replaceValue: string, attempt: nat,
                      existing: set<string>): (r: string)
    ensures r !in existing
    ensures Join(basePath, Sanitised(filename, replaceValue)) !in existing ==>
              r == Join(basePath, Sanitised(filename, replaceValue))
    decreases LongerPaths(existing, |Join(basePath, Sanitised(filename, replaceValue))|)
  {
    var name := Sanitised(filename, replaceValue);
    var path := Join(basePath, name);
    if path in existing then
      var next := name + DecimalString(attempt);
      assert NoForbidden(name) || |replaceValue| >= 1 by {
        if |replaceValue| == 0 { assert NoForbidden(replaceValue); }
      }
      SanitisedAfterCollision(name, replaceValue, attempt);
      var nextPath := Join(basePath, Sanitised(Some(next), replaceValue));
      assert path in LongerPaths(existing, |path|) && path !in LongerPaths(existing, |nextPath|);
      assert LongerPaths(existing, |nextPath|) < LongerPaths(existing, |path|);
      UniquePath(basePath, Some(next), replaceValue, attempt, existing)
    else
      path
  }

  /**
   * Whatever the collisions, the path is `<basePath>/<name>` for a name ending in `.js`,
   * free of forbidden characters when the replacement is.
   */
  lemma {:induction false} UniquePathShape(basePath: string, filename: Option<string>, replaceValue: string, attempt: nat,
                                           existing: set<string>)
    ensures var r := UniquePath(basePath, filename, replaceValue, attempt, existing);
      && |r| > |basePath| + 1 && r[..|basePath| + 1] == basePath + "/"
      && EndsWith(r, ".js")
      && (NoForbidden(replaceValue) ==> NoForbidden(r[|basePath| + 1..]))
    decreases LongerPaths(existing, |Join(basePath, Sanitised(filename, replaceValue))|)
  {
    var name := Sanitised(filename, replaceValue);
    var path := Join(basePath, name);
    if path in existing {
      var next := name + DecimalString(attempt);
      assert NoForbidden(name) || |replaceValue| >= 1 by {
        if |replaceValue| == 0 { assert NoForbidden(replaceValue); }
      }
      SanitisedAfterCollision(name, replaceValue, attempt);
      var nextPath := Join(basePath, Sanitised(Some(next), replaceValue));
      assert path in LongerPaths(existing, |path|) && path !in LongerPaths(existing, |nextPath|);
      UniquePathShape(basePath, Some(next), replaceValue, attempt, existing);
    } else {
      assert path[..|basePath| + 1] == basePath + "/" && path[|basePath| + 1..] == name;
      assert path[|path| - 3..] == name[|name| - 3..];
    }
  }

  /** Each collision appends the same number: `x.js`, then `x.js1.js`, then `x.js1.js1.js`, ... for attempt 1. */
  lemma CollisionAppendsSameNumber(basePath: string, name: string, replaceValue: string, attempt: nat,
                                   existing: set<string>)
    requires EndsWith(name, ".js") && NoForbidden(name)
    requires Join(basePath, name) in existing
    ensures UniquePath(basePath, Some(name), replaceValue, attempt, existing)
            == UniquePath(basePath, Some(name + DecimalString(attempt) + ".js"), replaceValue, attempt, existing)
    ensures NoForbidden(name + DecimalString(attempt) + ".js") && EndsWith(name + DecimalString(attempt) + ".js", ".js")
  {
    var digits := DecimalString(attempt);
    var next := name + digits + ".js";
    assert UniquePath(basePath, Some(name), replaceValue, attempt, existing)
           == UniquePath(basePath, Some(name + digits), replaceValue, attempt, existing) by {
      ReplaceForbiddenClean(name, replaceValue);
      assert Sanitised(Some(name), replaceValue) == name;
    }
    assert Sanitised(Some(name + digits), replaceValue) == next by {
      SanitisedAfterCollision(name, replaceValue, attempt);
    }
    assert NoForbidden(next) && EndsWith(next, ".js") && Sanitised(Some(next), replaceValue) == next by {
      assert NoForbidden(next);
      ReplaceForbiddenClean(next, replaceValue);
      assert next[|next| - 3..] == ".js";
    }
    SameSanitisedSamePath(basePath, Some(name + digits), Some(next), replaceValue, attempt, existing);
  }

  /** The unique path depends on the file name only through its sanitised form. */
  lemma SameSanitisedSamePath(basePath: string, filename1: Option<string>, filename2: Option<string>,
                              replaceValue: string, attempt: nat, existing: set<string>)
    requires Sanitised(filename1, replaceValue) == Sanitised(filename2, replaceValue)
    ensures UniquePath(basePath, filename1, replaceValue, attempt, existing)
            == UniquePath(basePath, filename2, replaceValue, attempt, existing)
  {
  }

  // ---------------------------------------------------------------------------
  // Module document names.

  /** The document types `getModuleDocumentName` names by their own `name`. */
  const NamedDocumentTypes: set<string> := {
    "Constants$Constant", "JavaActions$JavaAction", "Pages$BuildingBlock", "Pages$Layout", "Pages$Page",
    "Pages$Snippet", "Pages$PageTemplate", "Microflows$Nanoflow", "Microflows$Rule", "Microflows$Microflow",
    "Enumerations$Enumeration", "ImportMappings$ImportMapping", "ExportMappings$ExportMapping",
    "ScheduledEvents$ScheduledEvent", "XmlSchemas$XmlSchema", "Images$ImageCollection",
    "JsonStructures$JsonStructure"}

  datatype ModuleDocument = ModuleDocument(structureTypeName: string, name: string, id: string)

  /**
   * `getModuleDocumentName`: the document's name for the named types, `__Domain Model__`
   * for a domain model, and the document's id for any other type.
   */
  function ModuleDocumentName(document: ModuleDocument): (r: string)
    ensures document.structureTypeName in NamedDocumentTypes ==> r == document.name
    ensures document.structureTypeName == "DomainModels$DomainModel" ==> r == "__Domain Model__"
    ensures (document.structureTypeName !in NamedDocumentTypes && document.structureTypeName != "DomainModels$DomainModel")
            ==> r == document.id
  {
    match document.structureTypeName
    case "Constants$Constant" => document.name
    case "JavaActions$JavaAction" => document.name
    case "Pages$BuildingBlock" => document.name
    case "Pages$Layout" => document.name
    case "Pages$Page" => document.name
    case "Pages$Snippet" => document.name
    case "Pages$PageTemplate" => document.name
    case "Microflows$Nanoflow" => document.name
    case "Microflows$Rule" => document.name
    case "Microflows$Microflow" => document.name
    case "Enumerations$Enumeration" => document.name
    case "ImportMappings$ImportMapping" => document.name
    case "ExportMappings$ExportMapping" => document.name
    case "ScheduledEvents$ScheduledEvent" => document.name
    case "XmlSchemas$XmlSchema" => document.name
    case "Images$ImageCollection" => document.name
    case "JsonStructures$JsonStructure" => document.name
    case "DomainModels$DomainModel" => "__Domain Model__"
    case _ => document.id
  }

  // ---------------------------------------------------------------------------
  // The export loops.

  /** A document to export: its name and, for a page, the direct entity refs found in it. */
  datatype ExportedDocument = ExportedDocument(name: string, directEntityRefs: seq<Option<string>>)

  /** `documents.filter(d => d.name === name)`. */
  function WithName(documents: seq<ExportedDocument>, name: string): (r: seq<ExportedDocument>)
    ensures |r| <= |documents|
    ensures forall i :: 0 <= i < |r| ==> r[i].name == name
    ensures forall i :: 0 <= i < |documents| && documents[i].name == name ==> documents[i] in r
    decreases |documents|
  {
    if documents == [] then []
    else
      var rest := WithName(documents[1..], name);
      assert forall i :: 1 <= i < |documents| ==> documents[i] == documents[1..][i - 1];
      if documents[0].name == name then [documents[0]] + rest else rest
  }

  /**
   * `filter` distributes over concatenation, and keeps a single document exactly when
   * it has the name.
   */
  lemma {:induction false} WithNameAppend(a: seq<ExportedDocument>, b: seq<ExportedDocument>, name: string)
    ensures WithName(a + b, name) == WithName(a, name) + WithName(b, name)
    ensures forall d: ExportedDocument {:trigger WithName([d], name)} ::
              WithName([d], name) == if d.name == name then [d] else []
    decreases |a|
  {
    if a == [] {
      assert a + b == b;
    } else {
      var kept := if a[0].name == name then [a[0]] else [];
      FirstSplit(a, b);
      WithNameAppend(a[1..], b, name);
      ConcatAssociative(kept, WithName(a[1..], name), WithName(b, name));
    }
    forall d: ExportedDocument
      ensures WithName([d], name) == if d.name == name then [d] else []
    {
      assert [d][1..] == [];
    }
  }

  function Elements(s: seq<string>): set<string> {
    set x | x in s
  }

  /**
   * The paths a run of exports writes: the i-th document goes to its unique path
   * against the files that existed, plus those the run wrote before it.
   */
  predicate ExportedInOrder(basePath: string, documents: seq<ExportedDocument>, existing: set<string>, written: seq<string>) {
    && |written| == |documents|
    && forall i :: 0 <= i < |documents| ==> WrittenAt(basePath, documents[i], existing, written[..i], written[i])
  }

  /** The document's export goes to `path`, its unique path against the files existing and those written before it. */
  predicate WrittenAt(basePath: string, document: ExportedDocument, existing: set<string>, before: seq<string>, path: string) {
    path == UniquePath(basePath, Some(document.name), "_", 1, existing + Elements(before))
  }

  /** No export overwrites a file that existed, nor one written before it in the same run; all end in `.js`. */
  lemma ExportedInOrderFresh(basePath: string, documents: seq<ExportedDocument>, existing: set<string>, written: seq<string>)
    requires ExportedInOrder(basePath, documents, existing, written)
    ensures forall i :: 0 <= i < |written| ==> written[i] !in existing && EndsWith(written[i], ".js")
    ensures forall i, j :: 0 <= i < j < |written| ==> written[i] != written[j]
  {
    forall i | 0 <= i < |written|
      ensures written[i] !in existing && EndsWith(written[i], ".js")
    {
      UniquePathShape(basePath, Some(documents[i].name), "_", 1, existing + Elements(written[..i]));
    }
    forall i, j | 0 <= i < j < |written|
      ensures written[i] != written[j]
    {
      assert written[i] == written[..j][i];
      assert written[i] in Elements(written[..j]);
    }
  }

  /** One more document written keeps the run in order. */
  lemma ExportedInOrderSnoc(basePath: string, documents: seq<ExportedDocument>, existing: set<string>,
                            written: seq<string>, i: nat, path: string)
    requires i < |documents| && ExportedInOrder(basePath, documents[..i], existing, written)
    requires path == UniquePath(basePath, Some(documents[i].name), "_", 1, existing + Elements(written))
    ensures ExportedInOrder(basePath, documents[..i + 1], existing, written + [path])
  {
    var w := written + [path];
    assert w[..i] == written;
    assert WrittenAt(basePath, documents[..i + 1][i], existing, w[..i], w[i]);
    forall k | 0 <= k < i
      ensures WrittenAt(basePath, documents[..i + 1][k], existing, w[..k], w[k])
    {
      assert w[..k] == written[..k] && w[k] == written[k];
      assert documents[..i + 1][k] == documents[..i][k];
      assert WrittenAt(basePath, documents[..i][k], existing, written[..k], written[k]);
    }
  }

  /** The index of the first document with a direct entity ref, or the length when none has one. */
  function FirstWithEntityRef(documents: seq<ExportedDocument>): (r: nat)
    ensures r <= |documents|
    ensures r < |documents| ==> |documents[r].directEntityRefs| > 0
    ensures forall i :: 0 <= i < r ==> documents[i].directEntityRefs == []
    decreases |documents|
  {
    if documents == [] then 0
    else if |documents[0].directEntityRefs| > 0 then 0
    else
      var r := FirstWithEntityRef(documents[1..]);
      assert forall i :: 1 <= i < |documents| ==> documents[i] == documents[1..][i - 1];
      r + 1
  }

  /** The files that exist; `fs.writeFileSync` adds one. */
  class FileSystem {
    var paths: set<string>

    constructor (paths: set<string>)
      ensures this.paths == paths
    {
      this.paths := paths;
    }

    method WriteFile(path: string)
      modifies this
      ensures paths == old(paths) + {path}
    {
      paths := paths + {path};
    }
  }

  /** Writes the i-th document to its unique path among the files that exist now. */
  method WriteNext(fs: FileSystem, basePath: string, documents: seq<ExportedDocument>, ghost existing: set<string>,
                   written: seq<string>, i: nat) returns (writtenAfter: seq<string>)
    requires i < |documents| && ExportedInOrder(basePath, documents[..i], existing, written)
    requires fs.paths == existing + Elements(written)
    modifies fs
    ensures ExportedInOrder(basePath, documents[..i + 1], existing, writtenAfter)
    ensures fs.paths == existing + Elements(writtenAfter)
  {
    var filepath := UniquePath(basePath, Some(documents[i].name), "_", 1, fs.paths);
    fs.WriteFile(filepath);
    ExportedInOrderSnoc(basePath, documents, existing, written, i, filepath);
    assert Elements(written + [filepath]) == Elements(written) + {filepath};
    writtenAfter := written + [filepath];
  }

  /**
   * The write loop of `exportMicroflow` in src/GetMicroflow.ts: each document, in
   * order, is written to its unique path, which then exists for the next one.
   */
  method WriteAll(fs: FileSystem, basePath: string, documents: seq<ExportedDocument>) returns (written: seq<string>)
    modifies fs
    ensures ExportedInOrder(basePath, documents, old(fs.paths), written)
    ensures fs.paths == old(fs.paths) + Elements(written)
  {
    written := [];
    for i := 0 to |documents|
      invariant ExportedInOrder(basePath, documents[..i], old(fs.paths), written)
      invariant fs.paths == old(fs.paths) + Elements(written)
    {
      written := WriteNext(fs, basePath, documents, old(fs.paths), written, i);
    }
    assert documents[..|documents|] == documents;
  }

  /** `exportMicroflow` of src/GetMicroflow.ts: every microflow of exactly that name is written. */
  method ExportMicroflows(fs: FileSystem, basePath: string, microflows: seq<ExportedDocument>, mfName: string)
    returns (written: seq<string>)
    modifies fs
    ensures ExportedInOrder(basePath, WithName(microflows, mfName), old(fs.paths), written)
    ensures fs.paths == old(fs.paths) + Elements(written)
  {
    var filtered := WithName(microflows, mfName);
    written := WriteAll(fs, basePath, filtered);
  }

  /**
   * `exportMicroflow` of src/GetPage.ts: the pages of exactly that name are written in
   * order until the first one with a direct entity ref, which returns from the whole
   * export before its own file is written.
   */
  method ExportPages(fs: FileSystem, basePath: string, pages: seq<ExportedDocument>, pageName: string)
    returns (written: seq<string>)
    modifies fs
    ensures var filtered := WithName(pages, pageName);
      ExportedInOrder(basePath, filtered[..FirstWithEntityRef(filtered)], old(fs.paths), written)
    ensures fs.paths == old(fs.paths) + Elements(written)
  {
    var filtered := WithName(pages, pageName);
    written := [];
    for i := 0 to |filtered|
      invariant i <= FirstWithEntityRef(filtered)
      invariant ExportedInOrder(basePath, filtered[..i], old(fs.paths), written)
      invariant fs.paths == old(fs.paths) + Elements(written)
    {
      if |filtered[i].directEntityRefs| > 0 {
        assert i == FirstWithEntityRef(filtered);
        return;
      }
      written := WriteNext(fs, basePath, filtered, old(fs.paths), written, i);
    }
    assert filtered[..|filtered|] == filtered;
  }
}
