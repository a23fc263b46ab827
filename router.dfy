/**
 * `AgentRouter`: the decisions that keep the two code-generation agents apart.
 * `ui-implementer` lays down a feature's foundation (`types.ts`, `api.ts` with
 * integration markers, `components/`); `feature-logic-implementer` may only
 * start once that foundation exists, and may not touch UI files or change the
 * signatures the UI calls.
 */
module Router {
  import opened Wrappers
  import opened Text
  import opened Workspace
  import opened FeaturePath

  const UI_AGENT := "ui-implementer"
  const LOGIC_AGENT := "feature-logic-implementer"
  const ERROR_PREFIX := "error:"
  const MISSING_UI_FOUNDATION := "error:missing_ui_foundation"

  /** The switches of `self.config` that are read (`enforce_ui_first` and `allow_manual_override` never are). */
  datatype RouterConfig = RouterConfig(
    verifyPrerequisites: bool,
    verifyCompletion: bool,
    preventFileConflicts: bool)

  /** The values `AgentRouter.__init__` installs. */
  const DEFAULT_CONFIG := RouterConfig(true, true, true)

  // ---------------------------------------------------------------------------
  // Classification

  datatype RequestType = FullFeature | UiOnly | BackendOnly | ModifyExisting

  const UI_KEYWORDS: seq<string> := ["UI", "디자인", "레이아웃", "컴포넌트", "화면", "폼", "페이지"]
  const BACKEND_KEYWORDS: seq<string> :=
    ["Supabase", "API", "로직", "데이터베이스", "쿼리", "작동", "연결", "구현", "인증", "서버"]
  const MODIFY_KEYWORDS: seq<string> := ["수정", "추가", "변경", "업데이트"]
  /** The word whose presence marks an explicit "UI only" request. */
  const ONLY_MARKER := "만"

  /** `classify_request`: a first-match decision over three keyword tests and the "only" marker. */
  function Classify(message: string): (t: RequestType)
    ensures t == UiOnly <==>
      ContainsAny(message, UI_KEYWORDS) && !ContainsAny(message, BACKEND_KEYWORDS) && Contains(message, ONLY_MARKER)
    ensures t == BackendOnly <==>
      ContainsAny(message, BACKEND_KEYWORDS) && !ContainsAny(message, UI_KEYWORDS)
    ensures t == ModifyExisting <==>
      ContainsAny(message, MODIFY_KEYWORDS) && t != UiOnly && t != BackendOnly
      && !(ContainsAny(message, UI_KEYWORDS) && !ContainsAny(message, BACKEND_KEYWORDS) && Contains(message, ONLY_MARKER))
      && !(ContainsAny(message, BACKEND_KEYWORDS) && !ContainsAny(message, UI_KEYWORDS))
  {
    var hasUi := ContainsAny(message, UI_KEYWORDS);
    var hasBackend := ContainsAny(message, BACKEND_KEYWORDS);
    var hasModify := ContainsAny(message, MODIFY_KEYWORDS);
    if hasUi && !hasBackend && Contains(message, ONLY_MARKER) then UiOnly
    else if hasBackend && !hasUi then BackendOnly
    else if hasModify then ModifyExisting
    else FullFeature
  }

  const UI_CHANGE_KEYWORDS: seq<string> := ["폼", "화면", "디자인", "레이아웃", "버튼", "입력", "표시", "보여", "UI", "컴포넌트"]

  /**
   * `needs_ui_changes`: some UI-change word occurs in the message. The contract
   * is the definition itself, spelled out; routing relies on it through `RouteRequest`.
   */
  function NeedsUiChanges(message: string): (b: bool)
    ensures b <==> exists kw :: kw in UI_CHANGE_KEYWORDS && Contains(message, kw)
  {
    ContainsAny(message, UI_CHANGE_KEYWORDS)
  }

  // ---------------------------------------------------------------------------
  // Inspecting a feature directory and routing

  datatype FileFlags = FileFlags(typesExists: bool, apiExists: bool, componentsExist: bool, uiComplete: bool)

  /** `check_existing_files`: the three existence flags and their conjunction; the marker is not consulted. */
  function CheckExistingFiles(fs: FileTree, featurePath: string): (f: FileFlags)
    ensures f.typesExists == Inspect(fs, featurePath).typesExists
    ensures f.apiExists == Inspect(fs, featurePath).apiExists
    ensures f.componentsExist == Inspect(fs, featurePath).componentsExist
    ensures f.uiComplete <==> f.typesExists && f.apiExists && f.componentsExist
  {
    var s := Inspect(fs, featurePath);
    FileFlags(s.typesExists, s.apiExists, s.componentsExist,
              s.typesExists && s.apiExists && s.componentsExist)
  }

  /** The foundation the router looks for is in place at the request's feature directory. */
  predicate FoundationFound(basePath: string, fs: FileTree, message: string, currentPath: Option<string>) {
    CheckExistingFiles(fs, ExtractFeaturePath(basePath, message, currentPath)).uiComplete
  }

  /** `route_request`: which agent handles the request, or why none may. */
  function RouteRequest(basePath: string, fs: FileTree, message: string, currentPath: Option<string>): (agent: string)
    ensures agent == UI_AGENT || agent == LOGIC_AGENT || agent == MISSING_UI_FOUNDATION
    ensures agent == LOGIC_AGENT ==> FoundationFound(basePath, fs, message, currentPath)
    ensures agent == MISSING_UI_FOUNDATION ==> !FoundationFound(basePath, fs, message, currentPath)
    ensures Classify(message) == UiOnly ==> agent == UI_AGENT
    ensures Classify(message) == FullFeature ==>
      (agent == UI_AGENT <==> !FoundationFound(basePath, fs, message, currentPath))
    ensures Classify(message) == BackendOnly ==> agent != UI_AGENT
    ensures Classify(message) == ModifyExisting ==> (agent == UI_AGENT <==> NeedsUiChanges(message))
  {
    var requestType := Classify(message);
    var files := CheckExistingFiles(fs, ExtractFeaturePath(basePath, message, currentPath));
    match requestType
    case FullFeature => if !files.uiComplete then UI_AGENT else LOGIC_AGENT
    case UiOnly => UI_AGENT
    case BackendOnly => if !files.uiComplete then MISSING_UI_FOUNDATION else LOGIC_AGENT
    case ModifyExisting =>
      if NeedsUiChanges(message) then UI_AGENT
      else if !files.uiComplete then MISSING_UI_FOUNDATION
      else LOGIC_AGENT
  }

  /** Whether the marker is present in `api.ts` never changes where a request is routed. */
  lemma RouteIgnoresMarker(basePath: string, fs: FileTree, message: string, currentPath: Option<string>, marker: bool)
    ensures var path := ExtractFeaturePath(basePath, message, currentPath);
      var fs' := fs[path := Inspect(fs, path).(apiHasMarker := marker)];
      RouteRequest(basePath, fs', message, currentPath) == RouteRequest(basePath, fs, message, currentPath)
  {
  }

  // ---------------------------------------------------------------------------
  // Missing foundation items

  /** The entries of the `missing` lists, in the order the checks append them. */
  datatype Item = TypesFile | ApiFile | ApiMarkers | ComponentsDir

  /** The string the source appends for an item. */
  function Label(item: Item): string {
    match item
    case TypesFile => "types.ts"
    case ApiFile => "api.ts"
    case ApiMarkers => "api.ts (missing TODO markers)"
    case ComponentsDir => "components/"
  }

  /** Distinct items are reported under distinct strings, so a list of items says what the list of strings says. */
  lemma LabelInjective(a: Item, b: Item)
    requires Label(a) == Label(b)
    ensures a == b
  {
    assert |Label(TypesFile)| == 8 && |Label(ApiFile)| == 6 && |Label(ComponentsDir)| == 11;
    assert |Label(ApiMarkers)| == 29;
  }

  /** Position of an item's check in the source. */
  function Rank(item: Item): nat {
    match item
    case TypesFile => 0
    case ApiFile => 1
    case ApiMarkers => 2
    case ComponentsDir => 3
  }

  /** The snapshot lacks this item. The marker can only be missing from an `api.ts` that exists. */
  predicate Lacks(s: Snapshot, item: Item) {
    match item
    case TypesFile => !s.typesExists
    case ApiFile => !s.apiExists
    case ApiMarkers => s.apiExists && !s.apiHasMarker
    case ComponentsDir => !s.componentsExist
  }

  /** What `feature-logic-implementer` needs before it may run. */
  const PREREQUISITES: set<Item> := {TypesFile, ApiFile, ComponentsDir}
  /** What `ui-implementer` must deliver. */
  const DELIVERABLES: set<Item> := {TypesFile, ApiFile, ApiMarkers, ComponentsDir}

  predicate InCheckOrder(items: seq<Item>) {
    forall i, j :: 0 <= i < j < |items| ==> Rank(items[i]) < Rank(items[j])
  }

  /** `items` names exactly the required items the snapshot lacks, each once, in check order. */
  predicate ListsExactly(items: seq<Item>, s: Snapshot, required: set<Item>) {
    && InCheckOrder(items)
    && (forall item :: item in items <==> item in required && Lacks(s, item))
  }

  lemma SameMembersBothEmpty(a: seq<Item>, b: seq<Item>)
    requires forall item :: item in a <==> item in b
    ensures a == [] <==> b == []
  {
    if a != [] {
      assert a[0] in a;
    }
    if b != [] {
      assert b[0] in b;
    }
  }

  /** Two lists in check order with the same members are the same list. */
  lemma {:induction false} SameMembersSameList(a: seq<Item>, b: seq<Item>)
    requires InCheckOrder(a) && InCheckOrder(b)
    requires forall item :: item in a <==> item in b
    ensures a == b
    decreases |a|
  {
    SameMembersBothEmpty(a, b);
    if a != [] {
      assert a[0] in b;
      assert b[0] in a;
      var i :| 0 <= i < |a| && a[i] == b[0];
      var j :| 0 <= j < |b| && b[j] == a[0];
      assert Rank(a[0]) <= Rank(b[0]) <= Rank(a[0]);
      assert a[0] == b[0];
      forall item ensures item in a[1..] <==> item in b[1..] {
        if item in a[1..] {
          var k :| 0 <= k < |a| - 1 && a[1..][k] == item;
          assert Rank(a[0]) < Rank(a[k + 1]);
          assert item in b;
          var m :| 0 <= m < |b| && b[m] == item;
          assert m != 0;
          assert b[1..][m - 1] == item;
        }
        if item in b[1..] {
          var k :| 0 <= k < |b| - 1 && b[1..][k] == item;
          assert Rank(b[0]) < Rank(b[k + 1]);
          assert item in a;
          var m :| 0 <= m < |a| && a[m] == item;
          assert m != 0;
          assert a[1..][m - 1] == item;
        }
      }
      SameMembersSameList(a[1..], b[1..]);
      assert a == [a[0]] + a[1..];
      assert b == [b[0]] + b[1..];
    }
  }

  /** `ListsExactly` pins down one list: the missing items are reported without choice. */
  lemma ListsExactlyIsUnique(a: seq<Item>, b: seq<Item>, s: Snapshot, required: set<Item>)
    requires ListsExactly(a, s, required) && ListsExactly(b, s, required)
    ensures a == b
  {
    SameMembersSameList(a, b);
  }

  // ---------------------------------------------------------------------------
  // Prerequisites and completion

  /** `verify_prerequisites` lets the agent run. */
  predicate MayRun(config: RouterConfig, agent: string, fs: FileTree, featurePath: string) {
    !config.verifyPrerequisites || agent != LOGIC_AGENT || CheckExistingFiles(fs, featurePath).uiComplete
  }

  /** `verify_prerequisites`: only the logic agent has prerequisites, and a refusal lists what is missing. */
  method VerifyPrerequisites(config: RouterConfig, agent: string, fs: FileTree, featurePath: string)
    returns (canRun: bool, missing: seq<Item>)
    ensures canRun <==> MayRun(config, agent, fs, featurePath)
    ensures canRun ==> missing == []
    ensures !canRun ==> missing != [] && ListsExactly(missing, Inspect(fs, featurePath), PREREQUISITES)
  {
    if !config.verifyPrerequisites {
      return true, [];
    }
    if agent == LOGIC_AGENT {
      var files := CheckExistingFiles(fs, featurePath);
      if !files.uiComplete {
        missing := [];
        if !files.typesExists {
          missing := missing + [TypesFile];
        }
        if !files.apiExists {
          missing := missing + [ApiFile];
        }
        if !files.componentsExist {
          missing := missing + [ComponentsDir];
        }
        return false, missing;
      }
    }
    return true, [];
  }

  /** Everything `ui-implementer` must leave behind, marker included. */
  predicate FoundationDelivered(s: Snapshot) {
    s.typesExists && s.apiExists && s.apiHasMarker && s.componentsExist
  }

  /** `_verify_ui_completion`: the foundation is complete exactly when nothing is missing. */
  method VerifyUiCompletion(fs: FileTree, featurePath: string) returns (complete: bool, missing: seq<Item>)
    ensures complete <==> FoundationDelivered(Inspect(fs, featurePath))
    ensures complete <==> missing == []
    ensures ListsExactly(missing, Inspect(fs, featurePath), DELIVERABLES)
    ensures ApiMarkers in missing ==> Inspect(fs, featurePath).apiExists
  {
    var s := Inspect(fs, featurePath);
    missing := [];
    if !s.typesExists {
      missing := missing + [TypesFile];
    }
    if !s.apiExists {
      missing := missing + [ApiFile];
    } else if !s.apiHasMarker {
      missing := missing + [ApiMarkers];
    }
    if !s.componentsExist {
      missing := missing + [ComponentsDir];
    }
    complete := |missing| == 0;
  }

  /** `verify_completion` accepts the agent's work. */
  predicate DeliveryAccepted(config: RouterConfig, agent: string, fs: FileTree, featurePath: string) {
    !config.verifyCompletion || agent != UI_AGENT || FoundationDelivered(Inspect(fs, featurePath))
  }

  /** `verify_completion`: only `ui-implementer` owes deliverables. */
  method VerifyCompletion(config: RouterConfig, agent: string, fs: FileTree, featurePath: string)
    returns (complete: bool, missing: seq<Item>)
    ensures complete <==> DeliveryAccepted(config, agent, fs, featurePath)
    ensures complete ==> missing == []
    ensures !complete ==> missing != [] && ListsExactly(missing, Inspect(fs, featurePath), DELIVERABLES)
  {
    if !config.verifyCompletion {
      return true, [];
    }
    if agent == UI_AGENT {
      complete, missing := VerifyUiCompletion(fs, featurePath);
      if !complete {
        return false, missing;
      }
    }
    return true, [];
  }

  /** A delivered foundation satisfies the logic agent's prerequisites: the hand-off is never refused. */
  lemma DeliveredFoundationAdmitsLogic(config: RouterConfig, fs: FileTree, featurePath: string)
    requires DeliveryAccepted(config, UI_AGENT, fs, featurePath) && config.verifyCompletion
    ensures MayRun(config, LOGIC_AGENT, fs, featurePath)
  {
  }

  // ---------------------------------------------------------------------------
  // File-operation guards

  /** The outcome of a guard: `None`, a printed warning, or a raised `ForbiddenOperationError`. */
  datatype Guard = Permit | PermitWithWarning | Forbidden(message: string)

  const FORBIDDEN := "FORBIDDEN"

  /** `before_create_file`: the logic agent may not re-create an existing `api.ts`; an existing `types.ts` only warns. */
  function BeforeCreateFile(config: RouterConfig, agent: string, filePath: string, fileExists: bool): (g: Guard)
    ensures g.Forbidden? <==>
      config.preventFileConflicts && agent == LOGIC_AGENT && fileExists && EndsWith(filePath, "api.ts")
    ensures g.PermitWithWarning? <==>
      config.preventFileConflicts && agent == LOGIC_AGENT && fileExists
      && EndsWith(filePath, "types.ts") && !EndsWith(filePath, "api.ts")
    ensures g.Forbidden? ==> StartsWith(g.message, FORBIDDEN)
  {
    if !config.preventFileConflicts then Permit
    else if EndsWith(filePath, "api.ts") && fileExists && agent == LOGIC_AGENT then
      Forbidden(FORBIDDEN + ": feature-logic-implementer cannot create " + filePath
        + ". This file already exists and should only be modified, not replaced.")
    else if EndsWith(filePath, "types.ts") && fileExists && agent == LOGIC_AGENT then PermitWithWarning
    else Permit
  }

  const UI_DIRECTORIES: seq<string> := ["/components/", "/page.tsx", "/layout.tsx"]

  /** The path with Windows separators turned into `/`. */
  function NormalizedPath(filePath: string): string {
    ReplaceChar(filePath, '\\', '/')
  }

  /** `before_modify_file`: the logic agent may not modify UI territory. */
  function BeforeModifyFile(config: RouterConfig, agent: string, filePath: string): (g: Guard)
    ensures g.Forbidden? <==>
      config.preventFileConflicts && agent == LOGIC_AGENT && ContainsAny(NormalizedPath(filePath), UI_DIRECTORIES)
    ensures !g.PermitWithWarning?
    ensures g.Forbidden? ==> StartsWith(g.message, FORBIDDEN)
  {
    if config.preventFileConflicts && agent == LOGIC_AGENT && ContainsAny(NormalizedPath(filePath), UI_DIRECTORIES) then
      Forbidden(FORBIDDEN + ": feature-logic-implementer cannot modify " + filePath
        + ". This is UI territory. Request ui-implementer to make changes.")
    else Permit
  }

  /** Neither guard ever stops `ui-implementer`. */
  lemma UiAgentNeverForbidden(config: RouterConfig, filePath: string, fileExists: bool)
    ensures !BeforeCreateFile(config, UI_AGENT, filePath, fileExists).Forbidden?
    ensures !BeforeModifyFile(config, UI_AGENT, filePath).Forbidden?
  {
  }

  // ---------------------------------------------------------------------------
  // Signatures of api.ts

  /**
   * What `_extract_function_signatures` returns: a dict from function name to the
   * text of its `export async function ...: Promise<...>` signature, whose keys
   * iterate in the order they were first inserted, which is their order in `api.ts`.
   */
  datatype SignatureDict = SignatureDict(names: seq<string>, text: map<string, string>)

  /** Each key is listed once, and the listed keys are exactly those with a signature. */
  predicate IsDict(d: SignatureDict) {
    && (forall i, j | 0 <= i < j < |d.names| :: d.names[i] != d.names[j])
    && d.text.Keys == set name | name in d.names
  }

  type Signatures = d: SignatureDict | IsDict(d) witness SignatureDict([], map[])

  /** `signatures[name] = signature`: a new key goes last, an existing one keeps its place. */
  function Assign(d: Signatures, name: string, signature: string): (r: Signatures)
    ensures r.text == d.text[name := signature]
    ensures name in d.text ==> r.names == d.names
    ensures name !in d.text ==> r.names == d.names + [name]
  {
    if name in d.text then SignatureDict(d.names, d.text[name := signature])
    else
      var r := SignatureDict(d.names + [name], d.text[name := signature]);
      assert forall i | 0 <= i < |d.names| :: d.names[i] in d.text;
      r
  }

  datatype SignatureCheck = Unchanged | FunctionRemoved(name: string) | SignatureChanged(name: string)

  /** The function is still there with byte-identical signature text. */
  predicate Kept(original: Signatures, modified: Signatures, name: string)
    requires name in original.text
  {
    name in modified.text && modified.text[name] == original.text[name]
  }

  /** Every original function is kept. */
  predicate SignaturesKept(original: Signatures, modified: Signatures) {
    forall name | name in original.text :: Kept(original, modified, name)
  }

  /** The first `k` original functions, in file order, are kept. */
  predicate KeptUpTo(original: Signatures, modified: Signatures, k: nat)
    requires k <= |original.names|
  {
    forall j | 0 <= j < k :: original.names[j] in original.text && Kept(original, modified, original.names[j])
  }

  /**
   * `verify_api_signature_unchanged`: walks the original functions in file order
   * and reports the first one that was removed or altered.
   */
  method VerifyApiSignatureUnchanged(config: RouterConfig, original: Signatures, modified: Signatures)
    returns (r: SignatureCheck)
    ensures r.Unchanged? <==> !config.preventFileConflicts || SignaturesKept(original, modified)
    ensures r.FunctionRemoved? ==> r.name in original.text && r.name !in modified.text
    ensures r.SignatureChanged? ==> r.name in original.text && r.name in modified.text && modified.text[r.name] != original.text[r.name]
    ensures !r.Unchanged? ==>
      exists k | 0 <= k < |original.names| :: original.names[k] == r.name && KeptUpTo(original, modified, k)
  {
    if !config.preventFileConflicts {
      return Unchanged;
    }
    var i := 0;
    while i < |original.names|
      invariant i <= |original.names|
      invariant KeptUpTo(original, modified, i)
    {
      var name := original.names[i];
      assert name in original.text;
      if name !in modified.text {
        return FunctionRemoved(name);
      }
      if original.text[name] != modified.text[name] {
        return SignatureChanged(name);
      }
      i := i + 1;
    }
    forall name | name in original.text
      ensures Kept(original, modified, name)
    {
      var j :| 0 <= j < |original.names| && original.names[j] == name;
    }
    return Unchanged;
  }

  /** Adding a new function to `api.ts` never breaks the check. */
  lemma AddedFunctionsAllowed(original: Signatures, modified: Signatures, name: string, signature: string)
    requires SignaturesKept(original, modified) && name !in original.text
    ensures SignaturesKept(original, Assign(modified, name, signature))
  {
  }

  /** Kept signatures compose across successive edits of `api.ts`. */
  lemma SignaturesKeptTransitive(a: Signatures, b: Signatures, c: Signatures)
    requires SignaturesKept(a, b) && SignaturesKept(b, c)
    ensures SignaturesKept(a, c)
  {
  }
}
