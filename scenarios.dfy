/**
 * The repository's own examples of how requests are classified and routed,
 * which file operations are refused, and how the counters move, stated over
 * the model.
 */
module Scenarios {
  import opened Wrappers
  import opened Text
  import opened Workspace
  import opened FeaturePath
  import opened Router
  import opened RouterMetrics
  import opened Orchestrator

  /** The character `c` appears nowhere in `s`. */
  predicate Missing(s: string, c: char) {
    forall i | 0 <= i < |s| :: s[i] != c
  }

  /** A message lacking the first character of every UI keyword mentions no UI. */
  lemma NoUiWord(m: string)
    requires Missing(m, 'U')
    requires Missing(m, '디')
    requires Missing(m, '레')
    requires Missing(m, '컴')
    requires Missing(m, '화')
    requires Missing(m, '폼')
    requires Missing(m, '페')
    ensures !ContainsAny(m, UI_KEYWORDS)
  {
    forall kw | kw in UI_KEYWORDS ensures !Contains(m, kw) {
      AbsentChar(m, kw, 0);
    }
  }

  /**
   * A message lacking a character of every backend keyword mentions no backend
   * work; for 로직 and 인증 the caller picks which character is absent.
   */
  lemma NoBackendWord(m: string, logicAt: nat, authAt: nat)
    requires Missing(m, 'S')
    requires Missing(m, 'A')
    requires logicAt < 2 && Missing(m, "로직"[logicAt])
    requires Missing(m, '데')
    requires Missing(m, '쿼')
    requires Missing(m, '작')
    requires Missing(m, '연')
    requires Missing(m, '구')
    requires authAt < 2 && Missing(m, "인증"[authAt])
    requires Missing(m, '서')
    ensures !ContainsAny(m, BACKEND_KEYWORDS)
  {
    forall kw | kw in BACKEND_KEYWORDS ensures !Contains(m, kw) {
      if kw == "로직" {
        AbsentChar(m, kw, logicAt);
      } else if kw == "인증" {
        AbsentChar(m, kw, authAt);
      } else {
        AbsentChar(m, kw, 0);
      }
    }
  }

  /** A message lacking the first character of every modification keyword asks for no modification. */
  lemma NoModifyWord(m: string)
    requires Missing(m, '수')
    requires Missing(m, '추')
    requires Missing(m, '변')
    requires Missing(m, '업')
    ensures !ContainsAny(m, MODIFY_KEYWORDS)
  {
    forall kw | kw in MODIFY_KEYWORDS ensures !Contains(m, kw) {
      AbsentChar(m, kw, 0);
    }
  }

  /** "Build the time-trade feature" is a full feature request. */
  lemma FullFeatureRequest()
    ensures Classify("시간 거래 기능 만들어줘") == FullFeature
  {
    var m := "시간 거래 기능 만들어줘";
    NoUiWord(m);
    NoBackendWord(m, 0, 0);
    NoModifyWord(m);
  }

  /** `keywords[j]` occurs in `s` at index `i`. */
  lemma OccursIn(s: string, keywords: seq<string>, j: nat, i: nat)
    requires j < |keywords| && OccursAt(s, keywords[j], i)
    ensures ContainsAny(s, keywords)
  {
    assert Contains(s, keywords[j]);
  }

  /** "Build only the login form UI" is a UI-only request: `로직` and `인증` are ruled out by their second characters. */
  lemma UiOnlyRequest()
    ensures Classify("로그인 폼 UI만 만들어줘") == UiOnly
  {
    var m := "로그인 폼 UI만 만들어줘";
    NoBackendWord(m, 1, 1);
    OccursIn(m, UI_KEYWORDS, 0, 6);
    assert OccursAt(m, ONLY_MARKER, 8);
  }

  /** "Implement the Supabase query" is a backend-only request. */
  lemma BackendOnlyRequest()
    ensures Classify("Supabase 쿼리 구현해줘") == BackendOnly
  {
    var m := "Supabase 쿼리 구현해줘";
    NoUiWord(m);
    OccursIn(m, BACKEND_KEYWORDS, 0, 0);
  }

  /** "Add an edit feature to time trading" modifies an existing feature. */
  lemma ModifyExistingRequest()
    ensures Classify("시간 거래 수정 기능 추가해줘") == ModifyExisting
  {
    var m := "시간 거래 수정 기능 추가해줘";
    NoUiWord(m);
    NoBackendWord(m, 0, 0);
    OccursIn(m, MODIFY_KEYWORDS, 0, 6);
  }

  /** "Now make it actually work" asks for the backend only. */
  lemma MakeItWorkRequest()
    ensures Classify("이제 실제로 작동하게 해줘") == BackendOnly
  {
    var m := "이제 실제로 작동하게 해줘";
    NoUiWord(m);
    OccursIn(m, BACKEND_KEYWORDS, 5, 7);
  }

  /** "Build the time-trade UI" is an explicit UI-only request. */
  lemma TimeTradeUiRequest()
    ensures Classify("시간 거래 UI 만들어줘") == UiOnly
  {
    var m := "시간 거래 UI 만들어줘";
    NoBackendWord(m, 0, 0);
    OccursIn(m, UI_KEYWORDS, 0, 6);
    assert OccursAt(m, ONLY_MARKER, 9);
  }

  // ---------------------------------------------------------------------------
  // Feature directories

  /** "시간 로그인": 시간 without 거래 is no time-trade match, so the authentication word decides. */
  lemma TimeWithoutTradeIsAuth(basePath: string)
    ensures ExtractFeaturePath(basePath, "시간 로그인", None) == Join(Join(basePath, "app"), "auth")
  {
    var m := "시간 로그인";
    AbsentChar(m, "app/", 0);
    AbsentChar(m, "거래", 0);
    NoTimeTrade(m);
    assert Search(AppSlug, m, 0).None?;
    assert OccursAt(m, AUTH_WORDS[0], 3);
    assert Contains(m, AUTH_WORDS[0]);
    AuthWordsSelectAuth(basePath, m);
  }

  /** Without 거래 there is no time-trade match, whether 시간 occurs or not. */
  lemma NoTimeTrade(m: string)
    requires !Contains(m, "거래")
    ensures Search(TimeTrade, m, 0).None?
  {
    forall j | 0 <= j <= |m| ensures !MatchesAt(TimeTrade, m, j) {
      if OccursAt(m, "시간", j) {
        assert !SpacesThenAt(m, j + 2, "거래");
      }
    }
  }

  /** "설정 바꿔줘" ("change the settings") addresses `app/settings`. */
  lemma SettingsWordSelectsSettings(basePath: string)
    ensures ExtractFeaturePath(basePath, "설정 바꿔줘", None) == Join(Join(basePath, "app"), "settings")
  {
    var m := "설정 바꿔줘";
    SettingsMatches(m);
    ProfileWordsSelected(basePath, m, 0);
  }

  /** Only the fourth pattern matches "설정 바꿔줘", at its start, and not with 프로필. */
  lemma SettingsMatches(m: string)
    requires m == "설정 바꿔줘"
    ensures Search(AppSlug, m, 0).None? && Search(TimeTrade, m, 0).None?
    ensures Search(AnyOf(AUTH_WORDS), m, 0).None?
    ensures Search(AnyOf(PROFILE_WORDS), m, 0) == Some(0)
    ensures !OccursAt(m, "프로필", 0)
  {
    AbsentChar(m, "app/", 0);
    AbsentChar(m, "시간", 0);
    NotAnchored(m);
    forall kw | kw in AUTH_WORDS ensures !Contains(m, kw) {
      AbsentChar(m, kw, 0);
    }
    NoWordNoMatch(m, AUTH_WORDS);
    assert OccursAt(m, PROFILE_WORDS[1], 0);
    assert MatchesAt(AnyOf(PROFILE_WORDS), m, 0);
    assert m[0] != '프';
  }

  // ---------------------------------------------------------------------------
  // Routing

  /** A first sign-up request on an empty workspace goes to `ui-implementer`. */
  lemma FirstRequestRoutesToUi(basePath: string)
    ensures RouteRequest(basePath, map[], "회원가입 기능 만들어줘", Some(Join(Join(basePath, "app"), "auth"))) == UI_AGENT
  {
    var m := "회원가입 기능 만들어줘";
    NoUiWord(m);
    NoBackendWord(m, 0, 0);
    NoModifyWord(m);
  }

  /** "Implement the Supabase sign-in logic" asks for the backend only, and before any UI exists it is refused. */
  lemma BackendWithoutUiBlocked(basePath: string)
    ensures Classify("Supabase 인증 로직 구현해줘") == BackendOnly
    ensures RouteRequest(basePath, map[], "Supabase 인증 로직 구현해줘", Some(Join(Join(basePath, "app"), "auth")))
      == MISSING_UI_FOUNDATION
  {
    var m := "Supabase 인증 로직 구현해줘";
    NoUiWord(m);
    OccursIn(m, BACKEND_KEYWORDS, 0, 0);
  }

  /**
   * "Connect Supabase" asks for the backend only, and once `types.ts`, `api.ts` and
   * `components/` exist it goes to the logic agent, marker or not.
   */
  lemma BackendWithUiRoutesToLogic(basePath: string)
    ensures Classify("Supabase 연결해줘") == BackendOnly
    ensures var path := Join(Join(basePath, "app"), "auth");
      RouteRequest(basePath, map[path := Snapshot(true, true, false, true)], "Supabase 연결해줘", Some(path)) == LOGIC_AGENT
  {
    var m := "Supabase 연결해줘";
    NoUiWord(m);
    OccursIn(m, BACKEND_KEYWORDS, 0, 0);
  }

  // ---------------------------------------------------------------------------
  // File-operation guards

  /** The logic agent may not re-create an existing `api.ts`. */
  lemma LogicCannotCreateApi(basePath: string)
    ensures BeforeCreateFile(DEFAULT_CONFIG, LOGIC_AGENT, basePath + "/app/feature/api.ts", true).Forbidden?
  {
    var path := basePath + "/app/feature/api.ts";
    assert path[|path| - 6..] == "api.ts";
  }

  /** The logic agent may create service files. */
  lemma LogicMayCreateService(basePath: string)
    ensures BeforeCreateFile(DEFAULT_CONFIG, LOGIC_AGENT, basePath + "/lib/services/timeSlotService.ts", false) == Permit
  {
  }

  /** A path without Windows separators is its own normalisation. */
  lemma {:induction false} AlreadyNormal(path: string)
    requires '\\' !in path
    ensures NormalizedPath(path) == path
  {
    var n := NormalizedPath(path);
    assert |n| == |path|;
    forall i | 0 <= i < |path| ensures n[i] == path[i] {
      assert path[i] in path;
    }
  }

  /** `b` occurs in `a + b + c` right after `a`. */
  lemma OccursBetween(a: string, b: string, c: string)
    ensures OccursAt(a + b + c, b, |a|)
  {
    assert (a + b + c)[|a|..|a| + |b|] == b;
  }

  /** The logic agent may not modify a component of a feature. */
  lemma LogicCannotModifyComponent(featurePath: string)
    requires '\\' !in featurePath
    ensures BeforeModifyFile(DEFAULT_CONFIG, LOGIC_AGENT, featurePath + "/components/" + "Form.tsx").Forbidden?
  {
    var path := featurePath + "/components/" + "Form.tsx";
    AlreadyNormal(path);
    OccursBetween(featurePath, "/components/", "Form.tsx");
    OccursIn(path, UI_DIRECTORIES, 0, |featurePath|);
  }

  /** The logic agent may not modify a feature's page. */
  lemma LogicCannotModifyPage(featurePath: string)
    requires '\\' !in featurePath
    ensures BeforeModifyFile(DEFAULT_CONFIG, LOGIC_AGENT, featurePath + "/page.tsx").Forbidden?
  {
    var path := featurePath + "/page.tsx";
    AlreadyNormal(path);
    assert path[|featurePath|..|path|] == "/page.tsx";
    OccursIn(path, UI_DIRECTORIES, 1, |featurePath|);
  }

  /** `ui-implementer` may modify components. */
  lemma UiMayModifyComponent(featurePath: string)
    ensures BeforeModifyFile(DEFAULT_CONFIG, UI_AGENT, featurePath + "/components/" + "Form.tsx") == Permit
  {
  }

  // ---------------------------------------------------------------------------
  // Prerequisites and completion

  /** `ui-implementer` needs nothing; the logic agent on an empty directory is told all three items are missing. */
  method PrerequisitesOnEmptyFeature(featurePath: string) returns (uiMayRun: bool, logicMayRun: bool, missing: seq<Item>)
    ensures uiMayRun && !logicMayRun
    ensures missing == [TypesFile, ApiFile, ComponentsDir]
  {
    var none;
    uiMayRun, none := VerifyPrerequisites(DEFAULT_CONFIG, UI_AGENT, map[], featurePath);
    logicMayRun, missing := VerifyPrerequisites(DEFAULT_CONFIG, LOGIC_AGENT, map[], featurePath);
    ListsExactlyIsUnique(missing, [TypesFile, ApiFile, ComponentsDir], Empty, PREREQUISITES);
  }

  /** The logic agent may run once `types.ts`, `api.ts` and `components/` exist. */
  method PrerequisitesOnFoundation(featurePath: string) returns (logicMayRun: bool)
    ensures logicMayRun
  {
    var missing;
    logicMayRun, missing := VerifyPrerequisites(DEFAULT_CONFIG, LOGIC_AGENT,
      map[featurePath := Snapshot(true, true, true, true)], featurePath);
  }

  /** What `ui-implementer` is told is missing, for the four directories of the completion examples. */
  method CompletionOfFoundations(featurePath: string)
    returns (noTypes: seq<Item>, noApi: seq<Item>, noMarker: seq<Item>, everything: seq<Item>)
    ensures noTypes == [TypesFile, ApiFile]
    ensures noApi == [ApiFile]
    ensures noMarker == [ApiMarkers]
    ensures everything == []
  {
    var complete;
    var onlyComponents := Snapshot(false, false, false, true);
    complete, noTypes := VerifyCompletion(DEFAULT_CONFIG, UI_AGENT, map[featurePath := onlyComponents], featurePath);
    ListsExactlyIsUnique(noTypes, [TypesFile, ApiFile], onlyComponents, DELIVERABLES);
    var noApiFile := Snapshot(true, false, false, true);
    complete, noApi := VerifyCompletion(DEFAULT_CONFIG, UI_AGENT, map[featurePath := noApiFile], featurePath);
    ListsExactlyIsUnique(noApi, [ApiFile], noApiFile, DELIVERABLES);
    var unmarked := Snapshot(true, true, false, true);
    complete, noMarker := VerifyCompletion(DEFAULT_CONFIG, UI_AGENT, map[featurePath := unmarked], featurePath);
    ListsExactlyIsUnique(noMarker, [ApiMarkers], unmarked, DELIVERABLES);
    complete, everything := VerifyCompletion(DEFAULT_CONFIG, UI_AGENT,
      map[featurePath := Snapshot(true, true, true, true)], featurePath);
  }

  // ---------------------------------------------------------------------------
  // Signatures of api.ts

  const CREATE_DATA := "export async function createData(data: CreateDTO): Promise<Data>"
  const UPDATE_DATA := "export async function updateData(id: string, data: UpdateDTO): Promise<Data>"
  const CREATE_DATA_REWRITTEN := "export async function createData(title: string, value: number): Promise<Data>"

  /** `api.ts` as the UI agent left it, with one or with two functions. */
  const CREATE_ONLY: Signatures := SignatureDict(["createData"], map["createData" := CREATE_DATA])
  const CREATE_AND_UPDATE: Signatures :=
    SignatureDict(["createData", "updateData"], map["createData" := CREATE_DATA, "updateData" := UPDATE_DATA])
  /** `api.ts` after `createData`'s parameters were rewritten. */
  const CREATE_REWRITTEN: Signatures := SignatureDict(["createData"], map["createData" := CREATE_DATA_REWRITTEN])

  lemma RewriteChangesText()
    ensures CREATE_DATA != CREATE_DATA_REWRITTEN
  {
    assert CREATE_DATA[33] == 'd' && CREATE_DATA_REWRITTEN[33] == 't';
  }

  /** Implementing a body without touching its signature passes. */
  method ImplementedBodyPasses() returns (r: SignatureCheck)
    ensures r == Unchanged
  {
    r := VerifyApiSignatureUnchanged(DEFAULT_CONFIG, CREATE_ONLY, CREATE_ONLY);
  }

  /** Rewriting a parameter list is reported as a changed signature of that function. */
  method RewrittenParametersDetected() returns (r: SignatureCheck)
    ensures r == SignatureChanged("createData")
  {
    RewriteChangesText();
    assert !Kept(CREATE_ONLY, CREATE_REWRITTEN, "createData");
    r := VerifyApiSignatureUnchanged(DEFAULT_CONFIG, CREATE_ONLY, CREATE_REWRITTEN);
  }

  /** Dropping a function is reported as that function's removal. */
  method DroppedFunctionDetected() returns (r: SignatureCheck)
    ensures r == FunctionRemoved("updateData")
  {
    assert !Kept(CREATE_AND_UPDATE, CREATE_ONLY, "updateData");
    r := VerifyApiSignatureUnchanged(DEFAULT_CONFIG, CREATE_AND_UPDATE, CREATE_ONLY);
  }

  /** With `createData` rewritten and `updateData` dropped, the first of them in `api.ts` is reported. */
  method FirstFailureReported() returns (r: SignatureCheck)
    ensures r == SignatureChanged("createData")
  {
    RewriteChangesText();
    assert !Kept(CREATE_AND_UPDATE, CREATE_REWRITTEN, "createData");
    r := VerifyApiSignatureUnchanged(DEFAULT_CONFIG, CREATE_AND_UPDATE, CREATE_REWRITTEN);
  }

  // ---------------------------------------------------------------------------
  // Counters

  /** Ten routed requests, two of them blocked for missing prerequisites: a success rate of 0.8. */
  method EightOfTenSucceed() returns (rate: real)
    ensures rate == 0.8
  {
    var metrics := new RoutingMetrics();
    var i := 0;
    while i < 8
      invariant 0 <= i <= 8
      invariant metrics.Valid() && metrics.metrics[TOTAL_REQUESTS] == i && metrics.Blocked() == 0
    {
      metrics.RecordRoute(UI_AGENT);
      i := i + 1;
    }
    while i < 10
      invariant 8 <= i <= 10
      invariant metrics.Valid() && metrics.metrics[TOTAL_REQUESTS] == i && metrics.Blocked() == i - 8
    {
      metrics.RecordRoute(UI_AGENT);
      metrics.RecordBlock("missing_prerequisites");
      i := i + 1;
    }
    rate := metrics.SuccessRate();
  }

  // ---------------------------------------------------------------------------
  // The orchestrator

  /** "Build the time-trade UI" starts `ui-implementer`, whatever the workspace holds. */
  method UiRequestRuns(basePath: string, fs: FileTree) returns (r: ExecutionResult)
    ensures r == ExecutionResult(UI_AGENT, Running, None)
  {
    TimeTradeUiRequest();
    var orchestrator := new AgentOrchestrator(basePath);
    r := orchestrator.ProcessRequest(fs, fs, "시간 거래 UI 만들어줘", None);
  }

  /** A backend-first request on an empty workspace is blocked for want of a UI foundation. */
  method BackendFirstBlocked(basePath: string) returns (r: ExecutionResult)
    ensures r == ExecutionResult(LOGIC_AGENT, Blocked, Some(MISSING_UI_FOUNDATION_ERROR))
  {
    BackendWithoutUiBlocked(basePath);
    var orchestrator := new AgentOrchestrator(basePath);
    r := orchestrator.ProcessRequest(map[], map[], "Supabase 인증 로직 구현해줘", None);
  }

  /** A foundation with only `types.ts` fails `ui-implementer`'s completion check. */
  method IncompleteFoundationBlocked(basePath: string, featurePath: string) returns (r: ExecutionResult)
    ensures r == ExecutionResult(UI_AGENT, Blocked, Some(INCOMPLETE_DELIVERY_ERROR))
  {
    var orchestrator := new AgentOrchestrator(basePath);
    r := orchestrator.VerifyAgentCompletion(map[featurePath := Snapshot(true, false, false, false)], UI_AGENT, featurePath);
  }

  /** Creating a service file is allowed; modifying a component is refused with a FORBIDDEN message. */
  method FileOperations(basePath: string, featurePath: string) returns (allowed: Option<string>, refused: Option<string>)
    requires '\\' !in featurePath
    ensures allowed == None
    ensures refused.Some? && StartsWith(refused.value, FORBIDDEN)
  {
    var orchestrator := new AgentOrchestrator(basePath);
    allowed := orchestrator.CheckFileOperation(LOGIC_AGENT, "create", basePath + "/lib/services/service.ts", false);
    LogicCannotModifyComponent(featurePath);
    refused := orchestrator.CheckFileOperation(LOGIC_AGENT, "modify", featurePath + "/components/" + "Form.tsx", true);
  }

  /**
   * The whole collaboration: a full feature request starts the UI agent, its
   * delivered foundation is accepted, and the follow-up backend request on that
   * feature starts the logic agent.
   */
  method FullFeatureWorkflow(basePath: string) returns (first: ExecutionResult, delivered: ExecutionResult, second: ExecutionResult)
    ensures first == ExecutionResult(UI_AGENT, Running, None)
    ensures delivered == ExecutionResult(UI_AGENT, AgentStatus.Completed, None)
    ensures second == ExecutionResult(LOGIC_AGENT, Running, None)
  {
    var orchestrator := new AgentOrchestrator(basePath);
    FullFeatureRequest();
    first := orchestrator.ProcessRequest(map[], map[], "시간 거래 기능 만들어줘", None);
    var featurePath := Join(Join(basePath, "app"), "time-slots");
    var fs := map[featurePath := Snapshot(true, true, true, true)];
    delivered := orchestrator.VerifyAgentCompletion(fs, UI_AGENT, featurePath);
    MakeItWorkRequest();
    second := orchestrator.ProcessRequest(fs, fs, "이제 실제로 작동하게 해줘", Some(featurePath));
  }
}
