/**
 * `AgentOrchestrator`: runs one request through the router (route, locate the
 * feature, check prerequisites), turns the outcome into an `ExecutionResult`,
 * and keeps `RoutingMetrics` up to date.
 */
module Orchestrator {
  import opened Wrappers
  import opened Sequences
  import opened Text
  import opened Workspace
  import opened FeaturePath
  import opened Router
  import opened RouterMetrics

  datatype AgentStatus = Idle | Running | Completed | Failed | Blocked

  /** An `ExecutionResult` without its human-readable message, file lists and timestamp. */
  datatype ExecutionResult = ExecutionResult(agent: string, status: AgentStatus, error: Option<string>)

  const ERROR_AGENT := "error"
  const MISSING_UI_FOUNDATION_ERROR := "MissingUIFoundation"
  const UNKNOWN_ROUTING_ERROR := "UnknownRoutingError"
  const MISSING_PREREQUISITES_ERROR := "MissingPrerequisitesError"
  const INCOMPLETE_DELIVERY_ERROR := "IncompleteDeliveryError"
  const UNKNOWN_AGENT_ERROR := "UnknownAgent"

  /** Of the three values routing produces, exactly the refusal carries the error prefix. */
  lemma RouteOutcomesMarked()
    ensures StartsWith(MISSING_UI_FOUNDATION, ERROR_PREFIX)
    ensures !StartsWith(UI_AGENT, ERROR_PREFIX) && !StartsWith(LOGIC_AGENT, ERROR_PREFIX)
  {
    assert UI_AGENT[0] != ERROR_PREFIX[0];
    assert LOGIC_AGENT[0] != ERROR_PREFIX[0];
  }

  /** `_create_execution_plan`: either agent starts running; any other name fails. */
  function CreateExecutionPlan(agent: string): (r: ExecutionResult)
    ensures r.agent == agent
    ensures r.status == Running <==> agent == UI_AGENT || agent == LOGIC_AGENT
    ensures r.status == Running ==> r.error == None
    ensures r.status != Running ==> r.status == Failed && r.error == Some(UNKNOWN_AGENT_ERROR)
  {
    if agent == UI_AGENT || agent == LOGIC_AGENT then ExecutionResult(agent, Running, None)
    else ExecutionResult(agent, Failed, Some(UNKNOWN_AGENT_ERROR))
  }

  /** The guard a file operation goes through; operations other than create and modify have none. */
  function FileGuard(config: RouterConfig, agent: string, operation: string, filePath: string, fileExists: bool): (g: Guard)
    ensures g.Forbidden? ==> config.preventFileConflicts && agent == LOGIC_AGENT
    ensures g.Forbidden? ==> operation == "create" || operation == "modify"
    ensures g.PermitWithWarning? ==> operation == "create" && fileExists
    ensures operation == "create" ==>
      (g.Forbidden? <==> config.preventFileConflicts && agent == LOGIC_AGENT && fileExists && EndsWith(filePath, "api.ts"))
    ensures operation == "modify" ==>
      (g.Forbidden? <==> config.preventFileConflicts && agent == LOGIC_AGENT && ContainsAny(NormalizedPath(filePath), UI_DIRECTORIES))
    ensures g.PermitWithWarning? <==>
      && operation == "create" && config.preventFileConflicts && agent == LOGIC_AGENT
      && fileExists && EndsWith(filePath, "types.ts") && !EndsWith(filePath, "api.ts")
    ensures g.Forbidden? ==> StartsWith(g.message, FORBIDDEN)
  {
    if operation == "create" then BeforeCreateFile(config, agent, filePath, fileExists)
    else if operation == "modify" then BeforeModifyFile(config, agent, filePath)
    else Permit
  }

  /** `get_metrics`' report. */
  datatype MetricsReport = MetricsReport(
    counters: map<string, nat>,
    successRate: real,
    totalExecutions: nat,
    recentHistory: seq<ExecutionResult>)

  class AgentOrchestrator {
    const basePath: string
    /** The configuration of the orchestrator's own `AgentRouter`. */
    const config: RouterConfig
    const metrics: RoutingMetrics
    var history: seq<ExecutionResult>
    var currentAgent: Option<string>
    var currentFeaturePath: Option<string>

    /** The counters are consistent; nothing ever appends to the history or sets the current agent. */
    ghost predicate Valid()
      reads this, metrics
    {
      && metrics.Valid()
      && config == DEFAULT_CONFIG
      && history == []
      && currentAgent == None
    }

    constructor(basePath: string)
      ensures Valid() && fresh(metrics)
      ensures this.basePath == basePath && config == DEFAULT_CONFIG
      ensures currentFeaturePath == None
      ensures forall name :: name in COUNTER_NAMES ==> metrics.metrics[name] == 0
    {
      this.basePath := basePath;
      config := DEFAULT_CONFIG;
      metrics := new RoutingMetrics();
      history := [];
      currentAgent := None;
      currentFeaturePath := None;
    }

    /** `_handle_routing_error`: a missing foundation blocks the logic agent; any other code is a failure. */
    method HandleRoutingError(errorCode: string) returns (r: ExecutionResult)
      requires Valid()
      modifies metrics
      ensures Valid()
      ensures errorCode == MISSING_UI_FOUNDATION ==>
        && r == ExecutionResult(LOGIC_AGENT, Blocked, Some(MISSING_UI_FOUNDATION_ERROR))
        && Bumped(old(metrics.metrics), metrics.metrics, {BLOCKED_MISSING_PREREQUISITES})
      ensures errorCode != MISSING_UI_FOUNDATION ==>
        && r == ExecutionResult(ERROR_AGENT, Failed, Some(UNKNOWN_ROUTING_ERROR))
        && metrics.metrics == old(metrics.metrics)
    {
      if errorCode == MISSING_UI_FOUNDATION {
        metrics.RecordBlock("missing_prerequisites");
        return ExecutionResult(LOGIC_AGENT, Blocked, Some(MISSING_UI_FOUNDATION_ERROR));
      }
      return ExecutionResult(ERROR_AGENT, Failed, Some(UNKNOWN_ROUTING_ERROR));
    }

    /**
     * `process_request`. The filesystem is read once while routing (`fsAtRoute`)
     * and once more while checking prerequisites (`fsAtVerify`).
     */
    method ProcessRequest(fsAtRoute: FileTree, fsAtVerify: FileTree, message: string, currentPath: Option<string>)
      returns (r: ExecutionResult)
      requires Valid()
      modifies metrics, this`currentFeaturePath
      ensures Valid()
      // a refused route: the logic agent is blocked, the feature path is not recorded
      ensures RouteRequest(basePath, fsAtRoute, message, currentPath) == MISSING_UI_FOUNDATION ==>
        && r == ExecutionResult(LOGIC_AGENT, Blocked, Some(MISSING_UI_FOUNDATION_ERROR))
        && Bumped(old(metrics.metrics), metrics.metrics, {BLOCKED_MISSING_PREREQUISITES})
        && currentFeaturePath == old(currentFeaturePath)
      // a routed request: the feature path is recorded, then prerequisites decide
      ensures RouteRequest(basePath, fsAtRoute, message, currentPath) != MISSING_UI_FOUNDATION ==>
        currentFeaturePath == Some(ExtractFeaturePath(basePath, message, currentPath))
      ensures var agent := RouteRequest(basePath, fsAtRoute, message, currentPath);
        agent != MISSING_UI_FOUNDATION && !MayRun(config, agent, fsAtVerify, ExtractFeaturePath(basePath, message, currentPath)) ==>
        && r == ExecutionResult(agent, Blocked, Some(MISSING_PREREQUISITES_ERROR))
        && Bumped(old(metrics.metrics), metrics.metrics, {BLOCKED_MISSING_PREREQUISITES})
      ensures var agent := RouteRequest(basePath, fsAtRoute, message, currentPath);
        agent != MISSING_UI_FOUNDATION && MayRun(config, agent, fsAtVerify, ExtractFeaturePath(basePath, message, currentPath)) ==>
        && r == ExecutionResult(agent, Running, None)
        && Bumped(old(metrics.metrics), metrics.metrics, RouteCounters(agent))
      // the collaboration rule: the logic agent only runs on a foundation found at both reads
      ensures r.agent == LOGIC_AGENT && r.status == Running ==>
        && FoundationFound(basePath, fsAtRoute, message, currentPath)
        && CheckExistingFiles(fsAtVerify, ExtractFeaturePath(basePath, message, currentPath)).uiComplete
      // with an unchanged filesystem the second check never refuses what routing accepted
      ensures fsAtVerify == fsAtRoute ==> r.error != Some(MISSING_PREREQUISITES_ERROR)
    {
      var agent := RouteRequest(basePath, fsAtRoute, message, currentPath);
      RouteOutcomesMarked();
      if StartsWith(agent, ERROR_PREFIX) {
        r := HandleRoutingError(agent);
        return;
      }
      var featurePath := ExtractFeaturePath(basePath, message, currentPath);
      currentFeaturePath := Some(featurePath);
      var canRun, missing := VerifyPrerequisites(config, agent, fsAtVerify, featurePath);
      if !canRun {
        metrics.RecordBlock("missing_prerequisites");
        return ExecutionResult(agent, Blocked, Some(MISSING_PREREQUISITES_ERROR));
      }
      metrics.RecordRoute(agent);
      r := CreateExecutionPlan(agent);
    }

    /** `verify_agent_completion`: a finished agent is marked completed, or blocked if its deliverables are missing. */
    method VerifyAgentCompletion(fs: FileTree, agent: string, featurePath: string) returns (r: ExecutionResult)
      requires Valid()
      modifies metrics
      ensures Valid()
      ensures DeliveryAccepted(config, agent, fs, featurePath) ==>
        && r == ExecutionResult(agent, AgentStatus.Completed, None)
        && Bumped(old(metrics.metrics), metrics.metrics, {SUCCESSFUL_COLLABORATIONS})
      ensures !DeliveryAccepted(config, agent, fs, featurePath) ==>
        && r == ExecutionResult(agent, Blocked, Some(INCOMPLETE_DELIVERY_ERROR))
        && Bumped(old(metrics.metrics), metrics.metrics, {BLOCKED_INCOMPLETE_UI})
    {
      var complete, missing := VerifyCompletion(config, agent, fs, featurePath);
      if !complete {
        metrics.RecordBlock("incomplete_ui");
        return ExecutionResult(agent, Blocked, Some(INCOMPLETE_DELIVERY_ERROR));
      }
      metrics.RecordSuccess();
      return ExecutionResult(agent, AgentStatus.Completed, None);
    }

    /** `check_file_operation`: the guard's message when forbidden (counted as a file conflict), otherwise nothing. */
    method CheckFileOperation(agent: string, operation: string, filePath: string, fileExists: bool)
      returns (error: Option<string>)
      requires Valid()
      modifies metrics
      ensures Valid()
      ensures var guard := FileGuard(config, agent, operation, filePath, fileExists);
        && (error.Some? <==> guard.Forbidden?)
        && (guard.Forbidden? ==> error.value == guard.message)
        && Bumped(old(metrics.metrics), metrics.metrics, if guard.Forbidden? then {BLOCKED_FILE_CONFLICTS} else {})
    {
      var guard := FileGuard(config, agent, operation, filePath, fileExists);
      if guard.Forbidden? {
        metrics.RecordBlock("file_conflicts");
        return Some(guard.message);
      }
      return None;
    }

    /** `get_metrics`: the counters, the success rate, and an execution history that is always empty. */
    method GetMetrics() returns (report: MetricsReport)
      requires Valid()
      ensures report.counters == metrics.metrics
      ensures report.successRate == metrics.SuccessRate()
      ensures report.totalExecutions == 0 && report.recentHistory == []
    {
      var counters := metrics.GetMetrics();
      report := MetricsReport(counters, metrics.SuccessRate(), |history|, Last(history, 10));
    }
  }

  /** An operation other than create or modify is never refused. */
  lemma OtherOperationsPermitted(config: RouterConfig, agent: string, operation: string, filePath: string, fileExists: bool)
    requires operation != "create" && operation != "modify"
    ensures FileGuard(config, agent, operation, filePath, fileExists) == Permit
  {
  }
}
