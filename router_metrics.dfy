/**
 * `RoutingMetrics`: seven named counters kept by the orchestrator, and the
 * success rate derived from them.
 */
module RouterMetrics {
  import opened Router

  const TOTAL_REQUESTS := "total_requests"
  const ROUTED_TO_UI := "routed_to_ui"
  const ROUTED_TO_BACKEND := "routed_to_backend"
  const BLOCKED_MISSING_PREREQUISITES := "blocked_missing_prerequisites"
  const BLOCKED_INCOMPLETE_UI := "blocked_incomplete_ui"
  const BLOCKED_FILE_CONFLICTS := "blocked_file_conflicts"
  const SUCCESSFUL_COLLABORATIONS := "successful_collaborations"

  const COUNTER_NAMES: set<string> := {
    TOTAL_REQUESTS, ROUTED_TO_UI, ROUTED_TO_BACKEND, BLOCKED_MISSING_PREREQUISITES,
    BLOCKED_INCOMPLETE_UI, BLOCKED_FILE_CONFLICTS, SUCCESSFUL_COLLABORATIONS
  }

  /** `after` has the same counters as `before`, those named in `bumped` one higher, the rest unchanged. */
  predicate Bumped(before: map<string, nat>, after: map<string, nat>, bumped: set<string>) {
    && after.Keys == before.Keys
    && bumped <= before.Keys
    && forall name :: name in before ==> after[name] == before[name] + (if name in bumped then 1 else 0)
  }

  /** The counter `record_block` increments for a reason, if it knows the reason. */
  function BlockCounter(reason: string): (counter: set<string>)
    ensures counter <= {BLOCKED_MISSING_PREREQUISITES, BLOCKED_INCOMPLETE_UI, BLOCKED_FILE_CONFLICTS}
    ensures TOTAL_REQUESTS !in counter && |counter| <= 1
    ensures reason == "missing_prerequisites" ==> counter == {BLOCKED_MISSING_PREREQUISITES}
    ensures reason == "incomplete_ui" ==> counter == {BLOCKED_INCOMPLETE_UI}
    ensures reason == "file_conflicts" ==> counter == {BLOCKED_FILE_CONFLICTS}
    ensures counter == {} <==> reason !in {"missing_prerequisites", "incomplete_ui", "file_conflicts"}
  {
    if reason == "missing_prerequisites" then {BLOCKED_MISSING_PREREQUISITES}
    else if reason == "incomplete_ui" then {BLOCKED_INCOMPLETE_UI}
    else if reason == "file_conflicts" then {BLOCKED_FILE_CONFLICTS}
    else {}
  }

  /** The counters `record_route` increments for an agent. */
  function RouteCounters(agent: string): (counters: set<string>)
    ensures TOTAL_REQUESTS in counters && counters <= COUNTER_NAMES
    ensures ROUTED_TO_UI in counters <==> agent == UI_AGENT
    ensures ROUTED_TO_BACKEND in counters <==> agent == LOGIC_AGENT
    ensures counters <= {TOTAL_REQUESTS, ROUTED_TO_UI, ROUTED_TO_BACKEND}
  {
    if agent == UI_AGENT then {TOTAL_REQUESTS, ROUTED_TO_UI}
    else if agent == LOGIC_AGENT then {TOTAL_REQUESTS, ROUTED_TO_BACKEND}
    else {TOTAL_REQUESTS}
  }

  /** `get_success_rate`'s formula: one minus the share of blocked operations among routed requests. */
  function Rate(total: nat, blocked: nat): (r: real)
    ensures total == 0 ==> r == 1.0
    ensures r <= 1.0
    ensures total > 0 ==> (r == 1.0 <==> blocked == 0)
    ensures total > 0 ==> (r >= 0.0 <==> blocked <= total)
  {
    if total == 0 then 1.0 else 1.0 - (blocked as real) / (total as real)
  }

  class RoutingMetrics {
    var metrics: map<string, nat>

    /** Exactly the seven counters exist, and no request is routed to two agents. */
    ghost predicate Valid()
      reads this
    {
      && metrics.Keys == COUNTER_NAMES
      && metrics[ROUTED_TO_UI] + metrics[ROUTED_TO_BACKEND] <= metrics[TOTAL_REQUESTS]
    }

    constructor()
      ensures Valid()
      ensures forall name :: name in COUNTER_NAMES ==> metrics[name] == 0
    {
      metrics := map name | name in COUNTER_NAMES :: 0;
    }

    /** `record_route`: one more request, credited to the agent when it is one of the two. */
    method RecordRoute(agent: string)
      requires Valid()
      modifies this
      ensures Valid()
      ensures Bumped(old(metrics), metrics, RouteCounters(agent))
    {
      var bumped := RouteCounters(agent);
      metrics := map name | name in metrics :: metrics[name] + (if name in bumped then 1 else 0);
    }

    /** `record_block`: one more block under a known reason; an unknown reason changes nothing. */
    method RecordBlock(reason: string)
      requires Valid()
      modifies this
      ensures Valid()
      ensures Bumped(old(metrics), metrics, BlockCounter(reason))
      ensures BlockCounter(reason) == {} ==> metrics == old(metrics)
    {
      var bumped := BlockCounter(reason);
      metrics := map name | name in metrics :: metrics[name] + (if name in bumped then 1 else 0);
    }

    /** `record_success`: one more successful collaboration. */
    method RecordSuccess()
      requires Valid()
      modifies this
      ensures Valid()
      ensures Bumped(old(metrics), metrics, {SUCCESSFUL_COLLABORATIONS})
    {
      metrics := metrics[SUCCESSFUL_COLLABORATIONS := metrics[SUCCESSFUL_COLLABORATIONS] + 1];
    }

    /** `get_metrics`: a copy of the counters, unaffected by later updates. */
    method GetMetrics() returns (snapshot: map<string, nat>)
      requires Valid()
      ensures snapshot == metrics && snapshot.Keys == COUNTER_NAMES
    {
      snapshot := metrics;
    }

    /** The three blocked counters together. */
    function Blocked(): (n: nat)
      reads this
      requires Valid()
      ensures n >= metrics[BLOCKED_FILE_CONFLICTS]
    {
      metrics[BLOCKED_MISSING_PREREQUISITES] + metrics[BLOCKED_INCOMPLETE_UI] + metrics[BLOCKED_FILE_CONFLICTS]
    }

    /** `get_success_rate`: never above 1.0, and below 0.0 once more operations were blocked than requests routed. */
    function SuccessRate(): (r: real)
      reads this
      requires Valid()
      ensures r <= 1.0
      ensures metrics[TOTAL_REQUESTS] == 0 ==> r == 1.0
      ensures Blocked() == 0 ==> r == 1.0
      ensures r < 0.0 <==> Blocked() > metrics[TOTAL_REQUESTS] > 0
    {
      Rate(metrics[TOTAL_REQUESTS], Blocked())
    }
  }

  /** Bumps only ever raise counters. */
  lemma BumpedNeverDecreases(before: map<string, nat>, after: map<string, nat>, bumped: set<string>, name: string)
    requires Bumped(before, after, bumped) && name in before
    ensures after[name] >= before[name]
    ensures name in bumped <==> after[name] > before[name]
  {
  }
}
