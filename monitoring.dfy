/**
 * `MetricsCollector`: counters, routing-decision timings, errors grouped by
 * type and a bounded history of events. Every counter the collector keeps is
 * tied to the full sequence of recorded events, of which the history is the
 * tail.
 */
module Monitoring {
  import opened Wrappers
  import opened Sequences
  import opened Text
  import opened RouterMetrics

  /** A history entry, without its timestamp. */
  datatype Event =
    | RoutingDecision(agent: string, requestType: string, durationMs: Option<real>)
    | PrerequisiteCheck(agent: string, passed: bool, missingFiles: seq<string>)
    | CompletionVerification(agent: string, passed: bool, missingDeliverables: seq<string>)
    | FileOperation(agent: string, operation: string, filePath: string, allowed: bool, error: Option<string>)
    | ErrorEvent(errorType: string, errorMessage: string)

  /** An entry of `errors`, without its timestamp and context. */
  datatype ErrorEntry = ErrorEntry(errorType: string, errorMessage: string)

  const RECENT_EVENTS: nat := 10
  const ROUTING_DECISION := "routing_decision"

  // ---------------------------------------------------------------------------
  // Counters

  /** The counters of `counters`; `KeyName` gives the string each is filed under. */
  datatype CounterKey =
    | TotalRoutingDecisions | RoutedTo(agent: string) | RequestTypeCount(requestType: string)
    | TotalPrerequisiteChecks | PrerequisiteChecksPassed | PrerequisiteChecksFailed | BlockedAgent(agent: string)
    | TotalCompletionVerifications | CompletionVerificationsPassed | CompletionVerificationsFailed
    | SuccessfulAgent(agent: string)
    | TotalFileOperations | FileOperationsAllowed | FileOperationsBlocked | ConflictPreventions
    | TotalErrors | ErrorCount(errorType: string)

  function KeyName(key: CounterKey): string {
    match key
    case TotalRoutingDecisions => "total_routing_decisions"
    case RoutedTo(agent) => "routed_to_" + agent
    case RequestTypeCount(requestType) => "request_type_" + requestType
    case TotalPrerequisiteChecks => "total_prerequisite_checks"
    case PrerequisiteChecksPassed => "prerequisite_checks_passed"
    case PrerequisiteChecksFailed => "prerequisite_checks_failed"
    case BlockedAgent(agent) => "blocked_" + agent
    case TotalCompletionVerifications => "total_completion_verifications"
    case CompletionVerificationsPassed => "completion_verifications_passed"
    case CompletionVerificationsFailed => "completion_verifications_failed"
    case SuccessfulAgent(agent) => "successful_" + agent
    case TotalFileOperations => "total_file_operations"
    case FileOperationsAllowed => "file_operations_allowed"
    case FileOperationsBlocked => "file_operations_blocked"
    case ConflictPreventions => "conflict_preventions"
    case TotalErrors => "total_errors"
    case ErrorCount(errorType) => "error_" + errorType
  }

  /** Reads a counter's name back: the per-name prefixes first, then the fixed names. */
  function ParseKey(name: string): Option<CounterKey> {
    if name == [] then None
    else if name[0] == 'r' then
      if StartsWith(name, "routed_to_") then Some(RoutedTo(name[10..]))
      else if StartsWith(name, "request_type_") then Some(RequestTypeCount(name[13..]))
      else None
    else if name[0] == 'b' then
      if StartsWith(name, "blocked_") then Some(BlockedAgent(name[8..])) else None
    else if name[0] == 's' then
      if StartsWith(name, "successful_") then Some(SuccessfulAgent(name[11..])) else None
    else if name[0] == 'e' then
      if StartsWith(name, "error_") then Some(ErrorCount(name[6..])) else None
    else ParseFixed(name)
  }

  function ParseFixed(name: string): Option<CounterKey>
    requires name != []
  {
    if name[0] == 't' then
      if name == "total_routing_decisions" then Some(TotalRoutingDecisions)
      else if name == "total_prerequisite_checks" then Some(TotalPrerequisiteChecks)
      else if name == "total_completion_verifications" then Some(TotalCompletionVerifications)
      else if name == "total_file_operations" then Some(TotalFileOperations)
      else if name == "total_errors" then Some(TotalErrors)
      else None
    else if name[0] == 'p' then
      if name == "prerequisite_checks_passed" then Some(PrerequisiteChecksPassed)
      else if name == "prerequisite_checks_failed" then Some(PrerequisiteChecksFailed)
      else None
    else if name[0] == 'c' then
      if name == "completion_verifications_passed" then Some(CompletionVerificationsPassed)
      else if name == "completion_verifications_failed" then Some(CompletionVerificationsFailed)
      else if name == "conflict_preventions" then Some(ConflictPreventions)
      else None
    else if name[0] == 'f' then
      if name == "file_operations_allowed" then Some(FileOperationsAllowed)
      else if name == "file_operations_blocked" then Some(FileOperationsBlocked)
      else None
    else None
  }

  /** Every counter's name reads back as that counter. */
  lemma ParseKeyName(key: CounterKey)
    ensures ParseKey(KeyName(key)) == Some(key)
  {
    if PerName(key) {
      ParsePerName(key);
    } else {
      ParseFixedName(key);
    }
  }

  lemma ParsePerName(key: CounterKey)
    requires PerName(key)
    ensures ParseKey(KeyName(key)) == Some(key)
  {
    var name := KeyName(key);
    match key
    case RoutedTo(agent) =>
      assert name[..10] == "routed_to_" && name[10..] == agent;
    case RequestTypeCount(requestType) =>
      assert name[1] == 'e' && name[..13] == "request_type_" && name[13..] == requestType;
    case BlockedAgent(agent) =>
      assert name[0] == 'b' && name[..8] == "blocked_" && name[8..] == agent;
    case SuccessfulAgent(agent) =>
      assert name[0] == 's' && name[..11] == "successful_" && name[11..] == agent;
    case ErrorCount(errorType) =>
      assert name[0] == 'e' && name[..6] == "error_" && name[6..] == errorType;
  }

  lemma ParseFixedName(key: CounterKey)
    requires !PerName(key)
    ensures ParseKey(KeyName(key)) == Some(key)
  {
    if IsTotal(key) {
      ParseTotalName(key);
    } else {
      ParseOutcomeName(key);
    }
  }

  /** The five `total_*` counters. */
  predicate IsTotal(key: CounterKey) {
    key.TotalRoutingDecisions? || key.TotalPrerequisiteChecks? || key.TotalCompletionVerifications?
    || key.TotalFileOperations? || key.TotalErrors?
  }

  lemma ParseTotalName(key: CounterKey)
    requires IsTotal(key)
    ensures ParseKey(KeyName(key)) == Some(key)
  {
  }

  lemma ParseOutcomeName(key: CounterKey)
    requires !PerName(key) && !IsTotal(key)
    ensures ParseKey(KeyName(key)) == Some(key)
  {
  }

  /** Distinct counters are filed under distinct names, so keying them by `CounterKey` loses nothing. */
  lemma KeyNameInjective(a: CounterKey, b: CounterKey)
    requires KeyName(a) == KeyName(b)
    ensures a == b
  {
    ParseKeyName(a);
    ParseKeyName(b);
  }

  /** A `defaultdict(int)` read: an absent counter is 0. */
  function CountIn(counters: map<CounterKey, nat>, key: CounterKey): nat {
    if key in counters then counters[key] else 0
  }

  /** `counters[key] += 1`. */
  function Bump(counters: map<CounterKey, nat>, key: CounterKey): (after: map<CounterKey, nat>)
    ensures after.Keys == counters.Keys + {key}
    ensures CountIn(after, key) == CountIn(counters, key) + 1
  {
    counters[key := CountIn(counters, key) + 1]
  }

  // ---------------------------------------------------------------------------
  // What the event log determines

  /** The fixed counters, as the events recorded so far determine them. */
  datatype Totals = Totals(
    routingDecisions: nat,
    prerequisitesPassed: nat, prerequisitesFailed: nat,
    completionsPassed: nat, completionsFailed: nat,
    fileOperationsAllowed: nat, fileOperationsBlocked: nat,
    errors: nat)

  const NO_TOTALS := Totals(0, 0, 0, 0, 0, 0, 0, 0)

  /** What one more event adds. */
  function Step(t: Totals, e: Event): Totals {
    match e
    case RoutingDecision(_, _, _) => t.(routingDecisions := t.routingDecisions + 1)
    case PrerequisiteCheck(_, passed, _) =>
      if passed then t.(prerequisitesPassed := t.prerequisitesPassed + 1)
      else t.(prerequisitesFailed := t.prerequisitesFailed + 1)
    case CompletionVerification(_, passed, _) =>
      if passed then t.(completionsPassed := t.completionsPassed + 1)
      else t.(completionsFailed := t.completionsFailed + 1)
    case FileOperation(_, _, _, allowed, _) =>
      if allowed then t.(fileOperationsAllowed := t.fileOperationsAllowed + 1)
      else t.(fileOperationsBlocked := t.fileOperationsBlocked + 1)
    case ErrorEvent(_, _) => t.(errors := t.errors + 1)
  }

  /** The totals of the first `n` events. */
  function TallyUpTo(log: seq<Event>, n: nat): Totals
    requires n <= |log|
  {
    if n == 0 then NO_TOTALS else Step(TallyUpTo(log, n - 1), log[n - 1])
  }

  function Tally(log: seq<Event>): Totals {
    TallyUpTo(log, |log|)
  }

  /** The totals of a prefix do not depend on what follows it. */
  lemma {:induction false} TallyUpToPrefix(log: seq<Event>, more: seq<Event>, n: nat)
    requires n <= |log|
    ensures TallyUpTo(log + more, n) == TallyUpTo(log, n)
  {
    if n > 0 {
      TallyUpToPrefix(log, more, n - 1);
      assert (log + more)[n - 1] == log[n - 1];
    }
  }

  lemma TallyAppend(log: seq<Event>, e: Event)
    ensures Tally(log + [e]) == Step(Tally(log), e)
  {
    TallyUpToPrefix(log, [e], |log|);
  }

  /** The entry one event adds to `errors[errorType]`, if any. */
  function NewErrors(e: Event, errorType: string): seq<ErrorEntry> {
    if e.ErrorEvent? && e.errorType == errorType then [ErrorEntry(errorType, e.errorMessage)] else []
  }

  /** The entries `errors[errorType]` holds after the log, oldest first. */
  function ErrorsOf(log: seq<Event>, errorType: string): seq<ErrorEntry> {
    if log == [] then [] else ErrorsOf(log[..|log| - 1], errorType) + NewErrors(log[|log| - 1], errorType)
  }

  lemma ErrorsOfAppend(log: seq<Event>, e: Event)
    ensures forall errorType :: ErrorsOf(log + [e], errorType) == ErrorsOf(log, errorType) + NewErrors(e, errorType)
  {
    assert (log + [e])[..|log|] == log;
  }

  /** How many entries `errors` holds under the listed types together. */
  function ErrorsOver(log: seq<Event>, types: seq<string>): nat {
    if types == [] then 0 else |ErrorsOf(log, types[0])| + ErrorsOver(log, types[1..])
  }

  predicate Distinct(types: seq<string>) {
    forall i, j | 0 <= i < j < |types| :: types[i] != types[j]
  }

  /** One more event adds one entry over distinct types exactly when it is an error of a listed type. */
  lemma {:induction false} ErrorsOverAppend(log: seq<Event>, e: Event, types: seq<string>)
    requires Distinct(types)
    ensures ErrorsOver(log + [e], types) == ErrorsOver(log, types) + (if e.ErrorEvent? && e.errorType in types then 1 else 0)
  {
    if types != [] {
      ErrorsOfAppend(log, e);
      assert Distinct(types[1..]);
      ErrorsOverAppend(log, e, types[1..]);
      assert types == [types[0]] + types[1..];
    }
  }

  /** Every error event falls in exactly one `errors` list: `total_errors` is the sum of the per-type counts. */
  lemma {:induction false} ErrorTotalIsSumOfTypes(log: seq<Event>, types: seq<string>)
    requires Distinct(types)
    requires forall i | 0 <= i < |log| && log[i].ErrorEvent? :: log[i].errorType in types
    ensures Tally(log).errors == ErrorsOver(log, types)
  {
    if log == [] {
      assert Tally(log) == NO_TOTALS;
      ErrorsOverEmpty(types);
    } else {
      var init, e := log[..|log| - 1], log[|log| - 1];
      assert log == init + [e];
      ErrorTotalIsSumOfTypes(init, types);
      TallyAppend(init, e);
      ErrorsOverAppend(init, e, types);
    }
  }

  lemma {:induction false} ErrorsOverEmpty(types: seq<string>)
    ensures ErrorsOver([], types) == 0
  {
    if types != [] {
      ErrorsOverEmpty(types[1..]);
    }
  }

  /** An error type of the log has at least one entry in `errors`. */
  lemma {:induction false} LoggedErrorListed(log: seq<Event>, i: nat)
    requires i < |log| && log[i].ErrorEvent?
    ensures |ErrorsOf(log, log[i].errorType)| >= 1
  {
    var init, e := log[..|log| - 1], log[|log| - 1];
    if i < |log| - 1 {
      assert init[i] == log[i];
      LoggedErrorListed(init, i);
    }
  }

  /** The duration one event adds to `timings["routing_decision"]`, if any. */
  function NewDurations(e: Event): seq<real> {
    if e.RoutingDecision? && e.durationMs.Some? then [e.durationMs.value] else []
  }

  /** The durations `timings["routing_decision"]` holds after the log, oldest first. */
  function Durations(log: seq<Event>): seq<real> {
    if log == [] then [] else Durations(log[..|log| - 1]) + NewDurations(log[|log| - 1])
  }

  lemma DurationsAppend(log: seq<Event>, e: Event)
    ensures Durations(log + [e]) == Durations(log) + NewDurations(e)
  {
    assert (log + [e])[..|log|] == log;
  }

  /** The fixed counters agree with the totals of the log. */
  predicate CountersAgree(counters: map<CounterKey, nat>, t: Totals) {
    && CountIn(counters, TotalRoutingDecisions) == t.routingDecisions
    && CountIn(counters, TotalPrerequisiteChecks) == t.prerequisitesPassed + t.prerequisitesFailed
    && CountIn(counters, PrerequisiteChecksPassed) == t.prerequisitesPassed
    && CountIn(counters, PrerequisiteChecksFailed) == t.prerequisitesFailed
    && CountIn(counters, TotalCompletionVerifications) == t.completionsPassed + t.completionsFailed
    && CountIn(counters, CompletionVerificationsPassed) == t.completionsPassed
    && CountIn(counters, CompletionVerificationsFailed) == t.completionsFailed
    && CountIn(counters, TotalFileOperations) == t.fileOperationsAllowed + t.fileOperationsBlocked
    && CountIn(counters, FileOperationsAllowed) == t.fileOperationsAllowed
    && CountIn(counters, FileOperationsBlocked) == t.fileOperationsBlocked
    && CountIn(counters, ConflictPreventions) == t.fileOperationsBlocked
    && CountIn(counters, TotalErrors) == t.errors
  }

  /** The totals the fixed counters spell out. */
  function TotalsOf(counters: map<CounterKey, nat>): Totals {
    Totals(
      CountIn(counters, TotalRoutingDecisions),
      CountIn(counters, PrerequisiteChecksPassed), CountIn(counters, PrerequisiteChecksFailed),
      CountIn(counters, CompletionVerificationsPassed), CountIn(counters, CompletionVerificationsFailed),
      CountIn(counters, FileOperationsAllowed), CountIn(counters, FileOperationsBlocked),
      CountIn(counters, TotalErrors))
  }

  /** Counters that agree with some totals spell out exactly those totals. */
  lemma TotalsOfAgreeing(counters: map<CounterKey, nat>, t: Totals)
    requires CountersAgree(counters, t)
    ensures TotalsOf(counters) == t
  {
  }

  /** The `error_<type>` counters count exactly the error events of each type in the log. */
  ghost predicate ErrorCountsAgree(counters: map<CounterKey, nat>, log: seq<Event>) {
    forall errorType :: CountIn(counters, ErrorCount(errorType)) == |ErrorsOf(log, errorType)|
  }

  /** The `error_<type>` counters of the listed types added up. */
  function ErrorCountsOver(counters: map<CounterKey, nat>, types: seq<string>): nat {
    if types == [] then 0 else CountIn(counters, ErrorCount(types[0])) + ErrorCountsOver(counters, types[1..])
  }

  lemma {:induction false} ErrorCountsOverAgree(counters: map<CounterKey, nat>, log: seq<Event>, types: seq<string>)
    requires ErrorCountsAgree(counters, log)
    ensures ErrorCountsOver(counters, types) == ErrorsOver(log, types)
  {
    if types != [] {
      ErrorCountsOverAgree(counters, log, types[1..]);
    }
  }

  /** A `defaultdict(list)` read. */
  function ListIn<T>(m: map<string, seq<T>>, key: string): seq<T> {
    if key in m then m[key] else []
  }

  /** `errors` holds exactly the error events of the log, grouped by type, and no empty group. */
  ghost predicate ErrorListsAgree(errors: map<string, seq<ErrorEntry>>, log: seq<Event>) {
    && (forall errorType :: ListIn(errors, errorType) == ErrorsOf(log, errorType))
    && (forall errorType :: errorType in errors ==> errors[errorType] != [])
  }

  /** `timings` holds exactly the durations given with the routing decisions of the log. */
  ghost predicate TimingsAgree(timings: map<string, seq<real>>, log: seq<Event>) {
    && timings.Keys <= {ROUTING_DECISION}
    && ListIn(timings, ROUTING_DECISION) == Durations(log)
    && (ROUTING_DECISION in timings ==> timings[ROUTING_DECISION] != [])
  }

  /** The keys counted per agent, request type or error type. */
  predicate PerName(key: CounterKey) {
    key.RoutedTo? || key.RequestTypeCount? || key.BlockedAgent? || key.SuccessfulAgent? || key.ErrorCount?
  }

  /** The counters one event increments, in the order its `record_*` method increments them. */
  function CountedKeys(e: Event): seq<CounterKey> {
    match e
    case RoutingDecision(agent, requestType, _) => [TotalRoutingDecisions, RoutedTo(agent), RequestTypeCount(requestType)]
    case PrerequisiteCheck(agent, passed, _) =>
      if passed then [TotalPrerequisiteChecks, PrerequisiteChecksPassed]
      else [TotalPrerequisiteChecks, PrerequisiteChecksFailed, BlockedAgent(agent)]
    case CompletionVerification(agent, passed, _) =>
      if passed then [TotalCompletionVerifications, CompletionVerificationsPassed, SuccessfulAgent(agent)]
      else [TotalCompletionVerifications, CompletionVerificationsFailed]
    case FileOperation(_, _, _, allowed, _) =>
      if allowed then [TotalFileOperations, FileOperationsAllowed]
      else [TotalFileOperations, FileOperationsBlocked, ConflictPreventions]
    case ErrorEvent(errorType, _) => [TotalErrors, ErrorCount(errorType)]
  }

  /** Increments each of `keys` in turn. */
  function BumpAll(counters: map<CounterKey, nat>, keys: seq<CounterKey>): map<CounterKey, nat>
    decreases |keys|
  {
    if keys == [] then counters else BumpAll(Bump(counters, keys[0]), keys[1..])
  }

  /** Each counter goes up by the number of times it is listed, and the others keep their value. */
  lemma {:induction false} BumpAllCounts(counters: map<CounterKey, nat>, keys: seq<CounterKey>, key: CounterKey)
    ensures CountIn(BumpAll(counters, keys), key) == CountIn(counters, key) + multiset(keys)[key]
    decreases |keys|
  {
    if keys != [] {
      BumpAllCounts(Bump(counters, keys[0]), keys[1..], key);
      assert keys == [keys[0]] + keys[1..];
    }
  }

  lemma BumpTwo(counters: map<CounterKey, nat>, k1: CounterKey, k2: CounterKey)
    ensures BumpAll(counters, [k1, k2]) == Bump(Bump(counters, k1), k2)
  {
    assert [k1, k2][1..] == [k2];
    assert [k2][1..] == [];
    assert BumpAll(Bump(counters, k1), [k2]) == BumpAll(Bump(Bump(counters, k1), k2), []);
  }

  lemma BumpThree(counters: map<CounterKey, nat>, k1: CounterKey, k2: CounterKey, k3: CounterKey)
    ensures BumpAll(counters, [k1, k2, k3]) == Bump(Bump(Bump(counters, k1), k2), k3)
  {
    assert [k1, k2, k3][1..] == [k2, k3];
    BumpTwo(Bump(counters, k1), k2, k3);
  }

  /** What recording one event does to `counters`. */
  function RecordCounters(counters: map<CounterKey, nat>, e: Event): map<CounterKey, nat> {
    BumpAll(counters, CountedKeys(e))
  }

  /** Recording an event raises each counter by the number of times its `record_*` method increments it. */
  lemma RecordCountersCounts(counters: map<CounterKey, nat>, e: Event, key: CounterKey)
    ensures CountIn(RecordCounters(counters, e), key) == CountIn(counters, key) + multiset(CountedKeys(e))[key]
  {
    BumpAllCounts(counters, CountedKeys(e), key);
  }

  /** What recording one event does to `timings`. */
  function RecordTimings(timings: map<string, seq<real>>, e: Event): map<string, seq<real>> {
    if e.RoutingDecision? && e.durationMs.Some? then
      timings[ROUTING_DECISION := ListIn(timings, ROUTING_DECISION) + [e.durationMs.value]]
    else timings
  }

  /** Only a routing decision with a duration appends to `timings`, under `routing_decision`. */
  lemma RecordTimingsAppends(timings: map<string, seq<real>>, e: Event, key: string)
    ensures ListIn(RecordTimings(timings, e), key) == ListIn(timings, key) + (if key == ROUTING_DECISION then NewDurations(e) else [])
  {
  }

  /** What recording one event does to `errors`. */
  function RecordErrors(errors: map<string, seq<ErrorEntry>>, e: Event): map<string, seq<ErrorEntry>> {
    if e.ErrorEvent? then
      errors[e.errorType := ListIn(errors, e.errorType) + [ErrorEntry(e.errorType, e.errorMessage)]]
    else errors
  }

  /** Only an error event appends to `errors`, one entry to its own type's list. */
  lemma RecordErrorsAppends(errors: map<string, seq<ErrorEntry>>, e: Event, errorType: string)
    ensures ListIn(RecordErrors(errors, e), errorType) == ListIn(errors, errorType) + NewErrors(e, errorType)
  {
  }

  /** The three stores `record_*` update. */
  datatype Stores = Stores(
    counters: map<CounterKey, nat>,
    timings: map<string, seq<real>>,
    errors: map<string, seq<ErrorEntry>>)

  const NO_STORES := Stores(map[], map[], map[])

  /** What recording one event does to the stores. */
  function Record(s: Stores, e: Event): Stores {
    Stores(RecordCounters(s.counters, e), RecordTimings(s.timings, e), RecordErrors(s.errors, e))
  }

  /** The stores say what the log says. */
  ghost predicate Agrees(s: Stores, log: seq<Event>) {
    && CountersAgree(s.counters, Tally(log))
    && ErrorCountsAgree(s.counters, log)
    && ErrorListsAgree(s.errors, log)
    && TimingsAgree(s.timings, log)
  }

  lemma NothingRecordedAgrees(s: Stores, log: seq<Event>)
    requires s.counters == map[] && s.timings == map[] && s.errors == map[] && log == []
    ensures Agrees(s, log)
  {
    NoCountsAgree(s.counters, log);
    assert ErrorCountsAgree(s.counters, log);
    assert ErrorListsAgree(s.errors, log);
    assert TimingsAgree(s.timings, log);
  }

  lemma NoCountsAgree(counters: map<CounterKey, nat>, log: seq<Event>)
    requires counters == map[] && log == []
    ensures CountersAgree(counters, Tally(log))
  {
    assert Tally(log) == NO_TOTALS;
    forall key ensures CountIn(counters, key) == 0 {}
  }

  /** Counting a per-name key leaves the fixed counters as they were. */
  lemma BumpPerNameAgrees(counters: map<CounterKey, nat>, t: Totals, key: CounterKey)
    requires CountersAgree(counters, t) && PerName(key)
    ensures CountersAgree(Bump(counters, key), t)
  {
  }

  /** Recording an event moves the fixed counters by the step the event adds to the totals. */
  lemma CountersStep(counters: map<CounterKey, nat>, t: Totals, e: Event)
    requires CountersAgree(counters, t)
    ensures CountersAgree(RecordCounters(counters, e), Step(t, e))
  {
    match e
    case RoutingDecision(agent, requestType, durationMs) => RoutingCountersStep(counters, t, agent, requestType, durationMs);
    case PrerequisiteCheck(agent, passed, missingFiles) => PrerequisiteCountersStep(counters, t, agent, passed, missingFiles);
    case CompletionVerification(agent, passed, missingDeliverables) =>
      CompletionCountersStep(counters, t, agent, passed, missingDeliverables);
    case FileOperation(agent, operation, filePath, allowed, error) =>
      FileOperationCountersStep(counters, t, agent, operation, filePath, allowed, error);
    case ErrorEvent(errorType, errorMessage) => ErrorCountersStep(counters, t, errorType, errorMessage);
  }

  lemma RoutingCountersStep(counters: map<CounterKey, nat>, t: Totals, agent: string, requestType: string, durationMs: Option<real>)
    requires CountersAgree(counters, t)
    ensures CountersAgree(RecordCounters(counters, RoutingDecision(agent, requestType, durationMs)), t.(routingDecisions := t.routingDecisions + 1))
  {
    BumpThree(counters, TotalRoutingDecisions, RoutedTo(agent), RequestTypeCount(requestType));
    var after := t.(routingDecisions := t.routingDecisions + 1);
    var c := Bump(counters, TotalRoutingDecisions);
    assert CountersAgree(c, after);
    BumpPerNameAgrees(c, after, RoutedTo(agent));
    BumpPerNameAgrees(Bump(c, RoutedTo(agent)), after, RequestTypeCount(requestType));
  }

  lemma PrerequisiteCountersStep(counters: map<CounterKey, nat>, t: Totals, agent: string, passed: bool, missingFiles: seq<string>)
    requires CountersAgree(counters, t)
    ensures CountersAgree(RecordCounters(counters, PrerequisiteCheck(agent, passed, missingFiles)),
                          Step(t, PrerequisiteCheck(agent, passed, missingFiles)))
  {
    if passed {
      BumpTwo(counters, TotalPrerequisiteChecks, PrerequisiteChecksPassed);
    } else {
      BumpThree(counters, TotalPrerequisiteChecks, PrerequisiteChecksFailed, BlockedAgent(agent));
      var after := t.(prerequisitesFailed := t.prerequisitesFailed + 1);
      var c := Bump(Bump(counters, TotalPrerequisiteChecks), PrerequisiteChecksFailed);
      assert CountersAgree(c, after);
      BumpPerNameAgrees(c, after, BlockedAgent(agent));
    }
  }

  lemma CompletionCountersStep(counters: map<CounterKey, nat>, t: Totals, agent: string, passed: bool, missingDeliverables: seq<string>)
    requires CountersAgree(counters, t)
    ensures CountersAgree(RecordCounters(counters, CompletionVerification(agent, passed, missingDeliverables)),
                          Step(t, CompletionVerification(agent, passed, missingDeliverables)))
  {
    if !passed {
      BumpTwo(counters, TotalCompletionVerifications, CompletionVerificationsFailed);
    } else {
      BumpThree(counters, TotalCompletionVerifications, CompletionVerificationsPassed, SuccessfulAgent(agent));
      var after := t.(completionsPassed := t.completionsPassed + 1);
      var c := Bump(Bump(counters, TotalCompletionVerifications), CompletionVerificationsPassed);
      assert CountersAgree(c, after);
      BumpPerNameAgrees(c, after, SuccessfulAgent(agent));
    }
  }

  lemma FileOperationCountersStep(counters: map<CounterKey, nat>, t: Totals, agent: string, operation: string, filePath: string,
                                  allowed: bool, error: Option<string>)
    requires CountersAgree(counters, t)
    ensures CountersAgree(RecordCounters(counters, FileOperation(agent, operation, filePath, allowed, error)),
                          Step(t, FileOperation(agent, operation, filePath, allowed, error)))
  {
    if allowed {
      BumpTwo(counters, TotalFileOperations, FileOperationsAllowed);
    } else {
      BumpThree(counters, TotalFileOperations, FileOperationsBlocked, ConflictPreventions);
    }
  }

  lemma ErrorCountersStep(counters: map<CounterKey, nat>, t: Totals, errorType: string, errorMessage: string)
    requires CountersAgree(counters, t)
    ensures CountersAgree(RecordCounters(counters, ErrorEvent(errorType, errorMessage)), t.(errors := t.errors + 1))
  {
    BumpTwo(counters, TotalErrors, ErrorCount(errorType));
    var after := t.(errors := t.errors + 1);
    var c := Bump(counters, TotalErrors);
    assert CountersAgree(c, after);
    BumpPerNameAgrees(c, after, ErrorCount(errorType));
  }

  /** Recording an event adds one to the count of its error type, if it is an error, and to no other. */
  lemma ErrorCountOfRecord(counters: map<CounterKey, nat>, errorType: string, e: Event)
    ensures CountIn(RecordCounters(counters, e), ErrorCount(errorType)) == CountIn(counters, ErrorCount(errorType)) + |NewErrors(e, errorType)|
  {
    match e
    case RoutingDecision(agent, requestType, _) => BumpThree(counters, TotalRoutingDecisions, RoutedTo(agent), RequestTypeCount(requestType));
    case PrerequisiteCheck(agent, passed, _) =>
      if passed { BumpTwo(counters, TotalPrerequisiteChecks, PrerequisiteChecksPassed); }
      else { BumpThree(counters, TotalPrerequisiteChecks, PrerequisiteChecksFailed, BlockedAgent(agent)); }
    case CompletionVerification(agent, passed, _) =>
      if passed { BumpThree(counters, TotalCompletionVerifications, CompletionVerificationsPassed, SuccessfulAgent(agent)); }
      else { BumpTwo(counters, TotalCompletionVerifications, CompletionVerificationsFailed); }
    case FileOperation(_, _, _, allowed, _) =>
      if allowed { BumpTwo(counters, TotalFileOperations, FileOperationsAllowed); }
      else { BumpThree(counters, TotalFileOperations, FileOperationsBlocked, ConflictPreventions); }
    case ErrorEvent(recordedType, _) => BumpTwo(counters, TotalErrors, ErrorCount(recordedType));
  }

  /** Recording an event adds its error, if any, to the count of its type. */
  lemma ErrorCountsStep(counters: map<CounterKey, nat>, log: seq<Event>, e: Event)
    requires ErrorCountsAgree(counters, log)
    ensures ErrorCountsAgree(RecordCounters(counters, e), log + [e])
  {
    ErrorsOfAppend(log, e);
    forall errorType ensures CountIn(RecordCounters(counters, e), ErrorCount(errorType)) == |ErrorsOf(log + [e], errorType)| {
      ErrorCountOfRecord(counters, errorType, e);
    }
  }

  /** Recording an event appends its error, if any, to the list of its type. */
  lemma ErrorListsStep(errors: map<string, seq<ErrorEntry>>, log: seq<Event>, e: Event)
    requires ErrorListsAgree(errors, log)
    ensures ErrorListsAgree(RecordErrors(errors, e), log + [e])
  {
    ErrorsOfAppend(log, e);
  }

  /** Recording an event appends its duration, if any, to the routing-decision timings. */
  lemma TimingsStep(timings: map<string, seq<real>>, log: seq<Event>, e: Event)
    requires TimingsAgree(timings, log)
    ensures TimingsAgree(RecordTimings(timings, e), log + [e])
  {
    DurationsAppend(log, e);
  }

  /** Recording an event keeps the stores in agreement with the log extended by it. */
  lemma RecordAgrees(s: Stores, log: seq<Event>, e: Event)
    requires Agrees(s, log)
    ensures Agrees(Record(s, e), log + [e])
  {
    TallyAppend(log, e);
    CountersStep(s.counters, Tally(log), e);
    ErrorCountsStep(s.counters, log, e);
    ErrorListsStep(s.errors, log, e);
    TimingsStep(s.timings, log, e);
  }

  /** The stores after recording the first `n` events of the log, starting from empty ones. */
  function ReplayUpTo(log: seq<Event>, n: nat): Stores
    requires n <= |log|
  {
    if n == 0 then NO_STORES else Record(ReplayUpTo(log, n - 1), log[n - 1])
  }

  /** The stores a fresh collector holds after recording the log. */
  function Replay(log: seq<Event>): Stores {
    ReplayUpTo(log, |log|)
  }

  lemma {:induction false} ReplayUpToPrefix(log: seq<Event>, more: seq<Event>, n: nat)
    requires n <= |log|
    ensures ReplayUpTo(log + more, n) == ReplayUpTo(log, n)
  {
    if n > 0 {
      ReplayUpToPrefix(log, more, n - 1);
      assert (log + more)[n - 1] == log[n - 1];
    }
  }

  lemma ReplayAppend(log: seq<Event>, e: Event)
    ensures Replay(log + [e]) == Record(Replay(log), e)
  {
    ReplayUpToPrefix(log, [e], |log|);
  }

  /** Whatever was recorded, the stores say what the log says. */
  lemma {:induction false} ReplayAgrees(log: seq<Event>)
    ensures Agrees(Replay(log), log)
  {
    if log == [] {
      NothingRecordedAgrees(Replay(log), log);
    } else {
      var init, e := log[..|log| - 1], log[|log| - 1];
      assert log == init + [e];
      ReplayAgrees(init);
      RecordAgrees(Replay(init), init, e);
      ReplayAppend(init, e);
    }
  }

  // ---------------------------------------------------------------------------
  // Success rate

  /** `get_success_rate` as written: the blocked outcomes of all three checks against routing decisions only. */
  function RateAsWritten(t: Totals): (r: real)
    ensures r <= 1.0
    ensures t.routingDecisions == 0 ==> r == 1.0
  {
    Rate(t.routingDecisions, t.prerequisitesFailed + t.completionsFailed + t.fileOperationsBlocked)
  }

  /** One routing decision followed by two failed prerequisite checks drives the rate to -1.0. */
  lemma RateAsWrittenGoesNegative()
    ensures var log := [
        RoutingDecision("feature-logic-implementer", "backend_only", None),
        PrerequisiteCheck("feature-logic-implementer", false, ["types.ts"]),
        PrerequisiteCheck("feature-logic-implementer", false, ["types.ts"])];
      RateAsWritten(Tally(log)) == -1.0
  {
    var decision := RoutingDecision("feature-logic-implementer", "backend_only", None);
    var check := PrerequisiteCheck("feature-logic-implementer", false, ["types.ts"]);
    TallyAppend([], decision);
    TallyAppend([decision], check);
    TallyAppend([decision, check], check);
    assert [decision] == [] + [decision];
    assert [decision, check] == [decision] + [check];
    assert [decision, check, check] == [decision, check] + [check];
  }

  /** The success rate held to the 0.0 to 1.0 range the collector documents. */
  function ClampedRate(t: Totals): (r: real)
    ensures 0.0 <= r <= 1.0
    ensures 0.0 <= RateAsWritten(t) ==> r == RateAsWritten(t)
    ensures RateAsWritten(t) < 0.0 ==> r == 0.0
  {
    var rate := RateAsWritten(t);
    if rate < 0.0 then 0.0 else rate
  }

  // ---------------------------------------------------------------------------
  // Timing summaries

  datatype TimingStats = TimingStats(count: nat, avgMs: real, minMs: real, maxMs: real)

  /** Python's `sum`, adding from the left. */
  function Sum(values: seq<real>): real {
    if values == [] then 0.0 else Sum(values[..|values| - 1]) + values[|values| - 1]
  }

  /** Summing two runs of durations one after the other is adding their sums. */
  lemma {:induction false} SumConcat(a: seq<real>, b: seq<real>)
    ensures Sum(a + b) == Sum(a) + Sum(b)
    decreases |b|
  {
    if b == [] {
      assert a + b == a;
    } else {
      var init := b[..|b| - 1];
      SumConcat(a, init);
      assert (a + b)[..|a + b| - 1] == a + init;
      assert (a + b)[|a + b| - 1] == b[|b| - 1];
      assert Sum(a + b) == Sum(a + init) + b[|b| - 1];
      assert Sum(b) == Sum(init) + b[|b| - 1];
    }
  }

  function Min(values: seq<real>): (m: real)
    requires values != []
    ensures m in values && forall v :: v in values ==> m <= v
  {
    if |values| == 1 then values[0]
    else
      var init := values[..|values| - 1];
      assert values == init + [values[|values| - 1]];
      var rest := Min(init);
      if values[|values| - 1] < rest then values[|values| - 1] else rest
  }

  function Max(values: seq<real>): (m: real)
    requires values != []
    ensures m in values && forall v :: v in values ==> v <= m
  {
    if |values| == 1 then values[0]
    else
      var init := values[..|values| - 1];
      assert values == init + [values[|values| - 1]];
      var rest := Max(init);
      if values[|values| - 1] > rest then values[|values| - 1] else rest
  }

  /** A sum of values lies between their count times any lower bound and times any upper bound. */
  lemma {:induction false} SumBounds(values: seq<real>, lo: real, hi: real)
    requires forall i :: 0 <= i < |values| ==> lo <= values[i] <= hi
    ensures (|values| as real) * lo <= Sum(values) <= (|values| as real) * hi
  {
    if values != [] {
      var init := values[..|values| - 1];
      SumBounds(init, lo, hi);
      assert Sum(values) == Sum(init) + values[|values| - 1];
      assert (|values| as real) * lo == (|init| as real) * lo + lo;
      assert (|values| as real) * hi == (|init| as real) * hi + hi;
    }
  }

  /** `sum(values) / len(values)`: the value that, taken as often as there are values, adds up to their sum. */
  function Mean(values: seq<real>): (m: real)
    requires values != []
    ensures m * (|values| as real) == Sum(values)
  {
    Sum(values) / (|values| as real)
  }

  /** The mean of values lies between any lower and upper bound of them. */
  lemma MeanBetween(values: seq<real>, lo: real, hi: real)
    requires values != []
    requires forall i :: 0 <= i < |values| ==> lo <= values[i] <= hi
    ensures lo <= Mean(values) <= hi
  {
    SumBounds(values, lo, hi);
    var n := |values| as real;
    assert lo * n <= Mean(values) * n <= hi * n;
  }

  /** A `timings` entry of `get_summary`: count, mean, smallest and largest duration (all zero when empty). */
  function Stats(values: seq<real>): (s: TimingStats)
    ensures s.count == |values|
    ensures values == [] ==> s == TimingStats(0, 0.0, 0.0, 0.0)
    ensures values != [] ==> s.minMs in values && s.maxMs in values
    ensures forall v :: v in values ==> s.minMs <= v <= s.maxMs
    ensures values != [] ==> s.minMs <= s.avgMs <= s.maxMs
    ensures values != [] ==> s.avgMs == Mean(values)
  {
    if values == [] then TimingStats(0, 0.0, 0.0, 0.0)
    else
      var lo, hi := Min(values), Max(values);
      assert forall i | 0 <= i < |values| :: values[i] in values;
      MeanBetween(values, lo, hi);
      TimingStats(|values|, Mean(values), lo, hi)
  }

  /** What `get_summary` returns, without the uptime. */
  datatype Summary = Summary(counters: map<CounterKey, nat>, timings: map<string, TimingStats>, recentEvents: seq<Event>)

  // ---------------------------------------------------------------------------
  // The collector

  class MetricsCollector {
    const historySize: nat
    var counters: map<CounterKey, nat>
    var timings: map<string, seq<real>>
    var errors: map<string, seq<ErrorEntry>>
    /** `event_history`: a deque holding at most `historySize` events. */
    var history: seq<Event>
    /** Every event recorded since construction. */
    ghost var recorded: seq<Event>

    ghost predicate Valid()
      reads this
    {
      && history == Last(recorded, historySize)
      && Stores(counters, timings, errors) == Replay(recorded)
    }

    function Count(key: CounterKey): nat
      reads this
    {
      CountIn(counters, key)
    }

    constructor(historySize: nat)
      ensures Valid()
      ensures this.historySize == historySize
      ensures recorded == [] && history == []
      ensures counters == map[] && timings == map[] && errors == map[]
    {
      this.historySize := historySize;
      counters := map[];
      timings := map[];
      errors := map[];
      history := [];
      recorded := [];
    }

    /** Appends to the bounded history: when it is full the oldest event is dropped. */
    method Remember(e: Event)
      requires history == Last(recorded, historySize)
      modifies this`history, this`recorded
      ensures recorded == old(recorded) + [e]
      ensures history == Last(recorded, historySize)
      ensures |history| <= historySize
    {
      LastAppend(recorded, e, historySize);
      if historySize == 0 {
      } else if |history| == historySize {
        history := history[1..] + [e];
      } else {
        history := history + [e];
      }
      recorded := recorded + [e];
    }

    /** `record_routing_decision`. */
    method RecordRoutingDecision(agent: string, requestType: string, durationMs: Option<real>)
      requires Valid()
      modifies this
      ensures Valid()
      ensures recorded == old(recorded) + [RoutingDecision(agent, requestType, durationMs)]
      ensures Stores(counters, timings, errors) ==
        Record(old(Stores(counters, timings, errors)), RoutingDecision(agent, requestType, durationMs))
    {
      var e := RoutingDecision(agent, requestType, durationMs);
      ghost var before, log := Stores(counters, timings, errors), recorded;
      BumpThree(counters, TotalRoutingDecisions, RoutedTo(agent), RequestTypeCount(requestType));
      counters := Bump(counters, TotalRoutingDecisions);
      counters := Bump(counters, RoutedTo(agent));
      counters := Bump(counters, RequestTypeCount(requestType));
      if durationMs.Some? {
        timings := timings[ROUTING_DECISION := ListIn(timings, ROUTING_DECISION) + [durationMs.value]];
      }
      assert Stores(counters, timings, errors) == Record(before, e);
      Remember(e);
      ReplayAppend(log, e);
    }

    /** `record_prerequisite_check`: a failure is also charged to the agent as `blocked_<agent>`. */
    method RecordPrerequisiteCheck(agent: string, passed: bool, missingFiles: seq<string>)
      requires Valid()
      modifies this
      ensures Valid()
      ensures recorded == old(recorded) + [PrerequisiteCheck(agent, passed, missingFiles)]
      ensures Stores(counters, timings, errors) ==
        Record(old(Stores(counters, timings, errors)), PrerequisiteCheck(agent, passed, missingFiles))
    {
      var e := PrerequisiteCheck(agent, passed, missingFiles);
      ghost var before, log := Stores(counters, timings, errors), recorded;
      counters := Bump(counters, TotalPrerequisiteChecks);
      if passed {
        BumpTwo(old(counters), TotalPrerequisiteChecks, PrerequisiteChecksPassed);
        counters := Bump(counters, PrerequisiteChecksPassed);
      } else {
        BumpThree(old(counters), TotalPrerequisiteChecks, PrerequisiteChecksFailed, BlockedAgent(agent));
        counters := Bump(counters, PrerequisiteChecksFailed);
        counters := Bump(counters, BlockedAgent(agent));
      }
      assert Stores(counters, timings, errors) == Record(before, e);
      Remember(e);
      ReplayAppend(log, e);
    }

    /** `record_completion_verification`: a pass is also credited to the agent as `successful_<agent>`. */
    method RecordCompletionVerification(agent: string, passed: bool, missingDeliverables: seq<string>)
      requires Valid()
      modifies this
      ensures Valid()
      ensures recorded == old(recorded) + [CompletionVerification(agent, passed, missingDeliverables)]
      ensures Stores(counters, timings, errors) ==
        Record(old(Stores(counters, timings, errors)), CompletionVerification(agent, passed, missingDeliverables))
    {
      var e := CompletionVerification(agent, passed, missingDeliverables);
      ghost var before, log := Stores(counters, timings, errors), recorded;
      counters := Bump(counters, TotalCompletionVerifications);
      if passed {
        BumpThree(old(counters), TotalCompletionVerifications, CompletionVerificationsPassed, SuccessfulAgent(agent));
        counters := Bump(counters, CompletionVerificationsPassed);
        counters := Bump(counters, SuccessfulAgent(agent));
      } else {
        BumpTwo(old(counters), TotalCompletionVerifications, CompletionVerificationsFailed);
        counters := Bump(counters, CompletionVerificationsFailed);
      }
      assert Stores(counters, timings, errors) == Record(before, e);
      Remember(e);
      ReplayAppend(log, e);
    }

    /** `record_file_operation`: a refusal counts both as blocked and as a conflict prevented. */
    method RecordFileOperation(agent: string, operation: string, filePath: string, allowed: bool, error: Option<string>)
      requires Valid()
      modifies this
      ensures Valid()
      ensures recorded == old(recorded) + [FileOperation(agent, operation, filePath, allowed, error)]
      ensures Stores(counters, timings, errors) ==
        Record(old(Stores(counters, timings, errors)), FileOperation(agent, operation, filePath, allowed, error))
    {
      var e := FileOperation(agent, operation, filePath, allowed, error);
      ghost var before, log := Stores(counters, timings, errors), recorded;
      counters := Bump(counters, TotalFileOperations);
      if allowed {
        BumpTwo(old(counters), TotalFileOperations, FileOperationsAllowed);
        counters := Bump(counters, FileOperationsAllowed);
      } else {
        BumpThree(old(counters), TotalFileOperations, FileOperationsBlocked, ConflictPreventions);
        counters := Bump(counters, FileOperationsBlocked);
        counters := Bump(counters, ConflictPreventions);
      }
      assert Stores(counters, timings, errors) == Record(before, e);
      Remember(e);
      ReplayAppend(log, e);
    }

    /** `record_error`: counted in total and by type, and appended to the list of its type. */
    method RecordError(errorType: string, errorMessage: string)
      requires Valid()
      modifies this
      ensures Valid()
      ensures recorded == old(recorded) + [ErrorEvent(errorType, errorMessage)]
      ensures Stores(counters, timings, errors) ==
        Record(old(Stores(counters, timings, errors)), ErrorEvent(errorType, errorMessage))
    {
      var e := ErrorEvent(errorType, errorMessage);
      ghost var before, log := Stores(counters, timings, errors), recorded;
      BumpTwo(counters, TotalErrors, ErrorCount(errorType));
      counters := Bump(counters, TotalErrors);
      counters := Bump(counters, ErrorCount(errorType));
      errors := errors[errorType := ListIn(errors, errorType) + [ErrorEntry(errorType, errorMessage)]];
      assert Stores(counters, timings, errors) == Record(before, e);
      Remember(e);
      ReplayAppend(log, e);
    }

    /** `get_summary`: the counters, per-key timing statistics and the ten most recent retained events. */
    method GetSummary() returns (s: Summary)
      requires Valid()
      ensures s.counters == counters
      ensures s.timings.Keys == timings.Keys
      ensures forall key :: key in timings ==> s.timings[key] == Stats(timings[key])
      ensures s.recentEvents == Last(recorded, if historySize < RECENT_EVENTS then historySize else RECENT_EVENTS)
    {
      LastOfLast(recorded, historySize, RECENT_EVENTS);
      s := Summary(counters, map key | key in timings :: Stats(timings[key]), Last(history, RECENT_EVENTS));
    }

    /** `get_success_rate`, with the result held to the documented range. */
    function SuccessRate(): (r: real)
      reads this
      ensures 0.0 <= r <= 1.0
      ensures Count(TotalRoutingDecisions) == 0 ==> r == 1.0
      ensures Count(PrerequisiteChecksFailed) + Count(CompletionVerificationsFailed) + Count(FileOperationsBlocked) == 0
        ==> r == 1.0
    {
      ClampedRate(TotalsOf(counters))
    }

    /**
     * `total_errors` is the sum of the `error_<type>` counters, added up over
     * any list of distinct types that covers every type counted so far.
     */
    lemma TotalErrorsIsSumOfErrorCounts(types: seq<string>)
      requires Valid()
      requires Distinct(types)
      requires forall errorType :: ErrorCount(errorType) in counters ==> errorType in types
      ensures Count(TotalErrors) == ErrorCountsOver(counters, types)
    {
      ReplayAgrees(recorded);
      forall i | 0 <= i < |recorded| && recorded[i].ErrorEvent?
        ensures recorded[i].errorType in types
      {
        LoggedErrorListed(recorded, i);
      }
      ErrorTotalIsSumOfTypes(recorded, types);
      ErrorCountsOverAgree(counters, recorded, types);
    }

    /** The rate the counters give is the rate the recorded events determine. */
    lemma SuccessRateOfLog()
      requires Valid()
      ensures SuccessRate() == ClampedRate(Tally(recorded))
    {
      ReplayAgrees(recorded);
      TotalsOfAgreeing(counters, Tally(recorded));
    }
  }

  /** The last `m` of the last `n` are the last `min(n, m)`. */
  lemma LastOfLast<T>(s: seq<T>, n: nat, m: nat)
    ensures Last(Last(s, n), m) == Last(s, if n < m then n else m)
  {
  }
}
