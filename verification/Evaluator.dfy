/** app/policy_engine.py: the evaluation loop, and what its answer and its trace mean. */
module Evaluator {
  import opened Ordering
  import opened Operators

  datatype Decision = Allow | RequireApproval | Deny

  datatype Match = All | Any

  datatype Condition = Condition(field: string, operator: Operator, value: Value)

  datatype Policy = Policy(id: string, version: int, action: string, match_: Match, conditions: seq<Condition>,
                           decision: Decision, reason: string)

  datatype ConditionEvidence = ConditionEvidence(field: string, operator: Operator, actual: Value, expected: Value,
                                                 matched: bool)

  datatype Evidence = Evidence(match_: Match, conditions: seq<ConditionEvidence>)

  datatype TraceEntry = TraceEntry(policyId: string, policyVersion: int, decision: Decision, reason: string,
                                   matched: bool, evidence: Evidence)

  datatype Evaluation = Evaluation(decision: Decision, policyId: Option<string>, policyVersion: Option<int>,
                                   reason: string, evidence: Option<Evidence>, trace: seq<TraceEntry>)

  datatype EvaluationError = MissingContext(field: string, policyId: string) | InvalidContext(field: string, operator: Operator)

  type Context = map<string, Value>

  const UNMATCHED := "No policy required approval or denial."

  function UncoveredReason(action: string): string {
    "Action '" + action + "' is not covered by an active policy."
  }

  function Priority(decision: Decision): nat {
    match decision
    case Allow => 0
    case RequireApproval => 1
    case Deny => 2
  }

  function Applicable(policies: seq<Policy>, action: string): seq<Policy> {
    if policies == [] then []
    else
      var n := |policies| - 1;
      Applicable(policies[..n], action) + if policies[n].action == action then [policies[n]] else []
  }

  // ---------------------------------------------------------------- conditions

  function Check(context: Context, policyId: string, condition: Condition): Result<ConditionEvidence, EvaluationError> {
    if condition.field !in context || context[condition.field] == Null then
      Err(MissingContext(condition.field, policyId))
    else
      var actual := context[condition.field];
      match EvaluateOperator(condition.operator, actual, condition.value)
      case None => Err(InvalidContext(condition.field, condition.operator))
      case Some(matched) => Ok(ConditionEvidence(condition.field, condition.operator, actual, condition.value, matched))
  }

  /** The evidence of all conditions, or the first condition's error. */
  function CheckAll(context: Context, policyId: string, conditions: seq<Condition>)
    : Result<seq<ConditionEvidence>, EvaluationError>
  {
    if conditions == [] then Ok([])
    else
      var n := |conditions| - 1;
      match CheckAll(context, policyId, conditions[..n])
      case Err(e) => Err(e)
      case Ok(evidence) =>
        match Check(context, policyId, conditions[n])
        case Err(e) => Err(e)
        case Ok(last) => Ok(evidence + [last])
  }

  predicate Matches(evidence: Evidence) {
    match evidence.match_
    case All => forall i :: 0 <= i < |evidence.conditions| ==> evidence.conditions[i].matched
    case Any => exists i :: 0 <= i < |evidence.conditions| && evidence.conditions[i].matched
  }

  function Trace(context: Context, policy: Policy): Result<TraceEntry, EvaluationError> {
    match CheckAll(context, policy.id, policy.conditions)
    case Err(e) => Err(e)
    case Ok(conditions) =>
      var evidence := Evidence(policy.match_, conditions);
      Ok(TraceEntry(policy.id, policy.version, policy.decision, policy.reason, Matches(evidence), evidence))
  }

  function TraceAll(context: Context, policies: seq<Policy>): Result<seq<TraceEntry>, EvaluationError> {
    if policies == [] then Ok([])
    else
      var n := |policies| - 1;
      match TraceAll(context, policies[..n])
      case Err(e) => Err(e)
      case Ok(trace) =>
        match Trace(context, policies[n])
        case Err(e) => Err(e)
        case Ok(entry) => Ok(trace + [entry])
  }

  // ---------------------------------------------------------------- the decision, from the trace

  predicate Reaches(trace: seq<TraceEntry>, i: int, decision: Decision) {
    0 <= i < |trace| && trace[i].matched && trace[i].decision == decision
  }

  /** DENY if a matching entry denies, else REQUIRE_APPROVAL if one requires it, else ALLOW. */
  ghost predicate Strictest(trace: seq<TraceEntry>, decision: Decision) {
    decision == if exists i :: Reaches(trace, i, Deny) then Deny
                else if exists i :: Reaches(trace, i, RequireApproval) then RequireApproval else Allow
  }

  /** The evaluation is what its trace says: strictest decision, first entry reaching it. */
  ghost predicate Explains(e: Evaluation) {
    && Strictest(e.trace, e.decision)
    && (e.decision == Allow ==> e.policyId.None? && e.policyVersion.None? && e.reason == UNMATCHED && e.evidence.None?)
    && (e.decision != Allow ==>
          exists i :: Reaches(e.trace, i, e.decision)
                      && (forall j :: 0 <= j < i ==> !Reaches(e.trace, j, e.decision))
                      && e.policyId == Some(e.trace[i].policyId) && e.policyVersion == Some(e.trace[i].policyVersion)
                      && e.reason == e.trace[i].reason && e.evidence == Some(e.trace[i].evidence))
  }

  /** A trace determines the evaluation that it explains. */
  lemma ExplanationIsUnique(a: Evaluation, b: Evaluation)
    requires Explains(a) && Explains(b) && a.trace == b.trace
    ensures a == b
  {
    if a.decision != Allow {
      var i :| Reaches(a.trace, i, a.decision) && (forall j :: 0 <= j < i ==> !Reaches(a.trace, j, a.decision))
               && a.policyId == Some(a.trace[i].policyId) && a.policyVersion == Some(a.trace[i].policyVersion)
               && a.reason == a.trace[i].reason && a.evidence == Some(a.trace[i].evidence);
      var j :| Reaches(b.trace, j, b.decision) && (forall k :: 0 <= k < j ==> !Reaches(b.trace, k, b.decision))
               && b.policyId == Some(b.trace[j].policyId) && b.policyVersion == Some(b.trace[j].policyVersion)
               && b.reason == b.trace[j].reason && b.evidence == Some(b.trace[j].evidence);
      assert i == j;
    }
  }

  /** What an evaluation returns: DENY without an applicable policy; otherwise one trace entry
      for each of them and the evaluation that this trace explains, or the first error. */
  ghost predicate Evaluates(action: string, context: Context, policies: seq<Policy>, r: Result<Evaluation, EvaluationError>) {
    if Applicable(policies, action) == []
    then r == Ok(Evaluation(Deny, None, None, UncoveredReason(action), None, []))
    else
      match TraceAll(context, Applicable(policies, action))
      case Err(e) => r == Err(e)
      case Ok(trace) => r.Ok? && r.value.trace == trace && trace != [] && Explains(r.value)
  }

  // ---------------------------------------------------------------- the loop

  /** The conditions of one policy, in order. */
  method CheckConditions(context: Context, policy: Policy) returns (r: Result<seq<ConditionEvidence>, EvaluationError>)
    ensures r == CheckAll(context, policy.id, policy.conditions)
  {
    hide Check;
    var evidence: seq<ConditionEvidence> := [];
    for i := 0 to |policy.conditions|
      invariant CheckAll(context, policy.id, policy.conditions[..i]) == Ok(evidence)
    {
      assert policy.conditions[..i + 1][..i] == policy.conditions[..i];
      var checked := Check(context, policy.id, policy.conditions[i]);
      if checked.Err? {
        CheckStops(context, policy.id, policy.conditions, i);
        return Err(checked.error);
      }
      evidence := evidence + [checked.value];
    }
    assert policy.conditions[..|policy.conditions|] == policy.conditions;
    return Ok(evidence);
  }

  /** The nested loops compute the evaluation that the trace explains. */
  method EvaluatePolicy(action: string, context: Context, policies: seq<Policy>)
    returns (r: Result<Evaluation, EvaluationError>)
    ensures Evaluates(action, context, policies, r)
  {
    hide Trace, Priority, Reaches;
    var applicable := Applicable(policies, action);
    if applicable == [] {
      return Ok(Evaluation(Deny, None, None, UncoveredReason(action), None, []));
    }
    var e := Evaluation(Allow, None, None, UNMATCHED, None, []);
    NothingToExplain(e);
    for i := 0 to |applicable|
      invariant |e.trace| == i && Explains(e)
      invariant TraceAll(context, applicable[..i]) == Ok(e.trace)
    {
      assert applicable[..i + 1][..i] == applicable[..i];
      var policy := applicable[i];
      var conditions := CheckConditions(context, policy);
      TraceIsChecked(context, policy);
      if conditions.Err? {
        TraceStops(context, applicable, i);
        return Err(conditions.error);
      }
      var evidence := Evidence(policy.match_, conditions.value);
      var matched := Matches(evidence);
      var entry := TraceEntry(policy.id, policy.version, policy.decision, policy.reason, matched, evidence);
      ExplainOneMore(e, entry);
      e := e.(trace := e.trace + [entry]);
      if matched && Priority(policy.decision) > Priority(e.decision) {
        e := e.(decision := policy.decision, policyId := Some(policy.id), policyVersion := Some(policy.version),
                reason := policy.reason, evidence := Some(evidence));
      }
    }
    assert applicable[..|applicable|] == applicable;
    return Ok(e);
  }

  lemma NothingToExplain(e: Evaluation)
    requires e == Evaluation(Allow, None, None, UNMATCHED, None, [])
    ensures Explains(e)
  {
  }

  lemma TraceIsChecked(context: Context, policy: Policy)
    ensures Trace(context, policy) == match CheckAll(context, policy.id, policy.conditions)
                                      case Err(e) => Err(e)
                                      case Ok(conditions) =>
                                        var evidence := Evidence(policy.match_, conditions);
                                        Ok(TraceEntry(policy.id, policy.version, policy.decision, policy.reason,
                                                      Matches(evidence), evidence))
  {
  }

  lemma {:induction false} CheckStops(context: Context, policyId: string, conditions: seq<Condition>, i: nat)
    requires i < |conditions| && CheckAll(context, policyId, conditions[..i + 1]).Err?
    ensures CheckAll(context, policyId, conditions) == CheckAll(context, policyId, conditions[..i + 1])
    decreases |conditions|
  {
    hide Check;
    if i + 1 == |conditions| {
      assert conditions[..i + 1] == conditions;
    } else {
      assert conditions[..|conditions| - 1][..i + 1] == conditions[..i + 1];
      CheckStops(context, policyId, conditions[..|conditions| - 1], i);
    }
  }

  lemma {:induction false} TraceStops(context: Context, policies: seq<Policy>, i: nat)
    requires i < |policies| && TraceAll(context, policies[..i + 1]).Err?
    ensures TraceAll(context, policies) == TraceAll(context, policies[..i + 1])
    decreases |policies|
  {
    hide Trace;
    if i + 1 == |policies| {
      assert policies[..i + 1] == policies;
    } else {
      assert policies[..|policies| - 1][..i + 1] == policies[..i + 1];
      TraceStops(context, policies[..|policies| - 1], i);
    }
  }

  /** One more entry: a stricter match takes over, anything else changes nothing. */
  lemma ExplainOneMore(e: Evaluation, entry: TraceEntry)
    requires Explains(e)
    ensures var longer := e.(trace := e.trace + [entry]);
            Explains(if entry.matched && Priority(entry.decision) > Priority(e.decision)
                     then longer.(decision := entry.decision, policyId := Some(entry.policyId),
                                  policyVersion := Some(entry.policyVersion), reason := entry.reason,
                                  evidence := Some(entry.evidence))
                     else longer)
  {
    var n := |e.trace|;
    var trace := e.trace + [entry];
    assert trace[n] == entry && forall i :: 0 <= i < n ==> trace[i] == e.trace[i];
    assert forall i, d :: 0 <= i < n ==> Reaches(trace, i, d) == Reaches(e.trace, i, d);
    if entry.matched && Priority(entry.decision) > Priority(e.decision) {
      assert Reaches(trace, n, entry.decision);
    } else if e.decision != Allow {
      var i :| Reaches(e.trace, i, e.decision) && (forall j :: 0 <= j < i ==> !Reaches(e.trace, j, e.decision))
               && e.policyId == Some(e.trace[i].policyId) && e.policyVersion == Some(e.trace[i].policyVersion)
               && e.reason == e.trace[i].reason && e.evidence == Some(e.trace[i].evidence);
      assert Reaches(trace, i, e.decision);
    }
  }

  // ---------------------------------------------------------------- the meaning over the policies

  /** The condition has no value to look at, or none of its kind. */
  predicate Undecided(context: Context, condition: Condition) {
    condition.field !in context || context[condition.field] == Null
    || EvaluateOperator(condition.operator, context[condition.field], condition.value).None?
  }

  predicate Satisfied(context: Context, condition: Condition) {
    condition.field in context
    && EvaluateOperator(condition.operator, context[condition.field], condition.value) == Some(true)
  }

  predicate Fails(context: Context, policy: Policy) {
    exists i :: 0 <= i < |policy.conditions| && Undecided(context, policy.conditions[i])
  }

  /** What a policy's match means, without any loop. */
  predicate Holds(context: Context, policy: Policy) {
    match policy.match_
    case All => forall i :: 0 <= i < |policy.conditions| ==> Satisfied(context, policy.conditions[i])
    case Any => exists i :: 0 <= i < |policy.conditions| && Satisfied(context, policy.conditions[i])
  }

  /** What is recorded of a condition that is decided. */
  function Seen(context: Context, condition: Condition): ConditionEvidence
    requires condition.field in context
  {
    ConditionEvidence(condition.field, condition.operator, context[condition.field], condition.value,
                      Satisfied(context, condition))
  }

  /** Evidence that records every condition of the policy, in order. */
  ghost predicate Records(context: Context, policy: Policy, evidence: Evidence) {
    && evidence.match_ == policy.match_ && |evidence.conditions| == |policy.conditions|
    && forall i :: 0 <= i < |policy.conditions| ==>
         policy.conditions[i].field in context && evidence.conditions[i] == Seen(context, policy.conditions[i])
  }

  lemma CheckMeans(context: Context, policyId: string, condition: Condition)
    ensures Check(context, policyId, condition).Err? <==> Undecided(context, condition)
    ensures !Undecided(context, condition) ==> Check(context, policyId, condition) == Ok(Seen(context, condition))
  {
  }

  lemma {:induction false} CheckAllMeans(context: Context, policyId: string, conditions: seq<Condition>)
    ensures CheckAll(context, policyId, conditions).Err?
            <==> exists i :: 0 <= i < |conditions| && Undecided(context, conditions[i])
    ensures CheckAll(context, policyId, conditions).Ok? ==>
              var evidence := CheckAll(context, policyId, conditions).value;
              |evidence| == |conditions|
              && forall i :: 0 <= i < |conditions| ==>
                   conditions[i].field in context && evidence[i] == Seen(context, conditions[i])
  {
    hide Check, Seen;
    if conditions != [] {
      CheckAllMeans(context, policyId, conditions[..|conditions| - 1]);
      CheckMeans(context, policyId, conditions[|conditions| - 1]);
    }
  }

  lemma TraceMeans(context: Context, policy: Policy)
    ensures Trace(context, policy).Err? <==> Fails(context, policy)
    ensures Trace(context, policy).Ok? ==>
              var entry := Trace(context, policy).value;
              && entry.matched == Holds(context, policy) && Records(context, policy, entry.evidence)
              && entry == TraceEntry(policy.id, policy.version, policy.decision, policy.reason, entry.matched, entry.evidence)
  {
    hide Check, Satisfied;
    CheckAllMeans(context, policy.id, policy.conditions);
  }

  lemma {:induction false} TraceAllMeans(context: Context, policies: seq<Policy>)
    ensures TraceAll(context, policies).Err? <==> exists p :: p in policies && Fails(context, p)
    ensures TraceAll(context, policies).Ok? ==>
              var trace := TraceAll(context, policies).value;
              |trace| == |policies|
              && forall i :: 0 <= i < |policies| ==> Trace(context, policies[i]) == Ok(trace[i])
  {
    hide Trace, Fails;
    if policies != [] {
      var n := |policies| - 1;
      TraceAllMeans(context, policies[..n]);
      TraceMeans(context, policies[n]);
      forall p ensures p in policies <==> p in policies[..n] || p == policies[n] {
        assert policies == policies[..n] + [policies[n]];
      }
    }
  }

  lemma {:induction false} ApplicableAre(policies: seq<Policy>, action: string)
    ensures forall p :: p in Applicable(policies, action) <==> p in policies && p.action == action
  {
    if policies != [] {
      var n := |policies| - 1;
      ApplicableAre(policies[..n], action);
      assert policies == policies[..n] + [policies[n]];
    }
  }

  ghost predicate Covers(policies: seq<Policy>, action: string) {
    exists p :: p in policies && p.action == action
  }

  ghost predicate SomeFails(context: Context, policies: seq<Policy>, action: string) {
    exists p :: p in policies && p.action == action && Fails(context, p)
  }

  /** Some applicable policy holds and decides this. */
  ghost predicate SomeDecides(context: Context, policies: seq<Policy>, action: string, decision: Decision) {
    exists p :: p in policies && p.action == action && Holds(context, p) && p.decision == decision
  }

  /** The decision read off the set of policies alone. */
  ghost predicate Decides(context: Context, policies: seq<Policy>, action: string, decision: Decision) {
    decision == if !Covers(policies, action) || SomeDecides(context, policies, action, Deny) then Deny
                else if SomeDecides(context, policies, action, RequireApproval) then RequireApproval else Allow
  }

  /** The evaluation fails exactly when a condition of an applicable policy does. Otherwise it
      is DENY if no policy is applicable or one that holds denies, else REQUIRE_APPROVAL if one
      that holds requires it, else ALLOW. */
  lemma EvaluationMeans(action: string, context: Context, policies: seq<Policy>, r: Result<Evaluation, EvaluationError>)
    requires Evaluates(action, context, policies, r)
    ensures r.Err? <==> SomeFails(context, policies, action)
    ensures r.Ok? ==> Decides(context, policies, action, r.value.decision)
  {
    hide Trace, Fails, Holds, Records;
    var applicable := Applicable(policies, action);
    ApplicableAre(policies, action);
    TraceAllMeans(context, applicable);
    if applicable != [] {
      assert applicable[0] in applicable;
      if r.Ok? {
        ReachedBySome(context, applicable, r.value, Deny);
        ReachedBySome(context, applicable, r.value, RequireApproval);
      }
    }
  }

  /** An entry of the trace reaches a decision exactly when a policy that holds decides it. */
  lemma ReachedBySome(context: Context, applicable: seq<Policy>, e: Evaluation, decision: Decision)
    requires TraceAll(context, applicable) == Ok(e.trace)
    ensures (exists i :: Reaches(e.trace, i, decision))
            <==> exists p :: p in applicable && Holds(context, p) && p.decision == decision
  {
    hide Trace, Fails, Holds, Records;
    TraceAllMeans(context, applicable);
    if i :| Reaches(e.trace, i, decision) {
      TraceMeans(context, applicable[i]);
      assert applicable[i] in applicable;
    }
    if p :| p in applicable && Holds(context, p) && p.decision == decision {
      var i :| 0 <= i < |applicable| && applicable[i] == p;
      TraceMeans(context, p);
      assert Trace(context, applicable[i]) == Ok(e.trace[i]);
      assert Reaches(e.trace, i, decision);
    }
  }

  // ---------------------------------------------------------------- winner, trace and errors, in policy order

  /** The applicable policies are those of the action, in the order of the list. */
  lemma {:induction false} ApplicableInOrder(policies: seq<Policy>, action: string) returns (at: seq<nat>)
    ensures |at| == |Applicable(policies, action)|
    ensures forall k :: 0 <= k < |at| ==> at[k] < |policies| && policies[at[k]] == Applicable(policies, action)[k]
                                          && policies[at[k]].action == action
    ensures forall k, l :: 0 <= k < l < |at| ==> at[k] < at[l]
    ensures forall j :: 0 <= j < |policies| && policies[j].action == action ==> j in at
  {
    if policies == [] {
      at := [];
    } else {
      var n := |policies| - 1;
      at := ApplicableInOrder(policies[..n], action);
      if policies[n].action == action {
        at := at + [n];
      }
    }
  }

  /** Policy i is the first applicable one that holds and decides this. */
  ghost predicate FirstToDecide(context: Context, policies: seq<Policy>, action: string, decision: Decision, i: nat) {
    && i < |policies| && policies[i].action == action && Holds(context, policies[i]) && policies[i].decision == decision
    && forall j :: 0 <= j < i && policies[j].action == action && Holds(context, policies[j]) ==> policies[j].decision != decision
  }

  /** The answer names policy i and carries what its conditions met. */
  ghost predicate Names(context: Context, policies: seq<Policy>, e: Evaluation, i: nat)
    requires i < |policies|
  {
    && e.policyId == Some(policies[i].id) && e.policyVersion == Some(policies[i].version)
    && e.reason == policies[i].reason && e.evidence.Some? && Records(context, policies[i], e.evidence.value)
  }

  /** The first entry that reaches the decision is that of the first policy to decide it. */
  lemma FirstReached(action: string, context: Context, policies: seq<Policy>, e: Evaluation)
    requires TraceAll(context, Applicable(policies, action)) == Ok(e.trace)
    requires Explains(e) && e.decision != Allow
    ensures exists i :: FirstToDecide(context, policies, action, e.decision, i) && Names(context, policies, e, i)
  {
    hide Fails, Holds, Trace, Strictest, Records, Applicable;
    var applicable := Applicable(policies, action);
    TraceAllMeans(context, applicable);
    var at := ApplicableInOrder(policies, action);
    var k :| Reaches(e.trace, k, e.decision) && (forall j :: 0 <= j < k ==> !Reaches(e.trace, j, e.decision))
             && e.policyId == Some(e.trace[k].policyId) && e.policyVersion == Some(e.trace[k].policyVersion)
             && e.reason == e.trace[k].reason && e.evidence == Some(e.trace[k].evidence);
    TraceMeans(context, applicable[k]);
    forall j | 0 <= j < at[k] && policies[j].action == action && Holds(context, policies[j])
      ensures policies[j].decision != e.decision
    {
      var l :| 0 <= l < |at| && at[l] == j;
      TraceMeans(context, applicable[l]);
      assert !Reaches(e.trace, l, e.decision);
    }
    assert FirstToDecide(context, policies, action, e.decision, at[k]);
  }

  /** The winner is the first policy of the list that reaches the decision; ALLOW has none, nor
      has the denial of an action that no policy covers. */
  lemma WinnerIsFirst(action: string, context: Context, policies: seq<Policy>, r: Result<Evaluation, EvaluationError>)
    requires Evaluates(action, context, policies, r) && r.Ok?
    ensures Covers(policies, action) && r.value.decision != Allow ==>
              exists i :: FirstToDecide(context, policies, action, r.value.decision, i) && Names(context, policies, r.value, i)
    ensures !Covers(policies, action) || r.value.decision == Allow ==>
              r.value.policyId.None? && r.value.policyVersion.None? && r.value.evidence.None?
    ensures r.value.reason == UNMATCHED || !Covers(policies, action) || r.value.decision != Allow
    ensures !Covers(policies, action) ==>
              r.value.trace == [] && r.value.reason == "Action '" + action + "' is not covered by an active policy."
  {
    hide Fails, Holds, Trace, Strictest, Records;
    var (e, applicable) := (r.value, Applicable(policies, action));
    if !Covers(policies, action) {
      NoneApplicable(policies, action);
      return;
    }
    CoveredIsExplained(action, context, policies, r);
    TraceAllMeans(context, applicable);
    if e.decision != Allow {
      FirstReached(action, context, policies, e);
    }
  }

  /** The trace has one entry for each applicable policy, in order, with what its conditions
      met and whether it holds. */
  lemma TraceIsComplete(action: string, context: Context, policies: seq<Policy>, r: Result<Evaluation, EvaluationError>)
    returns (at: seq<nat>)
    requires Evaluates(action, context, policies, r) && r.Ok?
    ensures |at| == |r.value.trace|
    ensures forall k, l :: 0 <= k < l < |at| ==> at[k] < at[l]
    ensures forall j :: 0 <= j < |policies| ==> (policies[j].action == action <==> j in at)
    ensures forall k :: 0 <= k < |at| ==>
              at[k] < |policies|
              && var (entry, policy) := (r.value.trace[k], policies[at[k]]);
                 && entry.policyId == policy.id && entry.policyVersion == policy.version && entry.decision == policy.decision
                 && entry.reason == policy.reason && entry.matched == Holds(context, policy)
                 && Records(context, policy, entry.evidence)
  {
    hide Fails, Holds, Trace, Explains, Records;
    var applicable := Applicable(policies, action);
    at := ApplicableInOrder(policies, action);
    TraceAllMeans(context, applicable);
    forall k | 0 <= k < |at|
      ensures var (entry, policy) := (r.value.trace[k], policies[at[k]]);
              && entry.matched == Holds(context, policy) && Records(context, policy, entry.evidence)
              && entry == TraceEntry(policy.id, policy.version, policy.decision, policy.reason, entry.matched, entry.evidence)
    {
      TraceMeans(context, applicable[k]);
    }
  }

  /** Which condition stops the evaluation, and with which error. */
  ghost predicate StopsAt(context: Context, policies: seq<Policy>, action: string, i: nat, c: nat, error: EvaluationError) {
    && i < |policies| && policies[i].action == action && c < |policies[i].conditions|
    && (forall j :: 0 <= j < i && policies[j].action == action ==> !Fails(context, policies[j]))
    && (forall b :: 0 <= b < c ==> !Undecided(context, policies[i].conditions[b]))
    && var condition := policies[i].conditions[c];
       && Undecided(context, condition)
       && error == if condition.field !in context || context[condition.field] == Null
                   then MissingContext(condition.field, policies[i].id)
                   else InvalidContext(condition.field, condition.operator)
  }

  lemma {:induction false} CheckStopsAt(context: Context, policyId: string, conditions: seq<Condition>) returns (c: nat)
    requires CheckAll(context, policyId, conditions).Err?
    ensures c < |conditions| && Undecided(context, conditions[c])
    ensures forall b :: 0 <= b < c ==> !Undecided(context, conditions[b])
    ensures Check(context, policyId, conditions[c]) == Err(CheckAll(context, policyId, conditions).error)
    decreases |conditions|
  {
    hide Check, Undecided;
    var n := |conditions| - 1;
    CheckAllMeans(context, policyId, conditions[..n]);
    if CheckAll(context, policyId, conditions[..n]).Err? {
      c := CheckStopsAt(context, policyId, conditions[..n]);
    } else {
      c := n;
      CheckMeans(context, policyId, conditions[n]);
    }
  }

  lemma {:induction false} TraceStopsAt(context: Context, policies: seq<Policy>) returns (k: nat)
    requires TraceAll(context, policies).Err?
    ensures k < |policies| && Trace(context, policies[k]) == Err(TraceAll(context, policies).error)
    ensures forall j :: 0 <= j < k ==> !Fails(context, policies[j])
    decreases |policies|
  {
    hide Trace, Fails;
    var n := |policies| - 1;
    TraceAllMeans(context, policies[..n]);
    if TraceAll(context, policies[..n]).Err? {
      k := TraceStopsAt(context, policies[..n]);
    } else {
      k := n;
      forall j | 0 <= j < n ensures !Fails(context, policies[j]) {
        assert policies[..n][j] in policies[..n];
      }
    }
  }

  /** A failing evaluation reports the first undecided condition of the first applicable
      policy that has one: its field is missing or null, or its value has another kind. */
  lemma ErrorIsFirst(action: string, context: Context, policies: seq<Policy>, r: Result<Evaluation, EvaluationError>)
    requires Evaluates(action, context, policies, r) && r.Err?
    ensures exists i, c :: StopsAt(context, policies, action, i, c, r.error)
  {
    hide Fails, Explains, Undecided;
    var applicable := Applicable(policies, action);
    var at := ApplicableInOrder(policies, action);
    var k := TraceStopsAt(context, applicable);
    var policy := applicable[k];
    var c := CheckStopsAt(context, policy.id, policy.conditions);
    forall j | 0 <= j < at[k] && policies[j].action == action ensures !Fails(context, policies[j]) {
      var l :| 0 <= l < |at| && at[l] == j;
    }
    ErrorOf(context, policy.id, policy.conditions[c]);
    assert StopsAt(context, policies, action, at[k], c, r.error);
  }

  lemma ErrorOf(context: Context, policyId: string, condition: Condition)
    requires Check(context, policyId, condition).Err?
    ensures Check(context, policyId, condition).error
            == if condition.field !in context || context[condition.field] == Null
               then MissingContext(condition.field, policyId) else InvalidContext(condition.field, condition.operator)
  {
  }

  /** The decision and whether the evaluation fails depend on the set of policies only, so
      any permutation gives the same. */
  lemma OrderDoesNotMatter(action: string, context: Context, a: seq<Policy>, b: seq<Policy>,
                           r: Result<Evaluation, EvaluationError>, s: Result<Evaluation, EvaluationError>)
    requires multiset(a) == multiset(b) || forall p :: p in a <==> p in b
    requires Evaluates(action, context, a, r) && Evaluates(action, context, b, s)
    ensures r.Ok? <==> s.Ok?
    ensures r.Ok? ==> r.value.decision == s.value.decision
  {
    hide Fails, Holds, Evaluates;
    forall p ensures p in a <==> p in b {
      assert p in a <==> p in multiset(a);
      assert p in b <==> p in multiset(b);
    }
    EvaluationMeans(action, context, a, r);
    EvaluationMeans(action, context, b, s);
  }

  /** Every trace explains some evaluation. */
  lemma {:induction false} TraceIsExplained(trace: seq<TraceEntry>) returns (e: Evaluation)
    ensures Explains(e) && e.trace == trace
    decreases |trace|
  {
    hide Explains, Priority;
    if trace == [] {
      e := Evaluation(Allow, None, None, UNMATCHED, None, []);
      NothingToExplain(e);
    } else {
      var n := |trace| - 1;
      e := TraceIsExplained(trace[..n]);
      var entry := trace[n];
      ExplainOneMore(e, entry);
      e := if entry.matched && Priority(entry.decision) > Priority(e.decision)
           then e.(trace := e.trace + [entry], decision := entry.decision, policyId := Some(entry.policyId),
                   policyVersion := Some(entry.policyVersion), reason := entry.reason, evidence := Some(entry.evidence))
           else e.(trace := e.trace + [entry]);
    }
  }

  /** Every evaluation has a result. */
  lemma EvaluationExists(action: string, context: Context, policies: seq<Policy>)
    returns (r: Result<Evaluation, EvaluationError>)
    ensures Evaluates(action, context, policies, r)
  {
    hide Explains;
    var applicable := Applicable(policies, action);
    if applicable == [] {
      r := Ok(Evaluation(Deny, None, None, UncoveredReason(action), None, []));
    } else {
      TraceAllMeans(context, applicable);
      match TraceAll(context, applicable) {
        case Err(error) => r := Err(error);
        case Ok(trace) =>
          var e := TraceIsExplained(trace);
          r := Ok(e);
      }
    }
  }

  /** Policy p is one that reaches the decision. */
  ghost predicate Decisive(context: Context, policies: seq<Policy>, action: string, decision: Decision, p: Policy) {
    p in policies && p.action == action && Holds(context, p) && p.decision == decision
  }

  ghost predicate OneDecisiveId(context: Context, policies: seq<Policy>, action: string, decision: Decision) {
    forall p, q | Decisive(context, policies, action, decision, p) && Decisive(context, policies, action, decision, q) ::
      p.id == q.id
  }

  lemma {:induction false} ApplicableFront(p: Policy, rest: seq<Policy>, action: string)
    requires p.action == action
    ensures Applicable([p] + rest, action) == [p] + Applicable(rest, action)
    decreases |rest|
  {
    if rest == [] {
      assert [p] + rest == [p] && [p][..0] == [];
    } else {
      var n := |rest| - 1;
      ApplicableFront(p, rest[..n], action);
      assert ([p] + rest)[..n + 1] == [p] + rest[..n] && ([p] + rest)[n + 1] == rest[n];
    }
  }

  /** A decisive policy that comes first wins. */
  lemma FirstDecisiveWins(action: string, context: Context, p: Policy, rest: seq<Policy>,
                          s: Result<Evaluation, EvaluationError>)
    requires Evaluates(action, context, [p] + rest, s) && s.Ok? && s.value.decision != Allow
    requires p.action == action && !Fails(context, p) && Holds(context, p) && p.decision == s.value.decision
    ensures s.value.policyId == Some(p.id)
  {
    hide Fails, Holds, Trace, Applicable, Priority;
    ApplicableFront(p, rest, action);
    var applicable := Applicable([p] + rest, action);
    TraceAllMeans(context, applicable);
    TraceMeans(context, p);
    assert Trace(context, applicable[0]) == Ok(s.value.trace[0]);
    assert Reaches(s.value.trace, 0, s.value.decision);
  }

  /** The winner of a decision other than ALLOW is a decisive policy. */
  lemma WinnerIsDecisive(action: string, context: Context, policies: seq<Policy>, r: Result<Evaluation, EvaluationError>)
    returns (p: Policy)
    requires Evaluates(action, context, policies, r) && r.Ok? && Covers(policies, action) && r.value.decision != Allow
    ensures !SomeFails(context, policies, action)
    ensures Decisive(context, policies, action, r.value.decision, p) && r.value.policyId == Some(p.id)
  {
    hide Fails, Holds, Trace, Priority, Applicable, Strictest, Decides;
    EvaluationMeans(action, context, policies, r);
    var applicable := Applicable(policies, action);
    ApplicableAre(policies, action);
    var e := r.value;
    TraceAllMeans(context, applicable);
    var q :| q in policies && q.action == action;
    assert q in applicable;
    var i :| Reaches(e.trace, i, e.decision) && e.policyId == Some(e.trace[i].policyId);
    p := applicable[i];
    assert p in applicable;
    TraceMeans(context, p);
    assert Trace(context, applicable[i]) == Ok(e.trace[i]);
  }

  ghost predicate SameWinnerInEveryOrder(action: string, context: Context, policies: seq<Policy>, e: Evaluation) {
    forall b, s | multiset(b) == multiset(policies) && Evaluates(action, context, b, s) ::
      s.Ok? && s.value.policyId == e.policyId
  }

  /** Exactly when the winner does not depend on the order of the policies: no policy applies,
      the decision is ALLOW, or all decisive policies share one id. */
  lemma WinnerIndependentIff(action: string, context: Context, a: seq<Policy>, r: Result<Evaluation, EvaluationError>)
    requires Evaluates(action, context, a, r) && r.Ok?
    ensures !SomeFails(context, a, action)
    ensures SameWinnerInEveryOrder(action, context, a, r.value)
            <==> !Covers(a, action) || r.value.decision == Allow
                 || OneDecisiveId(context, a, action, r.value.decision)
  {
    hide Evaluates, Decisive, Covers;
    EvaluationMeans(action, context, a, r);
    if !Covers(a, action) || r.value.decision == Allow || OneDecisiveId(context, a, action, r.value.decision) {
      forall b, s | multiset(b) == multiset(a) && Evaluates(action, context, b, s)
        ensures s.Ok? && s.value.policyId == r.value.policyId
      {
        SameWinner(action, context, a, b, r, s);
      }
    } else {
      var p, q :| Decisive(context, a, action, r.value.decision, p) && Decisive(context, a, action, r.value.decision, q)
                  && p.id != q.id;
      var other := if r.value.policyId == Some(p.id) then q else p;
      OtherWinner(action, context, a, r, other);
    }
  }

  lemma SamePolicies(a: seq<Policy>, b: seq<Policy>)
    requires multiset(a) == multiset(b)
    ensures forall p :: p in a <==> p in b
  {
    forall p ensures p in a <==> p in b {
      assert p in a <==> p in multiset(a);
      assert p in b <==> p in multiset(b);
    }
  }

  lemma SameWinner(action: string, context: Context, a: seq<Policy>, b: seq<Policy>,
                   r: Result<Evaluation, EvaluationError>, s: Result<Evaluation, EvaluationError>)
    requires multiset(b) == multiset(a) && Evaluates(action, context, a, r) && Evaluates(action, context, b, s) && r.Ok?
    requires !SomeFails(context, a, action)
    requires !Covers(a, action) || r.value.decision == Allow
             || OneDecisiveId(context, a, action, r.value.decision)
    ensures s.Ok? && s.value.policyId == r.value.policyId
  {
    hide Fails, Holds;
    OrderDoesNotMatter(action, context, a, b, r, s);
    SamePolicies(a, b);
    if !Covers(a, action) {
      hide Explains, TraceAll;
      ApplicableAre(a, action);
      ApplicableAre(b, action);
      NoneApplicable(a, action);
      NoneApplicable(b, action);
    } else if r.value.decision == Allow {
      CoveredIsExplained(action, context, a, r);
      CoveredIsExplained(action, context, b, s);
    } else {
      hide Evaluates;
      var p := WinnerIsDecisive(action, context, a, r);
      var q := WinnerIsDecisive(action, context, b, s);
      assert Decisive(context, a, action, r.value.decision, p);
      assert Decisive(context, a, action, r.value.decision, q);
    }
  }

  lemma NoneApplicable(policies: seq<Policy>, action: string)
    requires !Covers(policies, action)
    ensures Applicable(policies, action) == []
  {
    ApplicableAre(policies, action);
    assert forall p :: p !in Applicable(policies, action);
  }

  lemma CoveredIsExplained(action: string, context: Context, policies: seq<Policy>, r: Result<Evaluation, EvaluationError>)
    requires Evaluates(action, context, policies, r) && r.Ok? && Covers(policies, action)
    ensures Explains(r.value)
  {
    hide Explains;
    ApplicableAre(policies, action);
    var p :| p in policies && p.action == action;
    assert p in Applicable(policies, action);
  }

  /** Moved to the front, a decisive policy with another id wins. */
  lemma OtherWinner(action: string, context: Context, a: seq<Policy>, r: Result<Evaluation, EvaluationError>, p: Policy)
    requires Evaluates(action, context, a, r) && r.Ok? && r.value.decision != Allow && !SomeFails(context, a, action)
    requires Decisive(context, a, action, r.value.decision, p) && r.value.policyId != Some(p.id)
    ensures !SameWinnerInEveryOrder(action, context, a, r.value)
  {
    hide Evaluates, Fails, Holds;
    var k :| 0 <= k < |a| && a[k] == p;
    var rest := a[..k] + a[k + 1..];
    assert a == a[..k] + [p] + a[k + 1..];
    assert multiset([p] + rest) == multiset(a);
    var s := EvaluationExists(action, context, [p] + rest);
    OrderDoesNotMatter(action, context, a, [p] + rest, r, s);
    FirstDecisiveWins(action, context, p, rest, s);
  }

  /** It does happen: of two policies that share the strictest decision the first one wins. */
  lemma WinnerDependsOnOrder()
    ensures var p := Policy("p", 1, "pay", Any, [Condition("x", Equals, Num(1.0))], Deny, "p says no");
            var q := p.(id := "q", reason := "q says no");
            exists r, s :: Evaluates("pay", map["x" := Num(1.0)], [p, q], r) && Evaluates("pay", map["x" := Num(1.0)], [q, p], s)
                           && r.Ok? && s.Ok? && r.value.policyId == Some("p") && s.value.policyId == Some("q")
  {
    var condition := Condition("x", Equals, Num(1.0));
    var p := Policy("p", 1, "pay", Any, [condition], Deny, "p says no");
    var q := p.(id := "q", reason := "q says no");
    var context := map["x" := Num(1.0)];
    TieEvaluates(context, condition, p, q);
    TieEvaluates(context, condition, q, p);
  }

  lemma OneCondition(context: Context, policyId: string, condition: Condition, seen: ConditionEvidence)
    requires Check(context, policyId, condition) == Ok(seen)
    ensures CheckAll(context, policyId, [condition]) == Ok([seen])
  {
    assert [condition][..0] == [];
    assert [] + [seen] == [seen];
  }

  lemma OneMoreTrace(context: Context, policies: seq<Policy>, trace: seq<TraceEntry>, policy: Policy, entry: TraceEntry)
    requires TraceAll(context, policies) == Ok(trace) && Trace(context, policy) == Ok(entry)
    ensures TraceAll(context, policies + [policy]) == Ok(trace + [entry])
  {
    assert (policies + [policy])[..|policies|] == policies;
  }

  lemma TieEvaluates(context: Context, condition: Condition, p: Policy, q: Policy)
    requires condition == Condition("x", Equals, Num(1.0)) && context == map["x" := Num(1.0)]
    requires p.conditions == q.conditions == [condition] && p.action == q.action == "pay" && p.match_ == q.match_ == Any
    requires p.decision == q.decision == Deny
    ensures exists r :: Evaluates("pay", context, [p, q], r) && r.Ok? && r.value.policyId == Some(p.id)
  {
    assert [p, q][..1] == [p] && [p][..0] == [] && [condition][..0] == [];
    assert Applicable([], "pay") == [] && Applicable([p], "pay") == [p];
    assert Applicable([p, q], "pay") == [p, q];
    var seen := ConditionEvidence("x", Equals, Num(1.0), Num(1.0), true);
    var evidence := Evidence(Any, [seen]);
    assert Check(context, p.id, condition) == Check(context, q.id, condition) == Ok(seen);
    assert evidence.conditions[0].matched;
    OneCondition(context, p.id, condition, seen);
    OneCondition(context, q.id, condition, seen);
    var first := TraceEntry(p.id, p.version, Deny, p.reason, true, evidence);
    var second := TraceEntry(q.id, q.version, Deny, q.reason, true, evidence);
    assert Trace(context, p) == Ok(first) && Trace(context, q) == Ok(second);
    OneMoreTrace(context, [], [], p, first);
    assert [] + [p] == [p] && [] + [first] == [first];
    OneMoreTrace(context, [p], [first], q, second);
    assert [p] + [q] == [p, q] && [first] + [second] == [first, second];
    var e := Evaluation(Deny, Some(p.id), Some(p.version), p.reason, Some(evidence), [first, second]);
    assert Reaches(e.trace, 0, Deny);
    assert Explains(e);
    assert Evaluates("pay", context, [p, q], Ok(e));
  }

  /** Adding policies never weakens the decision of a covered action: a denial stays one, and
      an approval that is required never turns into leave to go ahead. */
  lemma MorePoliciesNeverWeaken(action: string, context: Context, a: seq<Policy>, b: seq<Policy>,
                                r: Result<Evaluation, EvaluationError>, s: Result<Evaluation, EvaluationError>)
    requires forall p :: p in a ==> p in b
    requires Evaluates(action, context, a, r) && Evaluates(action, context, b, s)
    requires Covers(a, action) && s.Ok?
    ensures r.Ok?
    ensures r.value.decision == Deny ==> s.value.decision == Deny
    ensures r.value.decision == RequireApproval ==> s.value.decision != Allow
  {
    hide Fails, Holds, Evaluates;
    EvaluationMeans(action, context, a, r);
    EvaluationMeans(action, context, b, s);
  }
}
