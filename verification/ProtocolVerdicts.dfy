/** app/services/authorization.py: what is answered and stored is what the policies said. Every
    stored decision is followed back, over the whole run, to the one step that saved it. */
module ProtocolVerdicts {
  import opened Ordering
  import opened Integrity
  import opened Store
  import opened StoreInvariants
  import opened Accounting
  import opened Protocol
  import opened ProtocolInvariants
  import opened ProtocolRuns
  import L = Ledger
  import W = LedgerWrites

  /** The authorization says what the policies' verdict says, of this caller's request, at the
      time and under the id of the step. */
  predicate Carries(authorization: Authorization, p: Id, input: Input, choice: Choice) {
    && input.AuthorizeInput? && choice.evaluation.Some?
    && authorization.decisionId == choice.newId && authorization.projectId == p
    && var (body, verdict) := (authorization.body, choice.evaluation.value);
       && body.outcome == verdict.outcome && body.policy == verdict.policy && body.policyVersion == verdict.policyVersion
       && body.reason == verdict.reason && body.evidence == verdict.evidence && body.trace == verdict.trace
       && body.evaluatedAt == choice.now && body.request == input.request
  }

  /** A saving step refuses the context exactly when the policies gave no verdict, and otherwise
      answers with the verdict, which is then what the database stores. */
  lemma SaveCarriesVerdict(s: Settings, db: Database, p: Id, input: Input, choice: Choice)
    requires input.AuthorizeInput?
    ensures var next := Step(s, db, p, input, AuthorizeSave, choice);
            && (next.pc == Done(InvalidContext) <==> choice.evaluation.None?)
            && (choice.evaluation.None? ==> next.db == db)
            && (next.pc.Done? && next.pc.answer.Authorized? ==>
                  var authorization := next.pc.answer.authorization;
                  && Carries(authorization, p, input, choice)
                  && choice.newId !in db.ledger.decisions && GetDecision(next.db, choice.newId, p) == Some(authorization))
  {
  }

  // ---------------------------------------------------------------- over whole runs

  /** Action n of the run is the step that saved this decision. */
  ghost predicate SavedAt(settings: Settings, projects: set<Id>, actions: seq<Action>, n: nat, authorization: Authorization) {
    && n < |actions| && actions[n].Advance?
    && var before := Run(Initially(settings, projects), actions[..n]);
       && authorization.decisionId !in before.db.ledger.decisions
       && actions[n].call in before.calls
       && var call := before.calls[actions[n].call];
          call.pc == AuthorizeSave && Carries(authorization, call.project, call.input, actions[n].choice)
  }

  /** Some run to c has a step that saved this decision. */
  ghost predicate Carried(c: Config, authorization: Authorization) {
    exists settings, projects, actions, n ::
      Run(Initially(settings, projects), actions) == c && SavedAt(settings, projects, actions, n, authorization)
  }

  lemma SavedAtStays(settings: Settings, projects: set<Id>, actions: seq<Action>, m: nat, n: nat, authorization: Authorization)
    requires m <= |actions| && SavedAt(settings, projects, actions[..m], n, authorization)
    ensures SavedAt(settings, projects, actions, n, authorization)
  {
    hide Run, Initially, Carries;
    assert actions[..m][..n] == actions[..n];
  }

  lemma StoredNow(c: Config, action: Action, d: Id)
    requires Inv(c) && d in Apply(c, action).db.ledger.decisions
    ensures var row := Apply(c, action).db.ledger.decisions[d];
            && row.body.Some?
            && (if d in c.db.ledger.decisions then row == c.db.ledger.decisions[d]
                else action.Advance? && action.call in c.calls
                     && var call := c.calls[action.call];
                        call.pc == AuthorizeSave
                        && Carries(Authorization(d, row.projectId, row.body.value), call.project, call.input, action.choice))
  {
    hide Inv, Step, Carries;
    ApplyKeeps(c, action);
    ReadableRows(c);
    if action.Advance? && action.call in c.calls {
      CallKnownHere(c, action.call);
      var call := c.calls[action.call];
      var next := Step(c.settings, c.db, call.project, call.input, call.pc, action.choice);
      if Persists(call.input, call.pc, next) {
        SaveFootprint(c.settings, c.db, call.project, call.input, action.choice);
        SaveCarriesVerdict(c.settings, c.db, call.project, call.input, action.choice);
        SavedRow(next.db, call.project, action.choice.newId, next.pc.answer.authorization);
      } else {
        StepFootprint(c.settings, c.db, call.project, call.input, call.pc, action.choice);
      }
    }
  }

  lemma SavedRow(db: Database, p: Id, d: Id, authorization: Authorization)
    requires GetDecision(db, d, p) == Some(authorization)
    ensures d in db.ledger.decisions
            && db.ledger.decisions[d] == L.DecisionRow(authorization.projectId, Some(authorization.body))
            && authorization.decisionId == d
  {
  }

  lemma ReadableRows(c: Config)
    requires Inv(c)
    ensures forall d :: d in c.db.ledger.decisions ==> c.db.ledger.decisions[d].body.Some?
  {
    hide Accounted, DatesOk, CallsOk, ConsumersOk, SavesOk, W.Sound, ApprovalsOk, GrantsOk, IdempotencyOk;
  }

  lemma CallKnownHere(c: Config, id: Id)
    requires Inv(c) && id in c.calls
    ensures Consistent(c.db) && c.calls[id].project in c.db.projects
            && PcOk(c.settings, c.db, c.calls[id].project, c.calls[id].input, c.calls[id].pc)
  {
    hide Consistent, Accounted, DatesOk, ConsumersOk, SavesOk, PcOk;
  }

  /** Every decision stored by a run was saved by a step of it, and carries the verdict that
      this step was given. */
  lemma {:induction false} StoredDecisionsCarryVerdicts(settings: Settings, projects: set<Id>, actions: seq<Action>, d: Id)
    requires d in Run(Initially(settings, projects), actions).db.ledger.decisions
    ensures var row := Run(Initially(settings, projects), actions).db.ledger.decisions[d];
            row.body.Some?
            && exists n :: SavedAt(settings, projects, actions, n, Authorization(d, row.projectId, row.body.value))
    decreases |actions|
  {
    hide Apply, Inv, Carries;
    if actions != [] {
      var n := |actions| - 1;
      var before := Run(Initially(settings, projects), actions[..n]);
      InitiallyOk(settings, projects);
      RunKeeps(Initially(settings, projects), actions[..n]);
      StoredNow(before, actions[n], d);
      var row := Apply(before, actions[n]).db.ledger.decisions[d];
      var authorization := Authorization(d, row.projectId, row.body.value);
      if d in before.db.ledger.decisions {
        StoredDecisionsCarryVerdicts(settings, projects, actions[..n], d);
        var m :| SavedAt(settings, projects, actions[..n], m, authorization);
        SavedAtStays(settings, projects, actions, n, m, authorization);
      } else {
        assert SavedAt(settings, projects, actions, n, authorization);
      }
    }
  }

  lemma ReachableCarries(c: Config, d: Id)
    requires Reachable(c) && d in c.db.ledger.decisions
    ensures var row := c.db.ledger.decisions[d];
            row.body.Some? && Carried(c, Authorization(d, row.projectId, row.body.value))
  {
    hide Run, Initially, SavedAt;
    var settings, projects, actions :| Run(Initially(settings, projects), actions) == c;
    StoredDecisionsCarryVerdicts(settings, projects, actions, d);
    var row := c.db.ledger.decisions[d];
    var n :| SavedAt(settings, projects, actions, n, Authorization(d, row.projectId, row.body.value));
  }
}
