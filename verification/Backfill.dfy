/** app/storage/integrity.py: the repository's two writers, insert and
    backfill_existing_decisions. The one-time rebuild carries previous_hash from row to
    row; the incremental insert looks the predecessor up each time. */
module Backfill {
  import opened Ordering
  import opened Integrity
  import opened Ledger
  import opened LedgerWrites

  datatype BackfillError =
    | PartialLedger(project: Id, decisionCount: nat, integrityCount: nat)
    | UnreadableDecision(decision: Id)
    | ConstraintFailed(decision: Id)

  function TimeKey(t: Tables): map<Id, int> {
    map d | d in t.decisions ::
      match t.decisions[d].body case None => 0 case Some(body) => body.evaluatedAt
  }

  /** ORDER BY evaluated_at, decision_id. */
  function BackfillOrder(t: Tables, p: Id): (order: seq<Id>)
    ensures Sorted(TimeKey(t), order) && Lists(order, DecisionIds(t, p))
  {
    SortBy(DecisionIds(t, p), TimeKey(t))
  }

  function Projects(t: Tables): seq<Id> {
    var ids := set d | d in t.decisions :: t.decisions[d].projectId;
    SortBy(ids, map p | p in ids :: 0)
  }

  function BackfillRows(t: Tables, rows: seq<Id>, done: nat, previous: Option<Digest>): Result<Tables, BackfillError>
    requires forall k :: 0 <= k < |rows| ==> rows[k] in t.decisions
    decreases |rows|
  {
    if rows == [] then Ok(t)
    else
      match ReadDecision(t, rows[0])
      case None => Err(UnreadableDecision(rows[0]))
      case Some(authorization) =>
        var proof := BuildProof(authorization, done + 1, previous);
        match InsertProof(t, proof)
        case None => Err(ConstraintFailed(rows[0]))
        case Some(u) => BackfillRows(u, rows[1..], done + 1, Some(proof.recordHash))
  }

  function BackfillProject(t: Tables, p: Id): Result<Tables, BackfillError> {
    var decisionCount, integrityCount := |DecisionIds(t, p)|, |RecordIds(t, p)|;
    if integrityCount == decisionCount then Ok(t)
    else if integrityCount != 0 then Err(PartialLedger(p, decisionCount, integrityCount))
    else
      assert forall k :: 0 <= k < |BackfillOrder(t, p)| ==> BackfillOrder(t, p)[k] in BackfillOrder(t, p);
      BackfillRows(t, BackfillOrder(t, p), 0, None)
  }

  function BackfillProjects(t: Tables, projects: seq<Id>): Result<Tables, BackfillError>
    decreases |projects|
  {
    if projects == [] then Ok(t)
    else
      match BackfillProject(t, projects[0])
      case Ok(u) => BackfillProjects(u, projects[1..])
      case Err(e) => Err(e)
  }

  /** app/storage/integrity.py: DecisionIntegrityRepository. */
  class DecisionIntegrityRepository {
    var decisions: map<Id, DecisionRow>
    var records: map<Id, ProofRow>

    function View(): Tables
      reads this
    {
      Tables(decisions, records)
    }

    /** Appends one proof for a decision inserted earlier in the same transaction. */
    method Insert(authorization: Authorization) returns (proof: Proof, inserted: bool)
      modifies this
      ensures proof == NextProof(old(View()), authorization)
      ensures inserted <==> InsertProof(old(View()), proof).Some?
      ensures View() == if inserted then InsertProof(old(View()), proof).value else old(View())
    {
      var previousRow := Chain(View(), authorization.projectId);
      var sequenceNumber := 1;
      var previousHash: Option<Digest> := None;
      if previousRow != [] {
        var last := previousRow[|previousRow| - 1];
        sequenceNumber := records[last].sequenceNumber + 1;
        previousHash := Some(records[last].recordHash);
      }
      proof := BuildProof(authorization, sequenceNumber, previousHash);
      match InsertProof(View(), proof) {
        case None => inserted := false;
        case Some(u) =>
          inserted := true;
          records := u.records;
      }
    }

    method BackfillRowsOf(rows: seq<Id>) returns (error: Option<BackfillError>)
      requires forall k :: 0 <= k < |rows| ==> rows[k] in decisions
      modifies this`records
      ensures BackfillRows(old(View()), rows, 0, None) == Completed(error)
    {
      var previousHash: Option<Digest> := None;
      var done := 0;
      while done < |rows|
        invariant done <= |rows|
        invariant BackfillRows(View(), rows[done..], done, previousHash) == BackfillRows(old(View()), rows, 0, None)
      {
        match ReadDecision(View(), rows[done]) {
          case None => return Some(UnreadableDecision(rows[done]));
          case Some(authorization) =>
            var proof := BuildProof(authorization, done + 1, previousHash);
            match InsertProof(View(), proof) {
              case None => return Some(ConstraintFailed(rows[done]));
              case Some(u) =>
                assert rows[done..][1..] == rows[done + 1..];
                records := u.records;
                previousHash := Some(proof.recordHash);
            }
        }
        done := done + 1;
      }
      return None;
    }

    /** The outcome of a writer: its new state, or the exception it left with. */
    function Completed(error: Option<BackfillError>): Result<Tables, BackfillError>
      reads this
    {
      if error.None? then Ok(View()) else Err(error.value)
    }

    method BackfillOne(p: Id) returns (error: Option<BackfillError>)
      modifies this`records
      ensures BackfillProject(old(View()), p) == Completed(error)
    {
      var decisionCount, integrityCount := |DecisionIds(View(), p)|, |RecordIds(View(), p)|;
      if integrityCount == decisionCount {
        return None;
      }
      if integrityCount != 0 {
        return Some(PartialLedger(p, decisionCount, integrityCount));
      }
      var order := BackfillOrder(View(), p);
      assert forall k :: 0 <= k < |order| ==> order[k] in order;
      error := BackfillRowsOf(order);
    }

    /** Every project or none: an exception rolls the whole transaction back. */
    method BackfillExistingDecisions() returns (error: Option<BackfillError>)
      modifies this`records
      ensures error.None? ==> BackfillProjects(old(View()), Projects(old(View()))) == Ok(View())
      ensures error.Some? ==> BackfillProjects(old(View()), Projects(old(View()))) == Err(error.value)
                              && View() == old(View())
    {
      var before := records;
      var projects := Projects(View());
      var i := 0;
      while i < |projects|
        invariant i <= |projects|
        invariant BackfillProjects(View(), projects[i..]) == BackfillProjects(old(View()), projects)
      {
        assert projects[i..][1..] == projects[i + 1..];
        error := BackfillOne(projects[i]);
        if error.Some? {
          records := before;
          return;
        }
        i := i + 1;
      }
      error := None;
    }
  }

  /** The rebuild that starts on an empty chain is the same as inserting one at a time. */
  function InsertAll(t: Tables, rows: seq<Id>): Result<Tables, BackfillError>
    requires forall k :: 0 <= k < |rows| ==> rows[k] in t.decisions
    decreases |rows|
  {
    if rows == [] then Ok(t)
    else
      match ReadDecision(t, rows[0])
      case None => Err(UnreadableDecision(rows[0]))
      case Some(authorization) =>
        match InsertProof(t, NextProof(t, authorization))
        case None => Err(ConstraintFailed(rows[0]))
        case Some(u) => InsertAll(u, rows[1..])
  }

  ghost predicate OfProject(t: Tables, rows: seq<Id>, p: Id) {
    forall k :: 0 <= k < |rows| ==> rows[k] in t.decisions && t.decisions[rows[k]].projectId == p
  }

  lemma {:induction false} RebuildIsInsertAll(t: Tables, rows: seq<Id>, p: Id)
    requires OfProject(t, rows, p) && MaxSequence(t, p) >= 0
    ensures BackfillRows(t, rows, MaxSequence(t, p), HashBefore(t, Chain(t, p), |Chain(t, p)|)) == InsertAll(t, rows)
    decreases |rows|
  {
    if rows != [] && ReadDecision(t, rows[0]).Some? {
      var authorization := ReadDecision(t, rows[0]).value;
      var next := InsertProof(t, NextProof(t, authorization));
      if next.Some? {
        ChainExtends(t, next.value, authorization);
        RebuildIsInsertAll(next.value, rows[1..], p);
      }
    }
  }

  /** Backfill refines incremental append: for a project without records, one pass over its
      decisions in (evaluated_at, decision_id) order is the same as that many inserts,
      failures included. */
  lemma BackfillRefinesInsert(t: Tables, p: Id)
    requires RecordIds(t, p) == {} && DecisionIds(t, p) != {}
    ensures OfProject(t, BackfillOrder(t, p), p)
    ensures BackfillProject(t, p) == InsertAll(t, BackfillOrder(t, p))
  {
    var order := BackfillOrder(t, p);
    assert forall k :: 0 <= k < |order| ==> order[k] in order;
    assert Chain(t, p) == [];
    RebuildIsInsertAll(t, order, p);
  }

  /** u stores the rows' records besides t's, and nothing else changed. */
  ghost predicate Adds(t: Tables, u: Tables, rows: seq<Id>) {
    && u.decisions == t.decisions
    && (forall d :: d in t.records ==> d in u.records && u.records[d] == t.records[d])
    && (forall d :: d in u.records ==> d in t.records || d in rows)
  }

  lemma InsertStep(t: Tables, authorization: Authorization)
    requires authorization.decisionId in t.decisions && authorization.decisionId !in t.records
    requires ReadDecision(t, authorization.decisionId) == Some(authorization)
    requires HashesNameOwners(t) && SoundRecords(t, authorization.projectId)
    ensures var next := InsertProof(t, NextProof(t, authorization));
            && next.Some? && Adds(t, next.value, [authorization.decisionId])
            && HashesNameOwners(next.value) && SoundRecords(next.value, authorization.projectId)
            && Chain(next.value, authorization.projectId)
               == Chain(t, authorization.projectId) + [authorization.decisionId]
            && next.value.records.Keys == t.records.Keys + {authorization.decisionId}
  {
    NextProofAccepted(t, authorization);
    var u := InsertProof(t, NextProof(t, authorization)).value;
    ChainExtends(t, u, authorization);
    ExtendedChainSound(t, u, authorization);
  }

  /** On sound records the inserts all succeed and the chain grows by exactly the rows. */
  lemma {:induction false} InsertAllBuilds(t: Tables, rows: seq<Id>, p: Id)
    requires OfProject(t, rows, p) && AllReadable(t, rows)
    requires HashesNameOwners(t) && SoundRecords(t, p)
    requires forall k :: 0 <= k < |rows| ==> rows[k] !in t.records
    requires forall i, j :: 0 <= i < j < |rows| ==> rows[i] != rows[j]
    ensures var r := InsertAll(t, rows);
            && r.Ok? && Adds(t, r.value, rows)
            && HashesNameOwners(r.value) && SoundRecords(r.value, p)
            && Chain(r.value, p) == Chain(t, p) + rows
    decreases |rows|
  {
    hide SoundRecords, Chain, HashesNameOwners, NextProof;
    if rows == [] {
      assert Chain(t, p) + rows == Chain(t, p);
    } else {
      var authorization := ReadDecision(t, rows[0]).value;
      InsertStep(t, authorization);
      var u := InsertProof(t, NextProof(t, authorization)).value;
      InsertAllBuilds(u, rows[1..], p);
      var r := InsertAll(u, rows[1..]).value;
      assert Chain(t, p) + [rows[0]] + rows[1..] == Chain(t, p) + rows;
      assert forall d :: d in rows <==> d == rows[0] || d in rows[1..];
      assert Adds(t, r, rows);
    }
  }

  /** What an upgrade finds: readable decisions, and per project a sound chain or none. */
  ghost predicate Upgradable(t: Tables) {
    && HashesNameOwners(t)
    && (forall d :: d in t.decisions ==> t.decisions[d].body.Some?)
    && (forall p: Id :: UpgradableProject(t, p))
  }

  ghost predicate UpgradableProject(t: Tables, p: Id) {
    SoundProject(t, p) || RecordIds(t, p) == {}
  }

  lemma OrderIsClean(t: Tables, p: Id)
    requires Upgradable(t)
    ensures var order := BackfillOrder(t, p);
            && OfProject(t, order, p) && AllReadable(t, order)
            && forall i, j :: 0 <= i < j < |order| ==> order[i] != order[j]
  {
    var order := BackfillOrder(t, p);
    forall k | 0 <= k < |order| ensures order[k] in t.decisions && t.decisions[order[k]].projectId == p {
      assert order[k] in order;
    }
  }

  /** A rebuilt project of an upgradable database. */
  lemma RebuildBuilds(t: Tables, p: Id)
    requires Upgradable(t) && RecordIds(t, p) == {} && DecisionIds(t, p) != {}
    ensures var r := BackfillProject(t, p);
            && r.Ok? && Adds(t, r.value, BackfillOrder(t, p))
            && HashesNameOwners(r.value) && SoundProject(r.value, p)
            && Chain(r.value, p) == BackfillOrder(t, p)
  {
    hide SoundRecords, BackfillProject, InsertAll, Sorted, Lists, HashesNameOwners;
    var order := BackfillOrder(t, p);
    RebuildReady(t, p);
    BackfillRefinesInsert(t, p);
    InsertAllBuilds(t, order, p);
    var u := InsertAll(t, order).value;
    assert Chain(t, p) + order == order;
    assert DecisionIds(u, p) == DecisionIds(t, p);
    ListedOnce(order, RecordIds(u, p), DecisionIds(u, p));
  }

  lemma RebuildReady(t: Tables, p: Id)
    requires Upgradable(t) && RecordIds(t, p) == {}
    ensures var order := BackfillOrder(t, p);
            && OfProject(t, order, p) && AllReadable(t, order)
            && (forall k :: 0 <= k < |order| ==> order[k] !in t.records)
            && (forall i, j :: 0 <= i < j < |order| ==> order[i] != order[j])
    ensures SoundRecords(t, p) && Chain(t, p) == []
  {
    var order := BackfillOrder(t, p);
    OrderIsClean(t, p);
    assert Chain(t, p) == [];
    forall k | 0 <= k < |order| ensures order[k] !in t.records {
      assert order[k] in order;
      if order[k] in t.records {
        RecordOfItsProject(t, order[k]);
        assert false;
      }
    }
  }

  lemma BackfillProjectBuilds(t: Tables, p: Id)
    requires Upgradable(t)
    ensures var r := BackfillProject(t, p);
            && r.Ok? && r.value.decisions == t.decisions && Upgradable(r.value)
            && SoundProject(r.value, p)
            && (SoundProject(t, p) ==> r.value == t)
            && (forall q: Id :: q != p && SoundProject(t, q) ==> SoundProject(r.value, q))
  {
    assert UpgradableProject(t, p);
    assert SoundProject(t, p) ==> DecisionIds(t, p) == RecordIds(t, p);
    if DecisionIds(t, p) == RecordIds(t, p) {
      if RecordIds(t, p) == {} {
        assert Chain(t, p) == [];
      }
      assert SoundProject(t, p);
    } else {
      assert |RecordIds(t, p)| == 0;
      assert DecisionIds(t, p) != {};
      RebuildBuilds(t, p);
      var u := BackfillProject(t, p).value;
      OrderIsClean(t, p);
      forall q: Id | q != p
        ensures SoundProject(t, q) ==> SoundProject(u, q)
        ensures UpgradableProject(u, q)
      {
        OtherProjectKept(t, u, p, q, BackfillOrder(t, p));
      }
      assert UpgradableProject(u, p);
    }
  }

  lemma RecordOfItsProject(t: Tables, d: Id)
    requires Upgradable(t) && d in t.records
    ensures d in t.decisions && d in RecordIds(t, t.decisions[d].projectId)
  {
    var q := t.records[d].projectId;
    assert UpgradableProject(t, q);
    assert d in RecordIds(t, q);
  }

  lemma OtherProjectKept(t: Tables, u: Tables, p: Id, q: Id, order: seq<Id>)
    requires Upgradable(t) && q != p && OfProject(t, order, p) && Adds(t, u, order)
    requires SoundProject(u, p)
    ensures SoundProject(t, q) ==> SoundProject(u, q)
    ensures UpgradableProject(u, q)
  {
    forall d ensures d in RecordIds(u, q) <==> d in RecordIds(t, q) {
      if d in u.records && d !in t.records {
        assert d in DecisionIds(u, p);
      }
    }
    assert RecordIds(u, q) == RecordIds(t, q) && DecisionIds(u, q) == DecisionIds(t, q);
    assert UpgradableProject(t, q);
    if SoundProject(t, q) {
      ChainUnchanged(t, u, q);
    }
  }

  lemma {:induction false} BackfillProjectsBuild(t: Tables, projects: seq<Id>)
    requires Upgradable(t)
    ensures var r := BackfillProjects(t, projects);
            && r.Ok? && r.value.decisions == t.decisions && Upgradable(r.value)
            && (forall p: Id :: p in projects || SoundProject(t, p) ==> SoundProject(r.value, p))
    decreases |projects|
  {
    if projects != [] {
      BackfillProjectBuilds(t, projects[0]);
      var u := BackfillProject(t, projects[0]).value;
      BackfillProjectsBuild(u, projects[1..]);
      var r := BackfillProjects(u, projects[1..]).value;
      forall p: Id | p in projects || SoundProject(t, p) ensures SoundProject(r, p) {
        if p != projects[0] && p in projects {
          assert p in projects[1..];
        }
      }
    }
  }

  /** The upgrade succeeds, touches no decision, and leaves every project verifiable. */
  lemma BackfillVerifies(t: Tables)
    requires Upgradable(t)
    ensures var r := BackfillProjects(t, Projects(t));
            && r.Ok? && r.value.decisions == t.decisions && Sound(r.value)
            && forall p: Id :: Verifies(r.value, r.value, r.value, p, None)
  {
    BackfillProjectsBuild(t, Projects(t));
    var u := BackfillProjects(t, Projects(t)).value;
    forall p: Id ensures SoundProject(u, p) && Verifies(u, u, u, p, None) {
      if p !in Projects(t) {
        assert DecisionIds(t, p) == {} by {
          assert forall d :: d in t.decisions && t.decisions[d].projectId == p ==> p in Projects(t);
        }
        assert UpgradableProject(t, p);
        if RecordIds(t, p) == {} {
          assert Chain(t, p) == [];
        }
        assert SoundProject(t, p);
      }
      SoundIsVerified(u, p);
    }
  }

  /** A second run changes nothing. */
  lemma {:induction false} BackfillIsIdempotent(t: Tables, projects: seq<Id>)
    requires Sound(t)
    ensures BackfillProjects(t, projects) == Ok(t)
    decreases |projects|
  {
    if projects != [] {
      assert SoundProject(t, projects[0]);
      BackfillIsIdempotent(t, projects[1..]);
    }
  }

  /** A ledger that has some but not all of a project's records is rejected; the repository
      method above then leaves every project as it was. */
  lemma {:induction false} PartialLedgerRejected(t: Tables, projects: seq<Id>, p: Id)
    requires p in projects && |RecordIds(t, p)| != 0 && |RecordIds(t, p)| != |DecisionIds(t, p)|
    ensures BackfillProjects(t, projects).Err?
    decreases |projects|
  {
    if projects[0] != p {
      var r := BackfillProject(t, projects[0]);
      if r.Ok? {
        assert p in projects[1..];
        BackfillKeepsOthers(t, projects[0], p);
        PartialLedgerRejected(r.value, projects[1..], p);
      }
    }
  }

  lemma BackfillKeepsOthers(t: Tables, p: Id, q: Id)
    requires p != q && BackfillProject(t, p).Ok?
    ensures var u := BackfillProject(t, p).value;
            RecordIds(u, q) == RecordIds(t, q) && DecisionIds(u, q) == DecisionIds(t, q)
  {
    if |RecordIds(t, p)| != |DecisionIds(t, p)| {
      var order := BackfillOrder(t, p);
      assert forall k :: 0 <= k < |order| ==> order[k] in order;
      RowsKeepOthers(t, order, 0, None, p, q);
    }
  }

  lemma {:induction false} RowsKeepOthers(t: Tables, rows: seq<Id>, done: nat, previous: Option<Digest>, p: Id, q: Id)
    requires p != q && OfProject(t, rows, p) && BackfillRows(t, rows, done, previous).Ok?
    ensures var u := BackfillRows(t, rows, done, previous).value;
            RecordIds(u, q) == RecordIds(t, q) && DecisionIds(u, q) == DecisionIds(t, q)
    decreases |rows|
  {
    if rows != [] {
      var proof := BuildProof(ReadDecision(t, rows[0]).value, done + 1, previous);
      var u := InsertProof(t, proof).value;
      assert RecordIds(u, q) == RecordIds(t, q);
      RowsKeepOthers(u, rows[1..], done + 1, Some(proof.recordHash), p, q);
    }
  }
}
