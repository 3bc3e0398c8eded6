/** app/storage/integrity.py: appending to the chain and backfilling it, with the
    constraints of the integrity table (app/storage/database.py). */
module LedgerWrites {
  import opened Ordering
  import opened Integrity
  import opened Ledger

  /** INSERT INTO decision_integrity_records under its keys, checks and project trigger;
      None is the IntegrityError. */
  function InsertProof(t: Tables, proof: Proof): (r: Option<Tables>)
    ensures r.Some? ==> r.value.decisions == t.decisions
                        && r.value.records == t.records[proof.decisionId := RowOf(proof)]
                        && proof.decisionId !in t.records
  {
    if && proof.decisionId !in t.records
       && proof.decisionId in t.decisions && t.decisions[proof.decisionId].projectId == proof.projectId
       && proof.sequenceNumber >= 1 && (proof.sequenceNumber == 1 <==> proof.previousHash.None?)
       && (forall d :: d in t.records ==> t.records[d].recordHash != proof.recordHash)
       && (forall d :: d in t.records && t.records[d].projectId == proof.projectId ==>
             t.records[d].sequenceNumber != proof.sequenceNumber)
    then Some(t.(records := t.records[proof.decisionId := RowOf(proof)]))
    else None
  }

  /** The proof that insert builds: on top of the project's highest sequence number. */
  function NextProof(t: Tables, authorization: Authorization): Proof {
    var chain := Chain(t, authorization.projectId);
    BuildProof(authorization, MaxSequence(t, authorization.projectId) + 1, HashBefore(t, chain, |chain|))
  }

  /** The decision row and its proof, in one transaction; None when it rolled back. */
  function Append(t: Tables, authorization: Authorization): Option<Tables> {
    if authorization.decisionId in t.decisions then None
    else
      var inserted := t.(decisions := t.decisions[authorization.decisionId :=
                                        DecisionRow(authorization.projectId, Some(authorization.body))]);
      InsertProof(inserted, NextProof(inserted, authorization))
  }

  // ---------------------------------------------------------------- reachable ledgers

  /** The project's records form a sound chain, over some of its decisions. */
  ghost predicate SoundRecords(t: Tables, p: Id) {
    var chain := Chain(t, p);
    Joined(t, chain) && SoundUpTo(t, chain, |chain|)
  }

  ghost predicate SoundProject(t: Tables, p: Id) {
    DecisionIds(t, p) == RecordIds(t, p) && SoundRecords(t, p)
  }

  ghost predicate Sound(t: Tables) {
    forall p: Id :: SoundProject(t, p)
  }

  /** Soundness is what verify reports when no checkpoint is asked for. */
  lemma SoundIsVerified(t: Tables, p: Id)
    ensures SoundProject(t, p) <==> Verifies(t, t, t, p, None)
  {
    if DecisionIds(t, p) == RecordIds(t, p) {
      ScanIsChain(t, p, MaxSequence(t, p));
    }
  }

  lemma SoundRow(t: Tables, d: Id)
    requires Sound(t) && d in t.records
    ensures d in t.decisions && t.decisions[d].projectId == t.records[d].projectId && ReadDecision(t, d).Some?
    ensures NamesOwner(t.records[d].recordHash, d)
  {
    var p := t.records[d].projectId;
    assert SoundProject(t, p);
    assert d in RecordIds(t, p) && d in DecisionIds(t, p);
    var chain := Chain(t, p);
    assert d in chain;
    var k :| 0 <= k < |chain| && chain[k] == d;
    assert RowSound(t, chain, k);
  }

  lemma SoundSequence(t: Tables, p: Id)
    requires SoundRecords(t, p)
    ensures MaxSequence(t, p) == |Chain(t, p)|
  {
    var chain := Chain(t, p);
    if chain != [] {
      assert RowSound(t, chain, |chain| - 1);
    }
  }

  /** Changes elsewhere leave a project's chain and its soundness alone. */
  lemma ChainUnchanged(t: Tables, u: Tables, p: Id)
    requires SoundRecords(t, p) && RecordIds(t, p) == RecordIds(u, p)
    requires forall d :: d in RecordIds(t, p) ==> t.records[d] == u.records[d]
    requires forall d :: d in DecisionIds(t, p) ==> d in u.decisions && t.decisions[d] == u.decisions[d]
    ensures Chain(u, p) == Chain(t, p) && SoundRecords(u, p)
  {
    hide Chain, SortBy, RowSound;
    var chain := Chain(t, p);
    SameChain(t, u, p);
    assert forall k :: 0 <= k < |chain| ==> chain[k] in chain;
    forall k | 0 <= k < |chain|
      ensures chain[k] in u.records && t.records[chain[k]] == u.records[chain[k]]
              && chain[k] in u.decisions && t.decisions[chain[k]] == u.decisions[chain[k]]
    {
      assert chain[k] in RecordIds(t, p) && chain[k] in RecordIds(u, p);
      assert chain[k] in DecisionIds(t, p);
    }
    assert Joined(u, chain);
    forall k | 0 <= k < |chain| ensures RowSound(u, chain, k) {
      assert RowSound(t, chain, k);
      SameRowSound(t, u, chain, k);
    }
  }

  lemma SameChain(t: Tables, u: Tables, p: Id)
    requires RecordIds(t, p) == RecordIds(u, p)
    requires forall d :: d in RecordIds(t, p) ==> t.records[d] == u.records[d]
    ensures Chain(u, p) == Chain(t, p)
  {
    var chain := Chain(t, p);
    assert forall k :: 0 <= k < |chain| ==> chain[k] in chain;
    SortByIs(RecordIds(u, p), SequenceKey(u), chain);
  }

  lemma SameRowSound(t: Tables, u: Tables, rows: seq<Id>, k: nat)
    requires Joined(t, rows) && Joined(u, rows) && k < |rows| && RowSound(t, rows, k)
    requires t.records[rows[k]] == u.records[rows[k]] && t.decisions[rows[k]] == u.decisions[rows[k]]
    requires k > 0 ==> t.records[rows[k - 1]] == u.records[rows[k - 1]]
    ensures RowSound(u, rows, k)
  {
  }

  /** u is t after the integrity insert of a stored decision. */
  ghost predicate AddedProof(t: Tables, u: Tables, authorization: Authorization) {
    && authorization.decisionId in t.decisions && authorization.decisionId !in t.records
    && ReadDecision(t, authorization.decisionId) == Some(authorization)
    && u == t.(records := t.records[authorization.decisionId := RowOf(NextProof(t, authorization))])
  }

  /** Adding the project's next proof extends its chain by exactly that record. */
  lemma ChainExtends(t: Tables, u: Tables, authorization: Authorization)
    requires AddedProof(t, u, authorization)
    ensures Chain(u, authorization.projectId) == Chain(t, authorization.projectId) + [authorization.decisionId]
    ensures RecordIds(u, authorization.projectId) == RecordIds(t, authorization.projectId) + {authorization.decisionId}
    ensures MaxSequence(u, authorization.projectId) == MaxSequence(t, authorization.projectId) + 1
  {
    var p, added := authorization.projectId, authorization.decisionId;
    var chain := Chain(t, p);
    assert RecordIds(u, p) == RecordIds(t, p) + {added};
    forall k | 0 <= k < |chain|
      ensures chain[k] in t.records && chain[k] != added && t.records[chain[k]].sequenceNumber <= MaxSequence(t, p)
    {
      assert chain[k] in chain;
    }
    assert Sorted(SequenceKey(u), chain + [added]);
    SortByIs(RecordIds(u, p), SequenceKey(u), chain + [added]);
  }

  lemma ExtendedChainSound(t: Tables, u: Tables, authorization: Authorization)
    requires SoundRecords(t, authorization.projectId) && AddedProof(t, u, authorization)
    ensures SoundRecords(u, authorization.projectId)
  {
    var p := authorization.projectId;
    var chain, longer := Chain(t, p), Chain(u, p);
    ChainExtends(t, u, authorization);
    SoundSequence(t, p);
    forall k | 0 <= k < |chain| ensures chain[k] in t.records && longer[k] == chain[k] {
      assert RowSound(t, chain, k);
    }
    assert Joined(u, longer);
    forall k | 0 <= k < |longer| ensures RowSound(u, longer, k) {
      assert HashBefore(u, longer, k) == HashBefore(t, chain, k);
      if k < |chain| {
        assert RowSound(t, chain, k);
      }
    }
  }

  /** Every stored hash is the hash of an envelope naming its own decision, so no new
      decision's hash can collide. */
  ghost predicate HashesNameOwners(t: Tables) {
    forall d :: d in t.records ==> NamesOwner(t.records[d].recordHash, d)
  }

  predicate NamesOwner(hash: Digest, d: Id) {
    hash.Sha256? && hash.message.EnvelopeText? && hash.message.envelope.decisionId == d
  }

  /** No constraint of the integrity table refuses the next proof of a sound chain. */
  lemma NextProofAccepted(t: Tables, authorization: Authorization)
    requires HashesNameOwners(t) && SoundRecords(t, authorization.projectId)
    requires authorization.decisionId in t.decisions && authorization.decisionId !in t.records
    requires t.decisions[authorization.decisionId].projectId == authorization.projectId
    ensures InsertProof(t, NextProof(t, authorization)).Some?
  {
    var p := authorization.projectId;
    SoundSequence(t, p);
    forall e | e in t.records && t.records[e].projectId == p
      ensures t.records[e].sequenceNumber != MaxSequence(t, p) + 1
    {
      var chain := Chain(t, p);
      assert e in chain;
      var k :| 0 <= k < |chain| && chain[k] == e;
      assert RowSound(t, chain, k);
    }
  }

  /** On a sound ledger only a repeated decision id is refused, every other append extends
      its own project's chain by one record, and every project stays sound. */
  lemma AppendKeepsSound(t: Tables, authorization: Authorization)
    requires Sound(t)
    ensures Append(t, authorization).Some? <==> authorization.decisionId !in t.decisions
    ensures Append(t, authorization).Some? ==>
              var u := Append(t, authorization).value;
              && Sound(u) && Grows(t, u)
              && Chain(u, authorization.projectId) == Chain(t, authorization.projectId) + [authorization.decisionId]
              && u.decisions == t.decisions[authorization.decisionId :=
                                  DecisionRow(authorization.projectId, Some(authorization.body))]
              && ReadDecision(u, authorization.decisionId) == Some(authorization)
  {
    var d, p := authorization.decisionId, authorization.projectId;
    if d !in t.decisions {
      if d in t.records {
        SoundRow(t, d);
        assert false;
      }
      var inserted := t.(decisions := t.decisions[d := DecisionRow(p, Some(authorization.body))]);
      assert SoundProject(t, p);
      ChainUnchanged(t, inserted, p);
      forall e | e in t.records ensures NamesOwner(t.records[e].recordHash, e) {
        SoundRow(t, e);
      }
      NextProofAccepted(inserted, authorization);
      var u := Append(t, authorization).value;
      ChainExtends(inserted, u, authorization);
      ExtendedChainSound(inserted, u, authorization);
      assert DecisionIds(u, p) == DecisionIds(t, p) + {d};
      OtherProjectsSound(t, u, p, d);
    }
  }

  lemma OtherProjectsSound(t: Tables, u: Tables, p: Id, d: Id)
    requires Sound(t) && SoundProject(u, p) && d !in t.decisions && d !in t.records
    requires d in u.decisions && u.decisions[d].projectId == p && d in u.records && u.records[d].projectId == p
    requires u.decisions == t.decisions[d := u.decisions[d]] && u.records == t.records[d := u.records[d]]
    ensures Sound(u)
  {
    forall q: Id ensures SoundProject(u, q) {
      assert SoundProject(t, q);
      if q != p {
        assert RecordIds(u, q) == RecordIds(t, q) && DecisionIds(u, q) == DecisionIds(t, q);
        ChainUnchanged(t, u, q);
      }
    }
  }

  /** Rows are never updated or deleted. */
  ghost predicate Grows(t: Tables, u: Tables) {
    && (forall d :: d in t.decisions ==> d in u.decisions && u.decisions[d] == t.decisions[d])
    && (forall d :: d in t.records ==> d in u.records && u.records[d] == t.records[d])
  }

  /** Any sequence of appends to any projects; a refused append changes nothing. */
  function AppendAll(t: Tables, authorizations: seq<Authorization>): Tables
    decreases |authorizations|
  {
    if authorizations == [] then t
    else
      var u := Append(t, authorizations[0]);
      AppendAll(if u.Some? then u.value else t, authorizations[1..])
  }

  const EMPTY := Tables(map[], map[])

  lemma {:induction false} RunKeepsSound(t: Tables, authorizations: seq<Authorization>)
    requires Sound(t)
    ensures Sound(AppendAll(t, authorizations)) && Grows(t, AppendAll(t, authorizations))
    decreases |authorizations|
  {
    if authorizations != [] {
      AppendKeepsSound(t, authorizations[0]);
      var u := Append(t, authorizations[0]);
      RunKeepsSound(if u.Some? then u.value else t, authorizations[1..]);
    }
  }

  /** Every reachable ledger verifies, for every project. */
  lemma ReachableVerifies(authorizations: seq<Authorization>, p: Id)
    ensures var t := AppendAll(EMPTY, authorizations); Verifies(t, t, t, p, None)
  {
    forall q: Id ensures SoundProject(EMPTY, q) {
      assert RecordIds(EMPTY, q) == {} && DecisionIds(EMPTY, q) == {};
    }
    RunKeepsSound(EMPTY, authorizations);
    assert SoundProject(AppendAll(EMPTY, authorizations), p);
    SoundIsVerified(AppendAll(EMPTY, authorizations), p);
  }

  /** In a sound ledger that grew, the earlier chain is a prefix of the later one. */
  lemma GrownChain(t: Tables, u: Tables, p: Id)
    requires Sound(t) && Sound(u) && Grows(t, u)
    ensures |Chain(t, p)| <= |Chain(u, p)| && Chain(u, p)[..|Chain(t, p)|] == Chain(t, p)
  {
    assert SoundProject(t, p) && SoundProject(u, p);
    var a, b := Chain(t, p), Chain(u, p);
    forall k | 0 <= k < |a| ensures k < |b| && b[k] == a[k] {
      assert a[k] in a;
      assert RowSound(t, a, k);
      assert a[k] in RecordIds(u, p);
      assert a[k] in b;
      var m :| 0 <= m < |b| && b[m] == a[k];
      assert RowSound(u, b, m);
    }
    if |a| > 0 {
      var last := |a| - 1;
      assert a[last] in a;
    }
  }

  /** Later appends never invalidate a checkpoint: it verifies in every later ledger, also
      when the counts, the unmatched rows and the rows are read at different moments. */
  lemma CheckpointSurvivesGrowth(t: Tables, counted: Tables, matched: Tables, scanned: Tables, p: Id, k: nat)
    requires Sound(t) && Sound(counted) && Sound(matched) && Sound(scanned)
    requires Grows(t, counted) && Grows(counted, scanned)
    requires k < |Chain(t, p)|
    ensures Verifies(counted, matched, scanned, p, Some(t.records[Chain(t, p)[k]].recordHash))
  {
    GrownChain(t, counted, p);
    GrownChain(counted, scanned, p);
    SplitReadScan(counted, scanned, p);
    var d := Chain(t, p)[k];
    assert d in Chain(t, p);
    assert Chain(counted, p)[k] == d;
    assert SoundProject(counted, p) && SoundProject(matched, p);
    var rows := Scan(scanned, p, MaxSequence(counted, p));
    assert scanned.records[rows[k]].recordHash == t.records[d].recordHash;
  }

  /** Reading the rows later than the counts sees the chain as it was when counted. */
  lemma SplitReadScan(counted: Tables, scanned: Tables, p: Id)
    requires Sound(counted) && Sound(scanned) && Grows(counted, scanned)
    ensures Scan(scanned, p, MaxSequence(counted, p)) == Chain(counted, p)
    ensures SoundUpTo(scanned, Chain(counted, p), |Chain(counted, p)|)
    ensures Verifies(counted, counted, scanned, p, None)
  {
    var a, b := Chain(counted, p), Chain(scanned, p);
    var n := |a|;
    assert SoundProject(counted, p) && SoundProject(scanned, p);
    GrownChain(counted, scanned, p);
    SoundSequence(counted, p);
    forall k | 0 <= k < |b| ensures b[k] in scanned.records && scanned.records[b[k]].sequenceNumber == k + 1 {
      assert RowSound(scanned, b, k);
    }
    forall d ensures d in a <==> d in ScanIds(scanned, p, n) {
      if d in a {
        var k :| 0 <= k < |a| && a[k] == d;
        assert b[k] == d;
        assert d in b;
        assert d in RecordIds(scanned, p);
      }
      if d in ScanIds(scanned, p, n) {
        assert d in b;
        var k :| 0 <= k < |b| && b[k] == d;
        assert a[k] == d;
      }
    }
    forall i, j | 0 <= i < j < |a| ensures a[i] in scanned.records && a[j] in scanned.records
                                           && Before(SequenceKey(scanned), a[i], a[j]) {
      assert a[i] == b[i] && a[j] == b[j];
    }
    forall i | 0 <= i < |a| ensures a[i] in scanned.records {
      assert a[i] == b[i];
    }
    SortByIs(ScanIds(scanned, p, n), SequenceKey(scanned), a);
    forall k | 0 <= k < n ensures RowSound(scanned, a, k) {
      assert RowSound(scanned, b, k);
      assert a[k] == b[k];
      assert k > 0 ==> a[k - 1] == b[k - 1];
    }
  }
}
