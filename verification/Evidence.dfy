/** app/evidence.py: evidence bundles and their offline verification. */
module Evidence {
  import opened Ordering
  import opened Integrity
  import opened Ledger

  datatype Snapshot = Snapshot(projectId: Id, capturedAt: Instant, maxSequence: int,
                               chainHeadHash: Option<Digest>, recordCount: nat)

  datatype Manifest = Manifest(core: ManifestCore, bundleDigest: Digest)

  datatype Bundle = Bundle(manifest: Manifest, records: seq<VerifiableRecord>, chain: seq<Proof>)

  datatype BuildError = RecordCountChanged | ChainChanged | HeadChanged

  /** build_evidence_bundle; the chain record count of a snapshot is its highest sequence. */
  function BuildBundle(snapshot: Snapshot, criteria: string, records: seq<VerifiableRecord>,
                       chain: seq<Proof>, expected: Option<Digest>, generatedAt: Instant)
    : Result<Bundle, BuildError>
  {
    if |records| != snapshot.recordCount then Err(RecordCountChanged)
    else if |chain| != snapshot.maxSequence then Err(ChainChanged)
    else if HeadOf(chain) != snapshot.chainHeadHash then Err(HeadChanged)
    else
      var core := ManifestCore(snapshot.projectId, criteria, generatedAt, snapshot.capturedAt,
                               snapshot.recordCount, snapshot.maxSequence, snapshot.chainHeadHash,
                               expected, Sha256(RecordsText(records)), Sha256(ChainText(chain)));
      Ok(Bundle(Manifest(core, Sha256(BundleText(core, records, chain))), records, chain))
  }

  // ---------------------------------------------------------------- what verification means

  ghost predicate LinkSound(chain: seq<Proof>, p: Id, k: nat)
    requires k < |chain|
  {
    && chain[k].projectId == p
    && chain[k].sequenceNumber == k + 1
    && chain[k].previousHash == HeadOf(chain[..k])
    && chain[k].recordHash == ProofRecordHash(chain[k])
    && forall j :: 0 <= j < k ==> chain[j].decisionId != chain[k].decisionId
  }

  ghost predicate ChainSound(chain: seq<Proof>, p: Id, n: nat)
    requires n <= |chain|
  {
    forall k :: 0 <= k < n ==> LinkSound(chain, p, k)
  }

  /** A selected record is one decision of the chain, unmodified, selected once. */
  ghost predicate RecordSound(bundle: Bundle, i: nat)
    requires i < |bundle.records|
  {
    var record := bundle.records[i];
    && record.decision.projectId == bundle.manifest.core.projectId
    && record.integrity in bundle.chain
    && record.integrity.projectId == bundle.manifest.core.projectId
    && record.integrity.decisionId == record.decision.decisionId
    && record.integrity.payloadHash == PayloadHash(record.decision)
    && forall j :: 0 <= j < i ==> bundle.records[j].decision.decisionId != record.decision.decisionId
  }

  ghost predicate RecordsSound(bundle: Bundle, n: nat)
    requires n <= |bundle.records|
  {
    forall i :: 0 <= i < n ==> RecordSound(bundle, i)
  }

  predicate DigestsMatch(bundle: Bundle) {
    var core := bundle.manifest.core;
    && core.recordCount == |bundle.records|
    && core.chainRecordCount == |bundle.chain|
    && core.recordsDigest == Sha256(RecordsText(bundle.records))
    && core.chainDigest == Sha256(ChainText(bundle.chain))
    && bundle.manifest.bundleDigest == Sha256(BundleText(core, bundle.records, bundle.chain))
  }

  ghost predicate Anchored(chain: seq<Proof>, checkpoint: Option<Digest>) {
    checkpoint.Some? ==> exists k :: 0 <= k < |chain| && chain[k].recordHash == checkpoint.value
  }

  ghost predicate BundleVerifies(bundle: Bundle, expected: Option<Digest>) {
    var core := bundle.manifest.core;
    && DigestsMatch(bundle)
    && ChainSound(bundle.chain, core.projectId, |bundle.chain|)
    && core.chainHeadHash == HeadOf(bundle.chain)
    && Anchored(bundle.chain, core.expectedHeadHash) && Anchored(bundle.chain, expected)
    && RecordsSound(bundle, |bundle.records|)
  }

  datatype BundleFailure =
    | ManifestRecordCountMismatch | ManifestChainCountMismatch | RecordsDigestMismatch
    | ChainDigestMismatch | BundleDigestMismatch | ProjectMismatch | ChainSequenceMismatch
    | ChainPreviousHashMismatch | ChainRecordHashMismatch | ChainHeadMismatch
    | TrustedCheckpointMismatch | SelectedRecordMissing | SelectedProofMismatch
    | SelectedPayloadHashMismatch

  datatype BundleVerification = BundleVerification(verified: bool, checkedRecords: nat,
                                                   checkedChainRecords: nat, headHash: Option<Digest>,
                                                   failure: Option<BundleFailure>)

  // ---------------------------------------------------------------- the verifier

  const LINK_FAULTS := {ProjectMismatch, ChainSequenceMismatch, ChainPreviousHashMismatch, ChainRecordHashMismatch}
  const RECORD_FAULTS := {ProjectMismatch, SelectedRecordMissing, SelectedProofMismatch, SelectedPayloadHashMismatch}

  method CheckLink(chain: seq<Proof>, p: Id, k: nat, previousHash: Option<Digest>, known: map<Id, Proof>)
    returns (fault: Option<BundleFailure>)
    requires k < |chain| && previousHash == HeadOf(chain[..k])
    requires forall d :: d in known <==> exists j :: 0 <= j < k && chain[j].decisionId == d
    ensures fault.None? <==> LinkSound(chain, p, k)
    ensures fault.Some? ==> fault.value in LINK_FAULTS
    ensures fault == Some(ProjectMismatch) <==> chain[k].projectId != p
    ensures fault == Some(ChainRecordHashMismatch) ==> chain[k].recordHash != ProofRecordHash(chain[k])
  {
    var proof := chain[k];
    if proof.projectId != p {
      return Some(ProjectMismatch);
    }
    if proof.sequenceNumber != k + 1 {
      return Some(ChainSequenceMismatch);
    }
    if proof.previousHash != previousHash {
      return Some(ChainPreviousHashMismatch);
    }
    if proof.recordHash != ProofRecordHash(proof) {
      return Some(ChainRecordHashMismatch);
    }
    if proof.decisionId in known {
      return Some(ChainSequenceMismatch);
    }
    return None;
  }

  method CheckRecord(bundle: Bundle, i: nat, known: map<Id, Proof>, selected: set<Id>)
    returns (fault: Option<BundleFailure>)
    requires i < |bundle.records|
    requires ProofIndex(bundle.chain, known)
    requires selected == set j | 0 <= j < i :: bundle.records[j].decision.decisionId
    ensures fault.None? <==> RecordSound(bundle, i)
    ensures fault.Some? ==> fault.value in RECORD_FAULTS
    ensures fault == Some(SelectedPayloadHashMismatch) ==>
              bundle.records[i].integrity.payloadHash != PayloadHash(bundle.records[i].decision)
  {
    var record := bundle.records[i];
    var decision, proof := record.decision, record.integrity;
    var p := bundle.manifest.core.projectId;
    if decision.projectId != p || proof.projectId != p {
      return Some(ProjectMismatch);
    }
    if decision.decisionId !in known {
      assert proof in bundle.chain ==> proof.decisionId in known;
      return Some(SelectedRecordMissing);
    }
    if proof.decisionId != decision.decisionId || proof != known[decision.decisionId] || decision.decisionId in selected {
      return Some(SelectedProofMismatch);
    }
    if proof.payloadHash != PayloadHash(decision) {
      return Some(SelectedPayloadHashMismatch);
    }
    return None;
  }

  /** proofs_by_decision_id, once the whole chain was read. */
  ghost predicate ProofIndex(chain: seq<Proof>, known: map<Id, Proof>) {
    && (forall proof :: proof in chain ==> proof.decisionId in known && known[proof.decisionId] == proof)
    && (forall d :: d in known ==> known[d] in chain && known[d].decisionId == d)
  }

  method VerifyChain(bundle: Bundle)
    returns (known: map<Id, Proof>, checked: nat, head: Option<Digest>, fault: Option<BundleFailure>)
    ensures checked <= |bundle.chain| && ChainSound(bundle.chain, bundle.manifest.core.projectId, checked)
    ensures fault.None? ==> checked == |bundle.chain| && head == HeadOf(bundle.chain) && ProofIndex(bundle.chain, known)
    ensures fault.Some? ==> fault.value in LINK_FAULTS && checked < |bundle.chain| && !LinkSound(bundle.chain, bundle.manifest.core.projectId, checked)
  {
    var chain, p := bundle.chain, bundle.manifest.core.projectId;
    known := map[];
    checked := 0;
    head := None;
    while checked < |chain|
      invariant checked <= |chain|
      invariant head == HeadOf(chain[..checked])
      invariant ChainSound(chain, p, checked)
      invariant ProofIndex(chain[..checked], known)
    {
      assert forall j :: 0 <= j < checked ==> chain[..checked][j] == chain[j];
      fault := CheckLink(chain, p, checked, head, known);
      if fault.Some? {
        return;
      }
      known := known[chain[checked].decisionId := chain[checked]];
      head := Some(chain[checked].recordHash);
      assert chain[..checked + 1] == chain[..checked] + [chain[checked]];
      checked := checked + 1;
    }
    assert chain[..|chain|] == chain;
    fault := None;
  }

  predicate Anchors(chain: seq<Proof>, checkpoint: Option<Digest>)
    ensures Anchors(chain, checkpoint) <==> Anchored(chain, checkpoint)
  {
    var chainHashes := set proof | proof in chain :: proof.recordHash;
    checkpoint.None? || checkpoint.value in chainHashes
  }

  /** What each failure code asserts about the bundle. */
  ghost predicate Blames(v: BundleVerification, bundle: Bundle, expected: Option<Digest>) {
    var core := bundle.manifest.core;
    var link, record := v.checkedChainRecords, v.checkedRecords;
    match v.failure
    case None => true
    case Some(ManifestRecordCountMismatch) => core.recordCount != |bundle.records|
    case Some(ManifestChainCountMismatch) => core.chainRecordCount != |bundle.chain|
    case Some(RecordsDigestMismatch) => core.recordsDigest != Sha256(RecordsText(bundle.records))
    case Some(ChainDigestMismatch) => core.chainDigest != Sha256(ChainText(bundle.chain))
    case Some(BundleDigestMismatch) => bundle.manifest.bundleDigest != Sha256(BundleText(core, bundle.records, bundle.chain))
    case Some(ChainHeadMismatch) => core.chainHeadHash != HeadOf(bundle.chain)
    case Some(TrustedCheckpointMismatch) =>
      !Anchored(bundle.chain, core.expectedHeadHash) || !Anchored(bundle.chain, expected)
    case Some(_) =>
      || (link < |bundle.chain| && !LinkSound(bundle.chain, core.projectId, link))
      || (link == |bundle.chain| && record < |bundle.records| && !RecordSound(bundle, record))
  }

  /** verify_evidence_bundle. */
  method VerifyBundle(bundle: Bundle, expected: Option<Digest>) returns (v: BundleVerification)
    ensures v.verified <==> BundleVerifies(bundle, expected)
    ensures v.verified <==> v.failure.None?
    ensures v.verified ==> v.checkedRecords == |bundle.records| && v.checkedChainRecords == |bundle.chain|
    ensures v.headHash == HeadOf(bundle.chain)
    ensures v.checkedChainRecords <= |bundle.chain|
            && ChainSound(bundle.chain, bundle.manifest.core.projectId, v.checkedChainRecords)
    ensures v.checkedRecords <= |bundle.records| && RecordsSound(bundle, v.checkedRecords)
    ensures Blames(v, bundle, expected)
  {
    var core, head := bundle.manifest.core, HeadOf(bundle.chain);
    if core.recordCount != |bundle.records| {
      return BundleVerification(false, 0, 0, head, Some(ManifestRecordCountMismatch));
    }
    if core.chainRecordCount != |bundle.chain| {
      return BundleVerification(false, 0, 0, head, Some(ManifestChainCountMismatch));
    }
    if core.recordsDigest != Sha256(RecordsText(bundle.records)) {
      return BundleVerification(false, 0, 0, head, Some(RecordsDigestMismatch));
    }
    if core.chainDigest != Sha256(ChainText(bundle.chain)) {
      return BundleVerification(false, 0, 0, head, Some(ChainDigestMismatch));
    }
    if bundle.manifest.bundleDigest != Sha256(BundleText(core, bundle.records, bundle.chain)) {
      return BundleVerification(false, 0, 0, head, Some(BundleDigestMismatch));
    }
    var known, checkedChain, actualHead, fault := VerifyChain(bundle);
    if fault.Some? {
      return BundleVerification(false, 0, checkedChain, head, fault);
    }
    if core.chainHeadHash != actualHead {
      return BundleVerification(false, 0, checkedChain, head, Some(ChainHeadMismatch));
    }
    if !Anchors(bundle.chain, core.expectedHeadHash) || !Anchors(bundle.chain, expected) {
      return BundleVerification(false, 0, checkedChain, head, Some(TrustedCheckpointMismatch));
    }
    var checked := 0;
    var selected: set<Id> := {};
    while checked < |bundle.records|
      invariant checked <= |bundle.records| && RecordsSound(bundle, checked)
      invariant selected == set j | 0 <= j < checked :: bundle.records[j].decision.decisionId
    {
      fault := CheckRecord(bundle, checked, known, selected);
      if fault.Some? {
        return BundleVerification(false, checked, checkedChain, head, fault);
      }
      selected := selected + {bundle.records[checked].decision.decisionId};
      checked := checked + 1;
    }
    return BundleVerification(true, checked, checkedChain, head, None);
  }

  // ---------------------------------------------------------------- tamper evidence

  lemma {:induction false} SharedLinks(a: seq<Proof>, b: seq<Proof>, p: Id, q: Id, n: nat)
    requires ChainSound(a, p, |a|) && ChainSound(b, q, |b|)
    requires n < |a| && n < |b| && a[n].recordHash == b[n].recordHash
    ensures a[..n + 1] == b[..n + 1]
  {
    assert LinkSound(a, p, n) && LinkSound(b, q, n);
    if n > 0 {
      SharedLinks(a, b, p, q, n - 1);
    }
    assert a[..n + 1] == a[..n] + [a[n]] && b[..n + 1] == b[..n] + [b[n]];
  }

  /** A record hash that two verified bundles share stands at one position in both, for one
      project, and everything up to it is equal. */
  lemma BundleCheckpointPinsPrefix(a: Bundle, b: Bundle, n: nat, m: nat)
    requires BundleVerifies(a, None) && BundleVerifies(b, None)
    requires n < |a.chain| && m < |b.chain| && a.chain[n].recordHash == b.chain[m].recordHash
    ensures n == m && a.manifest.core.projectId == b.manifest.core.projectId
    ensures a.chain[..n + 1] == b.chain[..n + 1]
  {
    assert LinkSound(a.chain, a.manifest.core.projectId, n);
    assert LinkSound(b.chain, b.manifest.core.projectId, m);
    SharedLinks(a.chain, b.chain, a.manifest.core.projectId, b.manifest.core.projectId, n);
  }

  /** Two verified bundles anchored at the same checkpoint show the same decision under the
      same id, if the checkpoint covers it in one of them. */
  lemma SelectedDecisionPinned(a: Bundle, b: Bundle, checkpoint: Digest, i: nat, j: nat, k: nat, n: nat)
    requires BundleVerifies(a, Some(checkpoint)) && BundleVerifies(b, Some(checkpoint))
    requires i < |a.records| && j < |b.records|
    requires a.records[i].decision.decisionId == b.records[j].decision.decisionId
    requires k <= n < |a.chain| && a.chain[k] == a.records[i].integrity && a.chain[n].recordHash == checkpoint
    ensures a.records[i] == b.records[j]
  {
    assert Anchored(b.chain, Some(checkpoint));
    var m :| 0 <= m < |b.chain| && b.chain[m].recordHash == checkpoint;
    BundleCheckpointPinsPrefix(a, b, n, m);
    assert a.chain[..n + 1][k] == b.chain[..n + 1][k];
    assert RecordSound(a, i) && RecordSound(b, j);
    var l :| 0 <= l < |b.chain| && b.chain[l] == b.records[j].integrity;
    assert LinkSound(b.chain, b.manifest.core.projectId, l) && LinkSound(b.chain, b.manifest.core.projectId, k);
  }

  /** Equal bundle digests mean equal bundles. */
  lemma BundleDigestPinsBundle(a: Bundle, b: Bundle)
    requires DigestsMatch(a) && DigestsMatch(b) && a.manifest.bundleDigest == b.manifest.bundleDigest
    ensures a == b
  {
    var text := a.manifest.bundleDigest.message;
    assert text == BundleText(a.manifest.core, a.records, a.chain);
    assert text == BundleText(b.manifest.core, b.records, b.chain);
  }

  /** Offline and online verification pin each other: a verified bundle and a verified
      ledger that share a record hash agree on every record up to it. */
  lemma BundlePinsLedger(bundle: Bundle, t: Tables, p: Id, n: nat, m: nat)
    requires BundleVerifies(bundle, None) && Verifies(t, t, t, p, None)
    requires n < |bundle.chain| && m < |Chain(t, p)|
    requires bundle.chain[n].recordHash == t.records[Chain(t, p)[m]].recordHash
    ensures n == m && bundle.manifest.core.projectId == p
    ensures forall k :: 0 <= k <= n ==>
              Chain(t, p)[k] == bundle.chain[k].decisionId && t.records[Chain(t, p)[k]] == RowOf(bundle.chain[k])
  {
    ScanIsChain(t, p, MaxSequence(t, p));
    var rows := Chain(t, p);
    assert rows[m] in rows;
    assert RowSound(t, rows, m) && LinkSound(bundle.chain, bundle.manifest.core.projectId, n);
    LedgerLinks(bundle, t, rows, n);
  }

  lemma {:induction false} LedgerLinks(bundle: Bundle, t: Tables, rows: seq<Id>, n: nat)
    requires Joined(t, rows) && SoundUpTo(t, rows, |rows|)
    requires ChainSound(bundle.chain, bundle.manifest.core.projectId, |bundle.chain|)
    requires n < |bundle.chain| && n < |rows| && bundle.chain[n].recordHash == t.records[rows[n]].recordHash
    ensures forall k :: 0 <= k <= n ==> rows[k] == bundle.chain[k].decisionId && t.records[rows[k]] == RowOf(bundle.chain[k])
  {
    assert RowSound(t, rows, n) && LinkSound(bundle.chain, bundle.manifest.core.projectId, n);
    if n > 0 {
      assert HeadOf(bundle.chain[..n]) == Some(bundle.chain[n - 1].recordHash);
      LedgerLinks(bundle, t, rows, n - 1);
    }
  }

  /** A selected decision of a bundle anchored in a verified ledger is the ledger's own. */
  lemma SelectedDecisionIsStored(bundle: Bundle, t: Tables, p: Id, n: nat, m: nat, i: nat, k: nat)
    requires BundleVerifies(bundle, None) && Verifies(t, t, t, p, None)
    requires n < |bundle.chain| && m < |Chain(t, p)|
    requires bundle.chain[n].recordHash == t.records[Chain(t, p)[m]].recordHash
    requires i < |bundle.records| && k <= n && bundle.chain[k] == bundle.records[i].integrity
    ensures bundle.records[i].decision.decisionId in t.decisions
    ensures ReadDecision(t, bundle.records[i].decision.decisionId) == Some(bundle.records[i].decision)
  {
    BundlePinsLedger(bundle, t, p, n, m);
    ScanIsChain(t, p, MaxSequence(t, p));
    assert RowSound(t, Chain(t, p), k) && RecordSound(bundle, i);
  }
}
