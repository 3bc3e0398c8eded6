/** app/integrity.py: canonical payloads, envelopes and proofs.

    SHA-256 over canonical JSON is symbolic: a digest is either the hash of exactly one
    message, or Foreign, a 64-digit string that is the hash of nothing modelled here. The
    constructor is free, so collision freedom holds by construction and no axiom is
    needed. Instants are UTC microseconds (Timestamps.dfy relates them to their text);
    the JSON columns of a decision are their canonical text. */
module Integrity {
  import opened Ordering

  type Instant = int

  const INTEGRITY_ALGORITHM := "SHA-256"
  const INTEGRITY_SCHEMA_VERSION := 1

  datatype Outcome = Allow | RequireApproval | Deny

  /** What a caller asks to be allowed to do; context is canonical JSON. */
  datatype Request = Request(agent: string, action: string, context: string)

  datatype Body = Body(evaluatedAt: Instant, outcome: Outcome, policy: Option<string>,
                       policyVersion: Option<int>, reason: string, evidence: Option<string>,
                       request: Request, trace: string)

  datatype Authorization = Authorization(decisionId: Id, projectId: Id, body: Body)

  datatype Envelope = Envelope(algorithm: string, createdAt: Instant, decisionId: Id,
                               payloadHash: Digest, previousHash: Option<Digest>,
                               projectId: Id, schemaVersion: int, sequenceNumber: int)

  datatype Proof = Proof(decisionId: Id, projectId: Id, sequenceNumber: int,
                         previousHash: Option<Digest>, payloadHash: Digest,
                         recordHash: Digest, algorithm: string, schemaVersion: int,
                         createdAt: Instant)

  datatype VerifiableRecord = VerifiableRecord(decision: Authorization, integrity: Proof)

  /** The manifest fields covered by the bundle digest; criteria is canonical JSON. */
  datatype ManifestCore = ManifestCore(projectId: Id, criteria: string, generatedAt: Instant,
                                       snapshotAt: Instant, recordCount: nat,
                                       chainRecordCount: nat, chainHeadHash: Option<Digest>,
                                       expectedHeadHash: Option<Digest>,
                                       recordsDigest: Digest, chainDigest: Digest)

  datatype Message =
    | PayloadText(authorization: Authorization)
    | EnvelopeText(envelope: Envelope)
    | RecordsText(records: seq<VerifiableRecord>)
    | ChainText(chain: seq<Proof>)
    | BundleText(manifest: ManifestCore, bundleRecords: seq<VerifiableRecord>, bundleChain: seq<Proof>)

  datatype Digest = Sha256(message: Message) | Foreign(bits: nat)

  function PayloadHash(authorization: Authorization): Digest {
    Sha256(PayloadText(authorization))
  }

  function RecordHash(authorization: Authorization, sequenceNumber: int,
                      previousHash: Option<Digest>, payloadHash: Digest): Digest {
    Sha256(EnvelopeText(Envelope(INTEGRITY_ALGORITHM, authorization.body.evaluatedAt,
                                 authorization.decisionId, payloadHash, previousHash,
                                 authorization.projectId, INTEGRITY_SCHEMA_VERSION, sequenceNumber)))
  }

  /** The hash recomputed offline from the proof alone. */
  function ProofRecordHash(proof: Proof): Digest {
    Sha256(EnvelopeText(Envelope(proof.algorithm, proof.createdAt, proof.decisionId,
                                 proof.payloadHash, proof.previousHash, proof.projectId,
                                 proof.schemaVersion, proof.sequenceNumber)))
  }

  function BuildProof(authorization: Authorization, sequenceNumber: int,
                      previousHash: Option<Digest>): Proof {
    var payloadHash := PayloadHash(authorization);
    Proof(authorization.decisionId, authorization.projectId, sequenceNumber, previousHash,
          payloadHash, RecordHash(authorization, sequenceNumber, previousHash, payloadHash),
          INTEGRITY_ALGORITHM, INTEGRITY_SCHEMA_VERSION, authorization.body.evaluatedAt)
  }

  /** The reference chain: every decision's proof built on the one before it. */
  function FoldChain(decisions: seq<Authorization>): (chain: seq<Proof>)
    ensures |chain| == |decisions|
  {
    if decisions == [] then []
    else
      var n := |decisions| - 1;
      var before := FoldChain(decisions[..n]);
      before + [BuildProof(decisions[n], n + 1, HeadOf(before))]
  }

  function HeadOf(chain: seq<Proof>): Option<Digest> {
    if chain == [] then None else Some(chain[|chain| - 1].recordHash)
  }

  /** A fold over a prefix is a prefix of the fold. */
  lemma {:induction false} FoldPrefix(decisions: seq<Authorization>, n: nat)
    requires n <= |decisions|
    ensures FoldChain(decisions[..n]) == FoldChain(decisions)[..n]
  {
    if n < |decisions| {
      var m := |decisions| - 1;
      FoldPrefix(decisions[..m], n);
      assert decisions[..m][..n] == decisions[..n];
    } else {
      assert decisions[..n] == decisions;
    }
  }

  /** Record k of the folded chain is its decision's proof on top of record k-1. */
  lemma FoldAt(decisions: seq<Authorization>, k: nat)
    requires k < |decisions|
    ensures FoldChain(decisions)[k] ==
            BuildProof(decisions[k], k + 1, HeadOf(FoldChain(decisions)[..k]))
  {
    FoldPrefix(decisions, k + 1);
    assert decisions[..k + 1][..k] == decisions[..k];
    FoldPrefix(decisions, k);
    assert FoldChain(decisions[..k + 1])[k] == FoldChain(decisions)[k];
  }
}
