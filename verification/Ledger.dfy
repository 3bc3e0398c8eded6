/** app/storage/integrity.py: the per-project hash chain and its online verification.

    A table is a map keyed by its primary key. Tables are arbitrary, also tampered ones,
    unless a member asks for more. */
module Ledger {
  import opened Ordering
  import opened Integrity

  /** A decision row; body is None when the stored columns cannot be read back. */
  datatype DecisionRow = DecisionRow(projectId: Id, body: Option<Body>)

  /** An integrity row; createdAt is None when its text is not a timestamp. */
  datatype ProofRow = ProofRow(projectId: Id, sequenceNumber: int, previousHash: Option<Digest>,
                               payloadHash: Digest, recordHash: Digest, algorithm: string,
                               schemaVersion: int, createdAt: Option<Instant>)

  datatype Tables = Tables(decisions: map<Id, DecisionRow>, records: map<Id, ProofRow>)

  function RowOf(proof: Proof): ProofRow {
    ProofRow(proof.projectId, proof.sequenceNumber, proof.previousHash, proof.payloadHash,
             proof.recordHash, proof.algorithm, proof.schemaVersion, Some(proof.createdAt))
  }

  function ReadDecision(t: Tables, d: Id): Option<Authorization>
    requires d in t.decisions
  {
    match t.decisions[d].body
    case None => None
    case Some(body) => Some(Authorization(d, t.decisions[d].projectId, body))
  }

  function DecisionIds(t: Tables, p: Id): set<Id> {
    set d | d in t.decisions && t.decisions[d].projectId == p
  }

  function RecordIds(t: Tables, p: Id): set<Id> {
    set d | d in t.records && t.records[d].projectId == p
  }

  function SequenceKey(t: Tables): map<Id, int> {
    map d | d in t.records :: t.records[d].sequenceNumber
  }

  /** A project's records in chain order. */
  function Chain(t: Tables, p: Id): (chain: seq<Id>)
    ensures Sorted(SequenceKey(t), chain) && Lists(chain, RecordIds(t, p))
  {
    SortBy(RecordIds(t, p), SequenceKey(t))
  }

  function MaxSequence(t: Tables, p: Id): int {
    var chain := Chain(t, p);
    if chain == [] then 0 else t.records[chain[|chain| - 1]].sequenceNumber
  }

  /** The cursor of the verification: records joined with the decision they name. */
  function Scan(t: Tables, p: Id, maxSequence: int): (rows: seq<Id>)
    ensures Joined(t, rows)
    ensures Sorted(SequenceKey(t), rows) && Lists(rows, ScanIds(t, p, maxSequence))
  {
    var rows := SortBy(ScanIds(t, p, maxSequence), SequenceKey(t));
    assert forall k :: 0 <= k < |rows| ==> rows[k] in rows;
    rows
  }

  function ScanIds(t: Tables, p: Id, maxSequence: int): set<Id> {
    set d | d in t.records && t.records[d].projectId == p && t.records[d].sequenceNumber <= maxSequence
            && d in t.decisions && t.decisions[d].projectId == p
  }

  ghost predicate Joined(t: Tables, rows: seq<Id>) {
    forall k :: 0 <= k < |rows| ==>
      rows[k] in t.records && rows[k] in t.decisions && t.records[rows[k]].projectId == t.decisions[rows[k]].projectId
  }

  function HashBefore(t: Tables, rows: seq<Id>, k: nat): Option<Digest>
    requires k <= |rows| && forall i :: 0 <= i < |rows| ==> rows[i] in t.records
  {
    if k == 0 then None else Some(t.records[rows[k - 1]].recordHash)
  }

  /** Row k stores exactly the proof of its decision on top of row k-1. */
  ghost predicate RowSound(t: Tables, rows: seq<Id>, k: nat)
    requires Joined(t, rows) && k < |rows|
  {
    var decision := ReadDecision(t, rows[k]);
    decision.Some? && t.records[rows[k]] == RowOf(BuildProof(decision.value, k + 1, HashBefore(t, rows, k)))
  }

  ghost predicate SoundUpTo(t: Tables, rows: seq<Id>, n: nat)
    requires Joined(t, rows) && n <= |rows|
  {
    forall k :: 0 <= k < n ==> RowSound(t, rows, k)
  }

  ghost predicate Contains(t: Tables, rows: seq<Id>, digest: Digest)
    requires Joined(t, rows)
  {
    exists k :: 0 <= k < |rows| && t.records[rows[k]].recordHash == digest
  }

  // ---------------------------------------------------------------- verification

  datatype FailureCode =
    | RecordCountMismatch | SequenceMismatch | PreviousHashMismatch | AlgorithmMismatch
    | SchemaVersionMismatch | PayloadUnreadable | CreatedAtMismatch | PayloadHashMismatch
    | RecordHashMismatch | HeadHashMismatch

  datatype Verification = Verification(verified: bool, totalDecisions: nat, checkedRecords: nat,
                                       headHash: Option<Digest>, failure: Option<FailureCode>)

  /** What a failure code accuses row k of, given that rows before k are sound. */
  ghost predicate Accuses(t: Tables, rows: seq<Id>, k: nat, code: FailureCode)
    requires Joined(t, rows) && k < |rows|
  {
    var row := t.records[rows[k]];
    var decision := ReadDecision(t, rows[k]);
    match code
    case SequenceMismatch => row.sequenceNumber != k + 1
    case PreviousHashMismatch => row.previousHash != HashBefore(t, rows, k)
    case AlgorithmMismatch => row.algorithm != INTEGRITY_ALGORITHM
    case SchemaVersionMismatch => row.schemaVersion != INTEGRITY_SCHEMA_VERSION
    case PayloadUnreadable => decision.None?
    case CreatedAtMismatch => decision.Some? && row.createdAt != Some(decision.value.body.evaluatedAt)
    case PayloadHashMismatch => decision.Some? && row.payloadHash != PayloadHash(decision.value)
    case RecordHashMismatch =>
      decision.Some? && row.recordHash != BuildProof(decision.value, k + 1, HashBefore(t, rows, k)).recordHash
    case RecordCountMismatch => false
    case HeadHashMismatch => false
  }

  /** The counts agree, and every decision has its record and every record its decision. */
  predicate CountsAgree(counted: Tables, matched: Tables, p: Id) {
    |DecisionIds(counted, p)| == |RecordIds(counted, p)| && DecisionIds(matched, p) == RecordIds(matched, p)
  }

  /** What verify promises. The counts, the search for unmatched rows and the rows themselves
      are three statements outside a transaction, so they may see three different moments; a
      ledger at rest is the case in which all three are the same. */
  ghost predicate Verifies(counted: Tables, matched: Tables, scanned: Tables, p: Id, expected: Option<Digest>) {
    var rows := Scan(scanned, p, MaxSequence(counted, p));
    && CountsAgree(counted, matched, p)
    && SoundUpTo(scanned, rows, |rows|)
    && (expected.Some? ==> Contains(scanned, rows, expected.value))
  }

  /** How the result reports the rows: the longest sound prefix, and what broke after it. */
  ghost predicate Reports(v: Verification, scanned: Tables, rows: seq<Id>)
    requires Joined(scanned, rows)
  {
    && v.checkedRecords <= |rows| && SoundUpTo(scanned, rows, v.checkedRecords)
    && match v.failure
       case None => v.checkedRecords == |rows| && v.headHash == HashBefore(scanned, rows, |rows|)
       case Some(RecordCountMismatch) => v.checkedRecords == 0
       case Some(HeadHashMismatch) => v.checkedRecords == |rows| && v.headHash == HashBefore(scanned, rows, |rows|)
       case Some(code) => v.checkedRecords < |rows| && !RowSound(scanned, rows, v.checkedRecords)
                          && Accuses(scanned, rows, v.checkedRecords, code)
  }

  /** One iteration's checks, in the order they are made. */
  method CheckRow(t: Tables, rows: seq<Id>, k: nat, previousHash: Option<Digest>)
    returns (fault: Option<FailureCode>)
    requires Joined(t, rows) && k < |rows| && previousHash == HashBefore(t, rows, k)
    ensures fault.None? <==> RowSound(t, rows, k)
    ensures fault.Some? ==> Accuses(t, rows, k, fault.value)
  {
    var row := t.records[rows[k]];
    var expectedSequence := k + 1;
    if row.sequenceNumber != expectedSequence {
      return Some(SequenceMismatch);
    }
    if row.previousHash != previousHash {
      return Some(PreviousHashMismatch);
    }
    if row.algorithm != INTEGRITY_ALGORITHM {
      return Some(AlgorithmMismatch);
    }
    if row.schemaVersion != INTEGRITY_SCHEMA_VERSION {
      return Some(SchemaVersionMismatch);
    }
    var decision := ReadDecision(t, rows[k]);
    if decision.None? {
      return Some(PayloadUnreadable);
    }
    if row.createdAt != Some(decision.value.body.evaluatedAt) {
      return Some(CreatedAtMismatch);
    }
    var payloadHash := PayloadHash(decision.value);
    if row.payloadHash != payloadHash {
      return Some(PayloadHashMismatch);
    }
    if row.recordHash != RecordHash(decision.value, expectedSequence, previousHash, payloadHash) {
      return Some(RecordHashMismatch);
    }
    return None;
  }

  /** Decisions without a record of their project, and records without a decision. */
  function Unmatched(t: Tables, p: Id): (ids: set<Id>)
    ensures ids == {} <==> DecisionIds(t, p) == RecordIds(t, p)
  {
    var ids := (DecisionIds(t, p) - RecordIds(t, p)) + (RecordIds(t, p) - DecisionIds(t, p));
    assert ids == {} <==> DecisionIds(t, p) == RecordIds(t, p);
    ids
  }

  method Verify(counted: Tables, matched: Tables, scanned: Tables, p: Id, expected: Option<Digest>)
    returns (v: Verification)
    ensures v.verified <==> Verifies(counted, matched, scanned, p, expected)
    ensures v.verified <==> v.failure.None?
    ensures v.totalDecisions == |DecisionIds(counted, p)|
    ensures v.failure == Some(RecordCountMismatch) <==> !CountsAgree(counted, matched, p)
    ensures Reports(v, scanned, Scan(scanned, p, MaxSequence(counted, p)))
  {
    hide RowSound, Accuses, Scan, DecisionIds, RecordIds, MaxSequence;
    var total := |DecisionIds(counted, p)|;
    var integrityCount := |RecordIds(counted, p)|;
    var unmatched := Unmatched(matched, p);
    if integrityCount != total || unmatched != {} {
      return Verification(false, total, 0, None, Some(RecordCountMismatch));
    }
    var rows := Scan(scanned, p, MaxSequence(counted, p));
    var previousHash: Option<Digest> := None;
    var checked := 0;
    var checkpointSeen := expected.None?;
    while checked < |rows|
      invariant checked <= |rows|
      invariant previousHash == HashBefore(scanned, rows, checked)
      invariant SoundUpTo(scanned, rows, checked)
      invariant checkpointSeen <==>
                (expected.None? || exists k :: 0 <= k < checked && scanned.records[rows[k]].recordHash == expected.value)
    {
      var fault := CheckRow(scanned, rows, checked, previousHash);
      if fault.Some? {
        return Verification(false, total, checked, None, fault);
      }
      previousHash := Some(scanned.records[rows[checked]].recordHash);
      if expected == previousHash {
        checkpointSeen := true;
      }
      checked := checked + 1;
    }
    if expected.Some? && !checkpointSeen {
      return Verification(false, total, checked, previousHash, Some(HeadHashMismatch));
    }
    return Verification(true, total, checked, previousHash, None);
  }

  ghost predicate AllReadable(t: Tables, ids: seq<Id>) {
    forall k :: 0 <= k < |ids| ==> ids[k] in t.decisions && ReadDecision(t, ids[k]).Some?
  }

  function Decisions(t: Tables, ids: seq<Id>): (decisions: seq<Authorization>)
    requires AllReadable(t, ids)
    ensures |decisions| == |ids|
    ensures forall k :: 0 <= k < |ids| ==> decisions[k] == ReadDecision(t, ids[k]).value
  {
    if ids == [] then []
    else Decisions(t, ids[..|ids| - 1]) + [ReadDecision(t, ids[|ids| - 1]).value]
  }

  /** Rows are sound up to n exactly when they store the chain folded over their decisions. */
  lemma {:induction false} SoundIsFold(t: Tables, rows: seq<Id>, n: nat)
    requires Joined(t, rows) && n <= |rows| && AllReadable(t, rows)
    ensures var chain := FoldChain(Decisions(t, rows));
            SoundUpTo(t, rows, n) <==> forall k :: 0 <= k < n ==> t.records[rows[k]] == RowOf(chain[k])
  {
    hide RowSound, FoldChain, Decisions;
    if n > 0 {
      SoundIsFold(t, rows, n - 1);
      if SoundUpTo(t, rows, n - 1) {
        RowIsFold(t, rows, n - 1);
      }
      assert SoundUpTo(t, rows, n) <==> SoundUpTo(t, rows, n - 1) && RowSound(t, rows, n - 1);
    }
  }

  lemma RowIsFold(t: Tables, rows: seq<Id>, k: nat)
    requires Joined(t, rows) && k < |rows| && AllReadable(t, rows)
    requires k > 0 ==> t.records[rows[k - 1]] == RowOf(FoldChain(Decisions(t, rows))[k - 1])
    ensures RowSound(t, rows, k) <==> t.records[rows[k]] == RowOf(FoldChain(Decisions(t, rows))[k])
  {
    FoldAt(Decisions(t, rows), k);
    hide FoldChain, Decisions;
    var chain := FoldChain(Decisions(t, rows));
    assert HeadOf(chain[..k]) == HashBefore(t, rows, k);
  }

  /** The online verification of a ledger at rest: it succeeds exactly when decisions and
      records are in bijection, the stored rows are the fold of BuildProof over the decisions
      in sequence order, and a given checkpoint is one of their hashes. */
  lemma VerifiesIffFolded(t: Tables, p: Id, expected: Option<Digest>)
    ensures var rows := Chain(t, p);
            Verifies(t, t, t, p, expected) <==>
            && DecisionIds(t, p) == RecordIds(t, p)
            && AllReadable(t, rows)
            && (forall k :: 0 <= k < |rows| ==> t.records[rows[k]] == RowOf(FoldChain(Decisions(t, rows))[k]))
            && (expected.Some? ==> exists k :: 0 <= k < |rows| && t.records[rows[k]].recordHash == expected.value)
  {
    hide RowSound, FoldChain, Decisions, Scan, Chain, AllReadable;
    if DecisionIds(t, p) == RecordIds(t, p) {
      var rows := Chain(t, p);
      ScanIsChain(t, p, MaxSequence(t, p));
      if AllReadable(t, rows) {
        SoundIsFold(t, rows, |rows|);
      } else {
        UnreadableIsUnsound(t, rows);
      }
    }
  }

  lemma UnreadableIsUnsound(t: Tables, rows: seq<Id>)
    requires Joined(t, rows) && !AllReadable(t, rows)
    ensures !SoundUpTo(t, rows, |rows|)
  {
    var k :| 0 <= k < |rows| && !(rows[k] in t.decisions && ReadDecision(t, rows[k]).Some?);
    assert !RowSound(t, rows, k);
  }

  lemma ScanIsChain(t: Tables, p: Id, maxSequence: int)
    requires DecisionIds(t, p) == RecordIds(t, p) && MaxSequence(t, p) <= maxSequence
    ensures Scan(t, p, maxSequence) == Chain(t, p)
  {
    var chain := Chain(t, p);
    forall d | d in RecordIds(t, p) ensures t.records[d].sequenceNumber <= maxSequence {
      assert d in chain;
    }
    forall d ensures d in RecordIds(t, p) <==> d in ScanIds(t, p, maxSequence) {
      if d in RecordIds(t, p) { assert d in DecisionIds(t, p); }
    }
    assert RecordIds(t, p) == ScanIds(t, p, maxSequence);
  }

  // ---------------------------------------------------------------- tamper evidence

  /** Decision d and its record are stored alike in both ledgers. */
  ghost predicate SameRow(a: Tables, b: Tables, d: Id) {
    && d in a.decisions && d in b.decisions && a.decisions[d] == b.decisions[d]
    && d in a.records && d in b.records && a.records[d] == b.records[d]
  }

  lemma {:induction false} SharedPrefix(a: Tables, ra: seq<Id>, b: Tables, rb: seq<Id>, n: nat)
    requires Joined(a, ra) && Joined(b, rb)
    requires SoundUpTo(a, ra, |ra|) && SoundUpTo(b, rb, |rb|)
    requires n < |ra| && n < |rb|
    requires a.records[ra[n]].recordHash == b.records[rb[n]].recordHash
    ensures forall k :: 0 <= k <= n ==> ra[k] == rb[k] && SameRow(a, b, ra[k])
  {
    assert RowSound(a, ra, n) && RowSound(b, rb, n);
    if n > 0 {
      assert HashBefore(a, ra, n) == HashBefore(b, rb, n);
      SharedPrefix(a, ra, b, rb, n - 1);
    }
  }

  /** Tamper evidence. A checkpoint that was record n's hash in one verified ledger and
      occurs in another verified ledger occurs there at position n, and the first n
      decisions and records agree: nothing before it was changed, inserted, removed or
      reordered. */
  lemma CheckpointPinsPrefix(a: Tables, b: Tables, p: Id, q: Id, n: nat, m: nat)
    requires Verifies(a, a, a, p, None) && Verifies(b, b, b, q, None)
    requires n < |Chain(a, p)| && m < |Chain(b, q)|
    requires a.records[Chain(a, p)[n]].recordHash == b.records[Chain(b, q)[m]].recordHash
    ensures p == q && n == m
    ensures forall k :: 0 <= k <= n ==> Chain(a, p)[k] == Chain(b, p)[k] && SameRow(a, b, Chain(a, p)[k])
  {
    ScanIsChain(a, p, MaxSequence(a, p));
    ScanIsChain(b, q, MaxSequence(b, q));
    assert RowSound(a, Chain(a, p), n) && RowSound(b, Chain(b, q), m);
    assert Chain(a, p)[n] in Chain(a, p) && Chain(b, q)[m] in Chain(b, q);
    SharedPrefix(a, Chain(a, p), b, Chain(b, q), n);
  }

  /** Equal heads mean equal ledgers. */
  lemma EqualHeadsEqualLedgers(a: Tables, b: Tables, p: Id)
    requires Verifies(a, a, a, p, None) && Verifies(b, b, b, p, None)
    requires HashBefore(a, Chain(a, p), |Chain(a, p)|) == HashBefore(b, Chain(b, p), |Chain(b, p)|)
    ensures Chain(a, p) == Chain(b, p) && DecisionIds(a, p) == DecisionIds(b, p)
    ensures forall d :: d in DecisionIds(a, p) ==> SameRow(a, b, d)
  {
    var ra, rb := Chain(a, p), Chain(b, p);
    if ra != [] {
      CheckpointPinsPrefix(a, b, p, p, |ra| - 1, |rb| - 1);
    }
    assert ra == rb;
    forall d ensures d in DecisionIds(a, p) <==> d in DecisionIds(b, p) {
      assert d in DecisionIds(a, p) <==> d in ra;
      assert d in DecisionIds(b, p) <==> d in rb;
    }
    forall d | d in DecisionIds(a, p) ensures SameRow(a, b, d) {
      assert d in ra;
    }
  }
}
