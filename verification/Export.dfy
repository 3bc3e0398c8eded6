/** app/storage/evidence.py and app/services/evidence.py: capturing a snapshot, reading the
    chain up to it, and building a bundle while other callers keep appending decisions. */
module Export {
  import opened Ordering
  import opened Integrity
  import opened Ledger
  import opened LedgerWrites
  import opened Evidence

  datatype Scope = RecordScope | ChainScope

  datatype ExportError =
    | TooManyRecords | ChainTooLong | TooLarge(scope: Scope) | IntegrityConflict
    | Unreadable | BuildFailed(reason: BuildError) | SelfVerificationFailed

  /** _row_to_proof with its model validation. */
  function ReadProof(t: Tables, d: Id): Option<Proof>
    requires d in t.records
  {
    var row := t.records[d];
    if row.createdAt.Some? && row.algorithm == INTEGRITY_ALGORITHM && row.schemaVersion == INTEGRITY_SCHEMA_VERSION
       && row.sequenceNumber >= 1
    then Some(Proof(d, row.projectId, row.sequenceNumber, row.previousHash, row.payloadHash,
                    row.recordHash, row.algorithm, row.schemaVersion, row.createdAt.value))
    else None
  }

  function ReadRecord(t: Tables, d: Id): Option<VerifiableRecord>
    requires d in t.records && d in t.decisions
  {
    var decision, proof := ReadDecision(t, d), ReadProof(t, d);
    if decision.Some? && proof.Some? then Some(VerifiableRecord(decision.value, proof.value)) else None
  }

  function TotalSize<T>(items: seq<T>, size: T -> nat): nat {
    if items == [] then 0 else TotalSize(items[..|items| - 1], size) + size(items[|items| - 1]) + 1
  }

  /** The rows before the first one that cannot be read back. */
  function Readable<T>(rows: seq<Option<T>>): (items: seq<T>)
    ensures |items| <= |rows| && forall k :: 0 <= k < |items| ==> rows[k] == Some(items[k])
    ensures |items| < |rows| ==> rows[|items|].None?
  {
    if rows == [] || rows[0].None? then [] else [rows[0].value] + Readable(rows[1..])
  }

  /** Nothing else has these properties. */
  lemma ReadableIs<T>(rows: seq<Option<T>>, items: seq<T>)
    requires |items| <= |rows| && forall k :: 0 <= k < |items| ==> rows[k] == Some(items[k])
    ensures items <= Readable(rows)
    ensures |items| == |rows| || rows[|items|].None? ==> items == Readable(rows)
  {
  }

  lemma SizeOfNone<T>(size: T -> nat)
    ensures TotalSize([], size) == 0
  {
  }

  lemma SizeOneMore<T>(items: seq<T>, item: T, size: T -> nat)
    ensures TotalSize(items + [item], size) == TotalSize(items, size) + size(item) + 1
  {
    assert (items + [item])[..|items|] == items;
  }

  lemma {:induction false} SizeGrows<T>(items: seq<T>, n: nat, size: T -> nat)
    requires n <= |items|
    ensures TotalSize(items[..n], size) <= TotalSize(items, size)
    decreases |items|
  {
    if n < |items| {
      SizeGrows(items[..|items| - 1], n, size);
      assert items[..|items| - 1][..n] == items[..n];
    } else {
      assert items[..n] == items;
    }
  }

  lemma Overflows<T>(rows: seq<Option<T>>, items: seq<T>, item: T, maximumBytes: nat, size: T -> nat)
    requires |items| < |rows| && rows[|items|] == Some(item) && forall k :: 0 <= k < |items| ==> rows[k] == Some(items[k])
    requires TotalSize(items, size) + size(item) + 1 > maximumBytes
    ensures TotalSize(Readable(rows), size) > maximumBytes
  {
    hide Readable;
    var longer := items + [item];
    assert longer[..|items|] == items;
    ReadableIs(rows, longer);
    SizeGrows(Readable(rows), |longer|, size);
    assert Readable(rows)[..|longer|] == longer;
  }

  /** The bounded loop of list_chain and of capture_records: the first row that does not fit
      or cannot be read ends it, and otherwise all rows are returned. */
  method ReadBounded<T>(rows: seq<Option<T>>, maximumBytes: nat, size: T -> nat, scope: Scope)
    returns (r: Result<seq<T>, ExportError>)
    ensures r == if TotalSize(Readable(rows), size) > maximumBytes then Err(TooLarge(scope))
                 else if |Readable(rows)| < |rows| then Err(Unreadable) else Ok(Readable(rows))
  {
    hide Readable, TotalSize;
    SizeOfNone(size);
    var items: seq<T> := [];
    var serializedBytes := 0;
    for k := 0 to |rows|
      invariant |items| == k && serializedBytes == TotalSize(items, size) <= maximumBytes
      invariant forall i :: 0 <= i < k ==> rows[i] == Some(items[i])
    {
      if rows[k].None? {
        ReadableIs(rows, items);
        return Err(Unreadable);
      }
      var item := rows[k].value;
      SizeOneMore(items, item, size);
      if serializedBytes + size(item) + 1 > maximumBytes {
        Overflows(rows, items, item, maximumBytes, size);
        return Err(TooLarge(scope));
      }
      serializedBytes := serializedBytes + size(item) + 1;
      items := items + [item];
    }
    ReadableIs(rows, items);
    return Ok(items);
  }

  function ProofRows(t: Tables, ids: seq<Id>): (rows: seq<Option<Proof>>)
    requires forall d :: d in ids ==> d in t.records
  {
    seq(|ids|, k requires 0 <= k < |ids| => assert ids[k] in ids; ReadProof(t, ids[k]))
  }

  function RecordRows(t: Tables, ids: seq<Id>): (rows: seq<Option<VerifiableRecord>>)
    requires forall d :: d in ids ==> d in t.records && d in t.decisions
  {
    seq(|ids|, k requires 0 <= k < |ids| => assert ids[k] in ids; ReadRecord(t, ids[k]))
  }

  /** list_chain: every proof up to a sequence number, or exactly why not. */
  method ListChain(t: Tables, p: Id, maxSequence: int, maximumBytes: nat, size: Proof -> nat)
    returns (r: Result<seq<Proof>, ExportError>)
    ensures var rows := ProofRows(t, SortBy(ChainIds(t, p, maxSequence), SequenceKey(t)));
            r == if TotalSize(Readable(rows), size) > maximumBytes then Err(TooLarge(ChainScope))
                 else if |Readable(rows)| < |rows| then Err(Unreadable) else Ok(Readable(rows))
  {
    r := ReadBounded(ProofRows(t, SortBy(ChainIds(t, p, maxSequence), SequenceKey(t))), maximumBytes, size, ChainScope);
  }

  function ChainIds(t: Tables, p: Id, maxSequence: int): (ids: set<Id>)
    ensures ids <= t.records.Keys
  {
    set d | d in t.records && t.records[d].projectId == p && t.records[d].sequenceNumber <= maxSequence
  }

  /** The order of _record_query: evaluated_at then decision_id, both directions alike. */
  function SelectionOrder(t: Tables, selection: set<Id>, descending: bool): (order: seq<Id>)
    requires forall d :: d in selection ==> d in t.decisions
    ensures forall d :: d in order <==> d in selection
    ensures forall i, j :: 0 <= i < j < |order| ==> order[i] != order[j]
  {
    var key := map d | d in selection :: match t.decisions[d].body case None => 0 case Some(body) => body.evaluatedAt;
    var ascending := SortBy(selection, key);
    if descending then Reverse(ascending) else ascending
  }

  function Reverse(s: seq<Id>): (r: seq<Id>)
    ensures |r| == |s| && forall k :: 0 <= k < |s| ==> r[k] == s[|s| - 1 - k]
    ensures forall d :: d in r <==> d in s
  {
    if s == [] then [] else Reverse(s[1..]) + [s[0]]
  }

  /** The selected decisions: those a filter matches, among the records up to the head. */
  function Selection(t: Tables, p: Id, matches: Id -> bool): set<Id> {
    set d | d in ScanIds(t, p, MaxSequence(t, p)) && matches(d)
  }

  /** The rows that capture_records reads, in its order. */
  function SelectedRows(t: Tables, p: Id, matches: Id -> bool, descending: bool): (rows: seq<Option<VerifiableRecord>>)
    ensures |rows| == |SelectionOrder(t, Selection(t, p, matches), descending)|
  {
    RecordRows(t, SelectionOrder(t, Selection(t, p, matches), descending))
  }

  /** capture_records: head, count and rows of one read transaction. A filter may depend on
      anything stored, so it is any predicate on decision ids. */
  method CaptureRecords(t: Tables, p: Id, matches: Id -> bool, descending: bool, capturedAt: Instant,
                        maximumRecords: nat, maximumBytes: nat, size: VerifiableRecord -> nat)
    returns (r: Result<(Snapshot, seq<VerifiableRecord>), ExportError>)
    ensures var records := Readable(SelectedRows(t, p, matches, descending));
            r == if |Selection(t, p, matches)| > maximumRecords then Err(TooManyRecords)
                 else if TotalSize(records, size) > maximumBytes then Err(TooLarge(RecordScope))
                 else if |records| < |Selection(t, p, matches)| then Err(Unreadable)
                 else Ok((Snapshot(p, capturedAt, MaxSequence(t, p), HashBefore(t, Chain(t, p), |Chain(t, p)|),
                                   |records|), records))
  {
    hide Readable, TotalSize;
    var chain, selection := Chain(t, p), Selection(t, p, matches);
    var order := SelectionOrder(t, selection, descending);
    ListedLength(order, selection);
    if |order| > maximumRecords {
      return Err(TooManyRecords);
    }
    var records := ReadBounded(RecordRows(t, order), maximumBytes, size, RecordScope);
    if records.Err? {
      return Err(records.error);
    }
    return Ok((Snapshot(p, capturedAt, MaxSequence(t, p), HashBefore(t, chain, |chain|), |order|), records.value));
  }

  ghost predicate Captures(t: Tables, p: Id, matches: Id -> bool, descending: bool, records: seq<VerifiableRecord>) {
    var order := SelectionOrder(t, Selection(t, p, matches), descending);
    && |records| == |order|
    && forall k :: 0 <= k < |order| ==> order[k] in t.records && order[k] in t.decisions
                                        && Some(records[k]) == ReadRecord(t, order[k])
  }

  // ---------------------------------------------------------------- the pipeline

  /** The moments at which the export reads the database, oldest first: the capture, the
      three statements of each verification, and the reading of the chain. */
  ghost predicate Moments(m: seq<Tables>) {
    && |m| == 8
    && (forall i :: 0 <= i < 8 ==> Sound(m[i]))
    && (forall i, j :: 0 <= i < j < 8 ==> Grows(m[i], m[j]))
  }

  ghost predicate InLedger(t: Tables, p: Id, digest: Digest) {
    exists k :: 0 <= k < |Chain(t, p)| && Chain(t, p)[k] in t.records
                && t.records[Chain(t, p)[k]].recordHash == digest
  }

  lemma CapturedAreSound(t: Tables, p: Id, matches: Id -> bool, descending: bool, d: Id)
    requires Sound(t) && d in Selection(t, p, matches)
    ensures d in Chain(t, p) && ReadRecord(t, d).Some?
    ensures ReadRecord(t, d).value.integrity.payloadHash == PayloadHash(ReadRecord(t, d).value.decision)
  {
    var chain := Chain(t, p);
    assert SoundProject(t, p);
    assert d in RecordIds(t, p);
    assert d in chain;
    var k :| 0 <= k < |chain| && chain[k] == d;
    assert RowSound(t, chain, k);
  }

  /** Reading the chain later, up to the captured sequence, reads the captured chain. */
  lemma ChainReadLater(t: Tables, u: Tables, p: Id)
    requires Sound(t) && Sound(u) && Grows(t, u)
    ensures SortBy(ChainIds(u, p, MaxSequence(t, p)), SequenceKey(u)) == Chain(t, p)
  {
    SplitReadScan(t, u, p);
    assert SoundProject(u, p);
    forall d ensures d in ChainIds(u, p, MaxSequence(t, p)) <==> d in ScanIds(u, p, MaxSequence(t, p)) {
      assert d in RecordIds(u, p) <==> d in DecisionIds(u, p);
    }
    assert ChainIds(u, p, MaxSequence(t, p)) == ScanIds(u, p, MaxSequence(t, p));
  }

  /** A chain read from a sound ledger is sound offline. */
  lemma StoredChainVerifies(t: Tables, u: Tables, p: Id, chain: seq<Proof>)
    requires Sound(t) && Sound(u) && Grows(t, u)
    requires |chain| == |Chain(t, p)|
    requires forall k :: 0 <= k < |chain| ==> Chain(t, p)[k] in u.records && Some(chain[k]) == ReadProof(u, Chain(t, p)[k])
    ensures ChainSound(chain, p, |chain|)
    ensures HeadOf(chain) == HashBefore(t, Chain(t, p), |Chain(t, p)|)
    ensures |chain| == MaxSequence(t, p)
    ensures forall k :: 0 <= k < |chain| ==> Chain(t, p)[k] in t.records && Some(chain[k]) == ReadProof(t, Chain(t, p)[k])
  {
    var ids := Chain(t, p);
    assert SoundProject(t, p);
    SoundSequence(t, p);
    forall k | 0 <= k < |ids| ensures ids[k] in t.records && t.records[ids[k]] == u.records[ids[k]] {
      assert ids[k] in ids;
    }
    forall k | 0 <= k < |chain| ensures LinkSound(chain, p, k) {
      assert RowSound(t, ids, k);
      assert ids[k] in ids;
      assert HeadOf(chain[..k]) == HashBefore(t, ids, k);
      forall j | 0 <= j < k ensures chain[j].decisionId != chain[k].decisionId {
        assert ids[j] != ids[k];
      }
    }
  }

  /** The captured records are sound members of the chain that is read later. */
  lemma CapturedRecordsVerify(t: Tables, p: Id, matches: Id -> bool, descending: bool, bundle: Bundle)
    requires Sound(t) && Captures(t, p, matches, descending, bundle.records)
    requires bundle.manifest.core.projectId == p && |bundle.chain| == |Chain(t, p)|
    requires forall k :: 0 <= k < |bundle.chain| ==>
               Chain(t, p)[k] in t.records && Some(bundle.chain[k]) == ReadProof(t, Chain(t, p)[k])
    ensures RecordsSound(bundle, |bundle.records|)
  {
    hide Sound, Chain;
    var order := SelectionOrder(t, Selection(t, p, matches), descending);
    forall i | 0 <= i < |bundle.records| ensures RecordSound(bundle, i) {
      assert order[i] in order;
      CapturedAreSound(t, p, matches, descending, order[i]);
      var k :| 0 <= k < |Chain(t, p)| && Chain(t, p)[k] == order[i];
      assert bundle.chain[k] == bundle.records[i].integrity;
      forall j | 0 <= j < i
        ensures bundle.records[j].decision.decisionId != bundle.records[i].decision.decisionId
      {
        assert order[j] != order[i];
      }
    }
  }

  /** All selected records of a sound ledger are readable, so the export selects them all. */
  lemma SelectedAreReadable(t: Tables, p: Id, matches: Id -> bool, descending: bool)
    requires Sound(t)
    ensures var records := Readable(SelectedRows(t, p, matches, descending));
            |records| == |Selection(t, p, matches)| && Captures(t, p, matches, descending, records)
  {
    hide Sound, Readable, ReadRecord, SelectionOrder;
    var order := SelectionOrder(t, Selection(t, p, matches), descending);
    ScannedReadable(t, p);
    ListedLength(order, Selection(t, p, matches));
    forall k | 0 <= k < |order| ensures order[k] in ScanIds(t, p, MaxSequence(t, p)) && ReadRecord(t, order[k]).Some? {
      assert order[k] in order;
    }
    AllRowsRead(RecordRows(t, order));
  }

  lemma AllRowsRead<T>(rows: seq<Option<T>>)
    requires forall k :: 0 <= k < |rows| ==> rows[k].Some?
    ensures |Readable(rows)| == |rows|
  {
  }

  /** The proofs of a project's chain. */
  function StoredChain(t: Tables, p: Id): seq<Proof> {
    Readable(ProofRows(t, Chain(t, p)))
  }

  /** The chain listed later, up to the captured sequence, is the captured one, all readable. */
  lemma ListedLater(t: Tables, u: Tables, p: Id)
    requires Sound(t) && Sound(u) && Grows(t, u)
    ensures var rows := ProofRows(u, SortBy(ChainIds(u, p, MaxSequence(t, p)), SequenceKey(u)));
            Readable(rows) == StoredChain(t, p) && |rows| == |Readable(rows)| == |Chain(t, p)|
    ensures forall k :: 0 <= k < |Chain(t, p)| ==>
              Chain(t, p)[k] in u.records && Some(StoredChain(t, p)[k]) == ReadProof(u, Chain(t, p)[k])
  {
    hide Sound, SequenceKey, SortBy;
    var ids := Chain(t, p);
    ChainReadLater(t, u, p);
    ChainReadable(t, t, p);
    ChainReadable(t, u, p);
    forall k | 0 <= k < |ids| ensures ids[k] in t.records && ids[k] in u.records && ReadProof(t, ids[k]) == ReadProof(u, ids[k]) {
      assert ids[k] in ids;
    }
    assert ProofRows(t, ids) == ProofRows(u, ids);
  }

  datatype Limits = Limits(maximumRecords: nat, maximumBytes: nat, maximumChain: nat, maximumChainBytes: nat)

  ghost predicate KnownAtCapture(t: Tables, p: Id, expected: Option<Digest>) {
    expected.None? || InLedger(t, p, expected.value)
  }

  /** Why an export fails, in the order the limits and the checkpoint are looked at; None
      when it does not. A checkpoint that the captured ledger holds never fails it. */
  ghost function ExportFailure(m: seq<Tables>, p: Id, matches: Id -> bool, descending: bool, expected: Option<Digest>,
                               limits: Limits, recordSize: VerifiableRecord -> nat, proofSize: Proof -> nat)
    : Option<ExportError>
    requires |m| == 8
  {
    if |Selection(m[0], p, matches)| > limits.maximumRecords then Some(TooManyRecords)
    else if TotalSize(Readable(SelectedRows(m[0], p, matches, descending)), recordSize) > limits.maximumBytes
    then Some(TooLarge(RecordScope))
    else if |Chain(m[0], p)| > limits.maximumChain then Some(ChainTooLong)
    else if !KnownAtCapture(m[0], p, expected) && !Verifies(m[4], m[5], m[6], p, expected) then Some(IntegrityConflict)
    else if TotalSize(StoredChain(m[0], p), proofSize) > limits.maximumChainBytes then Some(TooLarge(ChainScope))
    else if !KnownAtCapture(m[0], p, expected) then Some(SelfVerificationFailed)
    else None
  }

  /** prepare_evidence_export followed by create_evidence_bundle: it fails exactly as
      ExportFailure says, and otherwise hands out a bundle that verifies and holds exactly the
      selected records and the whole chain of the captured moment. The errors for a changed
      count, a changed head or an unreadable row never occur. */
  method CreateBundle(m: seq<Tables>, p: Id, matches: Id -> bool, descending: bool, criteria: string,
                      expected: Option<Digest>, capturedAt: Instant, generatedAt: Instant, limits: Limits,
                      recordSize: VerifiableRecord -> nat, proofSize: Proof -> nat)
    returns (r: Result<Bundle, ExportError>)
    requires Moments(m)
    ensures match ExportFailure(m, p, matches, descending, expected, limits, recordSize, proofSize)
            case Some(error) => r == Err(error)
            case None =>
              && r.Ok? && BundleVerifies(r.value, expected)
              && Captures(m[0], p, matches, descending, r.value.records) && r.value.chain == StoredChain(m[0], p)
              && r.value.manifest.core.chainHeadHash == HashBefore(m[0], Chain(m[0], p), |Chain(m[0], p)|)
  {
    hide Sound, Grows, ChainSound, BundleVerifies, TotalSize, Verifies, Chain, Readable, SelectedRows, Selection, StoredChain,
      Captures, KnownAtCapture;
    var captured := CaptureRecords(m[0], p, matches, descending, capturedAt, limits.maximumRecords, limits.maximumBytes,
                                   recordSize);
    SelectedAreReadable(m[0], p, matches, descending);
    ListedLater(m[0], m[7], p);
    StoredChainVerifies(m[0], m[7], p, StoredChain(m[0], p));
    if captured.Err? {
      return Err(captured.error);
    }
    var (snapshot, records) := captured.value;
    if snapshot.maxSequence > limits.maximumChain {
      return Err(ChainTooLong);
    }
    var conflict := VerifySnapshot(m, p, snapshot.chainHeadHash, expected);
    if conflict {
      return Err(IntegrityConflict);
    }
    var chain := ListChain(m[7], p, snapshot.maxSequence, limits.maximumChainBytes, proofSize);
    if chain.Err? {
      return Err(chain.error);
    }
    r := BuildAndVerify(m[0], p, matches, descending, snapshot, criteria, records, chain.value, expected, generatedAt);
  }

  /** create_evidence_bundle after the chain was read. */
  method BuildAndVerify(t: Tables, p: Id, matches: Id -> bool, descending: bool, snapshot: Snapshot, criteria: string,
                        records: seq<VerifiableRecord>, chain: seq<Proof>, expected: Option<Digest>, generatedAt: Instant)
    returns (r: Result<Bundle, ExportError>)
    requires Sound(t) && Captures(t, p, matches, descending, records) && snapshot.projectId == p
    requires |chain| == |Chain(t, p)| == snapshot.maxSequence && ChainSound(chain, p, |chain|)
    requires snapshot.recordCount == |records|
    requires HeadOf(chain) == snapshot.chainHeadHash
    requires forall k :: 0 <= k < |chain| ==> Chain(t, p)[k] in t.records && Some(chain[k]) == ReadProof(t, Chain(t, p)[k])
    ensures if KnownAtCapture(t, p, expected)
            then r.Ok? && BundleVerifies(r.value, expected) && r.value.records == records && r.value.chain == chain
                 && r.value.manifest.core.chainHeadHash == snapshot.chainHeadHash
            else r == Err(SelfVerificationFailed)
  {
    hide Sound, Chain, ChainSound, RecordsSound, Captures;
    r := FromBuild(BuildBundle(snapshot, criteria, records, chain, expected, generatedAt));
    BuiltBundleVerifies(t, p, matches, descending, r.value, expected);
    var verified := VerifyBundle(r.value, expected);
    if !verified.verified {
      return Err(SelfVerificationFailed);
    }
  }

  function FromBuild(built: Result<Bundle, BuildError>): Result<Bundle, ExportError> {
    match built
    case Ok(bundle) => Ok(bundle)
    case Err(reason) => Err(BuildFailed(reason))
  }

  /** The two verifications of prepare_evidence_export; on a ledger that only grew, the
      captured head always verifies, and so does any checkpoint as old as the capture. */
  method VerifySnapshot(m: seq<Tables>, p: Id, head: Option<Digest>, expected: Option<Digest>) returns (conflict: bool)
    requires Moments(m) && head == HashBefore(m[0], Chain(m[0], p), |Chain(m[0], p)|)
    ensures conflict <==> !KnownAtCapture(m[0], p, expected) && !Verifies(m[4], m[5], m[6], p, expected)
  {
    hide Verifies, Sound, Grows;
    HeadIsKnown(m[0], p);
    SnapshotHeadVerifies(m, p);
    var verification := Verify(m[1], m[2], m[3], p, head);
    conflict := !verification.verified;
    if !conflict && expected.Some? && expected != head {
      var checkpoint := Verify(m[4], m[5], m[6], p, expected);
      OldCheckpointVerifies(m, p, expected.value);
      conflict := !checkpoint.verified;
    }
  }

  lemma HeadIsKnown(t: Tables, p: Id)
    ensures var head := HashBefore(t, Chain(t, p), |Chain(t, p)|); head.Some? ==> InLedger(t, p, head.value)
  {
    var chain := Chain(t, p);
    if chain != [] {
      assert chain[|chain| - 1] in chain;
    }
  }

  /** The bundle built from a capture is valid but for its checkpoint. */
  lemma BuiltBundleVerifies(t: Tables, p: Id, matches: Id -> bool, descending: bool, bundle: Bundle, expected: Option<Digest>)
    requires Sound(t) && Captures(t, p, matches, descending, bundle.records) && DigestsMatch(bundle)
    requires bundle.manifest.core.projectId == p && bundle.manifest.core.expectedHeadHash == expected
    requires bundle.manifest.core.chainHeadHash == HeadOf(bundle.chain)
    requires |bundle.chain| == |Chain(t, p)| && ChainSound(bundle.chain, p, |bundle.chain|)
    requires forall k :: 0 <= k < |bundle.chain| ==>
               Chain(t, p)[k] in t.records && Some(bundle.chain[k]) == ReadProof(t, Chain(t, p)[k])
    ensures BundleVerifies(bundle, expected) <==> expected.None? || InLedger(t, p, expected.value)
  {
    CapturedRecordsVerify(t, p, matches, descending, bundle);
    AnchoredIsInLedger(t, p, bundle.chain, expected);
  }

  lemma AnchoredIsInLedger(t: Tables, p: Id, chain: seq<Proof>, expected: Option<Digest>)
    requires |chain| == |Chain(t, p)|
    requires forall k :: 0 <= k < |chain| ==> Chain(t, p)[k] in t.records && Some(chain[k]) == ReadProof(t, Chain(t, p)[k])
    ensures Anchored(chain, expected) <==> expected.None? || InLedger(t, p, expected.value)
  {
    if expected.Some? && InLedger(t, p, expected.value) {
      var k :| 0 <= k < |Chain(t, p)| && Chain(t, p)[k] in t.records
               && t.records[Chain(t, p)[k]].recordHash == expected.value;
      assert chain[k].recordHash == expected.value;
    }
  }

  lemma ScannedReadable(t: Tables, p: Id)
    requires Sound(t)
    ensures forall d :: d in ScanIds(t, p, MaxSequence(t, p)) ==> ReadRecord(t, d).Some?
  {
    forall d | d in ScanIds(t, p, MaxSequence(t, p)) ensures ReadRecord(t, d).Some? {
      var all := (e: Id) => true;
      assert d in Selection(t, p, all);
      CapturedAreSound(t, p, all, false, d);
    }
  }

  lemma ChainReadable(t: Tables, u: Tables, p: Id)
    requires Sound(t) && Sound(u) && Grows(t, u)
    ensures forall k :: 0 <= k < |Chain(t, p)| ==> Chain(t, p)[k] in u.records && ReadProof(u, Chain(t, p)[k]).Some?
  {
    assert SoundProject(t, p);
    forall k | 0 <= k < |Chain(t, p)| ensures Chain(t, p)[k] in u.records && ReadProof(u, Chain(t, p)[k]).Some? {
      assert RowSound(t, Chain(t, p), k);
      assert Chain(t, p)[k] in Chain(t, p);
    }
  }

  lemma SnapshotHeadVerifies(m: seq<Tables>, p: Id)
    requires Moments(m)
    ensures Verifies(m[1], m[2], m[3], p, HashBefore(m[0], Chain(m[0], p), |Chain(m[0], p)|))
  {
    var chain := Chain(m[0], p);
    if chain == [] {
      SplitReadScan(m[1], m[3], p);
      assert SoundProject(m[1], p) && SoundProject(m[2], p);
    } else {
      CheckpointSurvivesGrowth(m[0], m[1], m[2], m[3], p, |chain| - 1);
    }
  }

  lemma OldCheckpointVerifies(m: seq<Tables>, p: Id, digest: Digest)
    requires Moments(m)
    ensures InLedger(m[0], p, digest) ==> Verifies(m[4], m[5], m[6], p, Some(digest))
  {
    if InLedger(m[0], p, digest) {
      var k :| 0 <= k < |Chain(m[0], p)| && Chain(m[0], p)[k] in m[0].records
               && m[0].records[Chain(m[0], p)[k]].recordHash == digest;
      CheckpointSurvivesGrowth(m[0], m[4], m[5], m[6], p, k);
    }
  }

  /** A checkpoint appended between the capture and its check verifies in the ledger but is not
      in the captured chain: the export then ends in its own failed verification. */
  lemma LateCheckpointFails(authorization: Authorization, recordSize: VerifiableRecord -> nat, proofSize: Proof -> nat)
    ensures var p := authorization.projectId;
            var grown := Append(EMPTY, authorization);
            && grown.Some? && authorization.decisionId in grown.value.records
            && var t := grown.value;
               var m := [EMPTY, t, t, t, t, t, t, t];
               var expected := Some(t.records[authorization.decisionId].recordHash);
               && Moments(m) && Verifies(m[4], m[5], m[6], p, expected) && !KnownAtCapture(m[0], p, expected)
               && ExportFailure(m, p, d => true, false, expected, Limits(1, 1, 1, 1), recordSize, proofSize)
                  == Some(SelfVerificationFailed)
  {
    hide Sound, Verifies, Append;
    var p := authorization.projectId;
    EmptyIsSound();
    AppendKeepsSound(EMPTY, authorization);
    var t := Append(EMPTY, authorization).value;
    assert RecordIds(EMPTY, p) == {} && Chain(EMPTY, p) == [];
    assert Chain(t, p) == [authorization.decisionId];
    assert Chain(t, p)[0] in Chain(t, p);
    CheckpointSurvivesGrowth(t, t, t, t, p, 0);
    NothingSelected(p);
  }

  lemma NothingSelected(p: Id)
    ensures Selection(EMPTY, p, d => true) == {} && SelectedRows(EMPTY, p, d => true, false) == []
    ensures StoredChain(EMPTY, p) == []
  {
    assert Selection(EMPTY, p, d => true) == {};
    assert RecordIds(EMPTY, p) == {};
  }

  lemma EmptyIsSound()
    ensures Sound(EMPTY)
  {
    forall q: Id ensures SoundProject(EMPTY, q) {
      assert RecordIds(EMPTY, q) == {} && DecisionIds(EMPTY, q) == {};
    }
  }
}
