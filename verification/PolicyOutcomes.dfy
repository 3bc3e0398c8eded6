/** What each write of the policy history changes and what it leaves alone, and when a save or
    a rollback that nobody interrupts goes through, in terms of the stored rows. */
module PolicyOutcomes {
  import opened Ordering
  import opened Integrity
  import opened PolicyHistory

  /** Neither the row nor the history of any other policy changes. */
  ghost predicate OthersStay(a: Book, b: Book, k: Key) {
    && (forall j :: j != k ==> (j in a.current <==> j in b.current))
    && (forall j :: j != k && j in a.current && j in b.current ==> b.current[j] == a.current[j])
    && (forall j, v :: j != k ==> ((j, v) in a.history <==> (j, v) in b.history))
    && (forall j, v :: j != k && (j, v) in a.history && (j, v) in b.history ==> b.history[(j, v)] == a.history[(j, v)])
  }

  // ---------------------------------------------------------------- the writes

  /** Disabling one policy leaves all others, every version and the whole history alone. */
  lemma DisableMeans(b: Book, k: Key, at: Instant)
    ensures var u := Disable(b, k, at);
            && OthersStay(b, u, k) && u.history == b.history && u.current.Keys == b.current.Keys
            && (k in b.current ==>
                  && u.current[k].policy == b.current[k].policy && !u.current[k].enabled
                  && u.current[k].updatedAt == if b.current[k].enabled then at else b.current[k].updatedAt)
  {
  }

  /** A commit writes one row, enabled, and one entry, under one key. */
  lemma CommitMeans(b: Book, k: Key, w: Write, observed: Option<int>)
    requires Commit(b, k, w, observed).Ok?
    ensures var (u, v) := (Commit(b, k, w, observed).value, w.policy.version);
            && OthersStay(b, u, k)
            && k in u.current && u.current[k] == Row(w.policy, true, w.at)
            && (forall n :: (k, n) in u.history <==> (k, n) in b.history || n == v)
            && (forall n :: (k, n) in b.history ==> n != v && u.history[(k, n)] == b.history[(k, n)])
            && u.history[(k, v)] == Entry(w.policy, if observed.None? then Created else w.change,
                                          if observed.Some? && w.change == Rollback then w.source else None, w.at)
  {
  }

  /** The first valid policy of the template with this name. */
  predicate FirstNamed(policies: seq<(string, Policy)>, name: string, i: nat) {
    && i < |policies| && policies[i].0 == name && policies[i].1.version >= 1
    && forall h :: 0 <= h < i && policies[h].0 == name ==> policies[h].1.version < 1
  }

  /** Policy i of the template is the only version of a new, enabled policy. */
  ghost predicate SeededFrom(u: Book, j: Key, policy: Policy, at: Instant) {
    && j in u.current && u.current[j] == Row(policy, true, at)
    && (forall v :: (j, v) in u.history <==> v == policy.version)
    && u.history[(j, policy.version)] == Entry(policy, Created, None, at)
  }

  ghost predicate SeededBy(b: Book, p: Id, policies: seq<(string, Policy)>, at: Instant, u: Book) {
    && (forall j :: j in b.current ==> j in u.current && u.current[j] == b.current[j])
    && (forall j, v :: j in b.current ==> ((j, v) in u.history <==> (j, v) in b.history))
    && (forall e :: e in b.history ==> e in u.history && u.history[e] == b.history[e])
    && (forall j :: j in u.current && j !in b.current ==>
          j.0 == p && exists i: nat | i < |policies| :: FirstNamed(policies, j.1, i) && SeededFrom(u, j, policies[i].1, at))
    && (forall i :: 0 <= i < |policies| && policies[i].1.version >= 1 ==> (p, policies[i].0) in u.current)
  }

  /** What one more row of the template adds. */
  ghost predicate AddsOne(u: Book, w: Book, k: Key, policy: Policy, at: Instant) {
    if k in u.current || policy.version < 1 then w == u
    else w == Book(u.current[k := Row(policy, true, at)], u.history[(k, policy.version) := Entry(policy, Created, None, at)])
         && forall v :: (k, v) !in u.history
  }

  lemma SeedOneAdds(u: Book, k: Key, policy: Policy, at: Instant)
    requires BookOk(u)
    ensures SeedOne(u, k, policy, at).Some? && AddsOne(u, SeedOne(u, k, policy, at).value, k, policy, at)
  {
    if k !in u.current {
      NoEntries(u, k);
    }
  }

  lemma FirstNamedOneMore(policies: seq<(string, Policy)>, name: string, i: nat)
    requires policies != [] && FirstNamed(policies[..|policies| - 1], name, i)
    ensures FirstNamed(policies, name, i) && policies[..|policies| - 1][i] == policies[i]
  {
    forall h | 0 <= h < i && policies[h].0 == name ensures policies[h].1.version < 1 {
      assert policies[..|policies| - 1][h] == policies[h];
    }
  }

  lemma SeedNewRow(u: Book, w: Book, p: Id, policies: seq<(string, Policy)>, at: Instant)
    requires policies != []
    requires forall i :: 0 <= i < |policies| - 1 && policies[i].1.version >= 1 ==> (p, policies[i].0) in u.current
    requires AddsOne(u, w, (p, policies[|policies| - 1].0), policies[|policies| - 1].1, at)
    ensures forall j :: j in u.current ==> j in w.current && w.current[j] == u.current[j]
    ensures forall j, v :: j in u.current ==> ((j, v) in w.history <==> (j, v) in u.history)
    ensures forall e :: e in u.history ==> e in w.history && w.history[e] == u.history[e]
    ensures forall j :: j in w.current && j !in u.current ==>
              j.0 == p && FirstNamed(policies, j.1, |policies| - 1) && SeededFrom(w, j, policies[|policies| - 1].1, at)
    ensures policies[|policies| - 1].1.version >= 1 ==> (p, policies[|policies| - 1].0) in w.current
  {
  }

  lemma SeedOneMore(b: Book, p: Id, policies: seq<(string, Policy)>, at: Instant, u: Book, w: Book)
    requires policies != [] && SeededBy(b, p, policies[..|policies| - 1], at, u)
    requires AddsOne(u, w, (p, policies[|policies| - 1].0), policies[|policies| - 1].1, at)
    ensures SeededBy(b, p, policies, at, w)
  {
    hide AddsOne, FirstNamed;
    var n := |policies| - 1;
    forall i | 0 <= i < n && policies[i].1.version >= 1 ensures (p, policies[i].0) in u.current {
      assert policies[..n][i] == policies[i];
    }
    SeedNewRow(u, w, p, policies, at);
    forall j | j in w.current && j !in b.current
      ensures j.0 == p && exists i: nat | i < |policies| :: FirstNamed(policies, j.1, i) && SeededFrom(w, j, policies[i].1, at)
    {
      if j in u.current {
        var i: nat :| i < n && FirstNamed(policies[..n], j.1, i) && SeededFrom(u, j, policies[..n][i].1, at);
        FirstNamedOneMore(policies, j.1, i);
        assert SeededFrom(w, j, policies[i].1, at);
      }
    }
  }

  lemma NoEntries(b: Book, k: Key)
    requires BookOk(b) && k !in b.current
    ensures forall v :: (k, v) !in b.history
  {
  }

  /** Seeding adds exactly the template's policies that are missing, each from its first valid
      occurrence, and leaves every stored policy as it is, enabled or not. */
  lemma {:induction false} SeedAllMeans(b: Book, p: Id, policies: seq<(string, Policy)>, at: Instant)
    requires BookOk(b)
    ensures SeedAll(b, p, policies, at).Some? && SeededBy(b, p, policies, at, SeedAll(b, p, policies, at).value)
    decreases |policies|
  {
    hide BookOk, SeedOne, SeededBy, AddsOne;
    SeedAllKeeps(b, p, policies, at);
    if policies == [] {
      NothingSeeded(b, p, at);
    } else {
      var n := |policies| - 1;
      SeedAllMeans(b, p, policies[..n], at);
      SeedAllKeeps(b, p, policies[..n], at);
      var u := SeedAll(b, p, policies[..n], at).value;
      SeedOneAdds(u, (p, policies[n].0), policies[n].1, at);
      SeedOneMore(b, p, policies, at, u, SeedAll(b, p, policies, at).value);
    }
  }

  lemma NothingSeeded(b: Book, p: Id, at: Instant)
    ensures SeededBy(b, p, [], at, b)
  {
  }

  // ---------------------------------------------------------------- whole runs

  /** The action may write the row of k. */
  predicate Concerns(c: Config, action: Action, k: Key) {
    match action
    case Begin(_, _) => false
    case Advance(id) => id in c.calls && c.calls[id].input.key == k && c.calls[id].pc.CommitWrite?
    case Seed(p, _, _) => k !in c.book.current && p == k.0
    case Turn(j, _) => j == k
  }

  /** In any run an action touches no policy but its own. A policy is switched off only by
      disabling it, and on again only by a commit of one of its own versions. */
  lemma OneKeyPerAction(c: Config, action: Action, k: Key)
    requires Reachable(c)
    ensures var u := Apply(c, action).book;
            && (!Concerns(c, action, k) ==>
                  && (k in u.current <==> k in c.book.current)
                  && (k in u.current ==> u.current[k] == c.book.current[k])
                  && (forall v :: (k, v) in u.history <==> (k, v) in c.book.history)
                  && (forall v :: (k, v) in c.book.history ==> u.history[(k, v)] == c.book.history[(k, v)]))
            && (k in c.book.current && k in u.current && c.book.current[k].enabled != u.current[k].enabled ==>
                  if u.current[k].enabled then action.Advance? else action.Turn?)
  {
    hide Inv, Commit, SeedAll, Disable;
    ReachableOk(c);
    BookOf(c);
    match action
    case Begin(_, _) =>
    case Turn(j, at) => DisableMeans(c.book, j, at);
    case Advance(id) =>
      if id in c.calls && c.calls[id].pc.CommitWrite? {
        var call := c.calls[id];
        if Commit(c.book, call.input.key, call.pc.write, call.pc.observed).Ok? {
          CommitMeans(c.book, call.input.key, call.pc.write, call.pc.observed);
        }
      }
    case Seed(p, policies, at) => SeedLeaves(c.book, p, policies, at, k);
  }

  lemma BookOf(c: Config)
    requires Inv(c)
    ensures BookOk(c.book)
  {
  }

  lemma SeedLeaves(b: Book, p: Id, policies: seq<(string, Policy)>, at: Instant, k: Key)
    requires BookOk(b)
    ensures SeedAll(b, p, policies, at).Some?
    ensures k in b.current || p != k.0 ==>
              var u := SeedAll(b, p, policies, at).value;
              && (k in u.current <==> k in b.current) && (k in u.current ==> u.current[k] == b.current[k])
              && (forall v :: (k, v) in u.history <==> (k, v) in b.history)
              && (forall v :: (k, v) in b.history ==> u.history[(k, v)] == b.history[(k, v)])
  {
    hide GapFree, EntryOk;
    SeedAllMeans(b, p, policies, at);
    SeedAllKeeps(b, p, policies, at);
    if k !in b.current && p != k.0 {
      NoEntries(b, k);
      NoEntries(SeedAll(b, p, policies, at).value, k);
    }
  }

  // ---------------------------------------------------------------- calls left alone

  function Rank(pc: Pc): nat {
    match pc
    case ReadHistory => 4
    case ReadCurrent(_) => 3
    case ReadVersion(_) => 2
    case CommitWrite(_, _) => 1
    case _ => 0
  }

  /** The remaining steps of a call that nobody interrupts. */
  function Finish(b: Book, input: Input, pc: Pc): (r: Next)
    requires pc.ReadHistory? || pc.ReadCurrent? ==> input.RollbackInput?
    ensures r.pc.Saved? || r.pc.Failed?
    decreases Rank(pc)
  {
    if pc.Saved? || pc.Failed? then Next(b, pc)
    else
      var next := Step(b, input, pc);
      Finish(next.book, input, next.pc)
  }

  /** The version that the next write of a policy must have. */
  function NextVersion(b: Book, k: Key): int {
    if k in b.current then b.current[k].policy.version + 1 else 1
  }

  /** The row and the entry that a write leaves, beside an untouched rest. */
  ghost predicate Wrote(b: Book, u: Book, k: Key, policy: Policy, change: ChangeType, source: Option<int>, at: Instant) {
    && OthersStay(b, u, k)
    && k in u.current && u.current[k] == Row(policy, true, at)
    && (forall n :: (k, n) in u.history <==> (k, n) in b.history || n == policy.version)
    && (forall n :: (k, n) in b.history ==> n != policy.version && u.history[(k, n)] == b.history[(k, n)])
    && u.history[(k, policy.version)] == Entry(policy, change, source, at)
  }

  lemma WriteAnswers(b: Book, input: Input, w: Write)
    requires BookOk(b) && WriteOk(b, input.key, w)
    ensures var (k, next) := (input.key, Finish(b, input, ReadVersion(w)));
            if w.policy.version == NextVersion(b, k)
            then next.pc == Saved(w.policy.version)
                 && Wrote(b, next.book, k, w.policy, if k in b.current then w.change else Created,
                          if k in b.current then w.source else None, w.at)
            else next == Next(b, Failed(Conflict(NextVersion(b, k), w.policy.version)))
  {
    hide BookOk, Commit;
    var k := input.key;
    SourceBelowCurrent(b, k);
    var checked := CheckVersion(b, k, w);
    assert Finish(b, input, ReadVersion(w)) == Finish(b, input, checked);
    if checked.CommitWrite? {
      CommitKeeps(b, k, w, checked.observed);
      CommitMeans(b, k, w, checked.observed);
      var u := Commit(b, k, w, checked.observed).value;
      assert Finish(b, input, checked) == Finish(u, input, Saved(w.policy.version));
    }
  }

  /** A save goes through exactly with the next version, as a new policy or as an update;
      otherwise it is told that version and changes nothing. */
  lemma SaveAnswers(b: Book, input: Input)
    requires BookOk(b) && input.SaveInput?
    ensures var (k, next) := (input.key, Finish(b, input, Entered(input)));
            if input.policy.version == NextVersion(b, k)
            then next.pc == Saved(input.policy.version)
                 && Wrote(b, next.book, k, input.policy, if k in b.current then Updated else Created, None, input.at)
            else next == Next(b, Failed(Conflict(NextVersion(b, k), input.policy.version)))
  {
    hide BookOk, Finish, Wrote;
    WriteAnswers(b, input, Write(input.policy, Updated, None, input.at));
  }

  /** A rollback goes through exactly for a stored version that is not the current one, and
      then brings its content back as the next version. */
  lemma RollbackAnswers(b: Book, input: Input)
    requires BookOk(b) && input.RollbackInput?
    ensures (input.key, input.source) in b.history ==> input.key in b.current
    ensures var (k, next) := (input.key, Finish(b, input, Entered(input)));
            if (k, input.source) !in b.history then next == Next(b, Failed(VersionNotFound(input.source)))
            else if input.source == b.current[k].policy.version then next == Next(b, Failed(AlreadyCurrent(input.source)))
            else
              var policy := Policy(b.current[k].policy.version + 1, b.history[(k, input.source)].policy.content);
              next.pc == Saved(policy.version) && Wrote(b, next.book, k, policy, Rollback, Some(input.source), input.at)
  {
    hide BookOk, Wrote, CheckVersion, Commit;
    var k := input.key;
    SourceBelowCurrent(b, k);
    if (k, input.source) in b.history {
      var content := b.history[(k, input.source)].policy.content;
      assert Finish(b, input, ReadHistory) == Finish(b, input, ReadCurrent(content));
      var current := b.current[k].policy.version;
      if current != input.source {
        var w := Write(Policy(current + 1, content), Rollback, Some(input.source), input.at);
        assert Finish(b, input, ReadCurrent(content)) == Finish(b, input, ReadVersion(w));
        WriteAnswers(b, input, w);
      }
    }
  }
}
