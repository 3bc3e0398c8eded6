/** app/storage/policies.py: optimistic compare-and-set versioning with an append-only
    history. A save reads the current version and writes later; a rollback reads the old
    entry and the current version first. Any number of calls interleave between those. */
module PolicyHistory {
  import opened Ordering
  import opened Integrity

  /** A project and a policy id. */
  type Key = (Id, string)

  datatype ChangeType = Created | Updated | Rollback | Migrated

  /** content is the policy's canonical JSON without its version. */
  datatype Policy = Policy(version: int, content: string)

  datatype Row = Row(policy: Policy, enabled: bool, updatedAt: Instant)

  datatype Entry = Entry(policy: Policy, change: ChangeType, source: Option<int>, createdAt: Instant)

  datatype Book = Book(current: map<Key, Row>, history: map<(Key, int), Entry>)

  function CurrentVersion(b: Book, k: Key): Option<int> {
    if k in b.current then Some(b.current[k].policy.version) else None
  }

  function Expected(version: Option<int>): int {
    if version.None? then 1 else version.value + 1
  }

  // ---------------------------------------------------------------- transactions

  /** INSERT INTO project_policy_versions under its key and checks. */
  function InsertVersion(b: Book, k: Key, entry: Entry): Option<Book> {
    if (k, entry.policy.version) !in b.history && entry.policy.version >= 1
       && (entry.change == Rollback <==> entry.source.Some?)
    then Some(b.(history := b.history[(k, entry.policy.version) := entry])) else None
  }

  datatype Write = Write(policy: Policy, change: ChangeType, source: Option<int>, at: Instant)

  datatype PolicyError =
    | Conflict(expected: int, provided: int) | VersionNotFound(version: int) | AlreadyCurrent(version: int)
    | PolicyIntegrityError

  /** The write half of save_with_connection: the row still at the version observed earlier
      is replaced, or inserted if there was none; then the history entry. */
  function Commit(b: Book, k: Key, w: Write, observed: Option<int>): Result<Book, PolicyError> {
    if CurrentVersion(b, k) != observed then Err(Conflict(Expected(CurrentVersion(b, k)), w.policy.version))
    else
      var change := if observed.None? then Created else w.change;
      var entry := Entry(w.policy, change, if change == Rollback then w.source else None, w.at);
      match InsertVersion(b.(current := b.current[k := Row(w.policy, true, w.at)]), k, entry)
      case None => Err(PolicyIntegrityError)
      case Some(u) => Ok(u)
  }

  /** INSERT OR IGNORE, with its history entry when a row was inserted. */
  function SeedOne(b: Book, k: Key, policy: Policy, at: Instant): Option<Book> {
    if k in b.current || policy.version < 1 then Some(b)
    else InsertVersion(b.(current := b.current[k := Row(policy, true, at)]), k, Entry(policy, Created, None, at))
  }

  function SeedAll(b: Book, p: Id, policies: seq<(string, Policy)>, at: Instant): Option<Book>
    decreases |policies|
  {
    if policies == [] then Some(b)
    else
      var n := |policies| - 1;
      match SeedAll(b, p, policies[..n], at)
      case None => None
      case Some(u) => SeedOne(u, (p, policies[n].0), policies[n].1, at)
  }

  function Disable(b: Book, k: Key, at: Instant): Book {
    if k !in b.current then b
    else
      var row := b.current[k];
      b.(current := b.current[k := row.(enabled := false, updatedAt := if row.enabled then at else row.updatedAt)])
  }

  // ---------------------------------------------------------------- calls

  datatype Input =
    | SaveInput(key: Key, policy: Policy, at: Instant)
    | RollbackInput(key: Key, source: int, at: Instant)

  datatype Pc =
    | ReadHistory
    | ReadCurrent(content: string)
    | ReadVersion(write: Write)
    | CommitWrite(write: Write, observed: Option<int>)
    | Saved(version: int)
    | Failed(error: PolicyError)

  function Entered(input: Input): Pc {
    match input
    case SaveInput(_, policy, at) => ReadVersion(Write(policy, Updated, None, at))
    case RollbackInput(_, _, _) => ReadHistory
  }

  datatype Next = Next(book: Book, pc: Pc)

  function CheckVersion(b: Book, k: Key, w: Write): Pc {
    var observed := CurrentVersion(b, k);
    if w.policy.version != Expected(observed) then Failed(Conflict(Expected(observed), w.policy.version))
    else CommitWrite(w, observed)
  }

  function Step(b: Book, input: Input, pc: Pc): Next {
    var k := input.key;
    match pc
    case ReadHistory =>
      if input.SaveInput? then Next(b, pc)
      else if (k, input.source) in b.history then Next(b, ReadCurrent(b.history[(k, input.source)].policy.content))
      else Next(b, Failed(VersionNotFound(input.source)))
    case ReadCurrent(content) =>
      if input.SaveInput? then Next(b, pc)
      else
        (match CurrentVersion(b, k)
         case None => Next(b, Failed(VersionNotFound(input.source)))
         case Some(v) =>
           if v == input.source then Next(b, Failed(AlreadyCurrent(v)))
           else Next(b, ReadVersion(Write(Policy(v + 1, content), Rollback, Some(input.source), input.at))))
    case ReadVersion(w) => Next(b, CheckVersion(b, k, w))
    case CommitWrite(w, observed) =>
      (match Commit(b, k, w, observed)
       case Ok(u) => Next(u, Saved(w.policy.version))
       case Err(error) => Next(b, Failed(error)))
    case _ => Next(b, pc)
  }

  datatype Call = Call(input: Input, pc: Pc)

  /** winners is a history variable: which call wrote a version. No step reads it. */
  datatype Config = Config(book: Book, calls: map<Id, Call>, winners: map<(Key, int), Id>)

  datatype Action =
    | Begin(call: Id, input: Input)
    | Advance(call: Id)
    | Seed(project: Id, policies: seq<(string, Policy)>, at: Instant)
    | Turn(key: Key, at: Instant)

  function Apply(c: Config, action: Action): Config {
    match action
    case Begin(id, input) => if id in c.calls then c else c.(calls := c.calls[id := Call(input, Entered(input))])
    case Seed(p, policies, at) =>
      (match SeedAll(c.book, p, policies, at)
       case None => c
       case Some(u) => c.(book := u))
    case Turn(k, at) => c.(book := Disable(c.book, k, at))
    case Advance(id) =>
      if id !in c.calls then c
      else
        var call := c.calls[id];
        var next := Step(c.book, call.input, call.pc);
        var moved := c.(book := next.book, calls := c.calls[id := call.(pc := next.pc)]);
        if call.pc.CommitWrite? && next.pc.Saved?
        then moved.(winners := c.winners[(call.input.key, next.pc.version) := id]) else moved
  }

  function Run(c: Config, actions: seq<Action>): Config
    decreases |actions|
  {
    if actions == [] then c
    else Apply(Run(c, actions[..|actions| - 1]), actions[|actions| - 1])
  }

  // ---------------------------------------------------------------- the invariant

  /** The versions of k are exactly those from first to last. */
  ghost predicate Interval(b: Book, k: Key, first: int, last: int) {
    1 <= first <= last && forall v :: (k, v) in b.history <==> first <= v <= last
  }

  ghost predicate GapFree(b: Book, k: Key)
    requires k in b.current
  {
    exists first :: Interval(b, k, first, b.current[k].policy.version)
  }

  ghost predicate EntryOk(b: Book, k: Key, v: int)
    requires (k, v) in b.history
  {
    var entry := b.history[(k, v)];
    && entry.policy.version == v
    && (entry.change == Rollback <==> entry.source.Some?)
    && (entry.source.Some? ==> entry.source.value < v && (k, entry.source.value) in b.history
                               && b.history[(k, entry.source.value)].policy.content == entry.policy.content)
  }

  ghost predicate BookOk(b: Book) {
    && (forall k, v :: (k, v) in b.history ==> k in b.current && EntryOk(b, k, v))
    && (forall k :: k in b.current ==> GapFree(b, k))
    && (forall k :: k in b.current ==>
          (k, b.current[k].policy.version) in b.history
          && b.history[(k, b.current[k].policy.version)].policy == b.current[k].policy)
  }

  /** History is append-only and versions only grow. */
  ghost predicate Evolves(a: Book, b: Book) {
    && (forall e :: e in a.history ==> e in b.history && b.history[e] == a.history[e])
    && (forall k :: k in a.current ==> k in b.current && a.current[k].policy.version <= b.current[k].policy.version)
  }

  ghost predicate Sourced(b: Book, k: Key, source: int, content: string) {
    (k, source) in b.history && b.history[(k, source)].policy.content == content
  }

  ghost predicate WriteOk(b: Book, k: Key, w: Write) {
    && (w.change == Rollback <==> w.source.Some?)
    && (w.source.Some? ==> Sourced(b, k, w.source.value, w.policy.content) && w.source.value < w.policy.version)
  }

  /** The write a call is about to make is the one its input asks for. */
  predicate Asked(input: Input, w: Write) {
    match input
    case SaveInput(_, policy, at) => w == Write(policy, Updated, None, at)
    case RollbackInput(_, source, at) => w.change == Rollback && w.source == Some(source) && w.at == at
  }

  /** The entry a call has written. */
  ghost predicate Written(b: Book, input: Input, version: int) {
    && (input.key, version) in b.history
    && var entry := b.history[(input.key, version)];
       match input
       case SaveInput(_, policy, at) => entry.policy == policy && entry.change in {Created, Updated} && entry.createdAt == at
       case RollbackInput(_, source, at) => entry.change == Rollback && entry.source == Some(source) && entry.createdAt == at
  }

  ghost predicate PcOk(b: Book, input: Input, pc: Pc) {
    match pc
    case ReadHistory => input.RollbackInput?
    case ReadCurrent(content) => input.RollbackInput? && Sourced(b, input.key, input.source, content)
    case ReadVersion(w) => WriteOk(b, input.key, w) && Asked(input, w)
    case CommitWrite(w, observed) =>
      WriteOk(b, input.key, w) && Asked(input, w) && w.policy.version == Expected(observed)
      && (observed.Some? ==> observed.value >= 1) && (input.RollbackInput? ==> observed.Some?)
    case Saved(version) => Written(b, input, version)
    case Failed(error) => error != PolicyIntegrityError
  }

  lemma StablePc(a: Book, b: Book, input: Input, pc: Pc)
    requires Evolves(a, b) && PcOk(a, input, pc)
    ensures PcOk(b, input, pc)
  {
  }

  // ---------------------------------------------------------------- preservation

  /** One more entry on top of a key's interval, or the first one of a new key. */
  lemma AppendKeeps(b: Book, k: Key, row: Row, entry: Entry)
    requires BookOk(b) && row.policy == entry.policy && row.policy.version >= 1
    requires k in b.current ==> row.policy.version == b.current[k].policy.version + 1
    requires (entry.change == Rollback <==> entry.source.Some?)
    requires entry.source.Some? ==> entry.source.value < row.policy.version
                                    && Sourced(b, k, entry.source.value, entry.policy.content)
    ensures (k, entry.policy.version) !in b.history
    ensures var u := Book(b.current[k := row], b.history[(k, entry.policy.version) := entry]);
            BookOk(u) && Evolves(b, u)
  {
    var v := entry.policy.version;
    var u := Book(b.current[k := row], b.history[(k, v) := entry]);
    if k in b.current {
      var first :| Interval(b, k, first, b.current[k].policy.version);
      assert Interval(u, k, first, v);
    } else {
      assert Interval(u, k, v, v);
    }
    OthersGapFree(b, u, k, v);
    forall j, w | (j, w) in u.history ensures j in u.current && EntryOk(u, j, w) {
      if (j, w) != (k, v) {
        assert EntryOk(b, j, w);
      }
    }
  }

  lemma OthersGapFree(b: Book, u: Book, k: Key, v: int)
    requires BookOk(b) && u.current.Keys == b.current.Keys + {k}
    requires forall j :: j in b.current && j != k ==> u.current[j].policy == b.current[j].policy
    requires forall j, w :: (j, w) in u.history <==> (j, w) in b.history || (j, w) == (k, v)
    ensures forall j :: j in b.current && j != k ==> GapFree(u, j)
  {
    forall j | j in b.current && j != k ensures GapFree(u, j) {
      var first :| Interval(b, j, first, b.current[j].policy.version);
      assert Interval(u, j, first, u.current[j].policy.version);
    }
  }

  /** A commit on the observed version never meets a key of the history table. */
  lemma CommitKeeps(b: Book, k: Key, w: Write, observed: Option<int>)
    requires BookOk(b) && WriteOk(b, k, w) && w.policy.version == Expected(observed)
    requires observed.Some? ==> observed.value >= 1
    ensures Commit(b, k, w, observed).Ok? <==> CurrentVersion(b, k) == observed
    ensures Commit(b, k, w, observed).Ok? ==>
              var u := Commit(b, k, w, observed).value;
              BookOk(u) && Evolves(b, u) && (k, w.policy.version) !in b.history && (k, w.policy.version) in u.history
              && u.current[k].policy == w.policy
              && u.history[(k, w.policy.version)]
                 == Entry(w.policy, if observed.None? then Created else w.change, if observed.None? then None else w.source, w.at)
    ensures Commit(b, k, w, observed).Err? ==>
              Commit(b, k, w, observed).error == Conflict(Expected(CurrentVersion(b, k)), w.policy.version)
  {
    if CurrentVersion(b, k) == observed {
      var change := if observed.None? then Created else w.change;
      AppendKeeps(b, k, Row(w.policy, true, w.at), Entry(w.policy, change, if change == Rollback then w.source else None, w.at));
    }
  }

  lemma EvolvesTrans(a: Book, b: Book, c: Book)
    requires Evolves(a, b) && Evolves(b, c)
    ensures Evolves(a, c)
  {
  }

  lemma SeedOneKeeps(b: Book, k: Key, policy: Policy, at: Instant)
    requires BookOk(b)
    ensures SeedOne(b, k, policy, at).Some?
    ensures BookOk(SeedOne(b, k, policy, at).value) && Evolves(b, SeedOne(b, k, policy, at).value)
  {
    if k !in b.current && policy.version >= 1 {
      AppendKeeps(b, k, Row(policy, true, at), Entry(policy, Created, None, at));
    }
  }

  lemma {:induction false} SeedAllKeeps(b: Book, p: Id, policies: seq<(string, Policy)>, at: Instant)
    requires BookOk(b)
    ensures SeedAll(b, p, policies, at).Some?
    ensures BookOk(SeedAll(b, p, policies, at).value) && Evolves(b, SeedAll(b, p, policies, at).value)
    decreases |policies|
  {
    hide BookOk, Evolves, SeedOne;
    if policies == [] {
      EvolvesRefl(b);
    } else {
      var n := |policies| - 1;
      SeedAllKeeps(b, p, policies[..n], at);
      var u := SeedAll(b, p, policies[..n], at).value;
      SeedOneKeeps(u, (p, policies[n].0), policies[n].1, at);
      EvolvesTrans(b, u, SeedAll(b, p, policies, at).value);
    }
  }

  lemma EvolvesRefl(b: Book)
    ensures Evolves(b, b)
  {
  }

  lemma DisableKeeps(b: Book, k: Key, at: Instant)
    requires BookOk(b)
    ensures BookOk(Disable(b, k, at)) && Evolves(b, Disable(b, k, at))
  {
    var u := Disable(b, k, at);
    forall j | j in u.current ensures GapFree(u, j) {
      var first :| Interval(b, j, first, b.current[j].policy.version);
      assert Interval(u, j, first, u.current[j].policy.version);
    }
    forall j, w | (j, w) in u.history ensures EntryOk(u, j, w) {
      assert EntryOk(b, j, w);
    }
  }

  lemma StepKeeps(b: Book, input: Input, pc: Pc)
    requires BookOk(b) && PcOk(b, input, pc)
    ensures var next := Step(b, input, pc);
            && BookOk(next.book) && Evolves(b, next.book) && PcOk(next.book, input, next.pc)
            && (pc.CommitWrite? && next.pc.Saved? ==> (input.key, next.pc.version) !in b.history)
            && (next.pc.Saved? && next.pc != pc ==> pc.CommitWrite?)
            && (next.pc.Saved? ==> (input.key, next.pc.version) in next.book.history)
  {
    hide BookOk, Commit, Evolves;
    EvolvesRefl(b);
    match pc
    case ReadCurrent(content) => SourceBelowCurrent(b, input.key);
    case ReadVersion(w) => SourceBelowCurrent(b, input.key);
    case CommitWrite(w, observed) =>
      CommitKeeps(b, input.key, w, observed);
      if Commit(b, input.key, w, observed).Ok? {
        StablePc(b, Commit(b, input.key, w, observed).value, input, pc);
      }
    case _ =>
  }

  lemma SourceBelowCurrent(b: Book, k: Key)
    requires BookOk(b)
    ensures forall v :: (k, v) in b.history ==> k in b.current && v <= b.current[k].policy.version
    ensures k in b.current ==> b.current[k].policy.version >= 1
  {
    if k in b.current {
      var first :| Interval(b, k, first, b.current[k].policy.version);
    }
  }

  // ---------------------------------------------------------------- whole runs

  ghost predicate WinnersOk(c: Config) {
    forall id :: id in c.calls && c.calls[id].pc.Saved? ==>
      var won := (c.calls[id].input.key, c.calls[id].pc.version);
      won in c.winners && c.winners[won] == id
  }

  ghost predicate Inv(c: Config) {
    && BookOk(c.book) && WinnersOk(c)
    && (forall e :: e in c.winners ==> e in c.book.history)
    && (forall id :: id in c.calls ==> PcOk(c.book, c.calls[id].input, c.calls[id].pc))
  }

  lemma AdvanceKeeps(c: Config, id: Id)
    requires Inv(c) && id in c.calls
    ensures Inv(Apply(c, Advance(id))) && Evolves(c.book, Apply(c, Advance(id)).book)
  {
    hide BookOk, Evolves, PcOk, Step;
    var call := c.calls[id];
    var u := Apply(c, Advance(id));
    StepKeeps(c.book, call.input, call.pc);
    CallsStable(c, u, id);
    HistoryStays(c.book, u.book);
  }

  lemma HistoryStays(a: Book, b: Book)
    requires Evolves(a, b)
    ensures forall e :: e in a.history ==> e in b.history
  {
  }

  lemma CallsStable(c: Config, u: Config, id: Id)
    requires forall i :: i in c.calls ==> PcOk(c.book, c.calls[i].input, c.calls[i].pc)
    requires Evolves(c.book, u.book) && id in c.calls && id in u.calls && u.calls == c.calls[id := u.calls[id]]
    requires PcOk(u.book, u.calls[id].input, u.calls[id].pc)
    ensures forall i :: i in u.calls ==> PcOk(u.book, u.calls[i].input, u.calls[i].pc)
  {
    hide PcOk, Evolves;
    forall i | i in u.calls ensures PcOk(u.book, u.calls[i].input, u.calls[i].pc) {
      if i != id {
        StablePc(c.book, u.book, c.calls[i].input, c.calls[i].pc);
      }
    }
  }

  /** A change of the book alone. */
  lemma BookChangeKeeps(c: Config, b: Book)
    requires Inv(c) && BookOk(b) && Evolves(c.book, b)
    ensures Inv(c.(book := b))
  {
    hide BookOk, PcOk, Evolves;
    HistoryStays(c.book, b);
    forall i | i in c.calls ensures PcOk(b, c.calls[i].input, c.calls[i].pc) {
      StablePc(c.book, b, c.calls[i].input, c.calls[i].pc);
    }
  }

  lemma ApplyKeeps(c: Config, action: Action)
    requires Inv(c)
    ensures Inv(Apply(c, action)) && Evolves(c.book, Apply(c, action).book)
  {
    hide BookOk, Evolves;
    EvolvesRefl(c.book);
    match action
    case Begin(id, input) =>
    case Advance(id) => if id in c.calls { AdvanceKeeps(c, id); }
    case Seed(p, policies, at) =>
      SeedAllKeeps(c.book, p, policies, at);
      BookChangeKeeps(c, SeedAll(c.book, p, policies, at).value);
    case Turn(k, at) =>
      DisableKeeps(c.book, k, at);
      BookChangeKeeps(c, Disable(c.book, k, at));
  }

  const EMPTY_CONFIG := Config(Book(map[], map[]), map[], map[])

  ghost predicate Reachable(c: Config) {
    exists actions :: Run(EMPTY_CONFIG, actions) == c
  }

  lemma {:induction false} RunKeeps(c: Config, actions: seq<Action>)
    requires Inv(c)
    ensures Inv(Run(c, actions)) && Evolves(c.book, Run(c, actions).book)
    decreases |actions|
  {
    hide Inv, Evolves, Apply;
    if actions == [] {
      EvolvesRefl(c.book);
    } else {
      var n := |actions| - 1;
      RunKeeps(c, actions[..n]);
      ApplyKeeps(Run(c, actions[..n]), actions[n]);
      EvolvesTrans(c.book, Run(c, actions[..n]).book, Run(c, actions).book);
    }
  }

  lemma ReachableOk(c: Config)
    requires Reachable(c)
    ensures Inv(c)
  {
    hide Run;
    var actions :| Run(EMPTY_CONFIG, actions) == c;
    RunKeeps(EMPTY_CONFIG, actions);
  }

  // ---------------------------------------------------------------- what it means

  /** Whatever saves, rollbacks, seeds and disablings interleave: the versions of a policy
      are one gap-free interval that ends at the current one, and the configuration is the
      last history entry. */
  lemma HistoryIsGapFree(c: Config, k: Key)
    requires Reachable(c)
    ensures k in c.book.current <==> exists v :: (k, v) in c.book.history
    ensures k in c.book.current ==>
              && (exists first :: Interval(c.book, k, first, c.book.current[k].policy.version))
              && c.book.history[(k, c.book.current[k].policy.version)].policy == c.book.current[k].policy
  {
    hide WinnersOk, PcOk;
    ReachableOk(c);
    if k in c.book.current {
      assert GapFree(c.book, k);
      assert (k, c.book.current[k].policy.version) in c.book.history;
    }
  }

  /** A version of a policy is written by one call at most, over the whole run. */
  lemma OneWinnerPerVersion(c: Config, i: Id, j: Id)
    requires Reachable(c) && i in c.calls && j in c.calls
    requires c.calls[i].pc.Saved? && c.calls[j].pc == c.calls[i].pc && c.calls[i].input.key == c.calls[j].input.key
    ensures i == j
  {
    hide BookOk, PcOk;
    ReachableOk(c);
  }

  /** Of two writers about to write the same version, the first wins and the second is told
      the version it should have asked for. */
  lemma RaceHasOneWinner(c: Config, i: Id, j: Id)
    requires Reachable(c) && i in c.calls && j in c.calls && i != j
    requires c.calls[i].pc.CommitWrite? && c.calls[j].pc.CommitWrite? && c.calls[i].input.key == c.calls[j].input.key
    requires c.calls[i].pc.observed == c.calls[j].pc.observed == CurrentVersion(c.book, c.calls[i].input.key)
    ensures var v := Expected(c.calls[i].pc.observed);
            var u := Apply(Apply(c, Advance(i)), Advance(j));
            && i in u.calls && u.calls[i].pc == Saved(v)
            && j in u.calls && u.calls[j].pc == Failed(Conflict(v + 1, v))
  {
    hide BookOk, PcOk, Commit;
    ReachableOk(c);
    CommitOfCall(c, i);
    AdvanceKeeps(c, i);
    CommitOfCall(Apply(c, Advance(i)), j);
  }

  lemma CommitOfCall(c: Config, i: Id)
    requires Inv(c) && i in c.calls && c.calls[i].pc.CommitWrite?
    ensures var call := c.calls[i];
            var u := Apply(c, Advance(i));
            if CurrentVersion(c.book, call.input.key) == call.pc.observed
            then u.calls[i].pc == Saved(Expected(call.pc.observed))
                 && CurrentVersion(u.book, call.input.key) == Some(Expected(call.pc.observed))
            else u.calls[i].pc == Failed(Conflict(Expected(CurrentVersion(c.book, call.input.key)), call.pc.write.policy.version))
                 && u.book == c.book
    ensures c.calls[i].pc.write.policy.version == Expected(c.calls[i].pc.observed)
  {
    hide BookOk;
    var call := c.calls[i];
    CommitKeeps(c.book, call.input.key, call.pc.write, call.pc.observed);
  }

  /** The entry a rollback chain ends at. */
  function Origin(b: Book, k: Key, v: int): int
    requires BookOk(b) && (k, v) in b.history
    decreases if v < 0 then 0 else v
  {
    var entry := b.history[(k, v)];
    assert EntryOk(b, k, v);
    if entry.source.None? then v
    else
      assert entry.source.value >= 1 by { PositiveVersion(b, k, entry.source.value); }
      Origin(b, k, entry.source.value)
  }

  lemma PositiveVersion(b: Book, k: Key, v: int)
    requires BookOk(b) && (k, v) in b.history
    ensures v >= 1
  {
    var first :| Interval(b, k, first, b.current[k].policy.version);
  }

  /** Following source_version strictly decreases and ends at an entry that is no rollback
      and has the same content. */
  lemma {:induction false} OriginHasSameContent(b: Book, k: Key, v: int)
    requires BookOk(b) && (k, v) in b.history
    ensures var o := Origin(b, k, v);
            && (k, o) in b.history && b.history[(k, o)].change != Rollback
            && b.history[(k, o)].policy.content == b.history[(k, v)].policy.content
            && o <= v && (o == v <==> b.history[(k, v)].change != Rollback)
    decreases if v < 0 then 0 else v
  {
    assert EntryOk(b, k, v);
    if b.history[(k, v)].source.Some? {
      PositiveVersion(b, k, b.history[(k, v)].source.value);
      OriginHasSameContent(b, k, b.history[(k, v)].source.value);
    }
  }

  /** A finished save wrote its policy as its version; a finished rollback wrote, as a new
      version, the content of the version it names, which some non-rollback once wrote. */
  lemma FinishedCallWrote(c: Config, id: Id)
    requires Reachable(c) && id in c.calls && c.calls[id].pc.Saved?
    ensures var input := c.calls[id].input;
            var (k, v) := (input.key, c.calls[id].pc.version);
            && BookOk(c.book) && (k, v) in c.book.history
            && match input
               case SaveInput(_, policy, _) => c.book.history[(k, v)].policy == policy && Origin(c.book, k, v) == v
               case RollbackInput(_, source, _) =>
                 && source < v && (k, source) in c.book.history
                 && c.book.history[(k, v)].policy == Policy(v, c.book.history[(k, source)].policy.content)
                 && Origin(c.book, k, v) == Origin(c.book, k, source) < v
  {
    hide WinnersOk;
    ReachableOk(c);
    var (k, v) := (c.calls[id].input.key, c.calls[id].pc.version);
    OriginHasSameContent(c.book, k, v);
    assert EntryOk(c.book, k, v);
  }

  /** A commit turns the observed current version into the next one, enabled. */
  lemma CommitMovesOn(c: Config, id: Id)
    requires Reachable(c) && id in c.calls && c.calls[id].pc.CommitWrite?
    requires CurrentVersion(c.book, c.calls[id].input.key) == c.calls[id].pc.observed
    ensures var k := c.calls[id].input.key;
            var u := Apply(c, Advance(id)).book;
            && k in u.current && u.current[k].enabled && u.current[k].policy == c.calls[id].pc.write.policy
            && u.current[k].policy.version == Expected(c.calls[id].pc.observed)
            && u.history.Keys == c.book.history.Keys + {(k, u.current[k].policy.version)}
  {
    hide BookOk;
    ReachableOk(c);
    var call := c.calls[id];
    CommitKeeps(c.book, call.input.key, call.pc.write, call.pc.observed);
  }

  // ---------------------------------------------------------------- the repository

  class ProjectPolicyRepository {
    var current: map<Key, Row>
    var history: map<(Key, int), Entry>

    constructor ()
      ensures View() == Book(map[], map[])
    {
      current, history := map[], map[];
    }

    function View(): Book
      reads this
    {
      Book(current, history)
    }

    method Rollback(b: Book)
      modifies this
      ensures View() == b
    {
      current, history := b.current, b.history;
    }

    method OthersCommit(meanwhile: Book -> Book)
      modifies this
      ensures View() == meanwhile(old(View()))
    {
      Rollback(meanwhile(View()));
    }

    method InsertVersionRow(k: Key, entry: Entry) returns (ok: bool)
      modifies this`history
      ensures ok == InsertVersion(old(View()), k, entry).Some?
      ensures View() == if ok then InsertVersion(old(View()), k, entry).value else old(View())
    {
      ok := (k, entry.policy.version) !in history && entry.policy.version >= 1
            && (entry.change == ChangeType.Rollback <==> entry.source.Some?);
      if ok {
        history := history[(k, entry.policy.version) := entry];
      }
    }

    /** One transaction over all policies of a template. */
    method SeedPolicies(p: Id, policies: seq<(string, Policy)>, at: Instant) returns (ok: bool)
      modifies this
      ensures ok == SeedAll(old(View()), p, policies, at).Some?
      ensures View() == if ok then SeedAll(old(View()), p, policies, at).value else old(View())
    {
      ghost var start := View();
      var saved := View();
      assert policies[..0] == [];
      for i := 0 to |policies|
        invariant SeedAll(start, p, policies[..i], at) == Some(View())
      {
        assert policies[..i + 1][..i] == policies[..i];
        var k, policy := (p, policies[i].0), policies[i].1;
        if k !in current && policy.version >= 1 {
          current := current[k := Row(policy, true, at)];
          var inserted := InsertVersionRow(k, Entry(policy, Created, None, at));
          if !inserted {
            NoSeedAfter(start, p, policies, i, at);
            Rollback(saved);
            return false;
          }
        }
      }
      assert policies[..|policies|] == policies;
      return true;
    }

    /** save_with_connection; meanwhile is what other callers commit between its read of
        the current version and its first write. */
    method SaveWithConnection(k: Key, w: Write, meanwhile: Book -> Book) returns (r: Result<Row, PolicyError>)
      modifies this
      ensures match CheckVersion(old(View()), k, w)
              case CommitWrite(_, observed) =>
                (match Commit(meanwhile(old(View())), k, w, observed)
                 case Ok(u) => View() == u && k in current && r == Ok(current[k])
                 case Err(error) => View() == meanwhile(old(View())) && r == Err(error))
              case Failed(error) => View() == old(View()) && r == Err(error)
              case _ => false
    {
      var observed := CurrentVersion(View(), k);
      if w.policy.version != Expected(observed) {
        return Err(Conflict(Expected(observed), w.policy.version));
      }
      OthersCommit(meanwhile);
      var start := View();
      var change := Created;
      if observed.None? {
        if k in current {
          return Err(Conflict(current[k].policy.version + 1, w.policy.version));
        }
        current := current[k := Row(w.policy, true, w.at)];
      } else {
        change := w.change;
        if k !in current || current[k].policy.version != observed.value {
          return Err(Conflict(Expected(CurrentVersion(View(), k)), w.policy.version));
        }
        current := current[k := Row(w.policy, true, w.at)];
      }
      var inserted := InsertVersionRow(k, Entry(w.policy, change, if change == ChangeType.Rollback then w.source else None, w.at));
      if !inserted {
        Rollback(start);
        return Err(PolicyIntegrityError);
      }
      r := Ok(current[k]);
    }

    method DisableWithConnection(k: Key, at: Instant) returns (r: Option<Row>)
      modifies this`current
      ensures View() == Disable(old(View()), k, at)
      ensures r == if k in current then Some(current[k]) else None
      ensures current.Keys == old(current).Keys && forall j :: j in current && j != k ==> current[j] == old(current)[j]
      ensures k in current ==> !current[k].enabled && current[k].policy == old(current)[k].policy
      ensures k in current ==>
                current[k].updatedAt == if old(current)[k].enabled then at else old(current)[k].updatedAt
    {
      if k !in current {
        return None;
      }
      var row := current[k];
      current := current[k := row.(updatedAt := if row.enabled then at else row.updatedAt, enabled := false)];
      r := Some(current[k]);
    }
  }

  lemma {:induction false} NoSeedAfter(b: Book, p: Id, policies: seq<(string, Policy)>, i: nat, at: Instant)
    requires i < |policies| && SeedAll(b, p, policies[..i + 1], at).None?
    ensures SeedAll(b, p, policies, at).None?
    decreases |policies|
  {
    hide SeedOne;
    if i + 1 == |policies| {
      assert policies[..i + 1] == policies;
    } else {
      assert policies[..|policies| - 1][..i + 1] == policies[..i + 1];
      NoSeedAfter(b, p, policies[..|policies| - 1], i, at);
    }
  }
}
