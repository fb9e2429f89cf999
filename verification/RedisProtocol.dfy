/**
 The Redis call store under any number of concurrent clients.

 Redis executes single commands and EXEC blocks atomically, so a run is a sequence of such
 atomic steps, interleaved in any way: the SET and the SADDs of a Put, the WATCH, GET and EXEC
 of each attempt of an Update, and the SMEMBERS, MGET and (detached, arbitrarily late) SREM of
 an active-call query.  WATCH is modelled by a write counter on the key: EXEC succeeds exactly
 when the counter is what it was at WATCH.

 `base` and `log` of a cell, `start` of an invocation and `due` of a query are history: no
 step's effect on the other fields depends on them.
 */
module RedisProtocol {
  import opened CallModel
  import opened CallRuns
  import opened UserIndex

  const MAX_RETRIES: nat := 20

  datatype Cell = Cell(value: Call, version: nat, base: Call, log: seq<Commit>)

  datatype Phase =
    | Trying(attempt: nat)                                        // at the head of the retry loop
    | Watching(attempt: nat, seen: nat)                           // WATCH done
    | Holding(attempt: nat, seen: nat, now: Time, next: Call)     // GET done, closure succeeded
    | Committed(at: nat, result: Call)                            // EXEC succeeded, event not yet published
    | Returned(at: nat, result: Call)                             // returned the updated call
    | Declined(at: nat, now: Time, error: CallError)              // closure refused the value read at version `at`
    | Missing                                                     // no such call
    | GaveUp                                                      // high-concurrency error

  datatype Invocation = Invocation(id: CallId, op: Op, start: nat, phase: Phase)

  datatype QueryPhase =
    | Asked
    | Listed(ids: set<CallId>, due: set<CallId>)                  // SMEMBERS done
    | Answered(active: set<CallId>, stale: set<CallId>)           // MGET done and answer returned; SREM outstanding
    | Cleaned(active: set<CallId>)

  datatype Query = Query(key: Key, phase: QueryPhase)

  datatype Announcement = Announcement(id: CallId, who: nat, call: Call)

  datatype State = State(
    cells: map<CallId, Cell>,
    index: map<Key, set<CallId>>,
    puts: map<CallId, nat>,          // SADDs done so far by the Put of each call
    ops: map<nat, Invocation>,
    queries: map<nat, Query>,
    ended: seq<Announcement>)        // call.ended events, oldest first

  datatype Step =
    | PutSet(c: Call) | PutAdd(id: CallId)
    | Invoke(k: nat, id: CallId, op: Op) | Watch(k: nat) | Get(k: nat, now: Time)
    | Exec(k: nat) | GiveUp(k: nat) | Publish(k: nat)
    | Ask(q: nat, key: Key) | List(q: nat) | Fetch(q: nat) | Clean(q: nat)

  const Init: State := State(map[], map[], map[], map[], map[], [])

  function Version(s: State, id: CallId): nat {
    if id in s.cells then s.cells[id].version else 0
  }

  predicate PutDone(s: State, id: CallId) {
    id in s.cells && id in s.puts && s.puts[id] >= |s.cells[id].base.participants|
  }

  /** `id` is a live call of `key`'s app that lists `key`'s user. */
  predicate LiveFor(s: State, key: Key, id: CallId) {
    && id in s.cells && !s.cells[id].value.Terminal()
    && s.cells[id].value.app == key.0 && s.cells[id].value.Lists(key.1)
  }

  ghost predicate CanStep(s: State, e: Step) {
    match e
    case PutSet(c) => IsNew(c) && c.id !in s.cells
    case PutAdd(id) => id in s.cells && id in s.puts && s.puts[id] < |s.cells[id].base.participants|
    case Invoke(k, _, _) => k !in s.ops
    case Watch(k) => k in s.ops && s.ops[k].phase.Trying? && s.ops[k].phase.attempt < MAX_RETRIES
    case Get(k, _) => k in s.ops && s.ops[k].phase.Watching?
    case Exec(k) => k in s.ops && s.ops[k].phase.Holding? && s.ops[k].id in s.cells
    case GiveUp(k) => k in s.ops && s.ops[k].phase.Trying? && s.ops[k].phase.attempt >= MAX_RETRIES
    case Publish(k) => k in s.ops && s.ops[k].phase.Committed? && s.ops[k].id in s.cells
    case Ask(q, _) => q !in s.queries
    case List(q) => q in s.queries && s.queries[q].phase.Asked?
    case Fetch(q) => q in s.queries && s.queries[q].phase.Listed?
    case Clean(q) => q in s.queries && s.queries[q].phase.Answered?
  }

  function Moved(s: State, k: nat, phase: Phase): State
    requires k in s.ops
  {
    s.(ops := s.ops[k := s.ops[k].(phase := phase)])
  }

  function DoGet(s: State, k: nat, now: Time): State
    requires k in s.ops && s.ops[k].phase.Watching?
  {
    var inv := s.ops[k];
    if inv.id !in s.cells then Moved(s, k, Missing)
    else
      match Apply(inv.op, now, s.cells[inv.id].value)
      case Refused(err) => Moved(s, k, Declined(s.cells[inv.id].version, now, err))
      case Updated(next) => Moved(s, k, Holding(inv.phase.attempt, inv.phase.seen, now, next))
  }

  function DoExec(s: State, k: nat): State
    requires k in s.ops && s.ops[k].phase.Holding? && s.ops[k].id in s.cells
  {
    var inv := s.ops[k];
    var Holding(attempt, seen, now, next) := inv.phase;
    var cell := s.cells[inv.id];
    if cell.version != seen then Moved(s, k, Trying(attempt + 1))
    else
      var cell1 := Cell(next, cell.version + 1, cell.base, cell.log + [Commit(k, inv.op, now)]);
      Moved(s, k, Committed(|cell.log|, next)).(
        cells := s.cells[inv.id := cell1],
        index := AddAll(s.index, next, |next.participants|))
  }

  function DoPublish(s: State, k: nat): State
    requires k in s.ops && s.ops[k].phase.Committed? && s.ops[k].id in s.cells
  {
    var inv := s.ops[k];
    var Committed(at, result) := inv.phase;
    var s1 := Moved(s, k, Returned(at, result));
    if PublishesEnded(inv.op, result) then
      // The timer reads the call again before it publishes; the others publish their result.
      var payload := if inv.op.RingTimeout? then s.cells[inv.id].value else result;
      s1.(ended := s.ended + [Announcement(inv.id, k, payload)])
    else s1
  }

  function DoQuery(s: State, q: nat, phase: QueryPhase): State
    requires q in s.queries
  {
    s.(queries := s.queries[q := s.queries[q].(phase := phase)])
  }

  function Live(s: State, ids: set<CallId>): set<CallId> {
    set id | id in ids && id in s.cells && !s.cells[id].value.Terminal()
  }

  /** The live calls of the user whose Put has finished. */
  function Due(s: State, key: Key): set<CallId> {
    set id | id in s.cells.Keys && LiveFor(s, key, id) && PutDone(s, id)
  }

  ghost function Next(s: State, e: Step): State {
    if !CanStep(s, e) then s
    else
      match e
      case PutSet(c) => s.(cells := s.cells[c.id := Cell(c, 1, c, [])], puts := s.puts[c.id := 0])
      case PutAdd(id) =>
        var n := s.puts[id];
        var base := s.cells[id].base;
        s.(index := AddTo(s.index, (base.app, base.participants[n].user), id), puts := s.puts[id := n + 1])
      case Invoke(k, id, op) => s.(ops := s.ops[k := Invocation(id, op, Version(s, id), Trying(0))])
      case Watch(k) => Moved(s, k, Watching(s.ops[k].phase.attempt, Version(s, s.ops[k].id)))
      case Get(k, now) => DoGet(s, k, now)
      case Exec(k) => DoExec(s, k)
      case GiveUp(k) => Moved(s, k, GaveUp)
      case Publish(k) => DoPublish(s, k)
      case Ask(q, key) => s.(queries := s.queries[q := Query(key, Asked)])
      case List(q) =>
        var key := s.queries[q].key;
        DoQuery(s, q, Listed(Members(s.index, key), Due(s, key)))
      case Fetch(q) =>
        var ids := s.queries[q].phase.ids;
        DoQuery(s, q, Answered(Live(s, ids), ids - Live(s, ids)))
      case Clean(q) =>
        var key := s.queries[q].key;
        DoQuery(s, q, Cleaned(s.queries[q].phase.active)).(
          index := s.index[key := Members(s.index, key) - s.queries[q].phase.stale])
  }

  /** The state after the given steps; a step that is not enabled changes nothing. */
  ghost function Run(s: State, es: seq<Step>): State {
    if es == [] then s else Next(Run(s, es[..|es| - 1]), es[|es| - 1])
  }

  ghost function After(es: seq<Step>): State { Run(Init, es) }

  // ---- Invariants ----

  ghost predicate CellOk(s: State, id: CallId)
    requires id in s.cells
  {
    var cell := s.cells[id];
    && cell.base.id == id && IsNew(cell.base)
    && Replay(cell.base, cell.log) == Updated(cell.value)
    && cell.version == |cell.log| + 1
  }

  /** Every commit in the log is the single commit of the invocation that made it. */
  ghost predicate CommitOk(s: State, id: CallId, j: nat)
    requires id in s.cells && j < |s.cells[id].log|
  {
    var k := s.cells[id].log[j].who;
    && k in s.ops && s.ops[k].id == id
    && (s.ops[k].phase.Committed? || s.ops[k].phase.Returned?) && s.ops[k].phase.at == j
  }

  ghost predicate Succeeded(s: State, k: nat, at: nat, result: Call)
    requires k in s.ops
  {
    var inv := s.ops[k];
    && inv.id in s.cells
    && var cell := s.cells[inv.id];
    && inv.start <= at + 1
    && at < |cell.log| && cell.log[at].who == k && cell.log[at].op == inv.op
    && Replay(cell.base, cell.log[..at + 1]) == Updated(result)
  }

  ghost predicate OpOk(s: State, k: nat)
    requires k in s.ops
  {
    var inv := s.ops[k];
    var v := Version(s, inv.id);
    && inv.start <= v
    && match inv.phase
       case Trying(n) => n <= MAX_RETRIES && inv.start + n <= v
       case Watching(n, seen) => n < MAX_RETRIES && inv.start + n <= seen <= v
       case Holding(n, seen, now, next) =>
         && n < MAX_RETRIES && inv.start + n <= seen <= v && inv.id in s.cells
         && (seen == v ==> Apply(inv.op, now, s.cells[inv.id].value) == Updated(next))
       case Committed(at, result) => Succeeded(s, k, at, result)
       case Returned(at, result) => Succeeded(s, k, at, result)
       case Declined(at, now, error) =>
         && inv.id in s.cells && 1 <= at <= v && inv.start <= at
         && var cell := s.cells[inv.id];
         && at - 1 <= |cell.log| && Replay(cell.base, cell.log[..at - 1]).Updated?
         && Apply(inv.op, now, Replay(cell.base, cell.log[..at - 1]).call) == Refused(error)
       case Missing => inv.start == 0
       case GaveUp => inv.start + MAX_RETRIES <= v
  }

  ghost predicate StoreInv(s: State) {
    && (forall id :: id in s.cells ==> CellOk(s, id))
    && (forall id, j :: id in s.cells && 0 <= j < |s.cells[id].log| ==> CommitOk(s, id, j))
    && (forall k :: k in s.ops ==> OpOk(s, k))
  }

  /** What a step that leaves a cell alone, or only appends to its log, keeps of an invocation. */
  lemma OpOkKept(s: State, s1: State, k: nat)
    requires k in s.ops && OpOk(s, k) && k in s1.ops && s1.ops[k] == s.ops[k]
    requires var id := s.ops[k].id;
      && (id in s.cells ==> CellOk(s, id))
      && Version(s, id) <= Version(s1, id)
      && (id in s.cells ==>
            && id in s1.cells && s1.cells[id].base == s.cells[id].base
            && s.cells[id].log <= s1.cells[id].log
            && (Version(s, id) == Version(s1, id) ==> s1.cells[id].value == s.cells[id].value))
    ensures OpOk(s1, k)
  {
    hide Apply; hide Replay;
    var id := s.ops[k].id;
    if id in s.cells {
      var log, log1 := s.cells[id].log, s1.cells[id].log;
      assert forall n :: 0 <= n <= |log| ==> log1[..n] == log[..n];
    }
  }

  lemma StoreInvPutSet(s: State, c: Call)
    requires StoreInv(s) && CanStep(s, PutSet(c))
    ensures StoreInv(Next(s, PutSet(c)))
  {
    hide Apply;
    var s1 := Next(s, PutSet(c));
    forall k | k in s1.ops ensures OpOk(s1, k) { OpOkKept(s, s1, k); }
    forall id | id in s1.cells ensures CellOk(s1, id) {
      if id != c.id { assert CellOk(s, id); }
    }
    forall id, j | id in s1.cells && 0 <= j < |s1.cells[id].log| ensures CommitOk(s1, id, j) {
      assert CommitOk(s, id, j);
    }
  }

  /** A step that writes no cell and changes at most invocation `k`, in a way that is OK. */
  lemma StoreInvMoved(s: State, s1: State, k: int)
    requires StoreInv(s) && s1.cells == s.cells
    requires forall k' :: k' in s1.ops && k' != k ==> k' in s.ops && s1.ops[k'] == s.ops[k']
    requires forall k' :: k' in s.ops ==> k' in s1.ops
    requires k in s1.ops ==> OpOk(s1, k)
    requires k in s.ops ==>
      && s1.ops[k].id == s.ops[k].id
      && (s.ops[k].phase.Committed? || s.ops[k].phase.Returned? ==>
            (s1.ops[k].phase.Committed? || s1.ops[k].phase.Returned?) && s1.ops[k].phase.at == s.ops[k].phase.at)
    ensures StoreInv(s1)
  {
    hide Apply; hide Replay;
    forall k' | k' in s1.ops ensures OpOk(s1, k') {
      if k' != k { OpOkKept(s, s1, k'); }
    }
    forall id | id in s1.cells ensures CellOk(s1, id) { assert CellOk(s, id); }
    forall id, j | id in s1.cells && 0 <= j < |s1.cells[id].log| ensures CommitOk(s1, id, j) {
      assert CommitOk(s, id, j);
    }
  }

  lemma GetOpOk(s: State, k: nat, now: Time)
    requires k in s.ops && s.ops[k].phase.Watching? && OpOk(s, k)
    requires s.ops[k].id in s.cells ==> CellOk(s, s.ops[k].id)
    ensures OpOk(DoGet(s, k, now), k)
  {
    hide Apply; hide Replay;
    var id := s.ops[k].id;
    if id in s.cells {
      assert s.cells[id].log[..|s.cells[id].log|] == s.cells[id].log;
    }
  }

  lemma StoreInvGet(s: State, k: nat, now: Time)
    requires StoreInv(s) && k in s.ops && s.ops[k].phase.Watching?
    ensures StoreInv(DoGet(s, k, now))
  {
    hide Apply; hide Replay; hide OpOk; hide CommitOk; hide CellOk;
    GetOpOk(s, k, now);
    StoreInvMoved(s, DoGet(s, k, now), k);
  }

  lemma ReplayMore(base: Call, log: seq<Commit>, c: Commit, a: Call, b: Call)
    requires Replay(base, log) == Updated(a) && Apply(c.op, c.now, a) == Updated(b)
    ensures Replay(base, log + [c]) == Updated(b)
  {
    hide Apply;
    assert (log + [c])[..|log|] == log;
  }

  lemma ExecCommits(s: State, k: nat)
    requires k in s.ops && s.ops[k].phase.Holding? && s.ops[k].id in s.cells
    requires OpOk(s, k) && CellOk(s, s.ops[k].id)
    ensures OpOk(DoExec(s, k), k) && CellOk(DoExec(s, k), s.ops[k].id)
  {
    hide Apply; hide AddAll; hide Replay; hide IsNew;
    var inv, cell := s.ops[k], s.cells[s.ops[k].id];
    if cell.version == inv.phase.seen {
      var c := Commit(k, inv.op, inv.phase.now);
      ReplayMore(cell.base, cell.log, c, cell.value, inv.phase.next);
      var log1 := cell.log + [c];
      assert log1[..|log1|] == log1;
    }
  }

  lemma StoreInvExec(s: State, k: nat)
    requires StoreInv(s) && k in s.ops && s.ops[k].phase.Holding? && s.ops[k].id in s.cells
    ensures StoreInv(DoExec(s, k))
  {
    hide Apply; hide AddAll; hide Replay; hide OpOk; hide CommitOk;
    var s1 := DoExec(s, k);
    var id := s.ops[k].id;
    ExecCommits(s, k);
    if s.cells[id].version != s.ops[k].phase.seen {
      StoreInvMoved(s, s1, k);
    } else {
      forall k' | k' in s1.ops ensures OpOk(s1, k') {
        if k' != k { OpOkKept(s, s1, k'); }
      }
      forall id' | id' in s1.cells ensures CellOk(s1, id') {
        if id' != id { assert CellOk(s, id'); }
      }
      forall id', j | id' in s1.cells && 0 <= j < |s1.cells[id'].log| ensures CommitOk(s1, id', j) {
        ExecCommitOk(s, k, id', j);
      }
    }
  }

  lemma ExecCommitOk(s: State, k: nat, id: CallId, j: nat)
    requires k in s.ops && s.ops[k].phase.Holding? && s.ops[k].id in s.cells && id in s.cells
    requires s.cells[s.ops[k].id].version == s.ops[k].phase.seen
    requires j < |DoExec(s, k).cells[id].log|
    requires j < |s.cells[id].log| ==> CommitOk(s, id, j)
    ensures CommitOk(DoExec(s, k), id, j)
  {
    hide AddAll;
  }

  /** The remaining steps on invocations. */
  lemma MoveOpOk(s: State, k: nat, phase: Phase)
    requires k in s.ops && OpOk(s, k)
    requires || (s.ops[k].phase.Trying? && s.ops[k].phase.attempt < MAX_RETRIES
                 && phase == Watching(s.ops[k].phase.attempt, Version(s, s.ops[k].id)))
             || (s.ops[k].phase.Trying? && s.ops[k].phase.attempt >= MAX_RETRIES && phase == GaveUp)
             || (s.ops[k].phase.Committed? && phase == Returned(s.ops[k].phase.at, s.ops[k].phase.result))
    ensures OpOk(Moved(s, k, phase), k)
  {
    hide Apply; hide Replay;
  }

  lemma StoreInvStep(s: State, e: Step)
    requires StoreInv(s)
    ensures StoreInv(Next(s, e))
  {
    hide Apply; hide Replay; hide OpOk; hide CommitOk; hide CellOk; hide Due; hide Live; hide AddAll;
    if CanStep(s, e) {
      var s1 := Next(s, e);
      match e
      case PutSet(c) => StoreInvPutSet(s, c);
      case Get(k, now) => StoreInvGet(s, k, now);
      case Exec(k) => StoreInvExec(s, k);
      case Invoke(k, id, op) => InvokeOpOk(s, k, id, op); StoreInvMoved(s, s1, k);
      case Watch(k) => MoveOpOk(s, k, s1.ops[k].phase); StoreInvMoved(s, s1, k);
      case GiveUp(k) => MoveOpOk(s, k, GaveUp); StoreInvMoved(s, s1, k);
      case Publish(k) => PublishOpOk(s, k); StoreInvMoved(s, s1, k);
      case _ => StoreInvMoved(s, s1, -1);
    }
  }

  lemma InvokeOpOk(s: State, k: nat, id: CallId, op: Op)
    requires k !in s.ops
    ensures OpOk(s.(ops := s.ops[k := Invocation(id, op, Version(s, id), Trying(0))]), k)
  {
  }

  lemma PublishOpOk(s: State, k: nat)
    requires k in s.ops && s.ops[k].phase.Committed? && s.ops[k].id in s.cells && OpOk(s, k)
    ensures OpOk(DoPublish(s, k), k)
  {
    hide Apply; hide Replay;
  }

  lemma {:induction false} StoreInvRun(s: State, es: seq<Step>)
    requires StoreInv(s)
    ensures StoreInv(Run(s, es))
  {
    hide StoreInv; hide Next;
    if es != [] {
      StoreInvRun(s, es[..|es| - 1]);
      StoreInvStep(Run(s, es[..|es| - 1]), es[|es| - 1]);
    }
  }

  // ---- Linearizability ----

  /**
   Every stored call is the replay, in commit order, of exactly the committed closures over the
   value Put stored; the replay is a run of the call in the sense of `CallRuns`.
   */
  lemma StoredCallIsReplay(es: seq<Step>, id: CallId)
    requires id in After(es).cells
    ensures var cell := After(es).cells[id];
      && IsRun(cell.base, cell.log) && cell.base.id == id
      && Replay(cell.base, cell.log) == Updated(cell.value)
  {
    hide Apply; hide Replay; hide Run;
    StoreInvRun(Init, es);
    assert CellOk(After(es), id);
  }

  ghost predicate HasSucceeded(s: State, k: nat) {
    k in s.ops && (s.ops[k].phase.Committed? || s.ops[k].phase.Returned?)
  }

  /**
   An Update that succeeded committed exactly once, after it was invoked, and returns the value
   that this commit produced; any other Update left no trace in any log.
   */
  lemma UpdateCommitsOnce(es: seq<Step>, k: nat)
    requires k in After(es).ops
    ensures var s := After(es); var inv := s.ops[k];
      && (forall id, j :: id in s.cells && 0 <= j < |s.cells[id].log| && s.cells[id].log[j].who == k ==>
            HasSucceeded(s, k) && id == inv.id && j == inv.phase.at)
      && (HasSucceeded(s, k) ==>
            && inv.id in s.cells
            && var cell := s.cells[inv.id];
            && inv.start - 1 <= inv.phase.at < |cell.log|
            && cell.log[inv.phase.at].who == k && cell.log[inv.phase.at].op == inv.op
            && Replay(cell.base, cell.log[..inv.phase.at + 1]) == Updated(inv.phase.result))
  {
    hide Apply; hide Replay; hide Run;
    StoreInvRun(Init, es);
    var s := After(es);
    assert OpOk(s, k);
    forall id, j | id in s.cells && 0 <= j < |s.cells[id].log| && s.cells[id].log[j].who == k
      ensures HasSucceeded(s, k) && id == s.ops[k].id && j == s.ops[k].phase.at
    {
      assert CommitOk(s, id, j);
    }
  }

  /** An Update refused by its closure was refused by a value the call had during its run. */
  lemma DeclinedBySomeValue(es: seq<Step>, k: nat)
    requires k in After(es).ops && After(es).ops[k].phase.Declined?
    ensures var inv := After(es).ops[k];
      && inv.id in After(es).cells
      && var cell := After(es).cells[inv.id];
      && exists n :: && inv.start - 1 <= n <= |cell.log| && n >= 0
                     && Replay(cell.base, cell.log[..n]).Updated?
                     && Apply(inv.op, inv.phase.now, Replay(cell.base, cell.log[..n]).call)
                          == Refused(inv.phase.error)
  {
    hide Apply; hide Replay; hide Run;
    StoreInvRun(Init, es);
    assert OpOk(After(es), k);
    var inv := After(es).ops[k];
    var cell := After(es).cells[inv.id];
    var n := inv.phase.at - 1;
    assert CellOk(After(es), inv.id);
    assert Replay(cell.base, cell.log[..n]).Updated?;
  }

  /** How a later state relates to an earlier one. */
  ghost predicate Later(s: State, t: State) {
    && (forall id :: id in s.cells ==>
          id in t.cells && t.cells[id].base == s.cells[id].base && s.cells[id].log <= t.cells[id].log)
    && (forall id :: id in t.cells ==> Version(s, id) <= Version(t, id))
    && (forall k :: k in s.ops ==> k in t.ops && t.ops[k].id == s.ops[k].id && t.ops[k].op == s.ops[k].op
                                   && t.ops[k].start == s.ops[k].start)
    && (forall k :: k in t.ops && k !in s.ops ==> Version(s, t.ops[k].id) <= t.ops[k].start)
  }

  /** A step that writes no cell, publishes nothing and moves no returned invocation. */
  ghost predicate Quiet(s: State, t: State) {
    && t.cells == s.cells && t.ended == s.ended
    && (forall k :: k in s.ops ==>
          && k in t.ops && t.ops[k].id == s.ops[k].id && t.ops[k].op == s.ops[k].op
          && t.ops[k].start == s.ops[k].start
          && (s.ops[k].phase.Returned? ==> t.ops[k] == s.ops[k]))
    && (forall k :: k in t.ops && k !in s.ops ==> t.ops[k].start == Version(s, t.ops[k].id))
    && (forall k :: k in t.ops && t.ops[k].phase.Returned? ==> k in s.ops && t.ops[k] == s.ops[k])
  }

  lemma QuietMoved(s: State, k: nat, phase: Phase)
    requires k in s.ops && !s.ops[k].phase.Returned? && !phase.Returned?
    ensures Quiet(s, Moved(s, k, phase))
  {
  }

  lemma QuietSame(s: State, t: State)
    requires t.cells == s.cells && t.ended == s.ended && t.ops == s.ops
    ensures Quiet(s, t)
  {
  }

  lemma QuietStep(s: State, e: Step)
    requires CanStep(s, e) && !e.PutSet? && !e.Exec? && !e.Publish?
    ensures Quiet(s, Next(s, e))
  {
    hide Apply; hide AddAll; hide Due; hide Live; hide PublishesEnded; hide Quiet; hide IsNew;
    match e
    case Invoke(k, id, op) => QuietInvoke(s, k, id, op);
    case Watch(k) => QuietMoved(s, k, Watching(s.ops[k].phase.attempt, Version(s, s.ops[k].id)));
    case Get(k, now) => QuietMoved(s, k, DoGet(s, k, now).ops[k].phase);
    case GiveUp(k) => QuietMoved(s, k, GaveUp);
    case _ => QuietSame(s, Next(s, e));
  }

  lemma QuietInvoke(s: State, k: nat, id: CallId, op: Op)
    requires k !in s.ops
    ensures Quiet(s, s.(ops := s.ops[k := Invocation(id, op, Version(s, id), Trying(0))]))
  {
  }

  lemma LaterQuiet(s: State, t: State)
    requires Quiet(s, t)
    ensures Later(s, t)
  {
  }

  lemma LaterExec(s: State, k: nat)
    requires k in s.ops && s.ops[k].phase.Holding? && s.ops[k].id in s.cells
    ensures Later(s, DoExec(s, k))
  {
    hide Apply; hide AddAll;
  }

  lemma LaterPublish(s: State, k: nat)
    requires k in s.ops && s.ops[k].phase.Committed? && s.ops[k].id in s.cells
    ensures Later(s, DoPublish(s, k))
  {
    hide Apply; hide PublishesEnded;
  }

  lemma LaterStep(s: State, e: Step)
    ensures Later(s, Next(s, e))
  {
    hide Apply; hide AddAll; hide Due; hide Live; hide PublishesEnded; hide Later; hide Quiet; hide IsNew;
    if !CanStep(s, e) {
      LaterRefl(s);
    } else {
      match e
      case PutSet(c) => LaterPutSet(s, c);
      case Exec(k) => LaterExec(s, k);
      case Publish(k) => LaterPublish(s, k);
      case _ => QuietStep(s, e); LaterQuiet(s, Next(s, e));
    }
  }

  lemma LaterPutSet(s: State, c: Call)
    requires CanStep(s, PutSet(c))
    ensures Later(s, Next(s, PutSet(c)))
  {
    hide IsNew;
  }

  lemma LaterTransitive(a: State, b: State, c: State)
    requires Later(a, b) && Later(b, c)
    ensures Later(a, c)
  {
    forall k | k in c.ops && k !in a.ops ensures Version(a, c.ops[k].id) <= c.ops[k].start {
      if k in b.ops {
        assert Version(a, b.ops[k].id) <= b.ops[k].start;
      } else {
        var id := c.ops[k].id;
        assert Version(b, id) <= c.ops[k].start;
        if id in a.cells { assert id in b.cells; }
      }
    }
    forall id | id in c.cells ensures Version(a, id) <= Version(c, id) {
      if id in a.cells { assert id in b.cells; }
    }
  }

  lemma {:induction false} LaterRun(s: State, es: seq<Step>)
    ensures Later(s, Run(s, es))
  {
    hide Later; hide Next;
    if es == [] {
      LaterRefl(s);
    } else {
      LaterRun(s, es[..|es| - 1]);
      LaterStep(Run(s, es[..|es| - 1]), es[|es| - 1]);
      LaterTransitive(s, Run(s, es[..|es| - 1]), Run(s, es));
    }
  }

  lemma LaterRefl(s: State)
    ensures Later(s, s)
  {
  }

  /** An Update that succeeded before another was invoked comes before it in the commit order. */
  lemma RealTimeOrder(es: seq<Step>, fs: seq<Step>, k1: nat, k2: nat)
    requires HasSucceeded(After(es), k1) && k2 !in After(es).ops
    requires HasSucceeded(Run(After(es), fs), k2)
    requires Run(After(es), fs).ops[k2].id == After(es).ops[k1].id
    ensures var t := Run(After(es), fs);
      HasSucceeded(t, k1) && t.ops[k1].phase.at < t.ops[k2].phase.at
  {
    hide Run; hide StoreInv;
    var s := After(es);
    var t := Run(s, fs);
    InitOk();
    StoreInvRun(Init, es);
    StoreInvRun(s, fs);
    LaterRun(s, fs);
    SuccessAt(s, k1);
    SuccessAt(t, k2);
    var id, at := s.ops[k1].id, s.ops[k1].phase.at;
    assert s.cells[id].log <= t.cells[id].log;
    assert t.cells[id].log[at] == s.cells[id].log[at];
    CommitterOf(t, id, at);
  }

  lemma SuccessAt(s: State, k: nat)
    requires StoreInv(s) && HasSucceeded(s, k)
    ensures var inv := s.ops[k];
      && inv.id in s.cells && inv.start <= inv.phase.at + 1 && inv.phase.at < |s.cells[inv.id].log|
      && s.cells[inv.id].log[inv.phase.at].who == k && Version(s, inv.id) == |s.cells[inv.id].log| + 1
  {
    hide Apply; hide Replay;
    assert OpOk(s, k);
    assert CellOk(s, s.ops[k].id);
  }

  lemma CommitterOf(s: State, id: CallId, j: nat)
    requires StoreInv(s) && id in s.cells && j < |s.cells[id].log|
    ensures var k := s.cells[id].log[j].who; HasSucceeded(s, k) && s.ops[k].id == id && s.ops[k].phase.at == j
  {
    hide Apply; hide Replay;
    assert CommitOk(s, id, j);
  }

  /**
   Between any two moments of any concurrent run, a stored call has only advanced: progress never
   goes back, and the outcome of a finished call is frozen whatever races with it.
   */
  lemma StoredCallAdvances(es: seq<Step>, fs: seq<Step>, id: CallId)
    requires id in After(es).cells
    ensures id in Run(After(es), fs).cells
    ensures Advances(After(es).cells[id].value, Run(After(es), fs).cells[id].value)
    ensures ClockInv(After(es).cells[id].value) && RosterInv(After(es).cells[id].value)
  {
    hide Apply; hide Replay; hide Run; hide Advances; hide ClockInv; hide RosterInv;
    InitOk();
    StoreInvRun(Init, es);
    var s := After(es);
    StoreInvRun(s, fs);
    var t := Run(s, fs);
    LaterRun(s, fs);
    assert CellOk(s, id) && CellOk(t, id);
    var log := t.cells[id].log;
    assert log[..|s.cells[id].log|] == s.cells[id].log && log[..|log|] == log;
    RunAdvances(t.cells[id].base, log, |s.cells[id].log|, |log|);
    RunInvariant(s.cells[id].base, s.cells[id].log);
  }

  /**
   An Update gives up only after at least 20 writes of that call by others during its run: all of
   them commits when the call existed at its start, and all but the creating write otherwise.
   */
  lemma GiveUpMeansProgress(es: seq<Step>, k: nat)
    requires k in After(es).ops && After(es).ops[k].phase.GaveUp?
    ensures var s := After(es); var inv := s.ops[k];
      && inv.id in s.cells
      && var log := s.cells[inv.id].log;
      && (inv.start >= 1 ==> |log| - (inv.start - 1) >= 20)
      && (inv.start == 0 ==> |log| >= 19)
      && (forall j :: 0 <= j < |log| ==> log[j].who != k)
  {
    hide Apply; hide Replay; hide Run;
    StoreInvRun(Init, es);
    var s := After(es);
    assert OpOk(s, k);
    assert CellOk(s, s.ops[k].id);
    forall j | 0 <= j < |s.cells[s.ops[k].id].log| ensures s.cells[s.ops[k].id].log[j].who != k {
      assert CommitOk(s, s.ops[k].id, j);
    }
  }

  /** An EXEC of invocation `k` that fails because the call was written since its WATCH. */
  ghost predicate LosesExec(s: State, e: Step, k: nat) {
    && e == Exec(k) && k in s.ops && s.ops[k].phase.Holding? && s.ops[k].id in s.cells
    && s.cells[s.ops[k].id].version != s.ops[k].phase.seen
  }

  /** How many EXECs invocation `k` has lost. */
  ghost function LostExecs(es: seq<Step>, k: nat): nat {
    if es == [] then 0
    else
      var front := es[..|es| - 1];
      LostExecs(front, k) + (if LosesExec(After(front), es[|es| - 1], k) then 1 else 0)
  }

  /** The attempts an invocation counts are the EXECs it has lost: it has lost 20 when it gives up, and never more. */
  ghost predicate Counted(s: State, k: nat, lost: nat) {
    if k !in s.ops then lost == 0
    else
      match s.ops[k].phase
      case Trying(n) => lost == n <= 20
      case Watching(n, _) => lost == n < 20
      case Holding(n, _, _, _) => lost == n < 20
      case GaveUp => lost == 20
      case _ => lost < 20
  }

  lemma CountedStep(s: State, e: Step, k: nat, lost: nat)
    requires Counted(s, k, lost)
    ensures Counted(Next(s, e), k, lost + if LosesExec(s, e, k) then 1 else 0)
  {
    hide Apply; hide AddAll; hide Due; hide Live; hide PublishesEnded; hide IsNew;
  }

  lemma {:induction false} AttemptsCounted(es: seq<Step>, k: nat)
    ensures Counted(After(es), k, LostExecs(es, k))
  {
    hide Next; hide Counted; hide LosesExec;
    if es == [] {
      CountedInit(k);
    } else {
      var front := es[..|es| - 1];
      AttemptsCounted(front, k);
      CountedStep(After(front), es[|es| - 1], k, LostExecs(front, k));
    }
  }

  lemma CountedInit(k: nat)
    ensures Counted(Init, k, 0)
  {
  }

  /**
   An Update gives up exactly when it has lost 20 EXECs.  With fewer it goes on: at the head of its
   loop it can WATCH and cannot give up, and once it holds the key watched or a new value it can GET
   or EXEC; with 20 it can only give up.
   */
  lemma TwentyAttempts(es: seq<Step>, k: nat, now: Time)
    requires k in After(es).ops
    ensures var s := After(es); var lost := LostExecs(es, k);
      && (s.ops[k].phase.GaveUp? ==> lost == 20)
      && (s.ops[k].phase.Trying? ==>
            && (CanStep(s, Watch(k)) <==> lost < 20)
            && (CanStep(s, GiveUp(k)) <==> lost == 20) && lost <= 20)
      && (s.ops[k].phase.Watching? ==> lost < 20 && CanStep(s, Get(k, now)))
      && (s.ops[k].phase.Holding? ==> lost < 20 && CanStep(s, Exec(k)))
      && (s.ops[k].phase.Committed? ==> CanStep(s, Publish(k)))
  {
    hide Apply; hide Replay; hide Run; hide LostExecs;
    AttemptsCounted(es, k);
    StoreInvRun(Init, es);
    assert OpOk(After(es), k);
  }

  // ---- The per-user index ----

  ghost predicate BaseOk(s: State, id: CallId)
    requires id in s.cells
  {
    var cell := s.cells[id];
    && cell.value.id == id && cell.base.app == cell.value.app
    && (forall u :: cell.base.Lists(u) ==> cell.value.Lists(u))
    && id in s.puts && s.puts[id] <= |cell.base.participants|
  }

  /** The Put of `id` has yet to add it for user `u`. */
  ghost predicate AddPending(s: State, id: CallId, u: UserId)
    requires id in s.cells && id in s.puts
  {
    exists n :: s.puts[id] <= n < |s.cells[id].base.participants| && s.cells[id].base.participants[n].user == u
  }

  ghost predicate Listing(s: State, key: Key, id: CallId) {
    id in s.cells && s.cells[id].value.app == key.0 && s.cells[id].value.Lists(key.1)
  }

  ghost predicate Complete(s: State, id: CallId)
    requires id in s.cells && id in s.puts
  {
    forall u :: !s.cells[id].value.Terminal() && s.cells[id].value.Lists(u) ==>
      id in Members(s.index, (s.cells[id].value.app, u)) || AddPending(s, id, u)
  }

  ghost predicate QueryOk(s: State, q: nat)
    requires q in s.queries
  {
    var key := s.queries[q].key;
    match s.queries[q].phase
    case Asked => true
    case Listed(ids, due) => due <= ids && (forall id :: id in ids ==> Listing(s, key, id))
    case Answered(active, stale) => forall id :: id in stale ==> id in s.cells && s.cells[id].value.Terminal()
    case Cleaned(_) => true
  }

  ghost predicate IndexInv(s: State) {
    && (forall id :: id in s.cells ==> BaseOk(s, id) && Complete(s, id))
    && (forall key, id :: id in Members(s.index, key) ==> Listing(s, key, id))
    && (forall q :: q in s.queries ==> QueryOk(s, q))
  }

  lemma QueriesKept(s: State, t: State)
    requires forall q :: q in s.queries ==> QueryOk(s, q)
    requires t.queries == s.queries
    requires forall id :: id in s.cells ==>
      && id in t.cells && t.cells[id].value.app == s.cells[id].value.app
      && (s.cells[id].value.Terminal() ==> t.cells[id].value.Terminal())
      && (forall u :: s.cells[id].value.Lists(u) ==> t.cells[id].value.Lists(u))
    ensures forall q :: q in t.queries ==> QueryOk(t, q)
  {
    forall q | q in t.queries ensures QueryOk(t, q) { assert QueryOk(s, q); }
  }

  lemma IndexPutSet(s: State, c: Call)
    requires IndexInv(s) && CanStep(s, PutSet(c))
    ensures IndexInv(Next(s, PutSet(c)))
  {
    hide IsNew;
    var t := Next(s, PutSet(c));
    QueriesKept(s, t);
    forall id | id in t.cells ensures BaseOk(t, id) && Complete(t, id) {
      if id != c.id {
        assert BaseOk(s, id) && Complete(s, id);
        forall u | AddPending(s, id, u) ensures AddPending(t, id, u) {}
      } else {
        forall u | c.Lists(u) ensures AddPending(t, id, u) {}
      }
    }
    forall key, id | id in Members(t.index, key) ensures Listing(t, key, id) { assert Listing(s, key, id); }
  }

  lemma IndexPutAdd(s: State, id: CallId)
    requires IndexInv(s) && CanStep(s, PutAdd(id))
    ensures IndexInv(Next(s, PutAdd(id)))
  {
    var t := Next(s, PutAdd(id));
    var base := s.cells[id].base;
    var n := s.puts[id];
    assert BaseOk(s, id);
    assert base.Lists(base.participants[n].user);
    QueriesKept(s, t);
    forall id' | id' in t.cells ensures BaseOk(t, id') && Complete(t, id') {
      assert BaseOk(s, id') && Complete(s, id');
      forall u | !t.cells[id'].value.Terminal() && t.cells[id'].value.Lists(u)
        ensures id' in Members(t.index, (t.cells[id'].value.app, u)) || AddPending(t, id', u)
      {
        if AddPending(s, id', u) {
          var m :| s.puts[id'] <= m < |s.cells[id'].base.participants| && s.cells[id'].base.participants[m].user == u;
          assert (id' == id && m == n) || t.puts[id'] <= m;
        }
      }
    }
    forall key, id' | id' in Members(t.index, key) ensures Listing(t, key, id') {
      if id' in Members(s.index, key) { assert Listing(s, key, id'); }
    }
  }

  lemma IndexExec(s: State, k: nat)
    requires IndexInv(s) && k in s.ops && s.ops[k].phase.Holding? && s.ops[k].id in s.cells && OpOk(s, k)
    ensures IndexInv(DoExec(s, k))
  {
    hide Apply; hide AddAll; hide Replay;
    var t := DoExec(s, k);
    var inv := s.ops[k];
    var id := inv.id;
    if s.cells[id].version == inv.phase.seen {
      var next := inv.phase.next;
      assert BaseOk(s, id);
      ApplyKeepsIdentity(inv.op, inv.phase.now, s.cells[id].value, next);
      QueriesKept(s, t);
      forall id' | id' in t.cells ensures BaseOk(t, id') && Complete(t, id') {
        assert BaseOk(s, id') && Complete(s, id');
        forall u | !t.cells[id'].value.Terminal() && t.cells[id'].value.Lists(u)
          ensures id' in Members(t.index, (t.cells[id'].value.app, u)) || AddPending(t, id', u)
        {
          AddAllMembers(s.index, next, |next.participants|, (t.cells[id'].value.app, u), id');
          if id' != id && AddPending(s, id', u) { assert AddPending(t, id', u); }
        }
      }
      forall key, id' | id' in Members(t.index, key) ensures Listing(t, key, id') {
        AddAllMembers(s.index, next, |next.participants|, key, id');
        if id' in Members(s.index, key) { assert Listing(s, key, id'); }
      }
    } else {
      IndexFrame(s, t);
    }
  }

  /** A step that touches neither cells, puts nor index and keeps the queries OK. */
  lemma IndexFrame(s: State, t: State)
    requires IndexInv(s) && t.cells == s.cells && t.puts == s.puts && t.index == s.index
    requires forall q :: q in t.queries ==> (q in s.queries && t.queries[q] == s.queries[q]) || QueryOk(t, q)
    ensures IndexInv(t)
  {
    forall id | id in t.cells ensures BaseOk(t, id) && Complete(t, id) {
      assert BaseOk(s, id) && Complete(s, id);
      forall u | AddPending(s, id, u) ensures AddPending(t, id, u) {}
    }
    forall key, id | id in Members(t.index, key) ensures Listing(t, key, id) { assert Listing(s, key, id); }
    forall q | q in t.queries ensures QueryOk(t, q) {
      if q in s.queries && t.queries[q] == s.queries[q] { assert QueryOk(s, q); }
    }
  }

  /** SMEMBERS sees every live call of the user whose Put has finished. */
  lemma ListedAllDue(s: State, key: Key)
    requires IndexInv(s)
    ensures Due(s, key) <= Members(s.index, key)
  {
    forall id | id in Due(s, key) ensures id in Members(s.index, key) {
      assert BaseOk(s, id) && Complete(s, id);
      assert !AddPending(s, id, key.1);
      assert key == (key.0, key.1);
    }
  }

  lemma IndexList(s: State, q: nat)
    requires IndexInv(s) && CanStep(s, List(q))
    ensures IndexInv(Next(s, List(q)))
  {
    var t := Next(s, List(q));
    var key := s.queries[q].key;
    ListedAllDue(s, key);
    forall id | id in Members(s.index, key) ensures Listing(t, key, id) { assert Listing(s, key, id); }
    IndexFrame(s, t);
  }

  lemma IndexFetch(s: State, q: nat)
    requires IndexInv(s) && CanStep(s, Fetch(q))
    ensures IndexInv(Next(s, Fetch(q)))
  {
    assert QueryOk(s, q);
    IndexFrame(s, Next(s, Fetch(q)));
  }

  lemma IndexClean(s: State, q: nat)
    requires IndexInv(s) && CanStep(s, Clean(q))
    ensures IndexInv(Next(s, Clean(q)))
  {
    var t := Next(s, Clean(q));
    assert QueryOk(s, q);
    forall id | id in t.cells ensures BaseOk(t, id) && Complete(t, id) {
      assert BaseOk(s, id) && Complete(s, id);
      forall u | AddPending(s, id, u) ensures AddPending(t, id, u) {}
    }
    forall key, id | id in Members(t.index, key) ensures Listing(t, key, id) { assert Listing(s, key, id); }
    forall q' | q' in t.queries ensures QueryOk(t, q') { assert QueryOk(s, q'); }
  }

  lemma IndexStep(s: State, e: Step)
    requires IndexInv(s) && StoreInv(s)
    ensures IndexInv(Next(s, e))
  {
    hide Apply; hide Replay; hide IndexInv; hide OpOk; hide CommitOk; hide CellOk; hide Due; hide Live; hide AddAll;
    if CanStep(s, e) {
      match e
      case PutSet(c) => IndexPutSet(s, c);
      case PutAdd(id) => IndexPutAdd(s, id);
      case Exec(k) => IndexExec(s, k);
      case List(q) => IndexList(s, q);
      case Fetch(q) => IndexFetch(s, q);
      case Clean(q) => IndexClean(s, q);
      case _ => IndexFrame(s, Next(s, e));
    }
  }

  lemma {:induction false} IndexInvRun(es: seq<Step>)
    ensures StoreInv(After(es)) && IndexInv(After(es))
  {
    hide StoreInv; hide IndexInv; hide Next;
    InitOk();
    StoreInvRun(Init, es);
    if es == [] {
    } else {
      IndexInvRun(es[..|es| - 1]);
      IndexStep(After(es[..|es| - 1]), es[|es| - 1]);
    }
  }

  lemma InitOk()
    ensures StoreInv(Init) && IndexInv(Init)
  {
  }

  /**
   Lazy cleanup never loses a live call: whatever SREMs are outstanding, the index of each user a
   live call lists holds that call once its Put has finished, and holds nothing foreign.
   */
  lemma LiveCallsStayIndexed(es: seq<Step>, key: Key, id: CallId)
    ensures var s := After(es);
      && (LiveFor(s, key, id) && PutDone(s, id) ==> id in Members(s.index, key))
      && (id in Members(s.index, key) ==>
            id in s.cells && s.cells[id].value.app == key.0 && s.cells[id].value.Lists(key.1))
  {
    hide Run; hide StoreInv;
    IndexInvRun(es);
    var s := After(es);
    ListedAllDue(s, key);
    if id in Members(s.index, key) { assert Listing(s, key, id); }
  }

  /**
   The answer of a query: only live calls of the user, and every one of them that was live and
   fully written when the query listed the index; what it will remove later is finished for good.
   */
  lemma QueryAnswer(es: seq<Step>, q: nat)
    requires CanStep(After(es), Fetch(q))
    ensures var s := After(es); var key := s.queries[q].key;
      var Answered(active, stale) := Next(s, Fetch(q)).queries[q].phase;
      && (forall id :: id in active ==> LiveFor(s, key, id))
      && (forall id :: id in s.queries[q].phase.due && LiveFor(s, key, id) ==> id in active)
      && (forall id :: id in stale ==> id in s.cells && s.cells[id].value.Terminal())
  {
    hide Run; hide StoreInv;
    IndexInvRun(es);
    assert QueryOk(After(es), q);
  }

  /** The late SREM takes exactly the finished calls the query found out of that user's index. */
  lemma CleanForgets(es: seq<Step>, q: nat, key: Key)
    requires CanStep(After(es), Clean(q))
    ensures var s := After(es); var t := Next(s, Clean(q));
      && Members(t.index, key) ==
           (if key == s.queries[q].key then Members(s.index, key) - s.queries[q].phase.stale else Members(s.index, key))
      && (forall id :: id in s.queries[q].phase.stale ==> id in s.cells && s.cells[id].value.Terminal())
  {
    hide Run; hide StoreInv;
    IndexInvRun(es);
    assert QueryOk(After(es), q);
  }

  /** The loop of a query over the fetched values, in the order of the listed ids. */
  method Sift(s: State, ids: seq<CallId>) returns (active: seq<CallId>, toRemove: seq<CallId>)
    ensures (set id | id in active) == Live(s, set id | id in ids)
    ensures (set id | id in toRemove) == (set id | id in ids) - Live(s, set id | id in ids)
  {
    active, toRemove := [], [];
    for n := 0 to |ids|
      invariant forall id :: id in active <==> id in ids[..n] && id in s.cells && !s.cells[id].value.Terminal()
      invariant forall id :: id in toRemove <==> id in ids[..n] && !(id in s.cells && !s.cells[id].value.Terminal())
    {
      assert ids[..n + 1] == ids[..n] + [ids[n]];
      if ids[n] !in s.cells || s.cells[ids[n]].value.Terminal() {
        toRemove := toRemove + [ids[n]];
      } else {
        active := active + [ids[n]];
      }
    }
    assert ids[..|ids|] == ids;
  }

  // ---- call.ended ----

  /** The outcome of a finished call, as it is announced. */
  ghost predicate SameEnd(a: Call, b: Call) {
    a.id == b.id && a.state == b.state && a.reason == b.reason && a.startedAt == b.startedAt && a.endedAt == b.endedAt
  }

  ghost predicate Announces(s: State, k: nat) {
    k in s.ops && s.ops[k].phase.Returned? && PublishesEnded(s.ops[k].op, s.ops[k].phase.result)
  }

  ghost predicate AnnouncementOk(s: State, i: nat)
    requires i < |s.ended|
  {
    var a := s.ended[i];
    && Announces(s, a.who) && s.ops[a.who].id == a.id && a.id in s.cells
    && EndAnnounced(a.call.state) && SameEnd(a.call, s.cells[a.id].value)
  }

  ghost predicate Announced(s: State, k: nat) {
    exists i :: 0 <= i < |s.ended| && s.ended[i].who == k
  }

  ghost predicate BusInv(s: State) {
    && (forall i :: 0 <= i < |s.ended| ==> AnnouncementOk(s, i))
    && (forall i, j :: 0 <= i < j < |s.ended| ==> s.ended[i].who != s.ended[j].who)
    && (forall k :: Announces(s, k) ==> Announced(s, k))
  }

  /** Frame: no new event, nobody returns, finished calls keep their outcome. */
  lemma BusFrame(s: State, t: State)
    requires BusInv(s) && t.ended == s.ended
    requires forall k :: k in s.ops && s.ops[k].phase.Returned? ==> k in t.ops && t.ops[k] == s.ops[k]
    requires forall k :: k in t.ops && t.ops[k].phase.Returned? ==> k in s.ops && t.ops[k] == s.ops[k]
    requires OutcomesKept(s, t)
    ensures BusInv(t)
  {
    hide PublishesEnded;
    forall i | 0 <= i < |t.ended| ensures AnnouncementOk(t, i) { assert AnnouncementOk(s, i); }
    forall k | Announces(t, k) ensures Announced(t, k) {
      assert Announces(s, k);
      assert Announced(s, k);
      var i :| 0 <= i < |s.ended| && s.ended[i].who == k;
      assert t.ended[i].who == k;
    }
  }

  ghost predicate OutcomesKept(s: State, t: State) {
    forall id :: id in s.cells ==>
      && id in t.cells
      && (s.cells[id].value.Terminal() ==> SameEnd(s.cells[id].value, t.cells[id].value))
  }

  lemma BusQuiet(s: State, t: State)
    requires BusInv(s) && Quiet(s, t)
    ensures BusInv(t)
  {
    hide BusInv;
    BusFrame(s, t);
  }

  lemma BusPutSet(s: State, c: Call)
    requires BusInv(s) && CanStep(s, PutSet(c))
    ensures BusInv(Next(s, PutSet(c)))
  {
    hide BusInv; hide IsNew;
    BusFrame(s, Next(s, PutSet(c)));
  }

  lemma ExecKeepsOutcomes(s: State, k: nat)
    requires k in s.ops && s.ops[k].phase.Holding? && s.ops[k].id in s.cells
    requires OpOk(s, k) && CellOk(s, s.ops[k].id)
    ensures OutcomesKept(s, DoExec(s, k))
  {
    hide Apply; hide Replay; hide AddAll;
    var inv := s.ops[k];
    var cell := s.cells[inv.id];
    if cell.version == inv.phase.seen {
      RunInvariant(cell.base, cell.log);
      ApplyProgresses(inv.op, inv.phase.now, cell.value, inv.phase.next);
      ApplyKeepsIdentity(inv.op, inv.phase.now, cell.value, inv.phase.next);
    }
  }

  lemma BusExec(s: State, k: nat)
    requires BusInv(s) && StoreInv(s)
    requires k in s.ops && s.ops[k].phase.Holding? && s.ops[k].id in s.cells
    ensures BusInv(DoExec(s, k))
  {
    hide Apply; hide AddAll; hide BusInv; hide OpOk; hide CellOk; hide CommitOk; hide OutcomesKept;
    ExecKeepsOutcomes(s, k);
    BusFrame(s, DoExec(s, k));
  }

  /** What a commit that publishes `call.ended` produced is still the outcome of the call. */
  lemma EndStays(s: State, k: nat)
    requires StoreInv(s) && k in s.ops && s.ops[k].phase.Committed?
    requires PublishesEnded(s.ops[k].op, s.ops[k].phase.result)
    ensures s.ops[k].id in s.cells
    ensures EndAnnounced(s.ops[k].phase.result.state)
    ensures SameEnd(s.ops[k].phase.result, s.cells[s.ops[k].id].value)
  {
    hide Apply; hide Replay; hide PublishesEnded;
    var inv := s.ops[k];
    assert OpOk(s, k);
    var cell := s.cells[inv.id];
    assert CellOk(s, inv.id);
    var at := inv.phase.at;
    ReplayStep(cell.base, cell.log, at);
    PublishesEndedIff(inv.op, cell.log[at].now, At(cell.base, cell.log, at), inv.phase.result);
    assert cell.log[..|cell.log|] == cell.log;
    RunAdvances(cell.base, cell.log, at + 1, |cell.log|);
  }

  lemma BusPublish(s: State, k: nat)
    requires BusInv(s) && StoreInv(s) && k in s.ops && s.ops[k].phase.Committed? && s.ops[k].id in s.cells
    ensures BusInv(DoPublish(s, k))
  {
    hide PublishesEnded; hide StoreInv; hide Announces; hide Announced;
    var t := DoPublish(s, k);
    if PublishesEnded(s.ops[k].op, s.ops[k].phase.result) { EndStays(s, k); }
    forall i | 0 <= i < |s.ended| ensures s.ended[i].who != k { NotYetAnnounced(s, i, k); }
    forall i | 0 <= i < |t.ended| ensures AnnouncementOk(t, i) {
      if i < |s.ended| { AnnouncementKept(s, i, k); } else { AnnouncementMade(s, k); }
    }
    forall k' | Announces(t, k') ensures Announced(t, k') { AllAnnounced(s, k, k'); }
  }

  lemma NotYetAnnounced(s: State, i: nat, k: nat)
    requires i < |s.ended| && AnnouncementOk(s, i) && k in s.ops && !s.ops[k].phase.Returned?
    ensures s.ended[i].who != k
  {
  }

  lemma AnnouncementKept(s: State, i: nat, k: nat)
    requires i < |s.ended| && AnnouncementOk(s, i)
    requires k in s.ops && s.ops[k].phase.Committed? && s.ops[k].id in s.cells
    ensures AnnouncementOk(DoPublish(s, k), i)
  {
    hide PublishesEnded;
  }

  lemma AnnouncementMade(s: State, k: nat)
    requires k in s.ops && s.ops[k].phase.Committed? && s.ops[k].id in s.cells
    requires PublishesEnded(s.ops[k].op, s.ops[k].phase.result)
    requires EndAnnounced(s.ops[k].phase.result.state)
    requires SameEnd(s.ops[k].phase.result, s.cells[s.ops[k].id].value)
    ensures AnnouncementOk(DoPublish(s, k), |s.ended|)
  {
    hide PublishesEnded;
  }

  lemma AllAnnounced(s: State, k: nat, k': nat)
    requires forall k :: Announces(s, k) ==> Announced(s, k)
    requires k in s.ops && s.ops[k].phase.Committed? && s.ops[k].id in s.cells
    requires Announces(DoPublish(s, k), k')
    ensures Announced(DoPublish(s, k), k')
  {
    hide PublishesEnded;
    var t := DoPublish(s, k);
    if k' == k {
      assert t.ended[|s.ended|].who == k;
    } else {
      assert Announces(s, k');
      var i :| 0 <= i < |s.ended| && s.ended[i].who == k';
      assert t.ended[i].who == k';
    }
  }

  lemma BusStep(s: State, e: Step)
    requires BusInv(s) && StoreInv(s)
    ensures BusInv(Next(s, e))
  {
    hide Apply; hide Replay; hide AddAll; hide Due; hide Live; hide BusInv; hide StoreInv; hide PublishesEnded;
    hide IsNew; hide Quiet;
    if CanStep(s, e) {
      match e
      case PutSet(c) => BusPutSet(s, c);
      case Exec(k) => BusExec(s, k);
      case Publish(k) => BusPublish(s, k);
      case _ => QuietStep(s, e); BusQuiet(s, Next(s, e));
    }
  }

  lemma {:induction false} BusInvRun(es: seq<Step>)
    ensures StoreInv(After(es)) && BusInv(After(es))
  {
    hide StoreInv; hide BusInv; hide Next;
    InitOk();
    StoreInvRun(Init, es);
    if es == [] {
      BusInit();
    } else {
      BusInvRun(es[..|es| - 1]);
      BusStep(After(es[..|es| - 1]), es[|es| - 1]);
    }
  }

  lemma BusInit()
    ensures BusInv(Init)
  {
  }

  /** The operation that ended call `id` has committed and not yet published its events. */
  ghost predicate Publishing(s: State, id: CallId) {
    exists k :: && k in s.ops && s.ops[k].id == id && s.ops[k].phase.Committed?
                && PublishesEnded(s.ops[k].op, s.ops[k].phase.result)
  }

  /**
   `call.ended` is published at most once per call, never for a call that is live or failed, and,
   once the operation that ended the call has returned, for every call that ended as ended,
   rejected, cancelled or timeout, whatever other operations on it are still under way.  The event
   carries the outcome that is stored.
   */
  lemma CallEndedExactlyOnce(es: seq<Step>, id: CallId)
    requires id in After(es).cells
    ensures var s := After(es);
      && (forall i, j :: 0 <= i < |s.ended| && 0 <= j < |s.ended| && s.ended[i].id == id && s.ended[j].id == id
            ==> i == j)
      && (forall i :: 0 <= i < |s.ended| && s.ended[i].id == id ==>
            EndAnnounced(s.cells[id].value.state) && SameEnd(s.ended[i].call, s.cells[id].value))
      && (EndAnnounced(s.cells[id].value.state) && !Publishing(s, id) ==>
            exists i :: 0 <= i < |s.ended| && s.ended[i].id == id)
  {
    hide Run;
    BusInvRun(es);
    var s := After(es);
    forall i, j | 0 <= i < |s.ended| && 0 <= j < |s.ended| && s.ended[i].id == id && s.ended[j].id == id
      ensures i == j
    {
      OneAnnouncement(s, i, j);
    }
    forall i | 0 <= i < |s.ended| && s.ended[i].id == id
      ensures EndAnnounced(s.cells[id].value.state) && SameEnd(s.ended[i].call, s.cells[id].value)
    {
      assert AnnouncementOk(s, i);
    }
    if EndAnnounced(s.cells[id].value.state) && !Publishing(s, id) {
      SomeAnnouncement(s, id);
    }
  }

  /**
   What an operation publishes when it returns: nothing, or one `call.ended` with the call it
   returns; the timer reads the call again, and publishes what is stored by then.
   */
  lemma PublishedCall(es: seq<Step>, k: nat)
    requires CanStep(After(es), Publish(k))
    ensures var s := After(es); var t := Next(s, Publish(k)); var inv := s.ops[k];
      && t.cells == s.cells && t.index == s.index
      && t.ops == s.ops[k := inv.(phase := Returned(inv.phase.at, inv.phase.result))]
      && t.ended ==
           (if inv.op.RingTimeout? then s.ended + [Announcement(inv.id, k, s.cells[inv.id].value)]
            else if PublishesEnded(inv.op, inv.phase.result) then s.ended + [Announcement(inv.id, k, inv.phase.result)]
            else s.ended)
  {
    hide Run; hide Apply;
  }

  lemma OneAnnouncement(s: State, i: nat, j: nat)
    requires StoreInv(s) && BusInv(s)
    requires i < |s.ended| && j < |s.ended| && s.ended[i].id == s.ended[j].id
    ensures i == j
  {
    hide Apply; hide Replay; hide PublishesEnded;
    assert AnnouncementOk(s, i) && AnnouncementOk(s, j);
    var k1, k2 := s.ended[i].who, s.ended[j].who;
    assert OpOk(s, k1) && OpOk(s, k2);
    var id := s.ended[i].id;
    assert CellOk(s, id);
    EndsAtMostOnce(s.cells[id].base, s.cells[id].log, s.ops[k1].phase.at, s.ops[k2].phase.at);
    assert k1 == k2;
  }

  lemma SomeAnnouncement(s: State, id: CallId)
    requires StoreInv(s) && BusInv(s) && id in s.cells
    requires EndAnnounced(s.cells[id].value.state) && !Publishing(s, id)
    ensures exists i :: 0 <= i < |s.ended| && s.ended[i].id == id
  {
    hide Apply; hide Replay; hide PublishesEnded;
    assert CellOk(s, id);
    var base, log := s.cells[id].base, s.cells[id].log;
    EndsIff(base, log);
    var at: nat :| EndsAt(base, log, at);
    assert CommitOk(s, id, at);
    var k := log[at].who;
    assert OpOk(s, k);
    assert s.ops[k].phase.Returned?;
    assert Announces(s, k);
    assert Announced(s, k);
    var i :| 0 <= i < |s.ended| && s.ended[i].who == k;
    assert AnnouncementOk(s, i);
  }
}
