/**
 The Redis store against the same specification: when requests come one after the other, the
 commands they cause leave the specified calls and give the specified answers, however late the
 index clean-ups of earlier queries arrive.  With `CallService.Serve`, the two stores agree.
 */
module StoreAgreement {
  import opened CallModel
  import opened CallRuns
  import opened UserIndex
  import opened StoreSpec
  import R = RedisProtocol
  import M = MemoryStore
  import S = CallService

  function UpdateScript(n: nat, id: CallId, op: Op, now: Time): seq<R.Step> {
    [R.Invoke(n, id, op), R.Watch(n), R.Get(n, now), R.Exec(n), R.Publish(n)]
  }

  function AddScript(id: CallId, n: nat): seq<R.Step> {
    seq(n, _ => R.PutAdd(id))
  }

  /** The commands that request number `n` causes in state `s`. */
  function Script(s: R.State, req: Request, n: nat): seq<R.Step> {
    match req
    case Open(inp, id, room, now) =>
      var o := Create(inp, id, room, now);
      if o.Updated? then [R.PutSet(o.call)] + AddScript(id, |o.call.participants|) else []
    case Read(_) => []
    case Perform(id, op, now) => UpdateScript(n, id, op, now)
    case Reconnect(id, u, d) =>
      if id in s.cells && Reconnects(s.cells[id].value, u) then UpdateScript(n, id, Resume(u, d), 0) else []
    case ActiveCalls(key) => [R.Ask(n, key), R.List(n), R.Fetch(n)]
    case Sweep(q) => [R.Clean(q)]
  }

  ghost function Trace(reqs: seq<Request>): seq<R.Step> {
    if reqs == [] then []
    else
      var front := Trace(reqs[..|reqs| - 1]);
      front + Script(R.After(front), reqs[|reqs| - 1], |reqs| - 1)
  }

  function Values(s: R.State): Contents {
    map id | id in s.cells :: s.cells[id].value
  }

  function ReadAnswer(s: R.State, id: CallId): Answer {
    if id in s.cells then Returned(s.cells[id].value) else Denied(NotFound)
  }

  /** What the caller of request `n` gets when the store goes from `s` to `t`. */
  function AnswerFrom(s: R.State, t: R.State, req: Request, n: nat): Answer {
    match req
    case Open(inp, id, room, now) => OfOutcome(Create(inp, id, room, now))
    case Read(id) => ReadAnswer(s, id)
    case Perform(_, _, _) =>
      if n !in t.ops then Nothing
      else
        (match t.ops[n].phase
         case Returned(_, c) => Answer.Returned(c)
         case Declined(_, _, e) => Denied(e)
         case Missing => Denied(NotFound)
         case GaveUp => Denied(TooBusy)
         case _ => Nothing)
    case Reconnect(id, u, _) =>
      if id in s.cells && Find(s.cells[id].value.participants, u) == |s.cells[id].value.participants| then
        Denied(NotParticipant)
      else ReadAnswer(t, id)
    case ActiveCalls(_) =>
      if n in t.queries && t.queries[n].phase.Answered? then Active(t.queries[n].phase.active) else Nothing
    case Sweep(_) => Nothing
  }

  lemma {:induction false} RunAppend(s: R.State, es: seq<R.Step>, fs: seq<R.Step>)
    ensures R.Run(s, es + fs) == R.Run(R.Run(s, es), fs)
    decreases |fs|
  {
    hide R.Next;
    if fs == [] {
      assert es + fs == es;
    } else {
      assert (es + fs)[..|es + fs| - 1] == es + fs[..|fs| - 1];
      RunAppend(s, es, fs[..|fs| - 1]);
    }
  }

  lemma RunOne(s: R.State, e: R.Step)
    ensures R.Run(s, [e]) == R.Next(s, e)
  {
    hide R.Next;
    assert [e][..0] == [];
    assert R.Run(s, [e][..0]) == s;
  }

  lemma RunThree(s: R.State, a: R.Step, b: R.Step, c: R.Step)
    ensures R.Run(s, [a, b, c]) == R.Next(R.Next(R.Next(s, a), b), c)
  {
    hide R.Next;
    RunOne(s, a);
    assert [a, b][..1] == [a] && [a, b, c][..2] == [a, b];
  }

  lemma RunFive(s: R.State, a: R.Step, b: R.Step, c: R.Step, d: R.Step, e: R.Step)
    ensures R.Run(s, [a, b, c, d, e]) == R.Next(R.Next(R.Run(s, [a, b, c]), d), e)
  {
    hide R.Next;
    assert [a, b, c, d][..3] == [a, b, c] && [a, b, c, d, e][..4] == [a, b, c, d];
  }

  /** No Put is under way and the numbers from `n` on are unused. */
  ghost predicate Settled(s: R.State, n: nat) {
    && (forall id :: id in s.cells ==> R.PutDone(s, id))
    && (forall k :: k in s.ops || k in s.queries ==> k < n)
  }

  // ---- Update ----

  /** The state in which an undisturbed update has read the call. */
  lemma UpToGet(s: R.State, n: nat, id: CallId, op: Op, now: Time)
    requires n !in s.ops
    ensures R.Run(s, [R.Invoke(n, id, op), R.Watch(n), R.Get(n, now)]) ==
      s.(ops := s.ops[n := R.Invocation(id, op, R.Version(s, id),
        if id !in s.cells then R.Missing
        else
          match Apply(op, now, s.cells[id].value)
          case Refused(e) => R.Declined(s.cells[id].version, now, e)
          case Updated(c) => R.Holding(0, R.Version(s, id), now, c))])
  {
    hide Apply; hide R.Run;
    RunThree(s, R.Invoke(n, id, op), R.Watch(n), R.Get(n, now));
    var v := R.Version(s, id);
    var s1 := R.Next(s, R.Invoke(n, id, op));
    assert s1 == s.(ops := s.ops[n := R.Invocation(id, op, v, R.Trying(0))]);
    var s2 := R.Next(s1, R.Watch(n));
    assert s2 == s.(ops := s.ops[n := R.Invocation(id, op, v, R.Watching(0, v))]);
    var s3 := R.Next(s2, R.Get(n, now));
    assert s3 == R.DoGet(s2, n, now);
  }

  /** What an update or a query leaves alone. */
  ghost predicate Beside(s: R.State, t: R.State, n: nat) {
    && t.puts == s.puts && t.cells.Keys == s.cells.Keys
    && (forall id :: id in s.cells ==> t.cells[id].base == s.cells[id].base)
    && (forall k :: k in t.ops || k in t.queries ==> k in s.ops || k in s.queries || k == n)
  }

  lemma SettledBeside(s: R.State, t: R.State, n: nat)
    requires Settled(s, n) && Beside(s, t, n)
    ensures Settled(t, n + 1)
  {
    forall id | id in t.cells ensures R.PutDone(t, id) { assert R.PutDone(s, id); }
  }

  /** Exec and Publish do nothing once the update has ended with an error. */
  lemma NothingToCommit(s: R.State, n: nat)
    requires n in s.ops && (s.ops[n].phase.Missing? || s.ops[n].phase.Declined?)
    ensures R.Next(R.Next(s, R.Exec(n)), R.Publish(n)) == s
  {
    hide Apply;
  }

  lemma CommitSolo(s: R.State, n: nat)
    requires n in s.ops && s.ops[n].phase.Holding? && s.ops[n].id in s.cells
    requires s.ops[n].phase.seen == s.cells[s.ops[n].id].version
    ensures var t := R.Next(R.Next(s, R.Exec(n)), R.Publish(n)); var next := s.ops[n].phase.next;
      && Values(t) == Values(s)[s.ops[n].id := next]
      && n in t.ops && t.ops[n].phase.Returned? && t.ops[n].phase.result == next
      && Beside(s, t, n)
  {
    hide Apply; hide AddAll; hide PublishesEnded; hide R.Next;
    var s1 := R.DoExec(s, n);
    assert R.Next(s, R.Exec(n)) == s1 by { NextExec(s, n); }
    var t := R.DoPublish(s1, n);
    assert R.Next(s1, R.Publish(n)) == t by { NextPublish(s1, n); }
    assert Values(s1) == Values(s)[s.ops[n].id := s.ops[n].phase.next];
    assert t.cells == s1.cells;
  }

  lemma NextExec(s: R.State, n: nat)
    requires n in s.ops && s.ops[n].phase.Holding? && s.ops[n].id in s.cells
    ensures R.Next(s, R.Exec(n)) == R.DoExec(s, n)
  {
    hide Apply; hide R.DoExec;
  }

  lemma NextPublish(s: R.State, n: nat)
    requires n in s.ops && s.ops[n].phase.Committed? && s.ops[n].id in s.cells
    ensures R.Next(s, R.Publish(n)) == R.DoPublish(s, n)
  {
    hide Apply; hide R.DoPublish;
  }

  lemma UpdateSolo(s: R.State, n: nat, id: CallId, op: Op, now: Time)
    requires n !in s.ops && R.StoreInv(s)
    ensures var t := R.Run(s, UpdateScript(n, id, op, now)); var req := Perform(id, op, now);
      && Values(t) == Effect(Values(s), req)
      && AnswerFrom(s, t, req, n) == AnswerTo(Values(s), req)
      && Beside(s, t, n)
  {
    hide Apply; hide R.Run; hide R.Next; hide R.StoreInv;
    RunFive(s, R.Invoke(n, id, op), R.Watch(n), R.Get(n, now), R.Exec(n), R.Publish(n));
    UpToGet(s, n, id, op, now);
    var s3 := R.Run(s, [R.Invoke(n, id, op), R.Watch(n), R.Get(n, now)]);
    if s3.ops[n].phase.Holding? {
      CommitSolo(s3, n);
      assert Values(s3) == Values(s);
    } else {
      NothingToCommit(s3, n);
    }
  }

  // ---- Put ----

  lemma {:induction false} AddsSolo(s: R.State, id: CallId, k: nat)
    requires id in s.cells && id in s.puts && s.puts[id] + k <= |s.cells[id].base.participants|
    ensures var t := R.Run(s, AddScript(id, k));
      t.cells == s.cells && t.ops == s.ops && t.queries == s.queries && t.puts == s.puts[id := s.puts[id] + k]
  {
    hide Apply;
    if k > 0 {
      assert AddScript(id, k)[..k - 1] == AddScript(id, k - 1);
      AddsSolo(s, id, k - 1);
    }
  }

  lemma PutSolo(s: R.State, c: Call, n: nat)
    requires Settled(s, n) && IsNew(c) && c.id !in s.cells
    ensures var t := R.Run(s, [R.PutSet(c)] + AddScript(c.id, |c.participants|));
      Values(t) == Values(s)[c.id := c] && Settled(t, n + 1)
  {
    hide Apply; hide IsNew; hide R.Run; hide R.Next; hide Settled; hide Values; hide AddScript;
    RunAppend(s, [R.PutSet(c)], AddScript(c.id, |c.participants|));
    RunOne(s, R.PutSet(c));
    NextPutSet(s, c);
    var s1 := R.Next(s, R.PutSet(c));
    AddsSolo(s1, c.id, |c.participants|);
    PutSettled(s, R.Run(s1, AddScript(c.id, |c.participants|)), c, n);
  }

  lemma NextPutSet(s: R.State, c: Call)
    requires IsNew(c) && c.id !in s.cells
    ensures R.Next(s, R.PutSet(c)) ==
      s.(cells := s.cells[c.id := R.Cell(c, 1, c, [])], puts := s.puts[c.id := 0])
  {
    hide Apply; hide IsNew;
  }

  lemma PutSettled(s: R.State, t: R.State, c: Call, n: nat)
    requires Settled(s, n) && c.id !in s.cells
    requires t.cells == s.cells[c.id := R.Cell(c, 1, c, [])] && t.ops == s.ops && t.queries == s.queries
    requires t.puts == s.puts[c.id := |c.participants|]
    ensures Values(t) == Values(s)[c.id := c] && Settled(t, n + 1)
  {
    forall id | id in t.cells ensures R.PutDone(t, id) {
      if id != c.id { assert R.PutDone(s, id); }
    }
  }

  // ---- Queries ----

  lemma QuerySolo(s: R.State, n: nat, key: Key)
    requires Settled(s, n) && R.IndexInv(s)
    ensures var t := R.Run(s, [R.Ask(n, key), R.List(n), R.Fetch(n)]);
      && Values(t) == Values(s)
      && AnswerFrom(s, t, ActiveCalls(key), n) == Active(LiveCalls(Values(s), key))
      && Beside(s, t, n)
  {
    hide Apply; hide R.Run; hide R.Due; hide R.Next; hide R.Live; hide LiveCalls; hide R.IndexInv;
    Unused(s, n);
    RunThree(s, R.Ask(n, key), R.List(n), R.Fetch(n));
    LiveMembers(s, n, key);
    hide Settled;
    AskListFetch(s, n, key);
  }

  lemma AskListFetch(s: R.State, n: nat, key: Key)
    requires n !in s.queries
    ensures R.Next(R.Next(R.Next(s, R.Ask(n, key)), R.List(n)), R.Fetch(n)) ==
      var ids := Members(s.index, key);
      s.(queries := s.queries[n := R.Query(key, R.Answered(R.Live(s, ids), ids - R.Live(s, ids)))])
  {
    hide Apply; hide R.Due; hide R.Live;
    var ids := Members(s.index, key);
    var s1 := R.Next(s, R.Ask(n, key));
    assert s1 == s.(queries := s.queries[n := R.Query(key, R.Asked)]);
    var s2 := R.Next(s1, R.List(n));
    assert s2 == s.(queries := s.queries[n := R.Query(key, R.Listed(ids, R.Due(s1, key)))]);
    SameLive(s, s2, ids);
  }

  lemma SameLive(s: R.State, t: R.State, ids: set<CallId>)
    requires t.cells == s.cells
    ensures R.Live(s, ids) == R.Live(t, ids)
  {
  }

  lemma LiveMembers(s: R.State, n: nat, key: Key)
    requires Settled(s, n) && R.IndexInv(s)
    ensures R.Live(s, Members(s.index, key)) == LiveCalls(Values(s), key)
  {
    R.ListedAllDue(s, key);
    forall id | id in R.Live(s, Members(s.index, key)) ensures id in LiveCalls(Values(s), key) {
      assert R.Listing(s, key, id);
    }
    forall id | id in LiveCalls(Values(s), key) ensures id in R.Live(s, Members(s.index, key)) {
      assert R.PutDone(s, id);
      assert id in R.Due(s, key);
    }
  }

  lemma SweepSolo(s: R.State, q: nat, n: nat)
    ensures var t := R.Run(s, [R.Clean(q)]); Values(t) == Values(s) && Beside(s, t, n)
  {
    hide Apply;
    RunOne(s, R.Clean(q));
    hide R.Run;
  }

  // ---- Runs ----

  lemma OneRequest(s: R.State, req: Request, n: nat)
    requires Settled(s, n) && R.StoreInv(s) && R.IndexInv(s) && Fresh(Values(s), req)
    ensures var t := R.Run(s, Script(s, req, n));
      && Values(t) == Effect(Values(s), req)
      && AnswerFrom(s, t, req, n) == AnswerTo(Values(s), req)
      && Settled(t, n + 1)
  {
    hide Apply; hide Create; hide R.Next; hide R.StoreInv; hide R.IndexInv; hide Beside; hide Settled;
    var t := R.Run(s, Script(s, req, n));
    match req
    case Open(inp, id, room, now) =>
      var o := Create(inp, id, room, now);
      if o.Updated? {
        NewCall(inp, id, room, now);
        PutSolo(s, o.call, n);
      } else {
        Still(s, n);
      }
    case Read(id) => Still(s, n);
    case Perform(id, op, now) =>
      Unused(s, n);
      UpdateSolo(s, n, id, op, now);
      SettledBeside(s, t, n);
    case Reconnect(id, u, d) => ReconnectSolo(s, n, id, u, d);
    case ActiveCalls(key) =>
      QuerySolo(s, n, key);
      SettledBeside(s, t, n);
    case Sweep(q) =>
      SweepSolo(s, q, n);
      SettledBeside(s, t, n);
  }

  lemma NewCall(inp: CreateInput, id: CallId, room: RoomId, now: Time)
    requires Create(inp, id, room, now).Updated?
    ensures IsNew(Create(inp, id, room, now).call) && Create(inp, id, room, now).call.id == id
  {
  }

  lemma Still(s: R.State, n: nat)
    requires Settled(s, n)
    ensures R.Run(s, []) == s && Settled(s, n + 1)
  {
  }

  lemma Unused(s: R.State, n: nat)
    requires Settled(s, n)
    ensures n !in s.ops && n !in s.queries
  {
  }

  lemma ReconnectSolo(s: R.State, n: nat, id: CallId, u: UserId, d: DeviceId)
    requires Settled(s, n) && R.StoreInv(s)
    ensures var req := Reconnect(id, u, d); var t := R.Run(s, Script(s, req, n));
      && Values(t) == Effect(Values(s), req)
      && AnswerFrom(s, t, req, n) == AnswerTo(Values(s), req)
      && Settled(t, n + 1)
  {
    hide Apply; hide R.Next; hide R.StoreInv; hide Beside; hide Settled; hide Find; hide UpdateScript;
    if id in s.cells && Reconnects(s.cells[id].value, u) {
      Unused(s, n);
      UpdateSolo(s, n, id, Resume(u, d), 0);
      SettledBeside(s, R.Run(s, UpdateScript(n, id, Resume(u, d), 0)), n);
    } else {
      Still(s, n);
    }
  }

  lemma FreshPrefix(reqs: seq<Request>, n: nat)
    requires FreshIds(reqs) && n <= |reqs|
    ensures FreshIds(reqs[..n])
  {
    var front := reqs[..n];
    forall i | 0 <= i < n ensures Fresh(After(front[..i]), front[i]) {
      assert front[..i] == reqs[..i];
      assert Fresh(After(reqs[..i]), reqs[i]);
    }
  }

  lemma {:induction false} RedisStores(reqs: seq<Request>)
    requires FreshIds(reqs)
    ensures Values(R.After(Trace(reqs))) == After(reqs) && Settled(R.After(Trace(reqs)), |reqs|)
  {
    hide R.Run; hide Effect; hide AnswerTo; hide AnswerFrom; hide Script; hide Settled; hide Values; hide Fresh;
    if reqs == [] {
      Start();
    } else {
      var n := |reqs| - 1;
      FreshPrefix(reqs, n);
      RedisStores(reqs[..n]);
      var es := Trace(reqs[..n]);
      R.IndexInvRun(es);
      OneRequest(R.After(es), reqs[n], n);
      RunAppend(R.Init, es, Script(R.After(es), reqs[n], n));
    }
  }

  lemma Start()
    ensures Values(R.After([])) == map[] && Settled(R.After([]), 0)
  {
  }

  /** The answer of the Redis store to the request at `i`. */
  ghost function RedisAnswer(reqs: seq<Request>, i: nat): Answer
    requires i < |reqs|
  {
    AnswerFrom(R.After(Trace(reqs[..i])), R.After(Trace(reqs[..i + 1])), reqs[i], i)
  }

  lemma RedisAnswers(reqs: seq<Request>, i: nat)
    requires FreshIds(reqs) && i < |reqs|
    ensures RedisAnswer(reqs, i) == AnswerAt(reqs, i)
  {
    hide R.Run; hide Effect; hide AnswerTo; hide AnswerFrom; hide Script; hide Settled; hide Values; hide Fresh;
    FreshPrefix(reqs, i);
    RedisStores(reqs[..i]);
    var es := Trace(reqs[..i]);
    R.IndexInvRun(es);
    OneRequest(R.After(es), reqs[i], i);
    RunAppend(R.Init, es, Script(R.After(es), reqs[i], i));
    assert reqs[..i + 1][..i] == reqs[..i];
  }

  /**
   For every sequence of requests with new ids, the Redis store ends with the specified calls and
   its answer to each request is the specified one.
   */
  lemma RedisServes(reqs: seq<Request>)
    requires FreshIds(reqs)
    ensures Values(R.After(Trace(reqs))) == After(reqs)
    ensures forall i :: 0 <= i < |reqs| ==> RedisAnswer(reqs, i) == AnswerAt(reqs, i)
  {
    hide RedisAnswer; hide AnswerAt; hide After; hide R.Run; hide Trace; hide Values; hide FreshIds;
    RedisStores(reqs);
    forall i | 0 <= i < |reqs| ensures RedisAnswer(reqs, i) == AnswerAt(reqs, i) { RedisAnswers(reqs, i); }
  }

  /**
   The in-place store and the copy-then-commit store hold the same calls after the same requests
   and gave the same answers, and the in-place store's answers are still what they were when given.
   */
  method BothStores(reqs: seq<Request>) returns (service: S.Service, replies: seq<M.Reply>)
    requires FreshIds(reqs)
    ensures service.store.Stored() == Values(R.After(Trace(reqs)))
    ensures |replies| == |reqs| && forall i :: 0 <= i < |reqs| ==> M.Says(replies[i], RedisAnswer(reqs, i))
  {
    hide RedisAnswer; hide AnswerAt; hide After; hide R.Run; hide Trace; hide Values; hide FreshIds; hide M.Says;
    service, replies := S.Serve(reqs);
    RedisServes(reqs);
  }

  // ---- Stored calls as runs ----

  /** The operation that request number `n` performs on call `id` of `m`, if it succeeds. */
  function Performed(m: Contents, req: Request, n: nat, id: CallId): seq<Commit> {
    if id !in m then []
    else
      match req
      case Perform(id', op, now) =>
        if id' == id && Apply(op, now, m[id]).Updated? then [Commit(n, op, now)] else []
      case Reconnect(id', u, d) =>
        if id' == id && Reconnects(m[id], u) then [Commit(n, Resume(u, d), 0)] else []
      case _ => []
  }

  /** The successful operations on call `id`, in the order of the requests. */
  function LogOf(reqs: seq<Request>, id: CallId): seq<Commit> {
    if reqs == [] then []
    else
      var n := |reqs| - 1;
      LogOf(reqs[..n], id) + Performed(After(reqs[..n]), reqs[n], n, id)
  }

  /** Request `i` created call `id` as `base`. */
  ghost predicate Created(reqs: seq<Request>, i: nat, id: CallId, base: Call) {
    && i < |reqs| && reqs[i].Open? && reqs[i].id == id
    && Create(reqs[i].input, id, reqs[i].room, reqs[i].now) == Updated(base)
  }

  lemma ReplayAppend(base: Call, log: seq<Commit>, more: seq<Commit>, c: Call)
    requires |more| <= 1 && Replay(base, log) == Updated(c)
    ensures Replay(base, log + more) == if more == [] then Updated(c) else Apply(more[0].op, more[0].now, c)
  {
    hide Apply;
    if more == [] {
      assert log + more == log;
    } else {
      assert (log + more)[..|log + more| - 1] == log;
    }
  }

  /** One request, as seen by a call that is stored already. */
  lemma PerformedEffect(m: Contents, req: Request, n: nat, id: CallId)
    requires id in m && Fresh(m, req)
    ensures var more := Performed(m, req, n, id); var m1 := Effect(m, req);
      && |more| <= 1 && id in m1
      && Updated(m1[id]) == if more == [] then Updated(m[id]) else Apply(more[0].op, more[0].now, m[id])
  {
    hide Apply; hide Create; hide Find;
    if req.Reconnect? { ResumeSucceeds(m[id], req.user, req.device); }
    if req.Open? && req.id !in m { assert req.id != id; }
  }

  lemma ResumeSucceeds(c: Call, u: UserId, d: DeviceId)
    ensures Apply(Resume(u, d), 0, c).Updated?
  {
  }

  lemma {:induction false} NotStoredNoLog(reqs: seq<Request>, id: CallId)
    requires id !in After(reqs)
    ensures LogOf(reqs, id) == []
  {
    hide Apply; hide Create;
    if reqs != [] {
      var n := |reqs| - 1;
      assert id !in After(reqs[..n]);
      NotStoredNoLog(reqs[..n], id);
    }
  }

  /**
   Every stored call is what one of the requests created under its id, followed by exactly the
   successful operations requested on it, in order.  So what holds in every run of a call
   (`CallRuns`) holds of every call in either store.
   */
  lemma {:induction false} StoredCallsAreRuns(reqs: seq<Request>, id: CallId) returns (i: nat, base: Call)
    requires FreshIds(reqs) && id in After(reqs)
    ensures Created(reqs, i, id, base) && IsNew(base)
    ensures Replay(base, LogOf(reqs, id)) == Updated(After(reqs)[id])
  {
    hide Apply; hide Create; hide Effect; hide Performed; hide IsNew;
    var n := |reqs| - 1;
    var front := reqs[..n];
    FreshPrefix(reqs, n);
    assert Fresh(After(front), reqs[n]);
    if id in After(front) {
      i, base := StoredCallsAreRuns(front, id);
      PerformedEffect(After(front), reqs[n], n, id);
      ReplayAppend(base, LogOf(front, id), Performed(After(front), reqs[n], n, id), After(front)[id]);
    } else {
      NotStoredNoLog(front, id);
      i, base := n, After(reqs)[id];
      NewlyStored(After(front), reqs[n], n, id);
    }
  }

  lemma NewlyStored(m: Contents, req: Request, n: nat, id: CallId)
    requires id !in m && id in Effect(m, req)
    ensures req.Open? && req.id == id && Performed(m, req, n, id) == []
    ensures Create(req.input, id, req.room, req.now) == Updated(Effect(m, req)[id]) && IsNew(Effect(m, req)[id])
  {
    hide Apply; hide Create;
  }
}
