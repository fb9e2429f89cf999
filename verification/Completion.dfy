/**
 Message completion as a "last one out" protocol: the worker that ends a delivery asks whether
 any row of the message is pending, counts the rows, and marks the message completed.

 Two things can go wrong, and for each this module says exactly when: a message is completed
 although a delivery of it is open, and a message whose deliveries are all done is never completed.
 */
module Completion {
  import opened DeliveryQueue
  import opened Retry

  predicate OpenRow(s: State, m: MessageId, d: DeliveryId) {
    d in s.rows && s.rows[d].msg == m && !s.rows[d].status.Terminal()
  }

  ghost predicate AllTerminal(s: State, m: MessageId) {
    forall d :: d in s.rows && s.rows[d].msg == m ==> s.rows[d].status.Terminal()
  }

  /** The message has rows and all of them are terminal. */
  ghost predicate Done(s: State, m: MessageId) {
    AllTerminal(s, m) && exists d :: d in s.rows && s.rows[d].msg == m
  }

  predicate Enqueued(s: State, m: MessageId) { m in s.msgs && s.msgs[m].enqueued }

  predicate IsCompleted(s: State, m: MessageId) { m in s.msgs && s.msgs[m].status.Completed? }

  predicate Checks(p: Phase) { p.AskPending? || p.AskCount? || p.Finish? }

  predicate Checking(worker: Worker, m: MessageId) {
    Checks(worker.phase) && worker.phase.m == m
  }

  /** Some worker has still to finish its completion check of `m`. */
  ghost predicate BeingChecked(s: State, m: MessageId) {
    exists w :: w in s.workers && Checking(s.workers[w], m)
  }

  /** Worker `w` has found every row of `m` terminal and is about to mark it completed. */
  predicate Finishing(s: State, w: WorkerId, m: MessageId) {
    w in s.workers && s.workers[w].phase == Finish(m)
  }

  /** What the two queries of a completion check tell. */
  lemma QueriesTell(s: State, m: MessageId)
    ensures |PendingOf(s, m)| == 0 <==> AllTerminal(s, m)
    ensures (|RowsOf(s, m)| > 0 && |TerminalOf(s, m)| >= |RowsOf(s, m)|) <==> Done(s, m)
  {
    var rows, open, over := RowsOf(s, m), PendingOf(s, m), TerminalOf(s, m);
    assert rows == open + over && open !! over;
    assert |rows| == |open| + |over|;
    if |open| == 0 {
      assert open == {};
      forall d | d in s.rows && s.rows[d].msg == m ensures s.rows[d].status.Terminal() { assert d !in open; }
    }
    if AllTerminal(s, m) { assert open == {}; }
    if d :| d in s.rows && s.rows[d].msg == m { assert d in rows; }
  }

  // ---- Completed only when done ----

  ghost predicate Sound(s: State, m: MessageId) {
    IsCompleted(s, m) ==> AllTerminal(s, m)
  }

  /** A row of a completed message is inserted. */
  predicate InsertsLate(s: State, e: Step, m: MessageId) {
    e.Insert? && e.m == m && CanStep(s, e) && IsCompleted(s, m)
  }

  /** The message is marked completed while a row of it is open. */
  ghost predicate CompletesOpen(s: State, e: Step, m: MessageId) {
    e.MarkCompleted? && Finishing(s, e.w, m) && m in s.msgs && !AllTerminal(s, m)
  }

  lemma SoundInsert(s: State, max: int, e: Step, m: MessageId)
    requires Sound(s, m) && e.Insert? && CanStep(s, e)
    ensures Sound(Next(s, max, e), m) <==> !InsertsLate(s, e, m)
  {
    var t := Next(s, max, e);
    if e.m == m {
      assert OpenRow(t, m, e.d);
    } else {
      assert AllTerminal(t, m) <==> AllTerminal(s, m) by { SameRowsOf(s, t, m); }
    }
  }

  lemma SameRowsOf(s: State, t: State, m: MessageId)
    requires forall d :: (d in s.rows && s.rows[d].msg == m) || (d in t.rows && t.rows[d].msg == m) ==>
      d in s.rows && d in t.rows && t.rows[d] == s.rows[d]
    ensures AllTerminal(t, m) <==> AllTerminal(s, m)
    ensures Done(t, m) <==> Done(s, m)
  {
    if d :| d in s.rows && s.rows[d].msg == m { assert t.rows[d].msg == m; }
    if d :| d in t.rows && t.rows[d].msg == m { assert s.rows[d].msg == m; }
  }

  /** A step that writes row `d`, which was open. */
  lemma SoundWrite(s: State, t: State, d: DeliveryId, m: MessageId)
    requires Sound(s, m) && d in s.rows && !s.rows[d].status.Terminal() && t.msgs == s.msgs
    requires d in t.rows && t.rows == s.rows[d := t.rows[d]] && t.rows[d].msg == s.rows[d].msg
    ensures Sound(t, m)
  {
    if s.rows[d].msg == m {
      assert OpenRow(s, m, d);
    } else {
      SameRowsOf(s, t, m);
    }
  }

  lemma SoundMessages(s: State, t: State, m: MessageId)
    requires Sound(s, m) && t.rows == s.rows && (IsCompleted(t, m) ==> IsCompleted(s, m))
    ensures Sound(t, m)
  {
  }

  lemma SoundMarkCompleted(s: State, max: int, e: Step, m: MessageId)
    requires Sound(s, m) && e.MarkCompleted? && CanStep(s, e)
    ensures Sound(Next(s, max, e), m) <==> !CompletesOpen(s, e, m)
  {
    var t := Next(s, max, e);
    SameRowsOf(s, t, m);
  }

  lemma SoundStep(s: State, max: int, e: Step, m: MessageId)
    requires Sound(s, m) && ClaimInv(s, max)
    ensures Sound(Next(s, max, e), m) <==> !InsertsLate(s, e, m) && !CompletesOpen(s, e, m)
  {
    hide Sound; hide AllTerminal; hide ClaimInv; hide Judge; hide PendingOf; hide RowsOf; hide TerminalOf;
    if CanStep(s, e) {
      var t := Next(s, max, e);
      match e
      case Insert(_, _) => SoundInsert(s, max, e, m);
      case MarkCompleted(_) => SoundMarkCompleted(s, max, e, m);
      case ClaimRow(_, d, _) => SoundWrite(s, t, d, m);
      case Mark(w, now) =>
        ClaimMark(s, max, w, now);
        SoundWrite(s, t, s.workers[w].phase.claim.d, m);
      case _ => SoundMessages(s, t, m);
    }
  }

  // ---- The race behind an early completion ----

  /** Row `d` of `m` was inserted by step `j`, after the count of `w`, and is open when `w` completes `m` at `k`. */
  ghost predicate LateRow(max: int, es: seq<Step>, j: nat, k: nat, w: WorkerId, m: MessageId, d: DeliveryId) {
    && j < k <= |es| && es[j] == Insert(m, d) && CanStep(At(max, es, j), es[j])
    && (forall i :: j <= i <= k ==> Finishing(At(max, es, i), w, m))
    && OpenRow(At(max, es, k), m, d)
  }

  /** Step `k` marks `m` completed over a row that was inserted after the count it rests on. */
  ghost predicate CompletesOverLateRow(max: int, es: seq<Step>, k: nat, m: MessageId) {
    k < |es| && es[k].MarkCompleted? && exists j, d :: LateRow(max, es, j, k, es[k].w, m, d)
  }

  /** Once counted, a message has no open rows but new ones. */
  lemma FinishingStep(s: State, max: int, e: Step, w: WorkerId, m: MessageId, d: DeliveryId)
    requires ClaimInv(s, max) && Finishing(Next(s, max, e), w, m) && OpenRow(Next(s, max, e), m, d)
    ensures Finishing(s, w, m) && (OpenRow(s, m, d) || (e == Insert(m, d) && CanStep(s, e)))
  {
    hide ClaimInv; hide Judge; hide PendingOf; hide RowsOf; hide TerminalOf;
    if CanStep(s, e) {
      if e.Mark? { ClaimMark(s, max, e.w, e.now); }
      if e.CountByMessage? { QueriesTell(s, s.workers[e.w].phase.m); }
    }
  }

  lemma {:induction false} OpenRowsAreLate(max: int, es: seq<Step>, k: nat, w: WorkerId, m: MessageId, d: DeliveryId)
    requires k <= |es| && Finishing(At(max, es, k), w, m) && OpenRow(At(max, es, k), m, d)
    ensures exists j :: LateRow(max, es, j, k, w, m, d)
  {
    hide Run; hide Next; hide ClaimInv; hide CanStep;
    AtEnds(max, es);
    if k > 0 {
      AtNext(max, es, k - 1);
      AtClaims(max, es, k - 1);
      var s := At(max, es, k - 1);
      FinishingStep(s, max, es[k - 1], w, m, d);
      if OpenRow(s, m, d) {
        OpenRowsAreLate(max, es, k - 1, w, m, d);
        var j :| LateRow(max, es, j, k - 1, w, m, d);
        assert LateRow(max, es, j, k, w, m, d);
      } else {
        assert LateRow(max, es, k - 1, k, w, m, d);
      }
    }
  }

  ghost predicate RowsHaveMessages(s: State) {
    forall d :: d in s.rows ==> s.rows[d].msg in s.msgs
  }

  lemma {:induction false} RowsHaveMessagesAt(max: int, es: seq<Step>, k: nat)
    requires k <= |es|
    ensures RowsHaveMessages(At(max, es, k))
  {
    hide Run; hide Next;
    AtEnds(max, es);
    if k > 0 {
      AtNext(max, es, k - 1);
      RowsHaveMessagesAt(max, es, k - 1);
      RowsHaveMessagesStep(At(max, es, k - 1), max, es[k - 1]);
    }
  }

  lemma RowsHaveMessagesStep(s: State, max: int, e: Step)
    requires RowsHaveMessages(s)
    ensures RowsHaveMessages(Next(s, max, e))
  {
    hide Judge; hide PendingOf; hide RowsOf; hide TerminalOf; hide ReadyAt;
  }

  lemma CompletesOpenIff(max: int, es: seq<Step>, k: nat, m: MessageId)
    requires k < |es|
    ensures CompletesOpen(At(max, es, k), es[k], m) <==> CompletesOverLateRow(max, es, k, m)
  {
    hide Run; hide Next; hide ClaimInv; hide CanStep;
    var s := At(max, es, k);
    if CompletesOpen(s, es[k], m) {
      var d :| d in s.rows && s.rows[d].msg == m && !s.rows[d].status.Terminal();
      OpenRowsAreLate(max, es, k, es[k].w, m, d);
    }
    if CompletesOverLateRow(max, es, k, m) {
      var j, d :| LateRow(max, es, j, k, es[k].w, m, d);
      RowsHaveMessagesAt(max, es, k);
    }
  }

  ghost predicate SoundAt(max: int, es: seq<Step>, k: nat, m: MessageId) {
    k <= |es| && Sound(At(max, es, k), m)
  }

  ghost predicate SpoiledAt(max: int, es: seq<Step>, k: nat, m: MessageId) {
    k < |es| && (InsertsLate(At(max, es, k), es[k], m) || CompletesOverLateRow(max, es, k, m))
  }

  lemma SoundAtNext(max: int, es: seq<Step>, k: nat, m: MessageId)
    requires k < |es| && SoundAt(max, es, k, m)
    ensures SoundAt(max, es, k + 1, m) <==> !SpoiledAt(max, es, k, m)
  {
    hide Run; hide Next; hide ClaimInv; hide Sound; hide InsertsLate; hide CompletesOpen; hide CompletesOverLateRow;
    AtNext(max, es, k);
    AtClaims(max, es, k);
    CompletesOpenIff(max, es, k, m);
    SoundStep(At(max, es, k), max, es[k], m);
  }

  lemma {:induction false} SoundThrough(max: int, es: seq<Step>, k: nat, m: MessageId)
    requires k <= |es| && forall j: nat :: j < k ==> !SpoiledAt(max, es, j, m)
    ensures SoundAt(max, es, k, m)
  {
    hide SpoiledAt;
    AtEnds(max, es);
    if k > 0 {
      SoundThrough(max, es, k - 1, m);
      SoundAtNext(max, es, k - 1, m);
    }
  }

  /**
   Throughout a run, of any workers and with any failures, a message is completed only when all its
   deliveries are terminal, if and only if no step inserts a row into it once it is completed, and
   no step completes it over an open row that was inserted after the count.
   */
  lemma CompletedOnlyIfDoneIff(max: int, es: seq<Step>, m: MessageId)
    ensures (forall k: nat :: k <= |es| ==> SoundAt(max, es, k, m))
       <==> (forall k: nat :: k < |es| ==> !SpoiledAt(max, es, k, m))
  {
    hide SoundAt; hide SpoiledAt;
    if forall k: nat :: k < |es| ==> !SpoiledAt(max, es, k, m) {
      forall k: nat | k <= |es| ensures SoundAt(max, es, k, m) { SoundThrough(max, es, k, m); }
    } else {
      var k: nat :| k < |es| && SpoiledAt(max, es, k, m);
      if SoundAt(max, es, k, m) {
        SoundAtNext(max, es, k, m);
        assert !SoundAt(max, es, k + 1, m);
      }
    }
  }

  // ---- Done but never completed ----

  /**
   All deliveries of the message are done, it is not completed, and nobody is checking it, whether
   its enqueueing is over, still going on or has failed.
   */
  ghost predicate Unattended(s: State, m: MessageId) {
    m in s.msgs && Done(s, m) && !IsCompleted(s, m) && !BeingChecked(s, m)
  }

  /** The queued mark is written over a message that is done already and that nobody is checking. */
  ghost predicate QueuesDone(s: State, e: Step, m: MessageId) {
    e == MarkQueued(m) && CanStep(s, e) && Done(s, m) && !BeingChecked(s, m)
  }

  /** The last open row is failed for want of its device or message, which skips the completion check. */
  ghost predicate DropsLast(s: State, e: Step, m: MessageId) {
    && e.Mark? && CanStep(s, e)
    && var p := s.workers[e.w].phase;
    && p.verdict.Drop? && p.claim.d in s.rows && s.rows[p.claim.d].msg == m
    && (forall d :: OpenRow(s, m, d) ==> d == p.claim.d)
    && m in s.msgs && !IsCompleted(s, m) && !BeingChecked(s, m)
  }

  /** The only check of a message that is done fails or dies with its worker. */
  ghost predicate LosesCheck(s: State, e: Step, m: MessageId) {
    && (e.CheckLost? || e.Crash?) && CanStep(s, e) && Checking(s.workers[e.w], m)
    && (forall w :: w in s.workers && Checking(s.workers[w], m) ==> w == e.w)
    && m in s.msgs && Done(s, m) && !IsCompleted(s, m)
  }

  ghost predicate Abandons(s: State, e: Step, m: MessageId) {
    QueuesDone(s, e, m) || DropsLast(s, e, m) || LosesCheck(s, e, m)
  }

  predicate Inserts(s: State, e: Step, m: MessageId) {
    e.Insert? && e.m == m && CanStep(s, e)
  }

  /** A worker moves from one phase to another; rows and messages stay. */
  lemma AttendMoved(s: State, t: State, w: WorkerId, m: MessageId)
    requires t.rows == s.rows && t.msgs == s.msgs && w in t.workers && t.workers == s.workers[w := t.workers[w]]
    requires w in s.workers ==> (Checking(t.workers[w], m) <==> Checking(s.workers[w], m))
    requires w !in s.workers ==> !Checking(t.workers[w], m)
    ensures Unattended(t, m) <==> Unattended(s, m)
  {
    SameRowsOf(s, t, m);
    hide Done;
    if w' :| w' in s.workers && Checking(s.workers[w'], m) { assert Checking(t.workers[w'], m); }
    if w' :| w' in t.workers && Checking(t.workers[w'], m) { assert Checking(s.workers[w'], m); }
  }

  /** The worker checking `m'` goes on, stops because it is not done, or completes it. */
  lemma AttendCheck(s: State, max: int, e: Step, m: MessageId)
    requires CanStep(s, e) && (e.HasPending? || e.CountByMessage? || e.MarkCompleted?)
    ensures Unattended(Next(s, max, e), m) <==> Unattended(s, m)
  {
    hide PendingOf; hide RowsOf; hide TerminalOf;
    var t := Next(s, max, e);
    QueriesTell(s, s.workers[e.w].phase.m);
    SameRowsOf(s, t, m);
    hide Done;
    if w :| w in s.workers && w != e.w && Checking(s.workers[w], m) { assert Checking(t.workers[w], m); }
    if w :| w in t.workers && w != e.w && Checking(t.workers[w], m) { assert Checking(s.workers[w], m); }
    if s.workers[e.w].phase.m == m { assert BeingChecked(s, m); }
    if Checking(t.workers[e.w], m) { assert BeingChecked(t, m); }
  }

  lemma AttendLost(s: State, max: int, e: Step, m: MessageId)
    requires CanStep(s, e) && (e.CheckLost? || e.Crash?)
    ensures Unattended(Next(s, max, e), m) <==> Unattended(s, m) || LosesCheck(s, e, m)
  {
    var t := Next(s, max, e);
    SameRowsOf(s, t, m);
    hide Done;
    assert forall w :: w in t.workers && Checking(t.workers[w], m) <==>
      w != e.w && w in s.workers && Checking(s.workers[w], m);
    if Checking(s.workers[e.w], m) { assert BeingChecked(s, m); }
  }

  lemma AttendQueued(s: State, max: int, m': MessageId, m: MessageId)
    requires CanStep(s, MarkQueued(m'))
    ensures Unattended(Next(s, max, MarkQueued(m')), m) <==> Unattended(s, m) || QueuesDone(s, MarkQueued(m'), m)
  {
    SameRowsOf(s, Next(s, max, MarkQueued(m')), m);
    hide Done;
  }

  lemma AttendCreated(s: State, max: int, m': MessageId, m: MessageId)
    requires RowsHaveMessages(s) && CanStep(s, CreateMessage(m'))
    ensures Unattended(Next(s, max, CreateMessage(m')), m) <==> Unattended(s, m)
  {
    SameRowsOf(s, Next(s, max, CreateMessage(m')), m);
    hide Done;
  }

  lemma AttendInsert(s: State, max: int, m': MessageId, d: DeliveryId, m: MessageId)
    requires CanStep(s, Insert(m', d))
    ensures Unattended(Next(s, max, Insert(m', d)), m) <==> Unattended(s, m) && m != m'
  {
    var t := Next(s, max, Insert(m', d));
    if m == m' { assert OpenRow(t, m, d); } else { SameRowsOf(s, t, m); }
  }

  lemma AttendClaim(s: State, w: WorkerId, d: DeliveryId, now: Time, m: MessageId)
    requires CanStep(s, ClaimRow(w, d, now))
    ensures Unattended(DoClaim(s, w, d, now), m) <==> Unattended(s, m)
  {
    var t := DoClaim(s, w, d, now);
    if s.rows[d].msg == m {
      assert OpenRow(s, m, d) && OpenRow(t, m, d);
    } else {
      SameRowsOf(s, t, m);
      hide Done;
      AttendMoved(s, s.(workers := t.workers), w, m);
      assert BeingChecked(t, m) <==> BeingChecked(s.(workers := t.workers), m);
    }
  }

  /** The mark of a delivery of another message. */
  lemma AttendOther(s: State, max: int, w: WorkerId, now: Time, m: MessageId)
    requires ClaimInv(s, max) && CanStep(s, Mark(w, now)) && s.rows[s.workers[w].phase.claim.d].msg != m
    ensures Unattended(DoMark(s, w, now), m) <==> Unattended(s, m)
  {
    hide ClaimInv;
    ClaimMark(s, max, w, now);
    var t := DoMark(s, w, now);
    SameRowsOf(s, t, m);
    hide Done;
    if v :| v in s.workers && Checking(s.workers[v], m) { assert Checking(t.workers[v], m); }
    if v :| v in t.workers && Checking(t.workers[v], m) { assert Checking(s.workers[v], m); }
  }

  /** The mark of a delivery of `m` itself: unless it is dropped, the worker goes on to check. */
  lemma AttendOwn(s: State, max: int, w: WorkerId, now: Time, m: MessageId)
    requires ClaimInv(s, max) && CanStep(s, Mark(w, now)) && s.rows[s.workers[w].phase.claim.d].msg == m
    ensures !Unattended(s, m)
    ensures Unattended(DoMark(s, w, now), m) <==> DropsLast(s, Mark(w, now), m)
  {
    hide ClaimInv; hide DelayForAttempt;
    ClaimMark(s, max, w, now);
    var t := DoMark(s, w, now);
    var p := s.workers[w].phase;
    var d := p.claim.d;
    assert OpenRow(s, m, d);
    match p.verdict
    case Defer => assert OpenRow(t, m, d);
    case Drop =>
      assert Done(t, m) <==> forall d' :: OpenRow(s, m, d') ==> d' == d by { DoneButOne(s, t, d, m); }
      hide Done;
      if v :| v in s.workers && Checking(s.workers[v], m) { assert Checking(t.workers[v], m); }
      if v :| v in t.workers && Checking(t.workers[v], m) { assert Checking(s.workers[v], m); }
    case _ => assert Checking(t.workers[w], m);
  }

  lemma DoneButOne(s: State, t: State, d: DeliveryId, m: MessageId)
    requires OpenRow(s, m, d) && d in t.rows && t.rows == s.rows[d := t.rows[d]]
    requires t.rows[d].msg == m && t.rows[d].status.Terminal()
    ensures Done(t, m) <==> forall d' :: OpenRow(s, m, d') ==> d' == d
  {
    if forall d' :: OpenRow(s, m, d') ==> d' == d {
      forall d' | d' in t.rows && t.rows[d'].msg == m ensures t.rows[d'].status.Terminal() {
        assert d' != d ==> !OpenRow(s, m, d');
      }
    } else {
      var d' :| OpenRow(s, m, d') && d' != d;
      assert t.rows[d'] == s.rows[d'];
    }
  }

  lemma AttendMarkLost(s: State, max: int, w: WorkerId, m: MessageId)
    requires ClaimInv(s, max) && CanStep(s, MarkLost(w))
    ensures Unattended(Next(s, max, MarkLost(w)), m) <==> Unattended(s, m)
  {
    var t := Next(s, max, MarkLost(w));
    var c := s.workers[w].phase.claim;
    assert WorkerOk(s, w) && Holds(s.workers[w], c);
    hide ClaimInv;
    if s.rows[c.d].msg == m {
      assert OpenRow(s, m, c.d) && OpenRow(t, m, c.d);
    } else {
      hide Unattended;
      AttendMoved(s, t, w, m);
    }
  }

  lemma AttendStep(s: State, max: int, e: Step, m: MessageId)
    requires ClaimInv(s, max) && RowsHaveMessages(s)
    ensures Unattended(Next(s, max, e), m) <==> (Unattended(s, m) && !Inserts(s, e, m)) || Abandons(s, e, m)
  {
    hide Unattended; hide Done; hide ClaimInv; hide Judge; hide PendingOf; hide RowsOf; hide TerminalOf; hide ReadyAt;
    hide RowsHaveMessages;
    if CanStep(s, e) {
      var t := Next(s, max, e);
      match e
      case CreateMessage(m') => AttendCreated(s, max, m', m);
      case Insert(m', d) => AttendInsert(s, max, m', d, m);
      case MarkQueued(m') => AttendQueued(s, max, m', m);
      case Start(w) => AttendMoved(s, t, w, m);
      case ClaimRow(w, d, now) => AttendClaim(s, w, d, now, m);
      case Attempt(w, _, _) => AttendMoved(s, t, w, m);
      case Mark(w, now) => AttendMark(s, max, w, now, m);
      case MarkLost(w) => AttendMarkLost(s, max, w, m);
      case CheckLost(_) => AttendLost(s, max, e, m);
      case Crash(_) => AttendLost(s, max, e, m);
      case _ => AttendCheck(s, max, e, m);
    }
  }

  lemma AttendMark(s: State, max: int, w: WorkerId, now: Time, m: MessageId)
    requires ClaimInv(s, max) && CanStep(s, Mark(w, now))
    ensures Unattended(DoMark(s, w, now), m) <==> Unattended(s, m) || DropsLast(s, Mark(w, now), m)
  {
    hide Unattended; hide Done; hide ClaimInv;
    ClaimMark(s, max, w, now);
    if s.rows[s.workers[w].phase.claim.d].msg == m {
      AttendOwn(s, max, w, now, m);
    } else {
      AttendOther(s, max, w, now, m);
    }
  }

  /** Step `k` abandons the message, and no row of it is inserted from then until step `n`. */
  ghost predicate AbandonedAt(max: int, es: seq<Step>, k: nat, n: nat, m: MessageId) {
    && k < n <= |es| && Abandons(At(max, es, k), es[k], m)
    && (forall j :: k < j < n ==> !Inserts(At(max, es, j), es[j], m))
  }

  lemma {:induction false} UnattendedAt(max: int, es: seq<Step>, n: nat, m: MessageId)
    requires n <= |es|
    ensures Unattended(At(max, es, n), m) <==> exists k: nat :: AbandonedAt(max, es, k, n, m)
  {
    hide Run; hide Next; hide ClaimInv; hide Abandons; hide Done; hide Inserts;
    AtEnds(max, es);
    if n > 0 {
      var p: nat := n - 1;
      var s, e := At(max, es, p), es[p];
      UnattendedAt(max, es, p, m);
      AtNext(max, es, n - 1);
      AtClaims(max, es, n - 1);
      RowsHaveMessagesAt(max, es, n - 1);
      AttendStep(s, max, e, m);
      hide Unattended;
      if Abandons(s, e, m) { assert AbandonedAt(max, es, n - 1, n, m); }
      if k: nat :| AbandonedAt(max, es, k, p, m) {
        assert !Inserts(s, e, m) ==> AbandonedAt(max, es, k, n, m);
      }
      if k: nat :| AbandonedAt(max, es, k, n, m) {
        assert k == p || AbandonedAt(max, es, k, p, m);
      }
    }
  }

  /**
   For every run: a message is left done, uncompleted and unchecked if and only if some step
   abandoned it and no row of it was inserted since.
   */
  lemma UnattendedIff(max: int, es: seq<Step>, m: MessageId)
    ensures Unattended(Run(Init, max, es), m) <==> exists k: nat :: AbandonedAt(max, es, k, |es|, m)
  {
    hide Run; hide Unattended; hide AbandonedAt;
    AtEnds(max, es);
    UnattendedAt(max, es, |es|, m);
  }

  /**
   Last one out, for every run, whatever fails in it: a message whose deliveries (at least one) are
   all terminal, and which nobody is checking any more, is completed if and only if no step
   abandoned it since its last row was inserted.
   */
  lemma LastOneOutCompletes(max: int, es: seq<Step>, m: MessageId)
    requires var s := Run(Init, max, es); Done(s, m) && !BeingChecked(s, m)
    ensures IsCompleted(Run(Init, max, es), m) <==> forall k: nat :: !AbandonedAt(max, es, k, |es|, m)
  {
    hide Run; hide AbandonedAt;
    UnattendedIff(max, es, m);
    AtEnds(max, es);
    RowsHaveMessagesAt(max, es, |es|);
  }

  /** An abandoned message stays uncompleted however the run goes on, until another row of it is inserted. */
  lemma AbandonedForGood(max: int, es: seq<Step>, k: nat, m: MessageId)
    requires AbandonedAt(max, es, k, |es|, m)
    ensures !IsCompleted(Run(Init, max, es), m)
  {
    hide Run; hide AbandonedAt;
    UnattendedIff(max, es, m);
  }

  /** Once its enqueueing is over, no row is inserted, so it stays uncompleted for good. */
  lemma AbandonedOnceQueued(max: int, es: seq<Step>, fs: seq<Step>, m: MessageId)
    requires Unattended(Run(Init, max, es), m) && Enqueued(Run(Init, max, es), m)
    ensures Unattended(Run(Init, max, es + fs), m)
  {
    hide Run; hide Next; hide Unattended; hide ClaimInv;
    var gs := es + fs;
    assert gs[..|es|] == es;
    StaysUnattended(max, gs, |es|, |gs|, m);
    AtEnds(max, gs);
  }

  lemma {:induction false} StaysUnattended(max: int, es: seq<Step>, i: nat, n: nat, m: MessageId)
    requires i <= n <= |es| && Unattended(At(max, es, i), m) && Enqueued(At(max, es, i), m)
    ensures Unattended(At(max, es, n), m) && Enqueued(At(max, es, n), m)
    decreases n
  {
    hide Run; hide Next; hide Unattended; hide ClaimInv;
    if i < n {
      StaysUnattended(max, es, i, n - 1, m);
      AtNext(max, es, n - 1);
      AtClaims(max, es, n - 1);
      RowsHaveMessagesAt(max, es, n - 1);
      AttendStep(At(max, es, n - 1), max, es[n - 1], m);
      StaysEnqueued(At(max, es, n - 1), max, es[n - 1], m);
    }
  }

  lemma StaysEnqueued(s: State, max: int, e: Step, m: MessageId)
    requires Enqueued(s, m)
    ensures Enqueued(Next(s, max, e), m) && !Inserts(s, e, m)
  {
    hide Judge; hide PendingOf; hide RowsOf; hide TerminalOf; hide ReadyAt;
  }

  // ---- Runs in which nothing is claimed before its message is queued ----

  ghost predicate ClaimsQueued(s: State, e: Step) {
    e.ClaimRow? && CanStep(s, e) ==> Enqueued(s, s.rows[e.d].msg)
  }

  /**
   No row is claimed before the queued mark of its message: what enqueueing in one transaction
   would guarantee, and the code does not.
   */
  ghost predicate QueuedFirst(max: int, es: seq<Step>) {
    forall k: nat :: k < |es| ==> ClaimsQueued(At(max, es, k), es[k])
  }

  ghost predicate QueueInv(s: State) {
    && (forall d :: d in s.rows && !s.rows[d].status.Pending? ==> Enqueued(s, s.rows[d].msg))
    && (forall w :: w in s.workers && Checks(s.workers[w].phase) ==> Enqueued(s, s.workers[w].phase.m))
    && (forall m :: m in s.msgs && s.msgs[m].status.Completed? ==> s.msgs[m].enqueued)
  }

  lemma QueueInvStep(s: State, max: int, e: Step)
    requires QueueInv(s) && ClaimInv(s, max) && ClaimsQueued(s, e)
    ensures QueueInv(Next(s, max, e))
  {
    hide ClaimInv; hide Judge; hide PendingOf; hide RowsOf; hide TerminalOf; hide ReadyAt; hide DelayForAttempt;
    if CanStep(s, e) {
      if e.Mark? { ClaimMark(s, max, e.w, e.now); }
      if e.MarkLost? { LostIsSending(s, max, e.w); }
    }
  }

  lemma LostIsSending(s: State, max: int, w: WorkerId)
    requires ClaimInv(s, max) && CanStep(s, MarkLost(w))
    ensures var d := s.workers[w].phase.claim.d; d in s.rows && s.rows[d].status.Sending?
  {
    assert WorkerOk(s, w) && Holds(s.workers[w], s.workers[w].phase.claim);
  }

  lemma {:induction false} QueueInvAt(max: int, es: seq<Step>, k: nat)
    requires k <= |es| && QueuedFirst(max, es)
    ensures QueueInv(At(max, es, k))
  {
    hide Run; hide Next; hide ClaimInv; hide ClaimsQueued;
    AtEnds(max, es);
    if k > 0 {
      QueueInvAt(max, es, k - 1);
      AtNext(max, es, k - 1);
      AtClaims(max, es, k - 1);
      QueueInvStep(At(max, es, k - 1), max, es[k - 1]);
    }
  }

  lemma QueuedFirstUnspoiled(max: int, es: seq<Step>, k: nat, m: MessageId)
    requires QueuedFirst(max, es)
    ensures !SpoiledAt(max, es, k, m)
  {
    hide Run; hide QueuedFirst;
    if k < |es| { QueueInvAt(max, es, k); }
    forall j: nat, w, d ensures !LateRow(max, es, j, k, w, m, d) {
      if j <= |es| { NoLateRow(max, es, j, k, w, m, d); }
    }
  }

  lemma NoLateRow(max: int, es: seq<Step>, j: nat, k: nat, w: WorkerId, m: MessageId, d: DeliveryId)
    requires QueuedFirst(max, es) && j <= |es|
    ensures !LateRow(max, es, j, k, w, m, d)
  {
    hide Run; hide QueuedFirst;
    QueueInvAt(max, es, j);
    if Finishing(At(max, es, j), w, m) { CheckedTakesNoRows(At(max, es, j), w, m, d); }
  }

  lemma CheckedTakesNoRows(s: State, w: WorkerId, m: MessageId, d: DeliveryId)
    requires QueueInv(s) && w in s.workers && Checking(s.workers[w], m)
    ensures !CanStep(s, Insert(m, d))
  {
  }

  /** In such a run a message is completed only when all its deliveries are terminal. */
  lemma CompletedOnlyIfDone(max: int, es: seq<Step>, m: MessageId)
    requires QueuedFirst(max, es)
    ensures Sound(Run(Init, max, es), m)
  {
    hide Run; hide QueuedFirst; hide SpoiledAt; hide Sound;
    forall k: nat | k < |es| ensures !SpoiledAt(max, es, k, m) { QueuedFirstUnspoiled(max, es, k, m); }
    CompletedOnlyIfDoneIff(max, es, m);
    AtEnds(max, es);
    assert SoundAt(max, es, |es|, m);
  }

  /** Steps in which every lookup, statement and worker does its part. */
  predicate Reliable(e: Step) {
    !e.MarkLost? && !e.CheckLost? && !e.Crash? && !(e.Attempt? && e.outcome.LookupError?)
  }

  ghost predicate NoDrops(s: State) {
    forall w :: w in s.workers && s.workers[w].phase.Marking? ==> !s.workers[w].phase.verdict.Drop?
  }

  lemma {:induction false} NoDropsAt(max: int, es: seq<Step>, k: nat)
    requires k <= |es| && forall i :: 0 <= i < |es| ==> Reliable(es[i])
    ensures NoDrops(At(max, es, k))
  {
    hide Run; hide Next; hide Reliable;
    AtEnds(max, es);
    if k > 0 {
      NoDropsAt(max, es, k - 1);
      AtNext(max, es, k - 1);
      NoDropsStep(At(max, es, k - 1), max, es[k - 1]);
    }
  }

  lemma NoDropsStep(s: State, max: int, e: Step)
    requires NoDrops(s) && Reliable(e)
    ensures NoDrops(Next(s, max, e))
  {
    hide PendingOf; hide RowsOf; hide TerminalOf; hide ReadyAt;
  }

  /** When moreover nothing fails, a message that is done and no longer checked is completed, whoever finished last. */
  lemma QueuedFirstCompletes(max: int, es: seq<Step>, m: MessageId)
    requires QueuedFirst(max, es) && forall i :: 0 <= i < |es| ==> Reliable(es[i])
    requires var s := Run(Init, max, es); Done(s, m) && !BeingChecked(s, m)
    ensures IsCompleted(Run(Init, max, es), m)
  {
    hide Run; hide QueuedFirst; hide Abandons; hide Done; hide Reliable;
    forall k: nat ensures !AbandonedAt(max, es, k, |es|, m) {
      if k < |es| { NotAbandoned(max, es, k, m); }
    }
    LastOneOutCompletes(max, es, m);
  }

  lemma NotAbandoned(max: int, es: seq<Step>, k: nat, m: MessageId)
    requires k < |es| && QueuedFirst(max, es) && forall i :: 0 <= i < |es| ==> Reliable(es[i])
    ensures !Abandons(At(max, es, k), es[k], m)
  {
    hide Run; hide QueuedFirst;
    QueueInvAt(max, es, k);
    NoDropsAt(max, es, k);
    assert Reliable(es[k]);
  }
}
