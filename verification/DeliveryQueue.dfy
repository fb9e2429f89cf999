/** Backoff of the push worker. */
module Retry {
  type Seconds = int

  /** The wait before the given attempt number (1-based). */
  function DelayForAttempt(attempt: int): Seconds {
    match attempt
    case 1 => 0
    case 2 => 5
    case 3 => 30
    case 4 => 300
    case _ => 1800
  }

  predicate ShouldRetry(retryable: bool, attempts: int, maxAttempts: int) {
    retryable && attempts < maxAttempts
  }
}

/**
 The push delivery queue: any number of workers over one table of delivery rows.

 Each SQL statement is one atomic step.  A claim takes rows one at a time here; the batch of
 `ClaimReady` is that many claims in a row.  The `Mark` statements have no status guard: they
 write the row whatever it holds.  Enqueueing inserts rows one by one and then marks the message
 queued.

 Statements can fail and a worker can stop at any point (`MarkLost`, `CheckLost`, `Crash`).
 `owner` of a row and the event log are history.
 */
module DeliveryQueue {
  import opened Wrappers
  import opened Retry

  type DeliveryId = nat
  type MessageId = nat
  type WorkerId = nat
  type Time = int

  datatype Status = Pending | Sending | Retrying | Accepted | Failed
  {
    predicate Terminal() { Accepted? || Failed? }
  }

  datatype Row = Row(msg: MessageId, status: Status, attempts: nat, nextAt: Option<Time>, owner: WorkerId)

  datatype MessageStatus = Created | Queued | Completed
  datatype Message = Message(status: MessageStatus, enqueued: bool)

  /** What looking the delivery up and sending it can come to. */
  datatype Outcome =
    | LookupError                                              // device or message not found
    | NoProvider
    | SendError(retryable: bool, invalidToken: bool)
    | NilResult
    | Result(accepted: bool, invalidToken: bool, retryable: bool)

  datatype Verdict = Accept | Fail | Defer | Drop              // Drop: failed without a completion check

  function Judge(o: Outcome, attempts: nat, max: int): Verdict {
    match o
    case LookupError => Drop
    case NoProvider => Fail
    case SendError(retryable, invalid) =>
      if invalid then Fail else if ShouldRetry(retryable, attempts, max) then Defer else Fail
    case NilResult => Fail
    case Result(accepted, invalid, retryable) =>
      if invalid then Fail
      else if accepted then Accept
      else if ShouldRetry(retryable, attempts, max) then Defer else Fail
  }

  datatype Claim = Claim(d: DeliveryId, attempt: nat)

  datatype Phase =
    | Ready
    | Marking(claim: Claim, verdict: Verdict, at: Time)   // sent at `at`, row not yet updated
    | AskPending(m: MessageId)                            // maybeCompleteMessage: HasPending next
    | AskCount(m: MessageId)                              // CountByMessage next
    | Finish(m: MessageId)                                // MarkCompleted next

  datatype Worker = Worker(batch: seq<Claim>, phase: Phase)

  datatype Event =
    | Claimed(d: DeliveryId, attempt: nat, at: Time)
    | Sent(d: DeliveryId, attempt: nat, outcome: Outcome)
    | Deferred(d: DeliveryId, attempt: nat, at: Time)     // attempt failed at `at`, will be retried

  datatype State = State(
    rows: map<DeliveryId, Row>,
    msgs: map<MessageId, Message>,
    workers: map<WorkerId, Worker>,
    log: seq<Event>)

  datatype Step =
    | CreateMessage(m: MessageId) | Insert(m: MessageId, d: DeliveryId) | MarkQueued(m: MessageId)
    | Start(w: WorkerId) | ClaimRow(w: WorkerId, d: DeliveryId, now: Time)
    | Attempt(w: WorkerId, outcome: Outcome, now: Time)
    | Mark(w: WorkerId, now: Time) | MarkLost(w: WorkerId)
    | HasPending(w: WorkerId) | CountByMessage(w: WorkerId) | MarkCompleted(w: WorkerId)
    | CheckLost(w: WorkerId) | Crash(w: WorkerId)

  const Init: State := State(map[], map[], map[], [])

  // ---- Queries ----

  function RowsOf(s: State, m: MessageId): set<DeliveryId> {
    set d | d in s.rows && s.rows[d].msg == m
  }

  function PendingOf(s: State, m: MessageId): set<DeliveryId> {
    set d | && d in s.rows && s.rows[d].msg == m
            && (s.rows[d].status.Pending? || s.rows[d].status.Sending? || s.rows[d].status.Retrying?)
  }

  function TerminalOf(s: State, m: MessageId): set<DeliveryId> {
    set d | d in s.rows && s.rows[d].msg == m && s.rows[d].status.Terminal()
  }

  predicate ReadyAt(row: Row, now: Time) {
    (row.status.Pending? || row.status.Retrying?) && (row.nextAt.None? || row.nextAt.value <= now)
  }

  // ---- Steps ----

  predicate CanStep(s: State, e: Step) {
    match e
    case CreateMessage(m) => m !in s.msgs
    case Insert(m, d) => m in s.msgs && !s.msgs[m].enqueued && d !in s.rows
    case MarkQueued(m) => m in s.msgs && !s.msgs[m].enqueued
    case Start(w) => w !in s.workers
    case ClaimRow(w, d, now) =>
      && w in s.workers && s.workers[w].phase.Ready?
      && d in s.rows && ReadyAt(s.rows[d], now)
    case Attempt(w, _, now) => w in s.workers && s.workers[w].phase.Ready? && s.workers[w].batch != []
    case Mark(w, now) => w in s.workers && s.workers[w].phase.Marking? && s.workers[w].phase.at <= now
    case MarkLost(w) => w in s.workers && s.workers[w].phase.Marking?
    case HasPending(w) => w in s.workers && s.workers[w].phase.AskPending?
    case CountByMessage(w) => w in s.workers && s.workers[w].phase.AskCount?
    case MarkCompleted(w) => w in s.workers && s.workers[w].phase.Finish?
    case CheckLost(w) =>
      w in s.workers && (s.workers[w].phase.AskPending? || s.workers[w].phase.AskCount? || s.workers[w].phase.Finish?)
    case Crash(w) => w in s.workers
  }

  function Moved(s: State, w: WorkerId, phase: Phase): State
    requires w in s.workers
  {
    s.(workers := s.workers[w := s.workers[w].(phase := phase)])
  }

  /** Where the worker goes once its Mark statement has been issued. */
  function Afterwards(s: State, p: Phase): Phase
    requires p.Marking?
  {
    if (p.verdict.Accept? || p.verdict.Fail?) && p.claim.d in s.rows then AskPending(s.rows[p.claim.d].msg) else Ready
  }

  function Written(row: Row, p: Phase, now: Time): Row
    requires p.Marking?
  {
    match p.verdict
    case Accept => row.(status := Accepted, nextAt := None)
    case Fail => row.(status := Failed, nextAt := None)
    case Drop => row.(status := Failed, nextAt := None)
    case Defer => row.(status := Retrying, nextAt := Some(now + DelayForAttempt(p.claim.attempt + 1)))
  }

  function DoClaim(s: State, w: WorkerId, d: DeliveryId, now: Time): State
    requires w in s.workers && d in s.rows
  {
    var n := s.rows[d].attempts + 1;
    s.(rows := s.rows[d := s.rows[d].(status := Sending, attempts := n, owner := w)],
       workers := s.workers[w := s.workers[w].(batch := s.workers[w].batch + [Claim(d, n)])],
       log := s.log + [Claimed(d, n, now)])
  }

  function DoAttempt(s: State, max: int, w: WorkerId, o: Outcome, now: Time): State
    requires w in s.workers && s.workers[w].batch != []
  {
    var c := s.workers[w].batch[0];
    s.(workers := s.workers[w := Worker(s.workers[w].batch[1..], Marking(c, Judge(o, c.attempt, max), now))],
       log := if o.LookupError? || o.NoProvider? then s.log else s.log + [Sent(c.d, c.attempt, o)])
  }

  function DoMark(s: State, w: WorkerId, now: Time): State
    requires w in s.workers && s.workers[w].phase.Marking?
  {
    var p := s.workers[w].phase;
    var d := p.claim.d;
    if d !in s.rows then Moved(s, w, Ready)
    else
      Moved(s, w, Afterwards(s, p)).(
        rows := s.rows[d := Written(s.rows[d], p, now)],
        log := if p.verdict.Defer? then s.log + [Deferred(d, p.claim.attempt, p.at)] else s.log)
  }

  function Next(s: State, max: int, e: Step): State {
    if !CanStep(s, e) then s
    else
      match e
      case CreateMessage(m) => s.(msgs := s.msgs[m := Message(Created, false)])
      case Insert(m, d) => s.(rows := s.rows[d := Row(m, Pending, 0, None, 0)])
      case MarkQueued(m) => s.(msgs := s.msgs[m := Message(Queued, true)])
      case Start(w) => s.(workers := s.workers[w := Worker([], Ready)])
      case ClaimRow(w, d, now) => DoClaim(s, w, d, now)
      case Attempt(w, o, now) => DoAttempt(s, max, w, o, now)
      case Mark(w, now) => DoMark(s, w, now)
      case MarkLost(w) => Moved(s, w, Afterwards(s, s.workers[w].phase))
      case HasPending(w) =>
        var m := s.workers[w].phase.m;
        Moved(s, w, if |PendingOf(s, m)| > 0 then Ready else AskCount(m))
      case CountByMessage(w) =>
        var m := s.workers[w].phase.m;
        var total, terminal := |RowsOf(s, m)|, |TerminalOf(s, m)|;
        Moved(s, w, if total == 0 || terminal < total then Ready else Finish(m))
      case MarkCompleted(w) =>
        var m := s.workers[w].phase.m;
        var t := Moved(s, w, Ready);
        if m in s.msgs then t.(msgs := s.msgs[m := s.msgs[m].(status := Completed)]) else t
      case CheckLost(w) => Moved(s, w, Ready)
      case Crash(w) => s.(workers := s.workers[w := Worker([], Ready)])
  }

  function Run(s: State, max: int, es: seq<Step>): State
    decreases |es|
  {
    if es == [] then s else Run(Next(s, max, es[0]), max, es[1..])
  }

  // ---- Claim exclusivity ----

  /** Worker `w` holds this claim: claimed, and its Mark statement not yet issued. */
  ghost predicate Holds(worker: Worker, c: Claim) {
    c in worker.batch || (worker.phase.Marking? && worker.phase.claim == c)
  }

  ghost predicate WorkerOk(s: State, w: WorkerId)
    requires w in s.workers
  {
    var worker := s.workers[w];
    && (forall c :: Holds(worker, c) ==>
          && c.d in s.rows && s.rows[c.d].status.Sending?
          && s.rows[c.d].attempts == c.attempt && s.rows[c.d].owner == w)
    && (forall i, j :: 0 <= i < j < |worker.batch| ==> worker.batch[i].d != worker.batch[j].d)
    && (worker.phase.Marking? ==>
          forall i :: 0 <= i < |worker.batch| ==> worker.batch[i].d != worker.phase.claim.d)
  }

  function Limit(max: int): nat { if max < 1 then 1 else max }

  ghost predicate RowOk(row: Row, max: int) {
    && row.attempts <= Limit(max)
    && (row.status.Pending? ==> row.attempts == 0 && row.nextAt.None?)
    && (row.status.Sending? ==> row.attempts >= 1)
    && (row.status.Retrying? ==> 1 <= row.attempts < max && row.nextAt.Some?)
  }

  ghost predicate VerdictOk(worker: Worker, max: int) {
    worker.phase.Marking? && worker.phase.verdict.Defer? ==> 1 <= worker.phase.claim.attempt < max
  }

  ghost predicate ClaimInv(s: State, max: int) {
    && (forall w :: w in s.workers ==> WorkerOk(s, w) && VerdictOk(s.workers[w], max))
    && (forall d :: d in s.rows ==> RowOk(s.rows[d], max))
  }

  /** A step that changes no row keeps the workers whose claims it keeps. */
  lemma ClaimFrame(s: State, t: State, max: int, w: int)
    requires ClaimInv(s, max) && t.rows == s.rows
    requires forall w' :: w' in t.workers && w' != w ==> w' in s.workers && t.workers[w'] == s.workers[w']
    requires w in t.workers ==> WorkerOk(t, w) && VerdictOk(t.workers[w], max)
    ensures ClaimInv(t, max)
  {
    forall w' | w' in t.workers ensures WorkerOk(t, w') && VerdictOk(t.workers[w'], max) {
      if w' != w { assert WorkerOk(s, w'); }
    }
  }

  lemma ClaimClaim(s: State, max: int, w: WorkerId, d: DeliveryId, now: Time)
    requires ClaimInv(s, max) && CanStep(s, ClaimRow(w, d, now))
    ensures ClaimInv(DoClaim(s, w, d, now), max)
  {
    var t := DoClaim(s, w, d, now);
    assert RowOk(s.rows[d], max);
    forall w' | w' in t.workers ensures WorkerOk(t, w') && VerdictOk(t.workers[w'], max) {
      assert WorkerOk(s, w');
      forall c | Holds(s.workers[w'], c) ensures c.d != d {}
      assert forall i :: 0 <= i < |s.workers[w'].batch| ==> Holds(s.workers[w'], s.workers[w'].batch[i]);
    }
  }

  lemma ClaimAttempt(s: State, max: int, w: WorkerId, o: Outcome, now: Time)
    requires ClaimInv(s, max) && CanStep(s, Attempt(w, o, now))
    ensures ClaimInv(DoAttempt(s, max, w, o, now), max)
  {
    var t := DoAttempt(s, max, w, o, now);
    assert WorkerOk(s, w);
    var c := s.workers[w].batch[0];
    assert Holds(s.workers[w], c);
    assert RowOk(s.rows[c.d], max);
    assert WorkerOk(t, w) by {
      forall c' | Holds(t.workers[w], c') ensures Holds(s.workers[w], c') {}
    }
    ClaimFrame(s, t, max, w);
  }

  /** Only the worker that holds a delivery's claim may be about to write its row. */
  lemma ClaimMark(s: State, max: int, w: WorkerId, now: Time)
    requires ClaimInv(s, max) && CanStep(s, Mark(w, now))
    ensures ClaimInv(DoMark(s, w, now), max)
    ensures s.workers[w].phase.claim.d in s.rows && s.rows[s.workers[w].phase.claim.d].status.Sending?
  {
    var t := DoMark(s, w, now);
    var p := s.workers[w].phase;
    assert WorkerOk(s, w) && Holds(s.workers[w], p.claim);
    assert RowOk(s.rows[p.claim.d], max);
    forall w' | w' in t.workers ensures WorkerOk(t, w') && VerdictOk(t.workers[w'], max) {
      assert WorkerOk(s, w');
      forall c | Holds(t.workers[w'], c) ensures Holds(s.workers[w'], c) && c.d != p.claim.d {}
    }
  }

  lemma ClaimInsert(s: State, t: State, max: int)
    requires ClaimInv(s, max) && t.workers == s.workers
    requires forall d :: d in s.rows ==> d in t.rows && t.rows[d] == s.rows[d]
    requires forall d :: d in t.rows && d !in s.rows ==> RowOk(t.rows[d], max)
    ensures ClaimInv(t, max)
  {
    forall w | w in t.workers ensures WorkerOk(t, w) { assert WorkerOk(s, w); }
    forall d | d in t.rows ensures RowOk(t.rows[d], max) {
      if d in s.rows { assert RowOk(s.rows[d], max); }
    }
  }

  /** The worker drops its current claim, or all of them. */
  lemma ClaimDropped(s: State, max: int, w: WorkerId, worker: Worker)
    requires ClaimInv(s, max) && w in s.workers && !worker.phase.Marking?
    requires worker.batch == [] || worker.batch == s.workers[w].batch
    ensures ClaimInv(s.(workers := s.workers[w := worker]), max)
  {
    var t := s.(workers := s.workers[w := worker]);
    assert WorkerOk(s, w);
    assert WorkerOk(t, w) by {
      forall c | Holds(worker, c) ensures Holds(s.workers[w], c) {}
    }
    ClaimFrame(s, t, max, w);
  }

  lemma ClaimStep(s: State, max: int, e: Step)
    requires ClaimInv(s, max)
    ensures ClaimInv(Next(s, max, e), max)
  {
    hide ClaimInv; hide PendingOf; hide RowsOf; hide TerminalOf; hide ReadyAt;
    var t := Next(s, max, e);
    if CanStep(s, e) {
      match e
      case CreateMessage(_) => ClaimInsert(s, t, max);
      case Insert(_, _) => ClaimInsert(s, t, max);
      case MarkQueued(_) => ClaimInsert(s, t, max);
      case Start(w) => ClaimFrame(s, t, max, w);
      case ClaimRow(w, d, now) => ClaimClaim(s, max, w, d, now);
      case Attempt(w, o, now) => ClaimAttempt(s, max, w, o, now);
      case Mark(w, now) => ClaimMark(s, max, w, now);
      case MarkLost(w) => ClaimDropped(s, max, w, t.workers[w]);
      case HasPending(w) => ClaimDropped(s, max, w, t.workers[w]);
      case CountByMessage(w) => ClaimDropped(s, max, w, t.workers[w]);
      case MarkCompleted(w) =>
        ClaimDropped(s, max, w, t.workers[w]);
        ClaimInsert(s.(workers := t.workers), t, max);
      case CheckLost(w) => ClaimDropped(s, max, w, t.workers[w]);
      case Crash(w) => ClaimDropped(s, max, w, t.workers[w]);
    }
  }

  lemma {:induction false} ClaimRun(s: State, max: int, es: seq<Step>)
    requires ClaimInv(s, max)
    ensures ClaimInv(Run(s, max, es), max)
    decreases |es|
  {
    hide ClaimInv; hide Next;
    if es != [] {
      ClaimStep(s, max, es[0]);
      ClaimRun(Next(s, max, es[0]), max, es[1..]);
    }
  }

  /** A delivery that is being sent is held by at most one worker, whatever else happens. */
  lemma OneOwner(max: int, es: seq<Step>, w1: WorkerId, w2: WorkerId, c1: Claim, c2: Claim)
    requires var s := Run(Init, max, es);
      w1 in s.workers && w2 in s.workers && Holds(s.workers[w1], c1) && Holds(s.workers[w2], c2) && c1.d == c2.d
    ensures w1 == w2 && c1 == c2
    ensures var s := Run(Init, max, es);
      c1.d in s.rows && s.rows[c1.d].status.Sending? && s.rows[c1.d].attempts == c1.attempt
  {
    hide Run;
    ClaimRun(Init, max, es);
    var s := Run(Init, max, es);
    assert WorkerOk(s, w1) && WorkerOk(s, w2);
  }

  // ---- Terminal rows are final ----

  lemma TerminalStep(s: State, max: int, e: Step, d: DeliveryId)
    requires ClaimInv(s, max) && d in s.rows && s.rows[d].status.Terminal()
    ensures d in Next(s, max, e).rows && Next(s, max, e).rows[d] == s.rows[d]
  {
    hide PendingOf; hide RowsOf; hide TerminalOf;
    if CanStep(s, e) && e.Mark? {
      assert WorkerOk(s, e.w) && Holds(s.workers[e.w], s.workers[e.w].phase.claim);
    }
  }

  /** Once accepted or failed, a delivery row never changes again. */
  lemma {:induction false} TerminalIsFinal(max: int, es: seq<Step>, fs: seq<Step>, d: DeliveryId)
    requires var s := Run(Init, max, es); d in s.rows && s.rows[d].status.Terminal()
    ensures var s := Run(Init, max, es); var t := Run(s, max, fs);
      d in t.rows && t.rows[d] == s.rows[d]
  {
    hide Run;
    ClaimRun(Init, max, es);
    TerminalRun(Run(Init, max, es), max, fs, d);
  }

  lemma {:induction false} TerminalRun(s: State, max: int, es: seq<Step>, d: DeliveryId)
    requires ClaimInv(s, max) && d in s.rows && s.rows[d].status.Terminal()
    ensures d in Run(s, max, es).rows && Run(s, max, es).rows[d] == s.rows[d]
    decreases |es|
  {
    hide Next; hide ClaimInv;
    if es != [] {
      TerminalStep(s, max, es[0], d);
      ClaimStep(s, max, es[0]);
      TerminalRun(Next(s, max, es[0]), max, es[1..], d);
    }
  }

  // ---- How often a delivery is claimed and sent ----

  function Claims(log: seq<Event>, d: DeliveryId): nat {
    if log == [] then 0
    else Claims(log[..|log| - 1], d) + (if log[|log| - 1].Claimed? && log[|log| - 1].d == d then 1 else 0)
  }

  function Sends(log: seq<Event>, d: DeliveryId): nat {
    if log == [] then 0
    else Sends(log[..|log| - 1], d) + (if log[|log| - 1].Sent? && log[|log| - 1].d == d then 1 else 0)
  }

  lemma CountsAppend(log: seq<Event>, e: Event, d: DeliveryId)
    ensures Claims(log + [e], d) == Claims(log, d) + (if e.Claimed? && e.d == d then 1 else 0)
    ensures Sends(log + [e], d) == Sends(log, d) + (if e.Sent? && e.d == d then 1 else 0)
  {
    assert (log + [e])[..|log|] == log;
  }

  ghost predicate CountOk(s: State, d: DeliveryId) {
    && Claims(s.log, d) == (if d in s.rows then s.rows[d].attempts else 0)
    && Sends(s.log, d) <= Claims(s.log, d)
  }

  /** A claim still in a batch has not been sent. */
  ghost predicate UnsentOk(s: State, w: WorkerId)
    requires w in s.workers
  {
    forall c :: c in s.workers[w].batch ==> Sends(s.log, c.d) < c.attempt
  }

  ghost predicate CountInv(s: State) {
    && (forall d :: CountOk(s, d))
    && (forall w :: w in s.workers ==> UnsentOk(s, w))
  }

  lemma CountClaim(s: State, max: int, w: WorkerId, d: DeliveryId, now: Time)
    requires CountInv(s) && ClaimInv(s, max) && CanStep(s, ClaimRow(w, d, now))
    ensures CountInv(DoClaim(s, w, d, now))
  {
    hide Claims; hide Sends;
    var t := DoClaim(s, w, d, now);
    var e := t.log[|s.log|];
    forall d' ensures CountOk(t, d') { CountsAppend(s.log, e, d'); assert CountOk(s, d'); }
    forall w' | w' in t.workers ensures UnsentOk(t, w') {
      assert UnsentOk(s, w') && CountOk(s, d);
      forall c | c in t.workers[w'].batch ensures Sends(t.log, c.d) < c.attempt { CountsAppend(s.log, e, c.d); }
    }
  }

  lemma CountAttempt(s: State, max: int, w: WorkerId, o: Outcome, now: Time)
    requires CountInv(s) && ClaimInv(s, max) && CanStep(s, Attempt(w, o, now))
    ensures CountInv(DoAttempt(s, max, w, o, now))
  {
    hide Claims; hide Sends; hide Judge;
    var t := DoAttempt(s, max, w, o, now);
    var c0 := s.workers[w].batch[0];
    assert WorkerOk(s, w) && UnsentOk(s, w) && Holds(s.workers[w], c0);
    var e := Sent(c0.d, c0.attempt, o);
    forall d ensures CountOk(t, d) { CountsAppend(s.log, e, d); assert CountOk(s, d); }
    forall w' | w' in t.workers ensures UnsentOk(t, w') {
      assert UnsentOk(s, w') && WorkerOk(s, w');
      forall c | c in t.workers[w'].batch ensures Sends(t.log, c.d) < c.attempt {
        assert Holds(s.workers[w'], c);
        CountsAppend(s.log, e, c.d);
        assert c.d != c0.d;
      }
    }
  }

  /** A step that neither claims nor sends. */
  lemma CountFrame(s: State, t: State)
    requires CountInv(s)
    requires t.log == s.log || (|t.log| == |s.log| + 1 && t.log[..|s.log|] == s.log && t.log[|s.log|].Deferred?)
    requires forall d :: (d in s.rows ==> d in t.rows && t.rows[d].attempts == s.rows[d].attempts)
                      && (d in t.rows && d !in s.rows ==> t.rows[d].attempts == 0)
    requires forall w :: w in t.workers ==>
      t.workers[w].batch == [] || (w in s.workers && t.workers[w].batch == s.workers[w].batch)
    ensures CountInv(t)
  {
    hide Claims; hide Sends;
    if t.log != s.log { assert t.log == s.log + [t.log[|s.log|]]; }
    forall d ensures Claims(t.log, d) == Claims(s.log, d) && Sends(t.log, d) == Sends(s.log, d) {
      if t.log != s.log { CountsAppend(s.log, t.log[|s.log|], d); }
    }
    forall d ensures CountOk(t, d) { assert CountOk(s, d); }
    forall w | w in t.workers ensures UnsentOk(t, w) {
      if w in s.workers { assert UnsentOk(s, w); }
    }
  }

  lemma CountStep(s: State, max: int, e: Step)
    requires CountInv(s) && ClaimInv(s, max)
    ensures CountInv(Next(s, max, e))
  {
    hide CountInv; hide ClaimInv; hide PendingOf; hide RowsOf; hide TerminalOf;
    hide ReadyAt; hide Judge;
    if CanStep(s, e) {
      match e
      case ClaimRow(w, d, now) => CountClaim(s, max, w, d, now);
      case Attempt(w, o, now) => CountAttempt(s, max, w, o, now);
      case Mark(w, now) => CountFrame(s, Next(s, max, e));
      case _ => CountFrame(s, Next(s, max, e));
    }
  }

  lemma {:induction false} CountRun(s: State, max: int, es: seq<Step>)
    requires CountInv(s) && ClaimInv(s, max)
    ensures CountInv(Run(s, max, es)) && ClaimInv(Run(s, max, es), max)
    decreases |es|
  {
    hide CountInv; hide ClaimInv; hide Next;
    if es != [] {
      ClaimStep(s, max, es[0]);
      CountStep(s, max, es[0]);
      CountRun(Next(s, max, es[0]), max, es[1..]);
    }
  }

  /** A delivery is claimed, and so sent, at most max(1, maxAttempt) times in any run. */
  lemma SentAtMostLimit(max: int, es: seq<Step>, d: DeliveryId)
    ensures var s := Run(Init, max, es);
      Sends(s.log, d) <= Claims(s.log, d) <= Limit(max)
  {
    hide Run;
    CountRun(Init, max, es);
    var s := Run(Init, max, es);
    assert CountOk(s, d);
    assert d in s.rows ==> RowOk(s.rows[d], max);
  }

  // ---- All claims of a run are bounded ----

  function ClaimsIn(log: seq<Event>, ds: set<DeliveryId>): nat {
    if log == [] then 0
    else ClaimsIn(log[..|log| - 1], ds) + (if log[|log| - 1].Claimed? && log[|log| - 1].d in ds then 1 else 0)
  }

  lemma {:induction false} ClaimsInSplit(log: seq<Event>, ds: set<DeliveryId>, d: DeliveryId)
    requires d in ds
    ensures ClaimsIn(log, ds) == Claims(log, d) + ClaimsIn(log, ds - {d})
    decreases |log|
  {
    if log != [] {
      ClaimsInSplit(log[..|log| - 1], ds, d);
    }
  }

  lemma {:induction false} ClaimsInBounded(log: seq<Event>, ds: set<DeliveryId>, bound: nat)
    requires forall d :: d in ds ==> Claims(log, d) <= bound
    ensures ClaimsIn(log, ds) <= |ds| * bound
    decreases |ds|
  {
    if ds == {} {
      NoClaimsInEmpty(log);
    } else {
      var d :| d in ds;
      ClaimsInSplit(log, ds, d);
      ClaimsInBounded(log, ds - {d}, bound);
      assert |ds| * bound == |ds - {d}| * bound + bound;
    }
  }

  lemma {:induction false} NoClaimsInEmpty(log: seq<Event>)
    ensures ClaimsIn(log, {}) == 0
    decreases |log|
  {
    if log != [] { NoClaimsInEmpty(log[..|log| - 1]); }
  }

  /** However long a run is, it claims at most that many times the number of deliveries. */
  lemma ClaimsBounded(max: int, es: seq<Step>)
    ensures var s := Run(Init, max, es);
      ClaimsIn(s.log, s.rows.Keys) <= |s.rows| * Limit(max)
    ensures var s := Run(Init, max, es);
      forall i :: 0 <= i < |s.log| && s.log[i].Claimed? ==> s.log[i].d in s.rows
  {
    hide Run;
    CountRun(Init, max, es);
    var s := Run(Init, max, es);
    forall d | d in s.rows.Keys ensures Claims(s.log, d) <= Limit(max) { SentAtMostLimit(max, es, d); }
    ClaimsInBounded(s.log, s.rows.Keys, Limit(max));
    forall i | 0 <= i < |s.log| && s.log[i].Claimed? ensures s.log[i].d in s.rows {
      ClaimCounted(s.log, i);
      assert CountOk(s, s.log[i].d);
    }
  }

  lemma {:induction false} ClaimCounted(log: seq<Event>, i: nat)
    requires i < |log| && log[i].Claimed?
    ensures Claims(log, log[i].d) >= 1
    decreases |log|
  {
    if i < |log| - 1 {
      ClaimCounted(log[..|log| - 1], i);
    }
  }

  // ---- Backoff ----

  /** Deferred(d, n) is the last word on attempt n: the row is retrying, and not ready before its delay. */
  ghost predicate DeferOk(s: State, i: nat)
    requires i < |s.log|
  {
    s.log[i].Deferred? ==>
      var Deferred(d, n, t) := s.log[i];
      && d in s.rows && n <= s.rows[d].attempts
      && (n == s.rows[d].attempts ==>
            && s.rows[d].status.Retrying? && s.rows[d].nextAt.Some?
            && t + DelayForAttempt(n + 1) <= s.rows[d].nextAt.value)
  }

  ghost predicate ClaimedOk(s: State, i: nat)
    requires i < |s.log|
  {
    s.log[i].Claimed? ==> s.log[i].d in s.rows && s.log[i].attempt <= s.rows[s.log[i].d].attempts
  }

  ghost predicate WasDeferred(log: seq<Event>, d: DeliveryId, n: nat) {
    exists i :: 0 <= i < |log| && log[i].Deferred? && log[i].d == d && log[i].attempt == n
  }

  /** Attempt n+1 is claimed after failure n, and not before its delay has passed. */
  ghost predicate Spaced(log: seq<Event>, i: nat, j: nat)
    requires i < |log| && j < |log|
  {
    log[i].Deferred? && log[j].Claimed? && log[i].d == log[j].d && log[j].attempt == log[i].attempt + 1 ==>
      i < j && log[i].at + DelayForAttempt(log[j].attempt) <= log[j].at
  }

  ghost predicate BackoffInv(s: State) {
    && (forall i :: 0 <= i < |s.log| ==> DeferOk(s, i) && ClaimedOk(s, i))
    && (forall d :: d in s.rows && s.rows[d].status.Retrying? ==> WasDeferred(s.log, d, s.rows[d].attempts))
    && (forall i, j :: 0 <= i < |s.log| && 0 <= j < |s.log| ==> Spaced(s.log, i, j))
    && (forall j :: 0 <= j < |s.log| && s.log[j].Claimed? && s.log[j].attempt >= 2 ==>
          WasDeferred(s.log, s.log[j].d, s.log[j].attempt - 1))
  }

  lemma WasDeferredKept(log: seq<Event>, e: Event, d: DeliveryId, n: nat)
    requires WasDeferred(log, d, n)
    ensures WasDeferred(log + [e], d, n)
  {
    var i :| 0 <= i < |log| && log[i].Deferred? && log[i].d == d && log[i].attempt == n;
    assert (log + [e])[i] == log[i];
  }

  lemma BackoffClaim(s: State, max: int, w: WorkerId, d: DeliveryId, now: Time)
    requires BackoffInv(s) && ClaimInv(s, max) && CanStep(s, ClaimRow(w, d, now))
    ensures BackoffInv(DoClaim(s, w, d, now))
  {
    hide WasDeferred; hide DelayForAttempt;
    var t := DoClaim(s, w, d, now);
    var e := t.log[|s.log|];
    assert t.log == s.log + [e];
    assert RowOk(s.rows[d], max);
    forall i | 0 <= i < |t.log| ensures DeferOk(t, i) && ClaimedOk(t, i) {
      if i < |s.log| { assert DeferOk(s, i) && ClaimedOk(s, i); }
    }
    forall d', n | WasDeferred(s.log, d', n) ensures WasDeferred(t.log, d', n) { WasDeferredKept(s.log, e, d', n); }
    forall i, j | 0 <= i < |t.log| && 0 <= j < |t.log| ensures Spaced(t.log, i, j) {
      if i < |s.log| && j < |s.log| { assert Spaced(s.log, i, j); }
      else if i < |s.log| { assert DeferOk(s, i); }
    }
  }

  lemma BackoffMark(s: State, max: int, w: WorkerId, now: Time)
    requires BackoffInv(s) && ClaimInv(s, max) && CanStep(s, Mark(w, now))
    ensures BackoffInv(DoMark(s, w, now))
  {
    hide WasDeferred; hide DelayForAttempt;
    var t := DoMark(s, w, now);
    var p := s.workers[w].phase;
    var d := p.claim.d;
    assert WorkerOk(s, w) && Holds(s.workers[w], p.claim);
    if p.verdict.Defer? {
      var e := t.log[|s.log|];
      assert t.log == s.log + [e];
      forall i | 0 <= i < |t.log| ensures DeferOk(t, i) && ClaimedOk(t, i) {
        if i < |s.log| { assert DeferOk(s, i) && ClaimedOk(s, i); }
      }
      forall d', n | WasDeferred(s.log, d', n) ensures WasDeferred(t.log, d', n) { WasDeferredKept(s.log, e, d', n); }
      JustDeferred(s.log, d, p.claim.attempt, p.at);
      forall i, j | 0 <= i < |t.log| && 0 <= j < |t.log| ensures Spaced(t.log, i, j) {
        if i < |s.log| && j < |s.log| { assert Spaced(s.log, i, j); }
        else if j < |s.log| { assert ClaimedOk(s, j); }
      }
    } else {
      forall i | 0 <= i < |t.log| ensures DeferOk(t, i) && ClaimedOk(t, i) { assert DeferOk(s, i) && ClaimedOk(s, i); }
    }
  }

  lemma JustDeferred(log: seq<Event>, d: DeliveryId, n: nat, at: Time)
    ensures WasDeferred(log + [Deferred(d, n, at)], d, n)
  {
    assert (log + [Deferred(d, n, at)])[|log|].Deferred?;
  }

  /** A step that leaves existing rows alone and adds no claim and no deferral. */
  lemma BackoffFrame(s: State, t: State)
    requires BackoffInv(s)
    requires forall d :: d in s.rows ==> d in t.rows && t.rows[d] == s.rows[d]
    requires forall d :: d in t.rows && d !in s.rows ==> t.rows[d].status.Pending?
    requires t.log == s.log || (|t.log| == |s.log| + 1 && t.log[..|s.log|] == s.log && t.log[|s.log|].Sent?)
    ensures BackoffInv(t)
  {
    hide WasDeferred; hide DelayForAttempt;
    if t.log != s.log { assert t.log == s.log + [t.log[|s.log|]]; }
    forall d, n | WasDeferred(s.log, d, n) ensures WasDeferred(t.log, d, n) {
      if t.log != s.log { WasDeferredKept(s.log, t.log[|s.log|], d, n); }
    }
    forall i | 0 <= i < |t.log| ensures DeferOk(t, i) && ClaimedOk(t, i) {
      if i < |s.log| { assert t.log[i] == s.log[i]; assert DeferOk(s, i) && ClaimedOk(s, i); }
    }
    forall i, j | 0 <= i < |t.log| && 0 <= j < |t.log| ensures Spaced(t.log, i, j) {
      if i < |s.log| && j < |s.log| {
        assert t.log[i] == s.log[i] && t.log[j] == s.log[j];
        assert Spaced(s.log, i, j);
      }
    }
    forall j | 0 <= j < |t.log| && t.log[j].Claimed? && t.log[j].attempt >= 2
      ensures WasDeferred(t.log, t.log[j].d, t.log[j].attempt - 1)
    {
      assert t.log[j] == s.log[j];
    }
  }

  lemma BackoffStep(s: State, max: int, e: Step)
    requires BackoffInv(s) && ClaimInv(s, max)
    ensures BackoffInv(Next(s, max, e))
  {
    hide BackoffInv; hide ClaimInv; hide PendingOf; hide RowsOf; hide TerminalOf;
    hide ReadyAt; hide Judge;
    if CanStep(s, e) {
      match e
      case ClaimRow(w, d, now) => BackoffClaim(s, max, w, d, now);
      case Mark(w, now) => BackoffMark(s, max, w, now);
      case _ => BackoffFrame(s, Next(s, max, e));
    }
  }

  lemma {:induction false} BackoffRun(s: State, max: int, es: seq<Step>)
    requires BackoffInv(s) && ClaimInv(s, max)
    ensures BackoffInv(Run(s, max, es))
    decreases |es|
  {
    hide BackoffInv; hide ClaimInv; hide Next;
    if es != [] {
      ClaimStep(s, max, es[0]);
      BackoffStep(s, max, es[0]);
      BackoffRun(Next(s, max, es[0]), max, es[1..]);
    }
  }

  /** Seconds to wait before an attempt; any later one waits half an hour. */
  const BACKOFF: map<int, int> := map[1 := 0, 2 := 5, 3 := 30, 4 := 300]

  function Backoff(attempt: nat): int {
    if attempt in BACKOFF then BACKOFF[attempt] else 1800
  }

  lemma DelayIsBackoff(attempt: nat)
    ensures DelayForAttempt(attempt) == Backoff(attempt)
  {
  }

  /**
   Attempt n+1 of a delivery is claimed only after attempt n failed and the backoff has passed
   since (5 seconds, 30 seconds, 5 minutes, then 30 minutes), by the readings taken at the failure
   and the claim; every later attempt has such a failure before it.  Readings of different workers
   may take effect out of order.
   */
  lemma RetriesAreSpaced(max: int, es: seq<Step>, j: nat)
    requires j < |Run(Init, max, es).log| && Run(Init, max, es).log[j].Claimed?
    ensures var log := Run(Init, max, es).log;
      && (forall i :: && 0 <= i < |log| && log[i].Deferred? && log[i].d == log[j].d
                      && log[i].attempt + 1 == log[j].attempt ==>
            i < j && log[i].at + Backoff(log[j].attempt) <= log[j].at)
      && (log[j].attempt >= 2 ==> WasDeferred(log, log[j].d, log[j].attempt - 1))
  {
    hide Run; hide DelayForAttempt; hide WasDeferred; hide Backoff;
    BackoffRun(Init, max, es);
    var log := Run(Init, max, es).log;
    forall i | 0 <= i < |log| && log[i].Deferred? && log[i].d == log[j].d && log[i].attempt + 1 == log[j].attempt
      ensures i < j && log[i].at + Backoff(log[j].attempt) <= log[j].at
    {
      assert Spaced(log, i, j);
      DelayIsBackoff(log[j].attempt);
    }
  }

  /** No longer than that: once deferred at `now`, a delivery can be claimed from the end of its backoff on. */
  lemma DeferredReadyAt(s: State, max: int, w: WorkerId, now: Time, v: WorkerId, at: Time)
    requires ClaimInv(s, max) && CanStep(s, Mark(w, now)) && s.workers[w].phase.verdict.Defer?
    requires v in s.workers && (v == w || s.workers[v].phase.Ready?)
    ensures var c := s.workers[w].phase.claim;
      CanStep(DoMark(s, w, now), ClaimRow(v, c.d, at)) <==> now + Backoff(c.attempt + 1) <= at
  {
    ClaimMark(s, max, w, now);
    DelayIsBackoff(s.workers[w].phase.claim.attempt + 1);
    hide ClaimInv; hide DelayForAttempt; hide Backoff;
  }

  /** And a new delivery can be claimed at once. */
  lemma PendingIsClaimable(max: int, es: seq<Step>, w: WorkerId, d: DeliveryId, now: Time)
    requires var s := Run(Init, max, es);
      w in s.workers && s.workers[w].phase.Ready? && d in s.rows && s.rows[d].status.Pending?
    ensures CanStep(Run(Init, max, es), ClaimRow(w, d, now))
  {
    hide Run;
    ClaimRun(Init, max, es);
    assert RowOk(Run(Init, max, es).rows[d], max);
  }

  // ---- Moments of a run ----

  lemma {:induction false} RunConcat(s: State, max: int, es: seq<Step>, fs: seq<Step>)
    ensures Run(s, max, es + fs) == Run(Run(s, max, es), max, fs)
    decreases |es|
  {
    hide Next;
    if es == [] {
      assert es + fs == fs;
    } else {
      assert (es + fs)[1..] == es[1..] + fs;
      RunConcat(Next(s, max, es[0]), max, es[1..], fs);
    }
  }

  /** The state before step `k` of the run. */
  function At(max: int, es: seq<Step>, k: nat): State
    requires k <= |es|
  {
    Run(Init, max, es[..k])
  }

  lemma AtNext(max: int, es: seq<Step>, k: nat)
    requires k < |es|
    ensures At(max, es, k + 1) == Next(At(max, es, k), max, es[k])
  {
    hide Next;
    assert es[..k + 1] == es[..k] + [es[k]];
    RunConcat(Init, max, es[..k], [es[k]]);
  }

  lemma AtEnds(max: int, es: seq<Step>)
    ensures At(max, es, 0) == Init && At(max, es, |es|) == Run(Init, max, es)
  {
    hide Next;
    assert es[..|es|] == es;
  }

  lemma AtClaims(max: int, es: seq<Step>, k: nat)
    requires k <= |es|
    ensures ClaimInv(At(max, es, k), max)
  {
    hide Run;
    ClaimRun(Init, max, es[..k]);
  }
}
