/** What the provider's answers make of a delivery, over all runs of the queue. */
module DeliveryFate {
  import opened DeliveryQueue

  /** The provider took the message. */
  predicate Taken(o: Outcome) { o.Result? && o.accepted && !o.invalidToken }

  /** The send failed in a way that may be tried again. */
  predicate Transient(o: Outcome) {
    || (o.SendError? && o.retryable && !o.invalidToken)
    || (o.Result? && !o.accepted && !o.invalidToken && o.retryable)
  }

  function StatusOf(v: Verdict): Status {
    match v
    case Accept => Accepted
    case Defer => Retrying
    case Fail => Failed
    case Drop => Failed
  }

  /** Worker `w` has claim `c` behind it, or is about to write verdict `v` for it. */
  ghost predicate Past(worker: Worker, c: Claim, v: Verdict) {
    c !in worker.batch && (worker.phase.Marking? && worker.phase.claim == c ==> worker.phase.verdict == v)
  }

  /** How the row stands after the send recorded at `i`. */
  ghost predicate SendOk(s: State, max: int, i: nat)
    requires i < |s.log| && s.log[i].Sent?
  {
    var Sent(d, n, o) := s.log[i];
    && d in s.rows && 1 <= n <= s.rows[d].attempts
    && (n < s.rows[d].attempts ==> Judge(o, n, max).Defer?)
    && (n == s.rows[d].attempts && !s.rows[d].status.Sending? ==> s.rows[d].status == StatusOf(Judge(o, n, max)))
    && (n == s.rows[d].attempts && s.rows[d].status.Sending? ==>
          forall w :: w in s.workers ==> Past(s.workers[w], Claim(d, n), Judge(o, n, max)))
  }

  /** Attempt `n` of `d` was sent, with an outcome judged `v`. */
  ghost predicate WasSent(log: seq<Event>, max: int, d: DeliveryId, n: nat, v: Verdict) {
    exists i :: && 0 <= i < |log| && log[i].Sent? && log[i].d == d && log[i].attempt == n
                && Judge(log[i].outcome, n, max) == v
  }

  ghost predicate RowBacked(s: State, max: int, d: DeliveryId)
    requires d in s.rows
  {
    && (s.rows[d].status.Accepted? ==> WasSent(s.log, max, d, s.rows[d].attempts, Accept))
    && (s.rows[d].status.Retrying? ==> WasSent(s.log, max, d, s.rows[d].attempts, Defer))
  }

  ghost predicate MarkBacked(s: State, max: int, w: WorkerId)
    requires w in s.workers
  {
    var p := s.workers[w].phase;
    p.Marking? && (p.verdict.Accept? || p.verdict.Defer?) ==> WasSent(s.log, max, p.claim.d, p.claim.attempt, p.verdict)
  }

  ghost predicate FateInv(s: State, max: int) {
    && (forall i :: 0 <= i < |s.log| && s.log[i].Sent? ==> SendOk(s, max, i))
    && (forall d :: d in s.rows ==> RowBacked(s, max, d))
    && (forall w :: w in s.workers ==> MarkBacked(s, max, w))
  }

  lemma WasSentKept(log: seq<Event>, more: seq<Event>, max: int, d: DeliveryId, n: nat, v: Verdict)
    requires log <= more && WasSent(log, max, d, n, v)
    ensures WasSent(more, max, d, n, v)
  {
    hide Judge;
    var i :| && 0 <= i < |log| && log[i].Sent? && log[i].d == d && log[i].attempt == n
             && Judge(log[i].outcome, n, max) == v;
    assert more[i] == log[i];
  }

  /** A step that sends nothing and writes no old row, and after which workers have no new claims. */
  lemma FateFrame(s: State, t: State, max: int)
    requires FateInv(s, max) && t.log == s.log
    requires forall d :: d in s.rows ==> d in t.rows && t.rows[d] == s.rows[d]
    requires forall d :: d in t.rows && d !in s.rows ==> t.rows[d].status.Pending?
    requires forall w :: w in t.workers ==>
      || (w in s.workers && t.workers[w] == s.workers[w])
      || (t.workers[w].batch == [] && !t.workers[w].phase.Marking?)
      || (w in s.workers && t.workers[w].batch == s.workers[w].batch && !t.workers[w].phase.Marking?)
    ensures FateInv(t, max)
  {
    hide Judge; hide WasSent;
    forall i | 0 <= i < |t.log| && t.log[i].Sent? ensures SendOk(t, max, i) { assert SendOk(s, max, i); }
    forall d | d in t.rows ensures RowBacked(t, max, d) {
      if d in s.rows { assert RowBacked(s, max, d); }
    }
    forall w | w in t.workers ensures MarkBacked(t, max, w) {
      if w in s.workers { assert MarkBacked(s, max, w); }
    }
  }

  lemma FateClaim(s: State, max: int, w: WorkerId, d: DeliveryId, now: Time)
    requires FateInv(s, max) && ClaimInv(s, max) && CanStep(s, ClaimRow(w, d, now))
    ensures FateInv(DoClaim(s, w, d, now), max)
  {
    hide Judge; hide WasSent;
    var t := DoClaim(s, w, d, now);
    assert RowOk(s.rows[d], max);
    forall i | 0 <= i < |t.log| && t.log[i].Sent? ensures SendOk(t, max, i) {
      assert t.log[i] == s.log[i] && SendOk(s, max, i);
    }
    forall d' | d' in t.rows ensures RowBacked(t, max, d') { BackedKept(s, t, max, d'); }
    forall w' | w' in t.workers ensures MarkBacked(t, max, w') { MarkKept(s, t, max, w'); }
  }

  lemma BackedKept(s: State, t: State, max: int, d: DeliveryId)
    requires s.log <= t.log && d in t.rows
    requires t.rows[d].status.Sending? || (d in s.rows && t.rows[d] == s.rows[d] && RowBacked(s, max, d))
    ensures RowBacked(t, max, d)
  {
    hide WasSent;
    if t.rows[d].status.Accepted? { WasSentKept(s.log, t.log, max, d, t.rows[d].attempts, Accept); }
    if t.rows[d].status.Retrying? { WasSentKept(s.log, t.log, max, d, t.rows[d].attempts, Defer); }
  }

  lemma MarkKept(s: State, t: State, max: int, w: WorkerId)
    requires s.log <= t.log && w in s.workers && w in t.workers && t.workers[w].phase == s.workers[w].phase
    requires MarkBacked(s, max, w)
    ensures MarkBacked(t, max, w)
  {
    hide WasSent;
    var p := t.workers[w].phase;
    if p.Marking? && (p.verdict.Accept? || p.verdict.Defer?) {
      WasSentKept(s.log, t.log, max, p.claim.d, p.claim.attempt, p.verdict);
    }
  }

  lemma FateAttempt(s: State, max: int, w: WorkerId, o: Outcome, now: Time)
    requires FateInv(s, max) && ClaimInv(s, max) && CanStep(s, Attempt(w, o, now))
    ensures FateInv(DoAttempt(s, max, w, o, now), max)
  {
    hide WasSent; hide Judge;
    var t := DoAttempt(s, max, w, o, now);
    var c := s.workers[w].batch[0];
    assert WorkerOk(s, w) && Holds(s.workers[w], c);
    assert RowOk(s.rows[c.d], max);
    forall i | 0 <= i < |t.log| && t.log[i].Sent? ensures SendOk(t, max, i) {
      if i < |s.log| { OldSend(s, max, w, o, now, i); } else { NewSend(s, max, w, o, now); }
    }
    forall d | d in t.rows ensures RowBacked(t, max, d) { BackedKept(s, t, max, d); }
    forall w' | w' in t.workers ensures MarkBacked(t, max, w') {
      if w' == w { NewMark(s, max, w, o, now); } else { MarkKept(s, t, max, w'); }
    }
  }

  /** Earlier sends are of other claims. */
  lemma OldSend(s: State, max: int, w: WorkerId, o: Outcome, now: Time, i: nat)
    requires FateInv(s, max) && CanStep(s, Attempt(w, o, now)) && i < |s.log| && s.log[i].Sent?
    ensures SendOk(DoAttempt(s, max, w, o, now), max, i)
  {
    hide Judge; hide WasSent;
    assert SendOk(s, max, i);
    var t := DoAttempt(s, max, w, o, now);
    assert t.log[i] == s.log[i];
    assert forall c :: c in t.workers[w].batch ==> c in s.workers[w].batch;
    assert s.workers[w].batch[0] in s.workers[w].batch;
  }

  lemma NewSend(s: State, max: int, w: WorkerId, o: Outcome, now: Time)
    requires ClaimInv(s, max) && CanStep(s, Attempt(w, o, now)) && !o.LookupError? && !o.NoProvider?
    ensures SendOk(DoAttempt(s, max, w, o, now), max, |s.log|)
  {
    hide Judge;
    var t := DoAttempt(s, max, w, o, now);
    var c := s.workers[w].batch[0];
    assert WorkerOk(s, w) && Holds(s.workers[w], c) && RowOk(s.rows[c.d], max);
    forall w' | w' in t.workers ensures Past(t.workers[w'], c, Judge(o, c.attempt, max)) {
      assert WorkerOk(s, w');
      if w' != w { assert !Holds(s.workers[w'], c); }
    }
  }

  lemma NewMark(s: State, max: int, w: WorkerId, o: Outcome, now: Time)
    requires CanStep(s, Attempt(w, o, now))
    ensures MarkBacked(DoAttempt(s, max, w, o, now), max, w)
  {
    var t := DoAttempt(s, max, w, o, now);
    var c := s.workers[w].batch[0];
    if !o.LookupError? && !o.NoProvider? {
      assert t.log[|s.log|] == Sent(c.d, c.attempt, o);
    }
  }

  lemma FateMark(s: State, max: int, w: WorkerId, now: Time)
    requires FateInv(s, max) && ClaimInv(s, max) && CanStep(s, Mark(w, now))
    ensures FateInv(DoMark(s, w, now), max)
  {
    hide Judge; hide WasSent;
    var t := DoMark(s, w, now);
    var p := s.workers[w].phase;
    assert WorkerOk(s, w) && Holds(s.workers[w], p.claim);
    forall i | 0 <= i < |t.log| && t.log[i].Sent? ensures SendOk(t, max, i) {
      assert t.log[i] == s.log[i] && SendOk(s, max, i);
    }
    assert MarkBacked(s, max, w);
    forall d | d in t.rows ensures RowBacked(t, max, d) {
      if d != p.claim.d {
        BackedKept(s, t, max, d);
      } else if p.verdict.Accept? || p.verdict.Defer? {
        WasSentKept(s.log, t.log, max, d, p.claim.attempt, p.verdict);
      }
    }
    forall w' | w' in t.workers ensures MarkBacked(t, max, w') {
      if w' != w { MarkKept(s, t, max, w'); }
    }
  }

  lemma FateStep(s: State, max: int, e: Step)
    requires FateInv(s, max) && ClaimInv(s, max)
    ensures FateInv(Next(s, max, e), max)
  {
    hide FateInv; hide ClaimInv; hide PendingOf; hide RowsOf; hide TerminalOf;
    hide ReadyAt; hide Judge;
    if CanStep(s, e) {
      match e
      case ClaimRow(w, d, now) => FateClaim(s, max, w, d, now);
      case Attempt(w, o, now) => FateAttempt(s, max, w, o, now);
      case Mark(w, now) => FateMark(s, max, w, now);
      case _ => FateFrame(s, Next(s, max, e), max);
    }
  }

  lemma {:induction false} FateRun(s: State, max: int, es: seq<Step>)
    requires FateInv(s, max) && ClaimInv(s, max)
    ensures FateInv(Run(s, max, es), max)
    decreases |es|
  {
    hide FateInv; hide ClaimInv; hide Next;
    if es != [] {
      ClaimStep(s, max, es[0]);
      FateStep(s, max, es[0]);
      FateRun(Next(s, max, es[0]), max, es[1..]);
    }
  }

  lemma FateInit(max: int)
    ensures FateInv(Init, max) && ClaimInv(Init, max)
  {
  }

  /**
   What became of a delivery after attempt `n` was sent with outcome `o`: it was attempted again
   only if the failure was transient and attempts were left; and while `n` is its last attempt, it
   is accepted only if the provider took it, waits for a retry only after a transient failure with
   attempts left, and is failed only if neither.  (Otherwise it is still in sending.)
   */
  lemma StatusFollowsProvider(max: int, es: seq<Step>, i: nat)
    requires i < |Run(Init, max, es).log| && Run(Init, max, es).log[i].Sent?
    ensures var s := Run(Init, max, es); var Sent(d, n, o) := s.log[i];
      && d in s.rows && n <= s.rows[d].attempts
      && (n < s.rows[d].attempts ==> Transient(o) && n < max)
      && (n == s.rows[d].attempts ==>
            match s.rows[d].status
            case Accepted => Taken(o)
            case Retrying => Transient(o) && n < max
            case Failed => !Taken(o) && !(Transient(o) && n < max)
            case Sending => true
            case Pending => false)
  {
    hide Run;
    FateInit(max);
    FateRun(Init, max, es);
    assert SendOk(Run(Init, max, es), max, i);
  }

  /** No delivery is accepted unless the provider took its last attempt. */
  lemma AcceptedWasTaken(max: int, es: seq<Step>, d: DeliveryId)
    requires var s := Run(Init, max, es); d in s.rows && s.rows[d].status.Accepted?
    ensures var s := Run(Init, max, es);
      exists i :: 0 <= i < |s.log| && s.log[i].Sent? && s.log[i].d == d && s.log[i].attempt == s.rows[d].attempts
                  && Taken(s.log[i].outcome)
  {
    hide Run;
    FateInit(max);
    FateRun(Init, max, es);
    var s := Run(Init, max, es);
    assert RowBacked(s, max, d);
    var i :| 0 <= i < |s.log| && s.log[i].Sent? && s.log[i].d == d && s.log[i].attempt == s.rows[d].attempts
      && Judge(s.log[i].outcome, s.rows[d].attempts, max) == Accept;
    assert Taken(s.log[i].outcome);
  }

  // ---- Rows left in sending ----

  /** The worker has a claim on delivery `d`. */
  ghost predicate HoldsRow(worker: Worker, d: DeliveryId) {
    (exists c :: c in worker.batch && c.d == d) || (worker.phase.Marking? && worker.phase.claim.d == d)
  }

  /** The delivery is in sending and no worker holds it. */
  ghost predicate Orphaned(s: State, d: DeliveryId) {
    && d in s.rows && s.rows[d].status.Sending?
    && (forall w :: w in s.workers ==> !HoldsRow(s.workers[w], d))
  }

  /** The worker that holds the delivery dies, or its Mark statement for it fails. */
  ghost predicate Orphans(s: State, e: Step, d: DeliveryId) {
    && CanStep(s, e)
    && (|| (e.Crash? && HoldsRow(s.workers[e.w], d))
        || (e.MarkLost? && s.workers[e.w].phase.claim.d == d))
  }

  lemma HeldIsSending(s: State, max: int, w: WorkerId, d: DeliveryId)
    requires ClaimInv(s, max) && w in s.workers && HoldsRow(s.workers[w], d)
    ensures d in s.rows && s.rows[d].status.Sending? && s.rows[d].owner == w
  {
    assert WorkerOk(s, w);
    if c :| c in s.workers[w].batch && c.d == d {
      assert Holds(s.workers[w], c);
    } else {
      assert Holds(s.workers[w], s.workers[w].phase.claim);
    }
  }

  /** Only worker `w` changes, and no row. */
  lemma OrphanMoved(s: State, t: State, w: WorkerId, d: DeliveryId)
    requires t.rows == s.rows && w in t.workers && t.workers == s.workers[w := t.workers[w]]
    requires w in s.workers ==> (HoldsRow(t.workers[w], d) <==> HoldsRow(s.workers[w], d))
    requires w !in s.workers ==> !HoldsRow(t.workers[w], d)
    ensures Orphaned(t, d) <==> Orphaned(s, d)
  {
    hide HoldsRow;
    forall v | v in s.workers && v != w ensures v in t.workers && t.workers[v] == s.workers[v] {}
    if Orphaned(t, d) {
      forall v | v in s.workers ensures !HoldsRow(s.workers[v], d) { assert !HoldsRow(t.workers[v], d); }
    }
    if Orphaned(s, d) {
      forall v | v in t.workers ensures !HoldsRow(t.workers[v], d) {
        assert v in s.workers ==> !HoldsRow(s.workers[v], d);
      }
    }
  }

  lemma OrphanRows(s: State, t: State, d: DeliveryId)
    requires t.workers == s.workers
    requires (d in s.rows && s.rows[d].status.Sending?) <==> (d in t.rows && t.rows[d].status.Sending?)
    ensures Orphaned(t, d) <==> Orphaned(s, d)
  {
    hide HoldsRow;
  }

  lemma OrphanClaim(s: State, w: WorkerId, d': DeliveryId, now: Time, d: DeliveryId)
    requires CanStep(s, ClaimRow(w, d', now))
    ensures Orphaned(DoClaim(s, w, d', now), d) <==> Orphaned(s, d)
  {
    var t := DoClaim(s, w, d', now);
    var c := Claim(d', s.rows[d'].attempts + 1);
    assert t.workers[w].batch == s.workers[w].batch + [c];
    if d == d' {
      assert c in t.workers[w].batch;
    } else {
      OrphanMoved(s, s.(workers := t.workers), w, d);
      hide HoldsRow;
    }
  }

  lemma OrphanAttempt(s: State, max: int, w: WorkerId, o: Outcome, now: Time, d: DeliveryId)
    requires CanStep(s, Attempt(w, o, now))
    ensures Orphaned(DoAttempt(s, max, w, o, now), d) <==> Orphaned(s, d)
  {
    hide Judge;
    var t := DoAttempt(s, max, w, o, now);
    var batch := s.workers[w].batch;
    assert batch == [batch[0]] + batch[1..];
    OrphanMoved(s, t, w, d);
  }

  lemma OrphanMark(s: State, max: int, w: WorkerId, now: Time, d: DeliveryId)
    requires ClaimInv(s, max) && CanStep(s, Mark(w, now))
    ensures Orphaned(DoMark(s, w, now), d) <==> Orphaned(s, d)
  {
    var t := DoMark(s, w, now);
    ClaimMark(s, max, w, now);
    hide ClaimInv;
    if d == s.workers[w].phase.claim.d {
      assert HoldsRow(s.workers[w], d);
    } else {
      OrphanMoved(s, s.(workers := t.workers), w, d);
      hide HoldsRow;
    }
  }

  /** The worker lets go of `d`; nobody else holds it. */
  lemma OrphanDropped(s: State, t: State, max: int, w: WorkerId, d: DeliveryId)
    requires ClaimInv(s, max) && w in s.workers && HoldsRow(s.workers[w], d)
    requires t.rows == s.rows && w in t.workers && t.workers == s.workers[w := t.workers[w]]
    requires !HoldsRow(t.workers[w], d)
    ensures Orphaned(t, d)
  {
    hide ClaimInv; hide HoldsRow;
    HeldIsSending(s, max, w, d);
    forall w' | w' in t.workers ensures !HoldsRow(t.workers[w'], d) {
      if w' != w && HoldsRow(s.workers[w'], d) { HeldIsSending(s, max, w', d); }
    }
  }

  lemma OrphanLost(s: State, max: int, w: WorkerId, d: DeliveryId)
    requires ClaimInv(s, max) && CanStep(s, MarkLost(w))
    ensures var t := Next(s, max, MarkLost(w)); Orphaned(t, d) <==> Orphaned(s, d) || Orphans(s, MarkLost(w), d)
  {
    var t := Next(s, max, MarkLost(w));
    var worker := s.workers[w];
    assert WorkerOk(s, w);
    hide ClaimInv;
    if worker.phase.claim.d == d {
      assert forall c :: c in worker.batch ==> c.d != d;
      OrphanDropped(s, t, max, w, d);
    } else {
      OrphanMoved(s, t, w, d);
    }
  }

  lemma OrphanCrash(s: State, max: int, w: WorkerId, d: DeliveryId)
    requires ClaimInv(s, max) && CanStep(s, Crash(w))
    ensures var t := Next(s, max, Crash(w)); Orphaned(t, d) <==> Orphaned(s, d) || Orphans(s, Crash(w), d)
  {
    hide ClaimInv;
    var t := Next(s, max, Crash(w));
    assert !HoldsRow(t.workers[w], d);
    if HoldsRow(s.workers[w], d) {
      OrphanDropped(s, t, max, w, d);
    } else {
      OrphanMoved(s, t, w, d);
    }
  }

  lemma OrphanStep(s: State, max: int, e: Step, d: DeliveryId)
    requires ClaimInv(s, max)
    ensures Orphaned(Next(s, max, e), d) <==> Orphaned(s, d) || Orphans(s, e, d)
  {
    hide ClaimInv; hide Orphaned; hide HoldsRow; hide Judge; hide PendingOf; hide RowsOf; hide TerminalOf; hide ReadyAt;
    if CanStep(s, e) {
      var t := Next(s, max, e);
      match e
      case CreateMessage(_) => OrphanRows(s, t, d);
      case Insert(_, _) => OrphanRows(s, t, d);
      case MarkQueued(_) => OrphanRows(s, t, d);
      case ClaimRow(w, d', now) => OrphanClaim(s, w, d', now, d);
      case Attempt(w, o, now) => OrphanAttempt(s, max, w, o, now, d);
      case Mark(w, now) => OrphanMark(s, max, w, now, d);
      case MarkLost(w) => OrphanLost(s, max, w, d);
      case Crash(w) => OrphanCrash(s, max, w, d);
      case _ => OrphanIdle(s, max, e, d);
    }
  }

  lemma OrphanIdle(s: State, max: int, e: Step, d: DeliveryId)
    requires CanStep(s, e)
    requires e.Start? || e.HasPending? || e.CountByMessage? || e.MarkCompleted? || e.CheckLost?
    ensures Orphaned(Next(s, max, e), d) <==> Orphaned(s, d)
  {
    hide PendingOf; hide RowsOf; hide TerminalOf;
    OrphanMoved(s, Next(s, max, e), e.w, d);
  }

  ghost predicate OrphanedAt(max: int, es: seq<Step>, k: nat, d: DeliveryId) {
    k < |es| && Orphans(At(max, es, k), es[k], d)
  }

  lemma {:induction false} OrphanedBy(max: int, es: seq<Step>, n: nat, d: DeliveryId)
    requires n <= |es|
    ensures Orphaned(At(max, es, n), d) <==> exists k: nat :: k < n && OrphanedAt(max, es, k, d)
  {
    hide Run; hide Next; hide ClaimInv; hide Orphans;
    AtEnds(max, es);
    if n > 0 {
      OrphanedBy(max, es, n - 1, d);
      AtNext(max, es, n - 1);
      AtClaims(max, es, n - 1);
      OrphanStep(At(max, es, n - 1), max, es[n - 1], d);
      hide Orphaned;
      if Orphans(At(max, es, n - 1), es[n - 1], d) { assert OrphanedAt(max, es, n - 1, d); }
    }
  }

  /**
   For every run: a delivery in sending is held by exactly one worker, or else a crash of its holder
   or a lost Mark statement orphaned it, and then nobody holds it at any later time.
   */
  lemma SendingIsHeldIff(max: int, es: seq<Step>, d: DeliveryId)
    requires var s := Run(Init, max, es); d in s.rows && s.rows[d].status.Sending?
    ensures var s := Run(Init, max, es);
      (exists w :: w in s.workers && HoldsRow(s.workers[w], d)) <==> forall k: nat :: !OrphanedAt(max, es, k, d)
    ensures var s := Run(Init, max, es);
      forall v, w :: v in s.workers && w in s.workers && HoldsRow(s.workers[v], d) && HoldsRow(s.workers[w], d) ==>
        v == w
  {
    hide Run; hide HoldsRow; hide Orphans; hide ClaimInv;
    AtEnds(max, es);
    OrphanedBy(max, es, |es|, d);
    AtClaims(max, es, |es|);
    var s := Run(Init, max, es);
    forall v, w | v in s.workers && w in s.workers && HoldsRow(s.workers[v], d) && HoldsRow(s.workers[w], d)
      ensures v == w
    {
      HeldIsSending(s, max, v, d);
      HeldIsSending(s, max, w, d);
    }
  }

  /** Nothing protects a claim: a worker can die at any time, and its update of a row can be lost. */
  lemma ClaimsCanBeLost(s: State, max: int, w: WorkerId, d: DeliveryId)
    requires ClaimInv(s, max) && w in s.workers && HoldsRow(s.workers[w], d)
    ensures CanStep(s, Crash(w)) && Orphaned(Next(s, max, Crash(w)), d)
    ensures s.workers[w].phase.Marking? && s.workers[w].phase.claim.d == d ==>
      CanStep(s, MarkLost(w)) && Orphaned(Next(s, max, MarkLost(w)), d)
  {
    hide Orphaned; hide ClaimInv; hide HoldsRow;
    OrphanStep(s, max, Crash(w), d);
    OrphanStep(s, max, MarkLost(w), d);
  }

  /** An orphaned delivery stays in sending, so its message is never done. */
  lemma OrphanedForGood(max: int, es: seq<Step>, fs: seq<Step>, k: nat, d: DeliveryId)
    requires OrphanedAt(max, es, k, d)
    ensures Orphaned(Run(Init, max, es + fs), d)
  {
    hide Run; hide Orphans; hide HoldsRow;
    var gs := es + fs;
    assert gs[..k] == es[..k];
    assert OrphanedAt(max, gs, k, d);
    AtEnds(max, gs);
    OrphanedBy(max, gs, |gs|, d);
  }
}
