/** Runs in which message completion goes wrong, for every attempt limit. */
module CompletionRaces {
  import opened Wrappers
  import opened DeliveryQueue
  import opened Completion

  lemma RunCons(s: State, max: int, e: Step, rest: seq<Step>)
    ensures Run(s, max, [e] + rest) == Run(Next(s, max, e), max, rest)
  {
    hide Next;
    assert ([e] + rest)[1..] == rest;
  }

  lemma RunThree(s: State, max: int, a: Step, b: Step, c: Step)
    ensures Run(s, max, [a, b, c]) == Next(Next(Next(s, max, a), max, b), max, c)
  {
    hide Next;
    assert [a, b, c] == [a] + [b, c] && [b, c] == [b] + [c] && [c] == [c] + [];
    RunCons(s, max, a, [b, c]);
    RunCons(Next(s, max, a), max, b, [c]);
    RunCons(Next(Next(s, max, a), max, b), max, c, []);
  }

  lemma RunOne(s: State, max: int, a: Step)
    ensures Run(s, max, [a]) == Next(s, max, a)
  {
    hide Next;
  }

  /** A worker takes delivery 1 of message 1 while its enqueueing is still going on. */
  function Early(status: Status, messageStatus: MessageStatus, phase: Phase, log: seq<Event>): State {
    State(map[1 := Row(1, status, 1, None, 1)], map[1 := Message(messageStatus, false)],
          map[1 := Worker([], phase)], log)
  }

  const ONE_SEND: seq<Event> := [Claimed(1, 1, 0), Sent(1, 1, Result(true, false, false))]
  const EARLY_INSERT: seq<Step> := [CreateMessage(1), Insert(1, 1), Start(1)]
  const EARLY_SEND: seq<Step> := [ClaimRow(1, 1, 0), Attempt(1, Result(true, false, false), 0), Mark(1, 0)]
  const EARLY_CHECK: seq<Step> := [HasPending(1), CountByMessage(1), MarkCompleted(1)]

  lemma EarlyRunInsert(max: int)
    ensures Run(Init, max, EARLY_INSERT) ==
      State(map[1 := Row(1, Pending, 0, None, 0)], map[1 := Message(Created, false)],
            map[1 := Worker([], Ready)], [])
  {
    hide Run;
    RunThree(Init, max, CreateMessage(1), Insert(1, 1), Start(1));
  }

  /** Worker 1 claims and processes delivery 1, the only row there is. */
  lemma OneDelivery(s: State, max: int, o: Outcome)
    requires s.rows == map[1 := Row(1, Pending, 0, None, 0)] && s.workers == map[1 := Worker([], Ready)]
    requires s.log == []
    requires o == LookupError || o == Result(true, false, false)
    ensures Run(s, max, [ClaimRow(1, 1, 0), Attempt(1, o, 0), Mark(1, 0)]) ==
      if o.LookupError?
      then s.(rows := map[1 := Row(1, Failed, 1, None, 1)], log := [Claimed(1, 1, 0)])
      else s.(rows := map[1 := Row(1, Accepted, 1, None, 1)],
              workers := map[1 := Worker([], AskPending(1))], log := ONE_SEND)
  {
    hide Run;
    RunThree(s, max, ClaimRow(1, 1, 0), Attempt(1, o, 0), Mark(1, 0));
    var t := Next(s, max, ClaimRow(1, 1, 0));
    assert s.workers[1].batch + [Claim(1, 1)] == [Claim(1, 1)] && s.log + [Claimed(1, 1, 0)] == [Claimed(1, 1, 0)];
    assert t.rows == map[1 := Row(1, Sending, 1, None, 1)];
    assert t.workers == map[1 := Worker([Claim(1, 1)], Ready)];
    var u := Next(t, max, Attempt(1, o, 0));
    assert [Claim(1, 1)][1..] == [] && [Claimed(1, 1, 0)] + [Sent(1, 1, Result(true, false, false))] == ONE_SEND;
    assert u.workers == map[1 := Worker([], Marking(Claim(1, 1), Judge(o, 1, max), 0))];
    var v := Next(u, max, Mark(1, 0));
    assert v.rows == map[1 := Row(1, if o.LookupError? then Failed else Accepted, 1, None, 1)];
    assert v.workers == map[1 := Worker([], if o.LookupError? then Ready else AskPending(1))];
  }

  lemma EarlyRunSend(max: int)
    ensures Run(Run(Init, max, EARLY_INSERT), max, EARLY_SEND) == Early(Accepted, Created, AskPending(1), ONE_SEND)
  {
    EarlyRunInsert(max);
    hide Run;
    OneDelivery(Run(Init, max, EARLY_INSERT), max, Result(true, false, false));
  }

  lemma EarlyRunCheck(max: int)
    ensures Run(Early(Accepted, Created, AskPending(1), ONE_SEND), max, EARLY_CHECK)
      == Early(Accepted, Completed, Ready, ONE_SEND)
  {
    hide Run;
    var s := Early(Accepted, Created, AskPending(1), ONE_SEND);
    RunThree(s, max, EARLY_CHECK[0], EARLY_CHECK[1], EARLY_CHECK[2]);
    assert PendingOf(s, 1) == {};
    var t := Next(s, max, EARLY_CHECK[0]);
    assert t == Early(Accepted, Created, AskCount(1), ONE_SEND);
    assert RowsOf(t, 1) == {1} == TerminalOf(t, 1);
    assert Next(t, max, EARLY_CHECK[1]) == Early(Accepted, Created, Finish(1), ONE_SEND);
  }

  /** A run that completes message 1 before its enqueueing is over. */
  lemma EarlyRun(max: int)
    ensures Run(Init, max, EARLY_INSERT + EARLY_SEND + EARLY_CHECK) == Early(Accepted, Completed, Ready, ONE_SEND)
    ensures forall i :: 0 <= i < 9 ==> Reliable((EARLY_INSERT + EARLY_SEND + EARLY_CHECK)[i])
  {
    EarlyRunSend(max);
    EarlyRunCheck(max);
    RunConcat(Init, max, EARLY_INSERT, EARLY_SEND);
    RunConcat(Init, max, EARLY_INSERT + EARLY_SEND, EARLY_CHECK);
  }

  /**
   A run in which nothing fails leaves a done message uncompleted for good: a worker completes it
   before the queued mark overwrites its status.
   */
  lemma EnqueueRaceStrands(max: int)
    ensures exists es :: (forall i :: 0 <= i < |es| ==> Reliable(es[i])) && Unattended(Run(Init, max, es), 1)
  {
    var es := EARLY_INSERT + EARLY_SEND + EARLY_CHECK;
    EarlyRun(max);
    hide Run; hide Next;
    RunConcat(Init, max, es, [MarkQueued(1)]);
    RunOne(Run(Init, max, es), max, MarkQueued(1));
    LateMark(max);
    var fs := es + [MarkQueued(1)];
    assert forall i :: 0 <= i < |fs| ==> Reliable(fs[i]);
    StrandedState(Run(Init, max, fs));
  }

  lemma LateMark(max: int)
    ensures var t := Next(Early(Accepted, Completed, Ready, ONE_SEND), max, MarkQueued(1));
      && t.workers == map[1 := Worker([], Ready)] && t.msgs == map[1 := Message(Queued, true)]
      && t.rows == Early(Accepted, Completed, Ready, ONE_SEND).rows
  {
  }

  /** One delivery, which is over, of a queued message, with nobody at work on it. */
  lemma StrandedState(t: State)
    requires t.workers == map[1 := Worker([], Ready)] && t.msgs == map[1 := Message(Queued, true)]
    requires t.rows.Keys == {1} && t.rows[1].msg == 1 && t.rows[1].status.Terminal()
    ensures Unattended(t, 1)
  {
    assert forall d :: d in t.rows ==> d in t.rows.Keys;
    assert 1 in t.rows.Keys;
  }

  /** A run in which nothing fails completes a message before its last row is inserted. */
  lemma EarlyCompletion(max: int)
    ensures exists es :: (forall i :: 0 <= i < |es| ==> Reliable(es[i])) && !Sound(Run(Init, max, es), 1)
  {
    var es := EARLY_INSERT + EARLY_SEND + EARLY_CHECK;
    EarlyRun(max);
    hide Run;
    var s := Run(Init, max, es);
    RunConcat(Init, max, es, [Insert(1, 2)]);
    RunOne(s, max, Insert(1, 2));
    var fs := es + [Insert(1, 2)];
    var t := Run(Init, max, fs);
    assert forall i :: 0 <= i < |fs| ==> Reliable(fs[i]);
    assert OpenRow(t, 1, 2) && IsCompleted(t, 1);
  }

  const LOOKUP_QUEUE: seq<Step> := [CreateMessage(1), Insert(1, 1), MarkQueued(1)]
  const LOOKUP_FAILS: seq<Step> := [ClaimRow(1, 1, 0), Attempt(1, LookupError, 0), Mark(1, 0)]

  lemma LookupRunQueue(max: int)
    ensures Run(Init, max, LOOKUP_QUEUE + [Start(1)]) ==
      State(map[1 := Row(1, Pending, 0, None, 0)], map[1 := Message(Queued, true)],
            map[1 := Worker([], Ready)], [])
  {
    hide Run;
    RunThree(Init, max, CreateMessage(1), Insert(1, 1), MarkQueued(1));
    RunConcat(Init, max, LOOKUP_QUEUE, [Start(1)]);
    RunOne(Run(Init, max, LOOKUP_QUEUE), max, Start(1));
  }

  /** A failed lookup skips the completion check, so it strands the message although it was queued first. */
  lemma LookupFailureStrands(max: int)
    ensures exists es :: QueuedFirst(max, es) && Unattended(Run(Init, max, es), 1)
  {
    hide Run; hide Next; hide CanStep;
    var es := LOOKUP_QUEUE + [Start(1)];
    LookupRunQueue(max);
    var s := Run(Init, max, es);
    OneDelivery(s, max, LookupError);
    RunConcat(Init, max, es, LOOKUP_FAILS);
    var fs := es + LOOKUP_FAILS;
    StrandedState(Run(Init, max, fs));
    forall k: nat | k < |fs| ensures ClaimsQueued(At(max, fs, k), fs[k]) {
      if fs[k].ClaimRow? { assert k == 4 && fs[..4] == es; }
    }
  }
}
