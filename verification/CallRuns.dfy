/**
 What holds over every run of one call: the value `Create` stored, followed by any number
 of successful closures in any order (a refused closure leaves no trace).
 */
module CallRuns {
  import opened CallModel

  /** One closure that took effect, and the invocation it belongs to. */
  datatype Commit = Commit(who: nat, op: Op, now: Time)

  /** The call after the given commits, oldest first. */
  function Replay(base: Call, log: seq<Commit>): Outcome {
    if log == [] then Updated(base)
    else
      var last := log[|log| - 1];
      match Replay(base, log[..|log| - 1])
      case Refused(e) => Refused(e)
      case Updated(c) => Apply(last.op, last.now, c)
  }

  ghost predicate IsRun(base: Call, log: seq<Commit>) {
    IsNew(base) && Replay(base, log).Updated?
  }

  /** The call after the first `k` commits. */
  function At(base: Call, log: seq<Commit>, k: nat): Call
    requires k <= |log| && Replay(base, log[..k]).Updated?
  {
    Replay(base, log[..k]).call
  }

  lemma {:induction false} PrefixReplays(base: Call, log: seq<Commit>, k: nat)
    requires k <= |log| && Replay(base, log).Updated?
    ensures Replay(base, log[..k]).Updated?
    decreases |log|
  {
    hide Apply;
    if k < |log| {
      var front := log[..|log| - 1];
      PrefixReplays(base, front, k);
      assert front[..k] == log[..k];
    } else {
      assert log[..k] == log;
    }
  }

  lemma AllPrefixesReplay(base: Call, log: seq<Commit>)
    requires Replay(base, log).Updated?
    ensures forall k :: 0 <= k <= |log| ==> Replay(base, log[..k]).Updated?
  {
    hide Apply;
    forall k | 0 <= k <= |log| ensures Replay(base, log[..k]).Updated? { PrefixReplays(base, log, k); }
  }

  /** One more commit applies one more closure. */
  lemma ReplayStep(base: Call, log: seq<Commit>, k: nat)
    requires k < |log| && Replay(base, log).Updated?
    ensures Replay(base, log[..k]).Updated? && Replay(base, log[..k + 1]).Updated?
    ensures Apply(log[k].op, log[k].now, At(base, log, k)) == Updated(At(base, log, k + 1))
  {
    hide Apply;
    PrefixReplays(base, log, k);
    PrefixReplays(base, log, k + 1);
    assert log[..k + 1][..k] == log[..k];
  }

  // ---- Progress ----

  function Rank(s: CallState): nat {
    match s
    case Ringing => 0
    case Accepted => 1
    case Connecting => 1
    case Connected => 2
    case _ => 3
  }

  /** What one successful closure may do to the call's own fields. */
  ghost predicate Advances(a: Call, b: Call) {
    && a.id == b.id && a.app == b.app && a.caller == b.caller && a.mode == b.mode
    && a.room == b.room && a.transport == b.transport && a.createdAt == b.createdAt && a.media == b.media
    && Rank(a.state) <= Rank(b.state)
    && (a.startedAt.Some? ==> b.startedAt == a.startedAt)
    && (a.Terminal() ==> b.state == a.state && b.reason == a.reason
                         && b.startedAt == a.startedAt && b.endedAt == a.endedAt)
    && |a.participants| <= |b.participants|
    && (forall i :: 0 <= i < |a.participants| ==>
          && b.participants[i].user == a.participants[i].user
          && b.participants[i].role == a.participants[i].role)
  }

  /** Clock fields agree with the state. */
  ghost predicate ClockInv(c: Call) {
    && (c.endedAt.Some? <==> c.Terminal())
    && (!c.Terminal() ==> (c.state.Connected? <==> c.startedAt.Some?))
    && (!c.Terminal() ==> c.reason == NoReason)
  }

  ghost predicate Distinct(ps: seq<Participant>) {
    forall i, j :: 0 <= i < j < |ps| ==> ps[i].user != ps[j].user
  }

  ghost predicate RosterInv(c: Call) {
    && (c.transport.SFU? <==> c.mode.Group?)
    && |c.participants| >= 1 && c.participants[0].user == c.caller
    && (c.mode.Direct? ==> |c.participants| <= 2)
    && (forall i :: 0 <= i < |c.participants| ==>
          && (c.participants[i].role.Caller? <==> i == 0)
          && c.participants[i].callId == c.id
          && (i > 0 ==> c.participants[i].user != c.caller)
          && (c.participants[i].Gone() ==> c.participants[i].leftAt.Some?)
          && (c.state.Cancelled? || c.state.TimedOut? ==> !c.participants[i].Pending()))
  }

  // ---- One closure ----

  /** How one closure may change a participant. */
  ghost predicate Follows(p: Participant, q: Participant) {
    && q.user == p.user && q.role == p.role && q.callId == p.callId
    && (q.Gone() ==> q.leftAt.Some? || (q.state == p.state && q.leftAt == p.leftAt))
    && (q.Pending() ==> p.Pending())
  }

  /** How one closure may change the participants of a call. */
  ghost predicate Reshapes(a: Call, b: Call) {
    && b.id == a.id && b.app == a.app && b.caller == a.caller && b.mode == a.mode && b.transport == a.transport
    && |a.participants| <= |b.participants| <= |a.participants| + 1
    && (forall i :: 0 <= i < |a.participants| ==> Follows(a.participants[i], b.participants[i]))
    && (|b.participants| > |a.participants| ==>
          var p := b.participants[|a.participants|];
          && a.mode.Group? && p.role.Joiner? && p.callId == a.id && !p.Gone() && !p.Pending()
          && (forall i :: 0 <= i < |a.participants| ==> a.participants[i].user != p.user))
    && ((b.state.Cancelled? || b.state.TimedOut?) && b.state != a.state ==>
          forall i :: 0 <= i < |b.participants| ==> !b.participants[i].Pending())
    && (a.Terminal() ==> |b.participants| == |a.participants| && b.state == a.state)
  }

  lemma AcceptReshapes(a: Call, b: Call, u: UserId, d: DeviceId, now: Time)
    requires ApplyAccept(a, u, d, now) == Updated(b)
    ensures Reshapes(a, b)
  {
  }

  lemma RejectReshapes(a: Call, b: Call, u: UserId, now: Time)
    requires ApplyReject(a, u, now) == Updated(b)
    ensures Reshapes(a, b)
  {
  }

  lemma CancelReshapes(a: Call, b: Call, u: UserId, now: Time)
    requires ApplyCancel(a, u, now) == Updated(b)
    ensures Reshapes(a, b)
  {
  }

  lemma JoinReshapes(a: Call, b: Call, u: UserId, d: DeviceId, now: Time)
    requires ApplyJoin(a, u, d, now) == Updated(b)
    ensures Reshapes(a, b)
  {
  }

  lemma MarkConnectedReshapes(a: Call, b: Call, u: UserId, now: Time)
    requires ApplyMarkConnected(a, u, now) == Updated(b)
    ensures Reshapes(a, b)
  {
  }

  lemma EndReshapes(a: Call, b: Call, u: UserId, reason: Reason, endCall: bool, now: Time)
    requires ApplyEndForUser(a, u, reason, endCall, now) == Updated(b)
    ensures Reshapes(a, b)
  {
  }

  lemma ResumeReshapes(a: Call, b: Call, u: UserId, d: DeviceId)
    requires ApplyResume(a, u, d) == Updated(b)
    ensures Reshapes(a, b)
  {
  }

  lemma TimeoutReshapes(a: Call, b: Call, now: Time)
    requires ApplyRingTimeout(a, now) == Updated(b)
    ensures Reshapes(a, b)
  {
  }

  lemma ApplyReshapes(op: Op, now: Time, a: Call, b: Call)
    requires Apply(op, now, a) == Updated(b)
    ensures Reshapes(a, b)
  {
    hide ApplyAccept; hide ApplyReject; hide ApplyCancel; hide ApplyJoin; hide ApplyMarkConnected;
    hide ApplyEndForUser; hide ApplyResume; hide ApplyRingTimeout;
    match op
    case Accept(u, d) => AcceptReshapes(a, b, u, d, now);
    case Reject(u) => RejectReshapes(a, b, u, now);
    case Cancel(u) => CancelReshapes(a, b, u, now);
    case Join(u, d) => JoinReshapes(a, b, u, d, now);
    case MarkConnected(u) => MarkConnectedReshapes(a, b, u, now);
    case Leave(u) => EndReshapes(a, b, u, ByLeaving, false, now);
    case Hangup(u) => EndReshapes(a, b, u, ByHangup, true, now);
    case Fail(_) =>
    case Resume(u, d) => ResumeReshapes(a, b, u, d);
    case RingTimeout => TimeoutReshapes(a, b, now);
  }

  /** The call's own fields after one successful closure. */
  ghost predicate Progresses(a: Call, b: Call) {
    && b.room == a.room && b.app == a.app && b.media == a.media && b.createdAt == a.createdAt
    && Rank(a.state) <= Rank(b.state)
    && (a.startedAt.Some? ==> b.startedAt == a.startedAt)
    && (a.Terminal() ==> b.state == a.state && b.reason == a.reason
                         && b.startedAt == a.startedAt && b.endedAt == a.endedAt)
  }

  lemma ApplyProgresses(op: Op, now: Time, a: Call, b: Call)
    requires ClockInv(a)
    requires Apply(op, now, a) == Updated(b)
    ensures Progresses(a, b) && ClockInv(b)
  {
    match op
    case Accept(u, d) =>
    case Reject(u) =>
    case Cancel(u) =>
    case Join(u, d) =>
    case MarkConnected(u) =>
    case Leave(u) =>
    case Hangup(u) =>
    case Fail(text) =>
    case Resume(u, d) =>
    case RingTimeout =>
  }

  lemma ApplyAdvances(op: Op, now: Time, a: Call, b: Call)
    requires ClockInv(a)
    requires Apply(op, now, a) == Updated(b)
    ensures Advances(a, b) && ClockInv(b)
  {
    hide Apply;
    ApplyProgresses(op, now, a, b);
    ApplyReshapes(op, now, a, b);
    assert forall i :: 0 <= i < |a.participants| ==> Follows(a.participants[i], b.participants[i]);
  }

  lemma ApplyKeepsRoster(op: Op, now: Time, a: Call, b: Call)
    requires RosterInv(a)
    requires Apply(op, now, a) == Updated(b)
    ensures RosterInv(b)
  {
    hide Apply;
    ApplyReshapes(op, now, a, b);
    assert Follows(a.participants[0], b.participants[0]);
    forall i | 0 <= i < |b.participants|
      ensures (b.participants[i].role.Caller? <==> i == 0)
           && b.participants[i].callId == b.id
           && (i > 0 ==> b.participants[i].user != b.caller)
           && (b.participants[i].Gone() ==> b.participants[i].leftAt.Some?)
           && (b.state.Cancelled? || b.state.TimedOut? ==> !b.participants[i].Pending())
    {
      if i < |a.participants| { assert Follows(a.participants[i], b.participants[i]); }
    }
  }

  lemma ApplyKeepsDistinct(op: Op, now: Time, a: Call, b: Call)
    requires Distinct(a.participants)
    requires Apply(op, now, a) == Updated(b)
    ensures Distinct(b.participants)
  {
    hide Apply;
    ApplyReshapes(op, now, a, b);
    forall i, j | 0 <= i < j < |b.participants| ensures b.participants[i].user != b.participants[j].user {
      assert Follows(a.participants[i], b.participants[i]);
      if j < |a.participants| { assert Follows(a.participants[j], b.participants[j]); }
    }
  }

  // ---- New calls ----

  lemma {:induction false} RingRoster(id: CallId, caller: UserId, callees: seq<UserId>)
    ensures var r := Ring(id, caller, callees);
      && |r| <= |callees|
      && (forall i :: 0 <= i < |r| ==>
            && r[i].role.Callee? && r[i].callId == id && r[i].state.PartyRinging?
            && r[i].user != caller && r[i].user in callees)
  {
    if callees != [] {
      RingRoster(id, caller, callees[..|callees| - 1]);
    }
  }

  lemma {:induction false} RingDistinct(id: CallId, caller: UserId, callees: seq<UserId>)
    requires forall i, j :: 0 <= i < j < |callees| ==> callees[i] != callees[j]
    ensures Distinct(Ring(id, caller, callees))
  {
    if callees != [] {
      var front := callees[..|callees| - 1];
      RingDistinct(id, caller, front);
      RingRoster(id, caller, front);
    }
  }

  lemma NewCallInv(c: Call)
    requires IsNew(c)
    ensures ClockInv(c) && RosterInv(c) && c.state.Ringing? && c.participants[0].state.PartyAccepted?
  {
    var inp, id, room, now :| Create(inp, id, room, now) == Updated(c);
    RingRoster(id, inp.caller, inp.callees);
  }

  lemma AdvancesTransitive(a: Call, b: Call, c: Call)
    requires Advances(a, b) && Advances(b, c)
    ensures Advances(a, c)
  {
    hide Apply;
  }

  // ---- Invariants of every run ----

  lemma {:induction false} RunInvariant(base: Call, log: seq<Commit>)
    requires IsRun(base, log)
    ensures ClockInv(Replay(base, log).call) && RosterInv(Replay(base, log).call)
    decreases |log|
  {
    hide Apply;
    NewCallInv(base);
    if log != [] {
      var k := |log| - 1;
      PrefixReplays(base, log, k);
      RunInvariant(base, log[..k]);
      ApplyProgresses(log[k].op, log[k].now, Replay(base, log[..k]).call, Replay(base, log).call);
      ApplyKeepsRoster(log[k].op, log[k].now, Replay(base, log[..k]).call, Replay(base, log).call);
    }
  }

  /**
   Between any two moments of a run: progress never goes back, the outcome of a finished
   call is frozen, and the roster only grows at its end.
   */
  lemma {:induction false} RunAdvances(base: Call, log: seq<Commit>, j: nat, k: nat)
    requires IsRun(base, log) && j <= k <= |log|
    ensures Replay(base, log[..j]).Updated? && Replay(base, log[..k]).Updated?
    ensures Advances(At(base, log, j), At(base, log, k))
    decreases k
  {
    hide Apply;
    AllPrefixesReplay(base, log);
    if j < k {
      RunAdvances(base, log, j, k - 1);
      ReplayStep(base, log, k - 1);
      RunInvariant(base, log[..k - 1]);
      ApplyAdvances(log[k - 1].op, log[k - 1].now, At(base, log, k - 1), At(base, log, k));
      AdvancesTransitive(At(base, log, j), At(base, log, k - 1), At(base, log, k));
    }
  }

  /** User ids stay pairwise distinct when the requested callees were. */
  lemma {:induction false} RunKeepsDistinct(
    inp: CreateInput, id: CallId, room: RoomId, now: Time, log: seq<Commit>)
    requires forall i, j :: 0 <= i < j < |inp.callees| ==> inp.callees[i] != inp.callees[j]
    requires var base := Create(inp, id, room, now); base.Updated? && Replay(base.call, log).Updated?
    ensures Distinct(Replay(Create(inp, id, room, now).call, log).call.participants)
    decreases |log|
  {
    hide Apply;
    var base := Create(inp, id, room, now).call;
    if log == [] {
      RingDistinct(id, inp.caller, inp.callees);
      RingRoster(id, inp.caller, inp.callees);
    } else {
      var k := |log| - 1;
      PrefixReplays(base, log, k);
      RunKeepsDistinct(inp, id, room, now, log[..k]);
      ApplyKeepsDistinct(log[k].op, log[k].now, Replay(base, log[..k]).call, Replay(base, log).call);
    }
  }

  // ---- The ring timer ----

  ghost predicate Unanswered(log: seq<Commit>) {
    forall j :: 0 <= j < |log| ==> !Answers(log[j].op)
  }

  lemma RingingStep(op: Op, now: Time, a: Call, b: Call)
    requires ClockInv(a) && Apply(op, now, a) == Updated(b) && !b.Terminal()
    ensures !a.Terminal() && (b.state.Ringing? <==> a.state.Ringing? && !Answers(op))
  {
  }

  /** A live call is still ringing exactly when nobody has answered it. */
  lemma {:induction false} RingingIffUnanswered(base: Call, log: seq<Commit>)
    requires IsRun(base, log) && !Replay(base, log).call.Terminal()
    ensures Replay(base, log).call.state.Ringing? <==> Unanswered(log)
    decreases |log|
  {
    hide Apply;
    if log == [] {
      NewCallInv(base);
    } else {
      var k := |log| - 1;
      PrefixReplays(base, log, k);
      RunInvariant(base, log[..k]);
      RingingStep(log[k].op, log[k].now, Replay(base, log[..k]).call, Replay(base, log).call);
      RingingIffUnanswered(base, log[..k]);
      assert log == log[..k] + [log[k]];
      UnansweredSnoc(log[..k], log[k]);
    }
  }

  lemma UnansweredSnoc(log: seq<Commit>, c: Commit)
    ensures Unanswered(log + [c]) <==> Unanswered(log) && !Answers(c.op)
  {
    if Unanswered(log + [c]) {
      assert (log + [c])[|log|] == c;
      forall j | 0 <= j < |log| ensures !Answers(log[j].op) { assert (log + [c])[j] == log[j]; }
    }
  }

  /** The timer ends a call only if no Accept, Join or MarkConnected took effect before it. */
  lemma TimerEndsOnlyUnanswered(base: Call, log: seq<Commit>, k: nat)
    requires IsRun(base, log) && k < |log| && log[k].op.RingTimeout?
    ensures Unanswered(log[..k])
  {
    hide Replay;
    ReplayStep(base, log, k);
    RingingIffUnanswered(base, log[..k]);
  }

  // ---- Somebody stays on the line ----

  ghost predicate Staffed(c: Call) { c.Terminal() || c.HasActive() }

  /** A Reject of a live group call by its only active participant. */
  ghost predicate LastActiveRejects(op: Op, c: Call) {
    && op.Reject? && c.mode.Group? && !c.Terminal()
    && var i := Find(c.participants, op.user);
       && i < |c.participants| && c.participants[i].Active()
       && (forall j :: 0 <= j < |c.participants| && j != i ==> !c.participants[j].Active())
  }

  lemma StaffedStep(op: Op, now: Time, a: Call, b: Call)
    requires Apply(op, now, a) == Updated(b) && Staffed(a)
    ensures Staffed(b) <==> !LastActiveRejects(op, a)
  {
    if !a.Terminal() && !b.Terminal() {
      var w :| 0 <= w < |a.participants| && a.participants[w].Active();
      if op.Reject? {
        var i := Find(a.participants, op.user);
        if !LastActiveRejects(op, a) {
          if a.participants[i].Active() {
            var j :| 0 <= j < |a.participants| && j != i && a.participants[j].Active();
            assert b.participants[j].Active();
          } else {
            assert b.participants[w].Active();
          }
        }
      } else if op.Accept? || op.MarkConnected? {
        assert b.participants[Find(a.participants, op.user)].Active();
      } else if op.Join? {
        var i := Find(a.participants, op.user);
        assert b.participants[i].Active();
      } else if op.Resume? {
        assert b.participants[w].Active();
      }
    }
  }

  ghost predicate StaffedAt(base: Call, log: seq<Commit>, k: nat) {
    k <= |log| && Replay(base, log[..k]).Updated? && Staffed(At(base, log, k))
  }

  /** Step `k` is a Reject of a live group call by its only active participant. */
  ghost predicate DesertedAt(base: Call, log: seq<Commit>, k: nat) {
    k < |log| && Replay(base, log[..k]).Updated? && LastActiveRejects(log[k].op, At(base, log, k))
  }

  lemma {:induction false} StaffedThrough(base: Call, log: seq<Commit>, k: nat)
    requires IsRun(base, log) && k <= |log|
    requires forall j: nat :: j < k ==> !DesertedAt(base, log, j)
    ensures StaffedAt(base, log, k)
  {
    hide Apply;
    if k == 0 {
      NewCallInv(base);
      assert base.participants[0].Active();
      assert log[..0] == [];
    } else {
      StaffedThrough(base, log, k - 1);
      ReplayStep(base, log, k - 1);
      assert !DesertedAt(base, log, k - 1);
      StaffedStep(log[k - 1].op, log[k - 1].now, At(base, log, k - 1), At(base, log, k));
    }
  }

  /**
   A run keeps somebody active in every live call if and only if no step of it is a Reject
   of a group call by that call's only active participant.
   */
  lemma AlwaysStaffedIff(base: Call, log: seq<Commit>)
    requires IsRun(base, log)
    ensures (forall k: nat :: k <= |log| ==> StaffedAt(base, log, k))
       <==> (forall k: nat :: k < |log| ==> !DesertedAt(base, log, k))
  {
    hide Apply;
    if forall k: nat :: k < |log| ==> !DesertedAt(base, log, k) {
      forall k: nat | k <= |log| ensures StaffedAt(base, log, k) { StaffedThrough(base, log, k); }
    } else {
      var k: nat :| k < |log| && DesertedAt(base, log, k);
      if StaffedAt(base, log, k) {
        ReplayStep(base, log, k);
        StaffedStep(log[k].op, log[k].now, At(base, log, k), At(base, log, k + 1));
        assert !StaffedAt(base, log, k + 1);
      }
    }
  }

  /** In particular when Reject is issued only by participants that are not active. */
  lemma StaffedIfOnlyInactiveReject(base: Call, log: seq<Commit>)
    requires IsRun(base, log)
    requires forall k: nat :: k < |log| && log[k].op.Reject? && Replay(base, log[..k]).Updated? ==>
      var ps := At(base, log, k).participants;
      var i := Find(ps, log[k].op.user);
      i < |ps| ==> !ps[i].Active()
    ensures Staffed(Replay(base, log).call)
  {
    hide Apply;
    forall k: nat | k < |log| ensures !DesertedAt(base, log, k) {}
    StaffedThrough(base, log, |log|);
    assert log[..|log|] == log;
  }

  /** A run that leaves a live call with nobody on it: the caller of a group call rejects it. */
  lemma UnstaffedRunExists()
    ensures exists base, log :: IsRun(base, log) && !Staffed(Replay(base, log).call)
  {
    var inp := CreateInput(1, 1, 1, [2, 3], DefaultMedia, DefaultMode);
    var base := Create(inp, 1, 1, 0).call;
    assert Create(inp, 1, 1, 0) == Updated(base);
    var log := [Commit(0, Reject(1), 1)];
    assert log[..0] == [];
    assert Replay(base, []) == Updated(base);
    RingRoster(1, 1, [2, 3]);
    assert base.participants[0].user == 1;
    assert Find(base.participants, 1) == 0;
    var c := Replay(base, log).call;
    assert IsRun(base, log) && !Staffed(c);
  }

  /** A group Leave ends the call exactly when no other participant is active. */
  lemma LeaveEndsIffNobodyElse(u: UserId, now: Time, a: Call, b: Call)
    requires a.mode.Group? && Apply(Leave(u), now, a) == Updated(b)
    ensures b.Terminal() <==>
      (forall j :: 0 <= j < |a.participants| && j != Find(a.participants, u) ==> !a.participants[j].Active())
    ensures b.Terminal() <==> !b.HasActive()
  {
    var i := Find(a.participants, u);
    forall j | 0 <= j < |a.participants| && j != i
      ensures b.participants[j] == a.participants[j] {}
    assert !b.participants[i].Active();
    if b.HasActive() {
      var j :| 0 <= j < |b.participants| && b.participants[j].Active();
      assert j != i && a.participants[j].Active();
    }
  }

  // ---- call.ended ----

  /** The final states that `call.ended` announces; `Failed` is announced by `call.failed`. */
  predicate EndAnnounced(s: CallState) {
    s.Ended? || s.Rejected? || s.Cancelled? || s.TimedOut?
  }

  /** The commit at `k` is one after which the service publishes `call.ended`. */
  ghost predicate EndsAt(base: Call, log: seq<Commit>, k: nat) {
    && k < |log| && Replay(base, log[..k + 1]).Updated?
    && PublishesEnded(log[k].op, At(base, log, k + 1))
  }

  lemma PublishesEndedIff(op: Op, now: Time, a: Call, b: Call)
    requires Apply(op, now, a) == Updated(b)
    ensures PublishesEnded(op, b) <==> !a.Terminal() && EndAnnounced(b.state)
  {
  }

  /** No run contains two commits that publish `call.ended`. */
  lemma EndsAtMostOnce(base: Call, log: seq<Commit>, j: nat, k: nat)
    requires IsRun(base, log) && EndsAt(base, log, j) && EndsAt(base, log, k)
    ensures j == k
  {
    hide Apply;
    ReplayStep(base, log, j);
    ReplayStep(base, log, k);
    PublishesEndedIff(log[j].op, log[j].now, At(base, log, j), At(base, log, j + 1));
    PublishesEndedIff(log[k].op, log[k].now, At(base, log, k), At(base, log, k + 1));
    if j < k {
      RunAdvances(base, log, j + 1, k);
    } else if k < j {
      RunAdvances(base, log, k + 1, j);
    }
  }

  /** A run contains such a commit exactly when its call ended other than by failure. */
  lemma {:induction false} EndsIff(base: Call, log: seq<Commit>)
    requires IsRun(base, log)
    ensures EndAnnounced(Replay(base, log).call.state) <==> exists k: nat :: EndsAt(base, log, k)
    decreases |log|
  {
    hide Apply;
    if log == [] {
      NewCallInv(base);
    } else {
      var n := |log| - 1;
      ReplayStep(base, log, n);
      assert log[..n + 1] == log;
      var a, b := At(base, log, n), At(base, log, n + 1);
      EndsIff(base, log[..n]);
      RunInvariant(base, log[..n]);
      ApplyAdvances(log[n].op, log[n].now, a, b);
      PublishesEndedIff(log[n].op, log[n].now, a, b);
      if EndAnnounced(a.state) {
        var k: nat :| EndsAt(base, log[..n], k);
        assert log[..n][..k + 1] == log[..k + 1];
        assert EndsAt(base, log, k);
      } else if EndAnnounced(b.state) {
        assert EndsAt(base, log, n);
      } else if exists k: nat :: EndsAt(base, log, k) {
        var k: nat :| EndsAt(base, log, k);
        assert k < n ==> log[..n][..k + 1] == log[..k + 1] && EndsAt(base, log[..n], k);
      }
    }
  }

  /** An update keeps the call's id and app, loses no participant and revives no finished call. */
  lemma ApplyKeepsIdentity(op: Op, now: Time, a: Call, b: Call)
    requires Apply(op, now, a) == Updated(b)
    ensures b.id == a.id && b.app == a.app && (a.Terminal() ==> b.Terminal())
    ensures forall u :: a.Lists(u) ==> b.Lists(u)
  {
    hide Apply;
    ApplyReshapes(op, now, a, b);
    forall u | a.Lists(u) ensures b.Lists(u) {
      var i :| 0 <= i < |a.participants| && a.participants[i].user == u;
      assert Follows(a.participants[i], b.participants[i]);
    }
  }
}
