/**
 What each operation of the call service means, said on the fields of the call before and after:
 who may do it, what becomes of the acting participant and of the others, how a call ends and who
 ended it, and what Create stores.
 */
module CallOutcomes {
  import opened Wrappers
  import opened CallModel
  import opened CallRuns
  import opened StoreSpec

  // ---- Who may do what ----

  predicate Going(s: CallState) { s == Ringing || s == Accepted || s == Connecting || s == Connected }

  /** The operation is allowed on the call. */
  predicate May(op: Op, c: Call) {
    match op
    case Accept(u, _) => c.state in {Ringing, Accepted, Connecting} && c.Lists(u)
    case Reject(u) => Going(c.state) && c.Lists(u)
    case Cancel(u) => Going(c.state) && u == c.caller
    case Join(u, _) => Going(c.state) && (c.Lists(u) || c.mode == Group)
    case MarkConnected(u) => Going(c.state) && c.Lists(u)
    case Leave(u) => Going(c.state) && c.Lists(u)
    case Hangup(u) => Going(c.state) && c.Lists(u)
    case Fail(_) => true
    case Resume(_, _) => true
    case RingTimeout => c.state == Ringing
  }

  /** The first reason not to allow it. */
  function WhyNot(op: Op, c: Call): CallError {
    if op.RingTimeout? then Skip
    else if !Going(c.state) then AlreadyEnded
    else if op.Accept? && c.state == Connected then NotRinging
    else if op.Cancel? then OnlyCaller
    else NotParticipant
  }

  lemma ListsIffFound(c: Call, u: UserId)
    ensures c.Lists(u) <==> Find(c.participants, u) < |c.participants|
  {
    hide Find;
    var i := Find(c.participants, u);
    assert i < |c.participants| ==> c.participants[i].user == u;
  }

  function UserOf(op: Op): Option<UserId> {
    match op
    case Fail(_) => None
    case RingTimeout => None
    case _ => Some(op.user)
  }

  /** A closure succeeds exactly when the operation is allowed, and otherwise gives the first reason. */
  lemma SucceedsIff(op: Op, now: Time, c: Call)
    ensures Apply(op, now, c).Updated? <==> May(op, c)
    ensures !May(op, c) ==> Apply(op, now, c) == Refused(WhyNot(op, c))
  {
    hide Find; hide DropPending; hide DropOtherPending;
    if UserOf(op).Some? { ListsIffFound(c, op.user); }
  }

  // ---- The acting participant ----

  /** What the operation makes of the entry of the user who does it. */
  ghost predicate Acted(op: Op, now: Time, p: Participant, q: Participant) {
    && q.callId == p.callId && q.user == p.user && q.role == p.role
    && match op
       case Accept(_, d) =>
         q.state == PartyAccepted && q.device == d && q.joinedAt == Some(now) && q.leftAt == p.leftAt
       case Join(_, d) =>
         && q.state == PartyConnecting && q.device == d && q.leftAt == p.leftAt
         && q.joinedAt == (if p.joinedAt == None then Some(now) else p.joinedAt)
       case MarkConnected(_) =>
         q.state == PartyConnected && q.device == p.device && q.joinedAt == p.joinedAt && q.leftAt == p.leftAt
       case Reject(_) =>
         q.state == PartyRejected && q.device == p.device && q.joinedAt == p.joinedAt && q.leftAt == Some(now)
       case Leave(_) => q.state == Left && q.device == p.device && q.joinedAt == p.joinedAt && q.leftAt == Some(now)
       case Hangup(_) => q.state == Left && q.device == p.device && q.joinedAt == p.joinedAt && q.leftAt == Some(now)
       case Resume(_, d) =>
         && q.device == d && q.joinedAt == p.joinedAt && q.leftAt == p.leftAt
         && q.state == (if p.state in {Disconnected, Reconnecting, PartyConnected} then Reconnecting else p.state)
       case _ => false
  }

  /** Whether the operation disconnects participant `p`, who is not the one who does it. */
  predicate HangsUp(op: Op, p: Participant, direct: Option<UserId>) {
    && p.state in {Invited, PartyRinging}
    && (op.Cancel? || op.RingTimeout? || (op.Accept? && direct.Some? && p.user != op.user && p.user != direct.value))
  }

  function HangUpIf(b: bool, p: Participant, now: Time): Participant {
    if b then Participant(p.callId, p.user, p.device, Disconnected, p.joinedAt, Some(now), p.role) else p
  }

  /** The caller, for whom a direct call is spared; none for a group call. */
  function Spared(c: Call): Option<UserId> {
    if c.mode == Direct then Some(c.caller) else None
  }

  /** Position of the acting user's entry; past the end for a newcomer and when nobody acts. */
  function Actor(op: Op, c: Call): nat {
    match op
    case Fail(_) => |c.participants|
    case RingTimeout => |c.participants|
    case Cancel(_) => |c.participants|
    case _ => Find(c.participants, op.user)
  }

  /**
   The entry at `i` after the operation: acted on if it is the acting user's; otherwise hung up if
   it was pending and the operation ends the ringing for it; otherwise untouched.
   */
  ghost predicate EntryOk(op: Op, now: Time, a: Call, b: Call, i: nat)
    requires i < |a.participants| && i < |b.participants|
  {
    var p, q := a.participants[i], b.participants[i];
    if i == Actor(op, a) then Acted(op, now, p, q) else q == HangUpIf(HangsUp(op, p, Spared(a)), p, now)
  }

  /** A user who was not listed is added, by Join alone, and nobody leaves the list. */
  ghost predicate NewcomerOk(op: Op, now: Time, a: Call, b: Call) {
    if op.Join? && !a.Lists(op.user) then
      && |b.participants| == |a.participants| + 1
      && b.participants[|a.participants|] ==
           Participant(a.id, op.user, op.device, PartyConnecting, Some(now), None, Joiner)
    else |b.participants| == |a.participants|
  }

  lemma EntriesAfter(op: Op, now: Time, a: Call, b: Call)
    requires Apply(op, now, a) == Updated(b)
    ensures |a.participants| <= |b.participants| && NewcomerOk(op, now, a, b)
    ensures forall i :: 0 <= i < |a.participants| ==> EntryOk(op, now, a, b, i)
  {
    hide Find;
    if UserOf(op).Some? { ListsIffFound(a, op.user); }
  }

  // ---- The call ----

  /** State, reason and clock fields are as before. */
  ghost predicate GoesOn(a: Call, b: Call) {
    b.state == a.state && b.reason == a.reason && b.startedAt == a.startedAt && b.endedAt == a.endedAt
  }

  ghost predicate Ends(a: Call, b: Call, state: CallState, reason: Reason, now: Time) {
    b.state == state && b.reason == reason && b.startedAt == a.startedAt && b.endedAt == Some(now)
  }

  predicate Engaged(s: ParticipantState) {
    s == PartyAccepted || s == PartyConnecting || s == PartyConnected || s == Reconnecting
  }

  ghost predicate NobodyElse(a: Call, i: nat) {
    forall j :: 0 <= j < |a.participants| && j != i ==> !Engaged(a.participants[j].state)
  }

  /** What the operation makes of the call itself. */
  ghost predicate Became(op: Op, now: Time, a: Call, b: Call) {
    match op
    case Accept(_, _) =>
      b.state == Accepted && b.reason == a.reason && b.startedAt == a.startedAt && b.endedAt == a.endedAt
    case Join(_, _) =>
      && b.state == (if a.state in {Ringing, Accepted} then Connecting else a.state)
      && b.reason == a.reason && b.startedAt == a.startedAt && b.endedAt == a.endedAt
    case MarkConnected(_) =>
      if a.startedAt == None then
        b.state == Connected && b.startedAt == Some(now) && b.reason == a.reason && b.endedAt == a.endedAt
      else GoesOn(a, b)
    case Resume(_, _) => GoesOn(a, b)
    case Reject(_) => if a.mode == Direct then Ends(a, b, Rejected, ByRejection, now) else GoesOn(a, b)
    case Cancel(_) => Ends(a, b, Cancelled, ByCancellation, now)
    case Leave(_) =>
      if a.mode == Direct || NobodyElse(a, Actor(op, a)) then Ends(a, b, Ended, ByLeaving, now) else GoesOn(a, b)
    case Hangup(_) => Ends(a, b, Ended, ByHangup, now)
    case Fail(text) => if Going(a.state) then Ends(a, b, Failed, Reported(text), now) else b == a
    case RingTimeout => Ends(a, b, TimedOut, RingTimedOut, now)
  }

  lemma CallAfter(op: Op, now: Time, a: Call, b: Call)
    requires Apply(op, now, a) == Updated(b)
    ensures Became(op, now, a, b)
    ensures b == a.(state := b.state, reason := b.reason, startedAt := b.startedAt, endedAt := b.endedAt,
                    participants := b.participants)
  {
    hide Find; hide DropPending; hide DropOtherPending;
    if op.Leave? { LeaveAfter(op.user, now, a, b); }
  }

  lemma LeaveAfter(u: UserId, now: Time, a: Call, b: Call)
    requires Apply(Leave(u), now, a) == Updated(b)
    ensures Became(Leave(u), now, a, b)
  {
    hide Find;
    var i := Find(a.participants, u);
    forall j | 0 <= j < |a.participants| && j != i ensures b.participants[j] == a.participants[j] {}
    assert !b.participants[i].Active();
    assert b.HasActive() <==> !NobodyElse(a, i);
  }

  // ---- Runs ----

  /** The call as it ended, `a` before, by this operation with this reading. */
  ghost predicate EndedAs(final: Call, a: Call, op: Op, now: Time) {
    && Going(a.state) && final.endedAt == Some(now)
    && match final.state
       case Cancelled => op == Cancel(a.caller) && final.reason == ByCancellation
       case Rejected => op.Reject? && a.Lists(op.user) && a.mode == Direct && final.reason == ByRejection
       case Ended =>
         && (op.Leave? || op.Hangup?) && a.Lists(op.user)
         && final.reason == (if op.Leave? then ByLeaving else ByHangup)
       case TimedOut => op.RingTimeout? && a.state == Ringing && final.reason == RingTimedOut
       case Failed => op.Fail? && final.reason == Reported(op.text)
       case _ => false
  }

  lemma EndStep(op: Op, now: Time, a: Call, b: Call)
    requires Apply(op, now, a) == Updated(b) && Going(a.state) && !Going(b.state)
    ensures EndedAs(b, a, op, now)
  {
    hide Apply;
    SucceedsIff(op, now, a);
    CallAfter(op, now, a, b);
  }

  lemma EndKept(op: Op, now: Time, a: Call, b: Call)
    requires Apply(op, now, a) == Updated(b) && !Going(a.state)
    ensures GoesOn(a, b)
  {
    hide Apply;
    SucceedsIff(op, now, a);
    CallAfter(op, now, a, b);
  }

  /** Step `k` ended the call, and its outcome is the one the call still has. */
  ghost predicate EndedAt(base: Call, log: seq<Commit>, k: nat) {
    && k < |log| && Replay(base, log).Updated? && Replay(base, log[..k]).Updated?
    && EndedAs(Replay(base, log).call, At(base, log, k), log[k].op, log[k].now)
  }

  /**
   In every run, a call that is over was ended by one of its steps, which says who did it and why:
   cancelled by its caller, rejected by a participant of a direct call, ended by a participant,
   timed out while it rang, or failed; with the reason of that step and its clock reading.
   */
  lemma {:induction false} EndedBySomeStep(base: Call, log: seq<Commit>) returns (k: nat)
    requires IsRun(base, log) && !Going(Replay(base, log).call.state)
    ensures EndedAt(base, log, k)
    decreases |log|
  {
    hide Apply;
    NewCallInv(base);
    var n := |log| - 1;
    ReplayStep(base, log, n);
    assert log[..n + 1] == log;
    var a, b := At(base, log, n), Replay(base, log).call;
    if Going(a.state) {
      EndStep(log[n].op, log[n].now, a, b);
      k := n;
    } else {
      var front := log[..n];
      k := EndedBySomeStep(base, front);
      EndKept(log[n].op, log[n].now, a, b);
      assert front[..k] == log[..k] && front[k] == log[k];
    }
  }

  /** Whoever changes a call is listed by it, or joins a group call; only the timer and Fail name no user. */
  lemma OnlyListedAct(base: Call, log: seq<Commit>, k: nat)
    requires IsRun(base, log) && k < |log|
    ensures Replay(base, log[..k]).Updated? && Replay(base, log[..k + 1]).Updated?
    ensures var a, b, op := At(base, log, k), At(base, log, k + 1), log[k].op;
      b != a ==> op.Fail? || op.RingTimeout? || a.Lists(op.user) || (op.Join? && a.mode == Group)
  {
    hide Apply; hide Replay;
    ReplayStep(base, log, k);
    RunInvariant(base, log[..k]);
    var a, op := At(base, log, k), log[k].op;
    SucceedsIff(op, log[k].now, a);
    assert a.participants[0].user == a.caller;
    if op.Resume? && !a.Lists(op.user) { ResumeByStranger(op.user, op.device, log[k].now, a); }
  }

  lemma ResumeByStranger(u: UserId, d: DeviceId, now: Time, c: Call)
    requires !c.Lists(u)
    ensures Apply(Resume(u, d), now, c) == Updated(c)
  {
    ListsIffFound(c, u);
  }

  // ---- Resume ----

  /**
   Resume, as a request: not found, or refused to a user the call does not list; a finished call is
   returned as it is and stays so; otherwise the user's entry is updated and the call returned.
   */
  lemma ResumeMeans(m: Contents, id: CallId, u: UserId, d: DeviceId)
    ensures var req := Reconnect(id, u, d); var m1, a := Effect(m, req), AnswerTo(m, req);
      if id !in m then m1 == m && a == Denied(NotFound)
      else if !m[id].Lists(u) then m1 == m && a == Denied(NotParticipant)
      else if !Going(m[id].state) then m1 == m && a == Returned(m[id])
      else
        && id in m1 && m1 == m[id := m1[id]] && a == Returned(m1[id])
        && Apply(Resume(u, d), 0, m[id]) == Updated(m1[id])
  {
    hide Apply; hide Find;
    if id in m {
      ListsIffFound(m[id], u);
      SucceedsIff(Resume(u, d), 0, m[id]);
    }
  }

  // ---- Create ----

  predicate WantsDirect(inp: CreateInput) {
    inp.mode == ChosenMode(Direct) || (inp.mode == DefaultMode && |inp.callees| == 1)
  }

  /** Create refuses exactly a missing caller or callees, an unknown type or mode, and a direct call to several. */
  lemma CreateRefusesIff(inp: CreateInput, id: CallId, room: RoomId, now: Time)
    ensures var o := Create(inp, id, room, now);
      if inp.caller == 0 || |inp.callees| == 0 then o == Refused(MissingParties)
      else if inp.media == UnknownMedia then o == Refused(BadMedia)
      else if inp.mode == UnknownMode then o == Refused(BadMode)
      else if inp.mode == ChosenMode(Direct) && |inp.callees| != 1 then o == Refused(DirectNeedsOneCallee)
      else o.Updated?
  {
    hide Ring;
  }

  /** What a new call is, but for those it rings. */
  lemma CreateFields(inp: CreateInput, id: CallId, room: RoomId, now: Time, c: Call)
    requires Create(inp, id, room, now) == Updated(c)
    ensures c.id == id && c.room == room && c.app == inp.app && c.caller == inp.caller && c.createdAt == now
    ensures c.media == (if inp.media == ChosenMedia(Video) then Video else Audio)
    ensures c.mode == (if WantsDirect(inp) then Direct else Group)
    ensures c.transport == (if WantsDirect(inp) then P2P else SFU)
    ensures c.state == Ringing && c.startedAt == None && c.endedAt == None && c.reason == NoReason
    ensures |c.participants| >= 1
    ensures c.participants[0] == Participant(id, inp.caller, inp.device, PartyAccepted, Some(now), None, Caller)
  {
    hide Ring;
  }

  /** `at` picks out, in order, exactly the callees other than the caller. */
  ghost predicate PicksOthers(callees: seq<UserId>, caller: UserId, at: seq<nat>) {
    && (forall k :: 0 <= k < |at| ==> at[k] < |callees| && callees[at[k]] != caller)
    && (forall j, k :: 0 <= j < k < |at| ==> at[j] < at[k])
    && (forall p :: 0 <= p < |callees| && callees[p] != caller ==> p in at)
  }

  ghost predicate RingsAt(ps: seq<Participant>, id: CallId, callees: seq<UserId>, at: seq<nat>) {
    && |ps| == |at|
    && forall k :: 0 <= k < |at| ==>
         at[k] < |callees| && ps[k] == Participant(id, callees[at[k]], 0, PartyRinging, None, None, Callee)
  }

  lemma {:induction false} RingsOthers(id: CallId, caller: UserId, callees: seq<UserId>) returns (at: seq<nat>)
    ensures PicksOthers(callees, caller, at) && RingsAt(Ring(id, caller, callees), id, callees, at)
  {
    at := [];
    if callees != [] {
      var n := |callees| - 1;
      hide PicksOthers; hide RingsAt;
      at := RingsOthers(id, caller, callees[..n]);
      PicksMore(callees, caller, at);
      RingsMore(id, caller, callees, at);
      if callees[n] != caller { at := at + [n]; }
    }
  }

  lemma RingsMore(id: CallId, caller: UserId, callees: seq<UserId>, at: seq<nat>)
    requires callees != [] && RingsAt(Ring(id, caller, callees[..|callees| - 1]), id, callees[..|callees| - 1], at)
    ensures var n := |callees| - 1;
      RingsAt(Ring(id, caller, callees), id, callees, if callees[n] != caller then at + [n] else at)
  {
  }

  lemma PicksMore(callees: seq<UserId>, caller: UserId, at: seq<nat>)
    requires callees != [] && PicksOthers(callees[..|callees| - 1], caller, at)
    ensures PicksOthers(callees, caller, if callees[|callees| - 1] != caller then at + [|callees| - 1] else at)
  {
    var n := |callees| - 1;
    var more := if callees[n] != caller then at + [n] else at;
    forall p | 0 <= p < |callees| && callees[p] != caller ensures p in more {
      if p < n {
        assert callees[..n][p] == callees[p];
        assert p in at;
      } else {
        assert more[|at|] == n;
      }
    }
  }

  /**
   Everybody asked for is rung: the entries after the caller's are, in order and as often as
   requested, those of the callees other than the caller, ringing and not yet joined.
   */
  lemma CreateRingsAll(inp: CreateInput, id: CallId, room: RoomId, now: Time, c: Call) returns (at: seq<nat>)
    requires Create(inp, id, room, now) == Updated(c)
    ensures PicksOthers(inp.callees, inp.caller, at) && |c.participants| == |at| + 1
    ensures forall k :: 0 <= k < |at| ==>
      c.participants[k + 1] == Participant(id, inp.callees[at[k]], 0, PartyRinging, None, None, Callee)
  {
    at := RingsOthers(id, inp.caller, inp.callees);
    hide Ring; hide PicksOthers;
  }

  /** So a user other than the caller is listed exactly when it was asked for. */
  lemma ListedIffRequested(inp: CreateInput, id: CallId, room: RoomId, now: Time, c: Call, u: UserId)
    requires Create(inp, id, room, now) == Updated(c)
    ensures c.Lists(u) <==> u == inp.caller || u in inp.callees
  {
    var at := CreateRingsAll(inp, id, room, now, c);
    CreateFields(inp, id, room, now, c);
    hide Create;
    if u != inp.caller && u in inp.callees {
      var p :| 0 <= p < |inp.callees| && inp.callees[p] == u;
      assert p in at;
      var k :| 0 <= k < |at| && at[k] == p;
      assert c.participants[k + 1].user == u;
    }
    if u == inp.caller { assert c.participants[0].user == u; }
    if i :| 0 <= i < |c.participants| && c.participants[i].user == u && i > 0 {
      assert c.participants[(i - 1) + 1].user == inp.callees[at[i - 1]];
    }
  }
}
