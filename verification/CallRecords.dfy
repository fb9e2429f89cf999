/**
 Calls as the in-process store keeps them: heap records whose fields the service's closures
 assign in place.  `Value` is the call a record stands for; each closure is proved to do to it
 what the corresponding function of `CallModel` does, and to leave it alone when it refuses.
 */
module CallRecords {
  import opened Wrappers
  import opened CallModel

  class Party {
    const callId: CallId
    const user: UserId
    const role: Role
    var device: DeviceId
    var state: ParticipantState
    var joinedAt: Option<Time>
    var leftAt: Option<Time>

    ghost function Value(): Participant
      reads this
    {
      Participant(callId, user, device, state, joinedAt, leftAt, role)
    }

    constructor (p: Participant)
      ensures Value() == p
    {
      callId, user, role := p.callId, p.user, p.role;
      device, state, joinedAt, leftAt := p.device, p.state, p.joinedAt, p.leftAt;
    }

    method Copy() returns (p: Party)
      ensures fresh(p) && p.Value() == Value()
    {
      p := new Party(Participant(callId, user, device, state, joinedAt, leftAt, role));
    }
  }

  ghost function Roster(ps: seq<Party>): (r: seq<Participant>)
    reads ps
    ensures |r| == |ps| && forall i :: 0 <= i < |ps| ==> r[i] == ps[i].Value()
  {
    seq(|ps|, i requires 0 <= i < |ps| reads ps => ps[i].Value())
  }

  /** Distinct records, all of call `id`. */
  ghost predicate PartiesOf(ps: seq<Party>, id: CallId) {
    && (forall i :: 0 <= i < |ps| ==> ps[i].callId == id)
    && (forall i, j :: 0 <= i < j < |ps| ==> ps[i] != ps[j])
  }

  /** What a closure that specification `o` describes reports and leaves behind. */
  ghost predicate Meets(o: Outcome, before: Call, after: Call, err: Option<CallError>) {
    match o
    case Refused(e) => err == Some(e) && after == before
    case Updated(c) => err == None && after == c
  }

  class CallRecord {
    const id: CallId
    const room: RoomId
    const app: AppId
    const caller: UserId
    const media: Media
    const mode: Mode
    const transport: Transport
    const createdAt: Time
    var state: CallState
    var startedAt: Option<Time>
    var endedAt: Option<Time>
    var reason: Reason
    var parties: seq<Party>

    ghost predicate Valid()
      reads this
    {
      PartiesOf(parties, id)
    }

    ghost function Value(): Call
      reads this, parties
    {
      Call(id, room, app, caller, media, mode, state, transport, createdAt, startedAt, endedAt, reason,
           Roster(parties))
    }

    /** A record with the fields of `c` and the given participant records. */
    constructor (c: Call, ps: seq<Party>)
      requires PartiesOf(ps, c.id)
      ensures Valid() && parties == ps && Value() == c.(participants := Roster(ps))
    {
      id, room, app, caller, media, mode := c.id, c.room, c.app, c.caller, c.media, c.mode;
      transport, createdAt := c.transport, c.createdAt;
      state, startedAt, endedAt, reason := c.state, c.startedAt, c.endedAt, c.reason;
      parties := ps;
    }

    method IsTerminal() returns (b: bool)
      ensures b == Value().Terminal()
    {
      b := state.Ended? || state.Rejected? || state.Cancelled? || state.TimedOut? || state.Failed?;
    }

    method FindParticipant(u: UserId) returns (p: Party?, ghost at: nat)
      ensures at == Find(Value().participants, u)
      ensures var i := Find(Value().participants, u); p == if i == |parties| then null else parties[i]
    {
      for n := 0 to |parties|
        invariant forall j :: 0 <= j < n ==> parties[j].user != u
      {
        if parties[n].user == u {
          return parties[n], n;
        }
      }
      return null, |parties|;
    }

    method Clone() returns (cp: CallRecord)
      requires Valid()
      ensures fresh(cp) && fresh(cp.parties) && cp.Valid() && cp.Value() == Value()
    {
      var ps: seq<Party> := [];
      for n := 0 to |parties|
        invariant |ps| == n && fresh(ps) && PartiesOf(ps, id)
        invariant forall i :: 0 <= i < n ==> ps[i].Value() == parties[i].Value()
      {
        var p := parties[n].Copy();
        ps := ps + [p];
      }
      assert Roster(ps) == Roster(parties);
      cp := new CallRecord(
        Call(id, room, app, caller, media, mode, state, transport, createdAt, startedAt, endedAt, reason, []), ps);
    }

    // ---- Closures ----

    /** Only the participant at `at` has changed since. */
    twostate lemma OneParty(at: nat)
      requires at < |parties| && parties == old(parties) && old(Valid())
      requires forall p :: p in parties && p != parties[at] ==> p.Value() == old(p.Value())
      ensures Roster(parties) == old(Roster(parties))[at := parties[at].Value()]
    {
    }

    method Accept(u: UserId, d: DeviceId, now: Time) returns (err: Option<CallError>)
      requires Valid()
      modifies this, parties
      ensures Valid() && parties == old(parties)
      ensures Meets(ApplyAccept(old(Value()), u, d, now), old(Value()), Value(), err)
    {
      hide Roster; hide Find;
      var over := IsTerminal();
      if over { return Some(AlreadyEnded); }
      if !state.Ringing? && !state.Accepted? && !state.Connecting? { return Some(NotRinging); }
      var p, at := FindParticipant(u);
      if p == null { return Some(NotParticipant); }
      p.state := PartyAccepted;
      p.device := d;
      p.joinedAt := Some(now);
      state := Accepted;
      OneParty(at);
      if mode.Direct? {
        HangUpOthers(u, now);
      }
      return None;
    }

    /** The loop of Accept over the other participants of a direct call. */
    method HangUpOthers(u: UserId, now: Time)
      requires Valid()
      modifies parties
      ensures Roster(parties) == DropOtherPending(old(Roster(parties)), u, caller, now)
    {
      for n := 0 to |parties|
        invariant forall i :: n <= i < |parties| ==> parties[i].Value() == old(Roster(parties))[i]
        invariant forall i :: 0 <= i < n ==>
          parties[i].Value() == DropOtherPending(old(Roster(parties)), u, caller, now)[i]
      {
        var other := parties[n];
        if other.user != u && other.user != caller && (other.state.PartyRinging? || other.state.Invited?) {
          other.state := Disconnected;
          other.leftAt := Some(now);
        }
      }
    }

    /** The loop of Cancel and of the ring timer over the participants. */
    method HangUpPending(now: Time)
      requires Valid()
      modifies parties
      ensures Roster(parties) == DropPending(old(Roster(parties)), now)
    {
      for n := 0 to |parties|
        invariant forall i :: n <= i < |parties| ==> parties[i].Value() == old(Roster(parties))[i]
        invariant forall i :: 0 <= i < n ==> parties[i].Value() == DropPending(old(Roster(parties)), now)[i]
      {
        var p := parties[n];
        if p.state.PartyRinging? || p.state.Invited? {
          p.state := Disconnected;
          p.leftAt := Some(now);
        }
      }
    }

    method Reject(u: UserId, now: Time) returns (err: Option<CallError>)
      requires Valid()
      modifies this, parties
      ensures Valid() && parties == old(parties)
      ensures Meets(ApplyReject(old(Value()), u, now), old(Value()), Value(), err)
    {
      hide Roster; hide Find;
      var over := IsTerminal();
      if over { return Some(AlreadyEnded); }
      var p, at := FindParticipant(u);
      if p == null { return Some(NotParticipant); }
      p.state := PartyRejected;
      p.leftAt := Some(now);
      OneParty(at);
      if mode.Direct? {
        state := Rejected;
        endedAt := Some(now);
        reason := ByRejection;
      }
      return None;
    }

    method Cancel(u: UserId, now: Time) returns (err: Option<CallError>)
      requires Valid()
      modifies this, parties
      ensures Valid() && parties == old(parties)
      ensures Meets(ApplyCancel(old(Value()), u, now), old(Value()), Value(), err)
    {
      var over := IsTerminal();
      if over { return Some(AlreadyEnded); }
      if caller != u { return Some(OnlyCaller); }
      state := Cancelled;
      endedAt := Some(now);
      reason := ByCancellation;
      HangUpPending(now);
      return None;
    }

    /** A newcomer to a group call. */
    method Admit(u: UserId) returns (p: Party)
      requires Valid()
      modifies this`parties
      ensures Valid() && fresh(p) && parties == old(parties) + [p]
      ensures Value() == old(Value()).(participants :=
                old(Value()).participants + [Participant(id, u, 0, Invited, None, None, Joiner)])
    {
      p := new Party(Participant(id, u, 0, Invited, None, None, Joiner));
      parties := parties + [p];
    }

    /** Participant `p`, at position `at`, is now connecting, and so is a call that had not got so far. */
    method Connect(p: Party, ghost at: nat, d: DeviceId, now: Time)
      requires Valid() && at < |parties| && p == parties[at]
      modifies this`state, p
      ensures var c := old(Value()); var q := c.participants[at];
        Value() == c.(
          state := if c.state.Accepted? || c.state.Ringing? then Connecting else c.state,
          participants := c.participants[at := q.(device := d, state := PartyConnecting,
                                                   joinedAt := if q.joinedAt.None? then Some(now) else q.joinedAt)])
    {
      hide Roster;
      p.device := d;
      p.state := PartyConnecting;
      if p.joinedAt == None {
        p.joinedAt := Some(now);
      }
      OneParty(at);
      if state.Accepted? || state.Ringing? {
        state := Connecting;
      }
    }

    method Join(u: UserId, d: DeviceId, now: Time) returns (err: Option<CallError>)
      requires Valid()
      modifies this, parties
      ensures Valid() && old(parties) <= parties && fresh(parties[|old(parties)|..])
      ensures Meets(ApplyJoin(old(Value()), u, d, now), old(Value()), Value(), err)
    {
      hide Roster; hide Find;
      var over := IsTerminal();
      if over { return Some(AlreadyEnded); }
      var p, at := FindParticipant(u);
      if p == null {
        if mode != Group { return Some(NotParticipant); }
        p := Admit(u);
      }
      Connect(p, at, d, now);
      return None;
    }

    method MarkConnected(u: UserId, now: Time) returns (err: Option<CallError>)
      requires Valid()
      modifies this, parties
      ensures Valid() && parties == old(parties)
      ensures Meets(ApplyMarkConnected(old(Value()), u, now), old(Value()), Value(), err)
    {
      hide Roster; hide Find;
      var over := IsTerminal();
      if over { return Some(AlreadyEnded); }
      var p, at := FindParticipant(u);
      if p == null { return Some(NotParticipant); }
      p.state := PartyConnected;
      OneParty(at);
      if startedAt == None {
        startedAt := Some(now);
        state := Connected;
      }
      return None;
    }

    method CountActive() returns (active: nat)
      ensures active == 0 <==> !Value().HasActive()
    {
      active := 0;
      for n := 0 to |parties|
        invariant active == 0 <==> forall i :: 0 <= i < n ==> !parties[i].Value().Active()
      {
        if parties[n].state in {PartyConnected, PartyConnecting, PartyAccepted, Reconnecting} {
          active := active + 1;
        }
      }
      ghost var ps := Value().participants;
      assert forall i :: 0 <= i < |ps| ==> ps[i].Active() == parties[i].Value().Active();
    }

    method End(why: Reason, now: Time)
      modifies this`state, this`endedAt, this`reason
      ensures Value() == old(Value()).(state := Ended, endedAt := Some(now), reason := why)
    {
      state := Ended;
      endedAt := Some(now);
      reason := why;
    }

    method EndForUser(u: UserId, why: Reason, endCall: bool, now: Time) returns (err: Option<CallError>)
      requires Valid()
      modifies this, parties
      ensures Valid() && parties == old(parties)
      ensures Meets(ApplyEndForUser(old(Value()), u, why, endCall, now), old(Value()), Value(), err)
    {
      hide Roster; hide Find;
      var over := IsTerminal();
      if over { return Some(AlreadyEnded); }
      var p, at := FindParticipant(u);
      if p == null { return Some(NotParticipant); }
      p.state := Left;
      p.leftAt := Some(now);
      OneParty(at);
      assert Value() == old(Value()).(participants := old(Value()).participants[at := p.Value()]);
      if endCall || mode.Direct? {
        End(why, now);
        return None;
      }
      var active := CountActive();
      if active == 0 {
        End(why, now);
      }
      return None;
    }

    method Fail(text: nat, now: Time) returns (err: Option<CallError>)
      requires Valid()
      modifies this
      ensures Valid() && parties == old(parties)
      ensures Meets(ApplyFail(old(Value()), text, now), old(Value()), Value(), err)
    {
      var over := IsTerminal();
      if over { return None; }
      state := Failed;
      endedAt := Some(now);
      reason := Reported(text);
      return None;
    }

    method Resume(u: UserId, d: DeviceId) returns (err: Option<CallError>)
      requires Valid()
      modifies this, parties
      ensures Valid() && parties == old(parties)
      ensures Meets(ApplyResume(old(Value()), u, d), old(Value()), Value(), err)
    {
      var p, at := FindParticipant(u);
      if p != null {
        p.device := d;
        if p.state.Disconnected? || p.state.Reconnecting? || p.state.PartyConnected? {
          p.state := Reconnecting;
        }
        OneParty(at);
      }
      return None;
    }

    method TimeOut(now: Time) returns (err: Option<CallError>)
      requires Valid()
      modifies this, parties
      ensures Valid() && parties == old(parties)
      ensures Meets(ApplyRingTimeout(old(Value()), now), old(Value()), Value(), err)
    {
      if !state.Ringing? { return Some(Skip); }
      state := TimedOut;
      endedAt := Some(now);
      reason := RingTimedOut;
      HangUpPending(now);
      return None;
    }

    /** The closure of `op`, run on this record. */
    method Do(op: Op, now: Time) returns (err: Option<CallError>)
      requires Valid()
      modifies this, parties
      ensures Valid() && old(parties) <= parties && fresh(parties[|old(parties)|..])
      ensures Meets(Apply(op, now, old(Value())), old(Value()), Value(), err)
    {
      hide Meets; hide ApplyAccept; hide ApplyReject; hide ApplyCancel; hide ApplyJoin; hide ApplyMarkConnected;
      hide ApplyEndForUser; hide ApplyFail; hide ApplyResume; hide ApplyRingTimeout;
      match op
      case Accept(u, d) => err := Accept(u, d, now);
      case Reject(u) => err := Reject(u, now);
      case Cancel(u) => err := Cancel(u, now);
      case Join(u, d) => err := Join(u, d, now);
      case MarkConnected(u) => err := MarkConnected(u, now);
      case Leave(u) => err := EndForUser(u, ByLeaving, false, now);
      case Hangup(u) => err := EndForUser(u, ByHangup, true, now);
      case Fail(text) => err := Fail(text, now);
      case Resume(u, d) => err := Resume(u, d);
      case RingTimeout => err := TimeOut(now);
    }
  }
}
