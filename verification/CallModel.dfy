/**
 The call runtime's data and the update closures of the call service.

 A closure of `Service` takes the stored call, either refuses it (and the store keeps
 what it had) or changes it.  Here each closure is a function from a call to an
 `Outcome`, and `Apply` selects one by operation.  The clock reading that a closure
 takes is a parameter.
 */
module CallModel {
  import opened Wrappers

  type Time = int
  // Identifiers are opaque tokens; 0 stands for the empty string.
  type UserId = nat
  type DeviceId = nat
  type CallId = nat
  type RoomId = nat
  type AppId = nat

  datatype CallState =
    | Ringing | Accepted | Connecting | Connected
    | Ended | Rejected | Cancelled | TimedOut | Failed

  datatype ParticipantState =
    | Invited | PartyRinging | PartyAccepted | PartyConnecting | PartyConnected
    | Left | Reconnecting | Disconnected | PartyRejected

  datatype Media = Audio | Video
  datatype Mode = Direct | Group
  datatype Transport = P2P | SFU
  datatype Role = Caller | Callee | Joiner

  datatype Reason =
    | NoReason | RingTimedOut | ByRejection | ByCancellation | ByLeaving | ByHangup
    | Reported(text: nat)

  datatype Participant = Participant(
    callId: CallId, user: UserId, device: DeviceId, state: ParticipantState,
    joinedAt: Option<Time>, leftAt: Option<Time>, role: Role)
  {
    /** Still being rung. */
    predicate Pending() { state.PartyRinging? || state.Invited? }

    /** Counted by `endForUser` as keeping a group call alive. */
    predicate Active() {
      state.PartyConnected? || state.PartyConnecting? || state.PartyAccepted? || state.Reconnecting?
    }

    predicate Gone() { state.Left? || state.PartyRejected? || state.Disconnected? }

    function HungUp(now: Time): Participant {
      this.(state := Disconnected, leftAt := Some(now))
    }
  }

  datatype Call = Call(
    id: CallId, room: RoomId, app: AppId, caller: UserId, media: Media, mode: Mode,
    state: CallState, transport: Transport, createdAt: Time,
    startedAt: Option<Time>, endedAt: Option<Time>, reason: Reason,
    participants: seq<Participant>)
  {
    predicate Terminal() {
      state.Ended? || state.Rejected? || state.Cancelled? || state.TimedOut? || state.Failed?
    }

    predicate Lists(u: UserId) {
      exists i :: 0 <= i < |participants| && participants[i].user == u
    }

    predicate HasActive() {
      exists i :: 0 <= i < |participants| && participants[i].Active()
    }
  }

  datatype CallError =
    | MissingParties | BadMedia | BadMode | DirectNeedsOneCallee   // refusals of Create
    | AlreadyEnded | NotRinging | NotParticipant | OnlyCaller | Skip // refusals of closures
    | NotFound | TooBusy                                            // refusals of the store

  datatype Outcome = Updated(call: Call) | Refused(error: CallError)

  datatype Op =
    | Accept(user: UserId, device: DeviceId)
    | Reject(user: UserId)
    | Cancel(user: UserId)
    | Join(user: UserId, device: DeviceId)
    | MarkConnected(user: UserId)
    | Leave(user: UserId)
    | Hangup(user: UserId)
    | Fail(text: nat)
    | Resume(user: UserId, device: DeviceId)
    | RingTimeout

  /** Position of the first participant of user `u`, or the length when there is none. */
  function Find(ps: seq<Participant>, u: UserId): (i: nat)
    ensures i <= |ps|
    ensures i < |ps| ==> ps[i].user == u
    ensures forall j :: 0 <= j < i ==> ps[j].user != u
  {
    if ps == [] then 0
    else if ps[0].user == u then 0
    else
      var k := Find(ps[1..], u);
      assert forall j :: 1 <= j < k + 1 ==> ps[j] == ps[1..][j - 1];
      k + 1
  }

  /** Every participant still being rung is disconnected. */
  function DropPending(ps: seq<Participant>, now: Time): (r: seq<Participant>)
    ensures |r| == |ps|
  {
    seq(|ps|, i requires 0 <= i < |ps| => if ps[i].Pending() then ps[i].HungUp(now) else ps[i])
  }

  /** The same, sparing the participants of `u` and of the caller. */
  function DropOtherPending(ps: seq<Participant>, u: UserId, caller: UserId, now: Time): (r: seq<Participant>)
    ensures |r| == |ps|
  {
    seq(|ps|, i requires 0 <= i < |ps| =>
      if ps[i].user != u && ps[i].user != caller && ps[i].Pending() then ps[i].HungUp(now) else ps[i])
  }

  function ApplyAccept(c: Call, u: UserId, d: DeviceId, now: Time): Outcome {
    if c.Terminal() then Refused(AlreadyEnded)
    else if !(c.state.Ringing? || c.state.Accepted? || c.state.Connecting?) then Refused(NotRinging)
    else
      var i := Find(c.participants, u);
      if i == |c.participants| then Refused(NotParticipant)
      else
        var p := c.participants[i].(state := PartyAccepted, device := d, joinedAt := Some(now));
        var ps := c.participants[i := p];
        Updated(c.(state := Accepted,
                   participants := if c.mode.Direct? then DropOtherPending(ps, u, c.caller, now) else ps))
  }

  function ApplyReject(c: Call, u: UserId, now: Time): Outcome {
    if c.Terminal() then Refused(AlreadyEnded)
    else
      var i := Find(c.participants, u);
      if i == |c.participants| then Refused(NotParticipant)
      else
        var p := c.participants[i].(state := PartyRejected, leftAt := Some(now));
        var c1 := c.(participants := c.participants[i := p]);
        Updated(if c.mode.Direct? then c1.(state := Rejected, endedAt := Some(now), reason := ByRejection) else c1)
  }

  function ApplyCancel(c: Call, u: UserId, now: Time): Outcome {
    if c.Terminal() then Refused(AlreadyEnded)
    else if c.caller != u then Refused(OnlyCaller)
    else Updated(c.(state := Cancelled, endedAt := Some(now), reason := ByCancellation,
                    participants := DropPending(c.participants, now)))
  }

  function ApplyJoin(c: Call, u: UserId, d: DeviceId, now: Time): Outcome {
    if c.Terminal() then Refused(AlreadyEnded)
    else
      var i := Find(c.participants, u);
      var st := if c.state.Accepted? || c.state.Ringing? then Connecting else c.state;
      if i < |c.participants| then
        var p := c.participants[i];
        var p1 := p.(device := d, state := PartyConnecting,
                     joinedAt := if p.joinedAt.None? then Some(now) else p.joinedAt);
        Updated(c.(state := st, participants := c.participants[i := p1]))
      else if c.mode != Group then Refused(NotParticipant)
      else
        var p1 := Participant(c.id, u, d, PartyConnecting, Some(now), None, Joiner);
        Updated(c.(state := st, participants := c.participants + [p1]))
  }

  function ApplyMarkConnected(c: Call, u: UserId, now: Time): Outcome {
    if c.Terminal() then Refused(AlreadyEnded)
    else
      var i := Find(c.participants, u);
      if i == |c.participants| then Refused(NotParticipant)
      else
        var c1 := c.(participants := c.participants[i := c.participants[i].(state := PartyConnected)]);
        Updated(if c.startedAt.None? then c1.(startedAt := Some(now), state := Connected) else c1)
  }

  function ApplyEndForUser(c: Call, u: UserId, reason: Reason, endCall: bool, now: Time): Outcome {
    if c.Terminal() then Refused(AlreadyEnded)
    else
      var i := Find(c.participants, u);
      if i == |c.participants| then Refused(NotParticipant)
      else
        var p := c.participants[i].(state := Left, leftAt := Some(now));
        var c1 := c.(participants := c.participants[i := p]);
        Updated(if endCall || c.mode.Direct? || !c1.HasActive()
                then c1.(state := Ended, endedAt := Some(now), reason := reason) else c1)
  }

  function ApplyFail(c: Call, text: nat, now: Time): Outcome {
    if c.Terminal() then Updated(c)
    else Updated(c.(state := Failed, endedAt := Some(now), reason := Reported(text)))
  }

  function ApplyResume(c: Call, u: UserId, d: DeviceId): Outcome {
    var i := Find(c.participants, u);
    if i == |c.participants| then Updated(c)
    else
      var p := c.participants[i].(device := d);
      var p1 := if p.state.Disconnected? || p.state.Reconnecting? || p.state.PartyConnected?
                then p.(state := Reconnecting) else p;
      Updated(c.(participants := c.participants[i := p1]))
  }

  function ApplyRingTimeout(c: Call, now: Time): Outcome {
    if !c.state.Ringing? then Refused(Skip)
    else Updated(c.(state := TimedOut, endedAt := Some(now), reason := RingTimedOut,
                    participants := DropPending(c.participants, now)))
  }

  /** What the closure of operation `op` does to a call when its clock reads `now`. */
  function Apply(op: Op, now: Time, c: Call): Outcome {
    match op
    case Accept(u, d) => ApplyAccept(c, u, d, now)
    case Reject(u) => ApplyReject(c, u, now)
    case Cancel(u) => ApplyCancel(c, u, now)
    case Join(u, d) => ApplyJoin(c, u, d, now)
    case MarkConnected(u) => ApplyMarkConnected(c, u, now)
    case Leave(u) => ApplyEndForUser(c, u, ByLeaving, false, now)
    case Hangup(u) => ApplyEndForUser(c, u, ByHangup, true, now)
    case Fail(text) => ApplyFail(c, text, now)
    case Resume(u, d) => ApplyResume(c, u, d)
    case RingTimeout => ApplyRingTimeout(c, now)
  }

  /** Whether the service publishes `call.ended` after `op` succeeded with call `c`. */
  predicate PublishesEnded(op: Op, c: Call) {
    match op
    case Reject(_) => c.state.Rejected?
    case Cancel(_) => true
    case Leave(_) => c.Terminal()
    case Hangup(_) => c.Terminal()
    case RingTimeout => true
    case _ => false
  }

  /** Operations by which somebody answers a ringing call. */
  predicate Answers(op: Op) { op.Accept? || op.Join? || op.MarkConnected? }

  // ---- Create ----

  datatype MediaChoice = DefaultMedia | ChosenMedia(media: Media) | UnknownMedia
  datatype ModeChoice = DefaultMode | ChosenMode(mode: Mode) | UnknownMode

  datatype CreateInput = CreateInput(
    app: AppId, caller: UserId, device: DeviceId, callees: seq<UserId>,
    media: MediaChoice, mode: ModeChoice)

  function ChooseMode(m: ModeChoice, callees: nat): Mode
    requires !m.UnknownMode?
  {
    if m.ChosenMode? then m.mode else if callees == 1 then Direct else Group
  }

  /** The callees as participants, skipping the caller's own id. */
  function Ring(id: CallId, caller: UserId, callees: seq<UserId>): seq<Participant> {
    if callees == [] then []
    else
      var last := callees[|callees| - 1];
      var front := Ring(id, caller, callees[..|callees| - 1]);
      if last == caller then front
      else front + [Participant(id, last, 0, PartyRinging, None, None, Callee)]
  }

  function Create(inp: CreateInput, id: CallId, room: RoomId, now: Time): Outcome {
    if inp.caller == 0 || inp.callees == [] then Refused(MissingParties)
    else if inp.media.UnknownMedia? then Refused(BadMedia)
    else if inp.mode.UnknownMode? then Refused(BadMode)
    else
      var mode := ChooseMode(inp.mode, |inp.callees|);
      if mode.Direct? && |inp.callees| != 1 then Refused(DirectNeedsOneCallee)
      else
        var media := if inp.media.ChosenMedia? then inp.media.media else Audio;
        var caller := Participant(id, inp.caller, inp.device, PartyAccepted, Some(now), None, Caller);
        Updated(Call(id, room, inp.app, inp.caller, media, mode, Ringing,
                     if mode.Group? then SFU else P2P, now, None, None, NoReason,
                     [caller] + Ring(id, inp.caller, inp.callees)))
  }

  /** `c` is what `Create` hands to the store for some request. */
  ghost predicate IsNew(c: Call) {
    exists inp, id, room, now :: Create(inp, id, room, now) == Updated(c)
  }
}
