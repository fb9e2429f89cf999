/**
 What a call store owes the service when requests come one after the other: the stored calls
 after each request and the answer to it.  It knows neither records shared between calls nor
 index, versions or retries.
 */
module StoreSpec {
  import opened CallModel
  import opened UserIndex

  type Contents = map<CallId, Call>

  datatype Request =
    | Open(input: CreateInput, id: CallId, room: RoomId, now: Time)   // Create; `id` and `room` are the generated ones
    | Read(id: CallId)                                                // Get
    | Perform(id: CallId, op: Op, now: Time)                          // a service method that is one Update
    | Reconnect(id: CallId, user: UserId, device: DeviceId)           // Resume
    | ActiveCalls(key: Key)                                           // ActiveCallIDsForUser
    | Sweep(query: nat)                                               // the late index clean-up of an earlier query

  datatype Answer =
    | Returned(call: Call)
    | Denied(error: CallError)
    | Active(ids: set<CallId>)
    | Nothing

  /** Resume goes on to its update once it has read `c`. */
  predicate Reconnects(c: Call, u: UserId) {
    Find(c.participants, u) < |c.participants| && !c.Terminal()
  }

  function Applied(m: Contents, id: CallId, op: Op, now: Time): Contents {
    if id in m && Apply(op, now, m[id]).Updated? then m[id := Apply(op, now, m[id]).call] else m
  }

  function Effect(m: Contents, req: Request): Contents {
    match req
    case Open(inp, id, room, now) =>
      var o := Create(inp, id, room, now);
      if o.Updated? then m[id := o.call] else m
    case Perform(id, op, now) => Applied(m, id, op, now)
    case Reconnect(id, u, d) =>
      if id in m && Reconnects(m[id], u) then Applied(m, id, Resume(u, d), 0) else m
    case _ => m
  }

  function OfOutcome(o: Outcome): Answer {
    match o
    case Updated(c) => Returned(c)
    case Refused(e) => Denied(e)
  }

  function LiveCalls(m: Contents, key: Key): set<CallId> {
    set id | id in m.Keys && !m[id].Terminal() && m[id].app == key.0 && m[id].Lists(key.1)
  }

  function AnswerTo(m: Contents, req: Request): Answer {
    match req
    case Open(inp, id, room, now) => OfOutcome(Create(inp, id, room, now))
    case Read(id) => if id in m then Returned(m[id]) else Denied(NotFound)
    case Perform(id, op, now) => if id in m then OfOutcome(Apply(op, now, m[id])) else Denied(NotFound)
    case Reconnect(id, u, d) =>
      if id !in m then Denied(NotFound)
      else if Find(m[id].participants, u) == |m[id].participants| then Denied(NotParticipant)
      else
        var m1 := Effect(m, req);
        if id in m1 then Returned(m1[id]) else Denied(NotFound)
    case ActiveCalls(key) => Active(LiveCalls(m, key))
    case Sweep(_) => Nothing
  }

  /** Resume, as the reads and the update it is made of. */
  lemma ReconnectByParts(m: Contents, id: CallId, u: UserId, d: DeviceId)
    ensures var read, req := AnswerTo(m, Read(id)), Reconnect(id, u, d);
      if read.Returned? && Reconnects(read.call, u) then
        && Effect(m, req) == Effect(m, Perform(id, Resume(u, d), 0))
        && AnswerTo(m, req) == AnswerTo(Effect(m, req), Read(id))
      else
        && Effect(m, req) == m
        && AnswerTo(m, req) ==
             if read.Returned? && Find(read.call.participants, u) == |read.call.participants|
             then Denied(NotParticipant)
             else read
    ensures AnswerTo(m, Read(id)).Returned? || AnswerTo(m, Read(id)).Denied?
  {
    hide Find; hide Apply;
  }

  /** The stored calls after the given requests. */
  function After(reqs: seq<Request>): Contents {
    if reqs == [] then map[] else Effect(After(reqs[..|reqs| - 1]), reqs[|reqs| - 1])
  }

  /** The answer to the request at `i`. */
  function AnswerAt(reqs: seq<Request>, i: nat): Answer
    requires i < |reqs|
  {
    AnswerTo(After(reqs[..i]), reqs[i])
  }

  /** Generated ids are new. */
  predicate Fresh(m: Contents, req: Request) {
    req.Open? ==> req.id !in m
  }

  predicate FreshIds(reqs: seq<Request>) {
    forall i :: 0 <= i < |reqs| ==> Fresh(After(reqs[..i]), reqs[i])
  }
}
