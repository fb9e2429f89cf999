/** The call service over the in-process store. */
module CallService {
  import opened Wrappers
  import opened CallModel
  import opened CallRecords
  import opened StoreSpec
  import M = MemoryStore

  class Service {
    const store: M.MemoryStore

    constructor ()
      ensures fresh(store) && store.Valid() && store.Stored() == map[] && store.calls == map[]
      ensures M.Exact(store.Stored(), store.byUser)
    {
      store := new M.MemoryStore();
    }

    /** The caller and, in order, the callees other than the caller. */
    method Invite(inp: CreateInput, id: CallId, now: Time) returns (ps: seq<Party>)
      ensures fresh(ps) && PartiesOf(ps, id)
      ensures Roster(ps) ==
        [Participant(id, inp.caller, inp.device, PartyAccepted, Some(now), None, Caller)]
          + Ring(id, inp.caller, inp.callees)
    {
      var p := new Party(Participant(id, inp.caller, inp.device, PartyAccepted, Some(now), None, Caller));
      ps := [p];
      ghost var first := p.Value();
      for n := 0 to |inp.callees|
        invariant fresh(ps) && PartiesOf(ps, id)
        invariant Roster(ps) == [first] + Ring(id, inp.caller, inp.callees[..n])
      {
        assert inp.callees[..n + 1][..n] == inp.callees[..n];
        var uid := inp.callees[n];
        if uid == inp.caller { continue; }
        ghost var was := Roster(ps);
        var q := new Party(Participant(id, uid, 0, PartyRinging, None, None, Callee));
        ps := ps + [q];
        assert Roster(ps) == was + [q.Value()];
      }
      assert inp.callees[..|inp.callees|] == inp.callees;
    }

    /** `id` and `room` are the generated identifiers. */
    method Create(inp: CreateInput, id: CallId, room: RoomId, now: Time) returns (r: M.Reply)
      requires store.Valid()
      modifies store
      ensures store.Valid() && fresh(store.calls.Values - old(store.calls.Values))
      ensures fresh(store.Parties() - old(store.Parties()))
      ensures store.Stored() == Effect(old(store.Stored()), Open(inp, id, room, now))
      ensures M.Says(r, AnswerTo(old(store.Stored()), Open(inp, id, room, now))) && store.Detached(r)
      ensures r.Ok? ==> fresh(r.call) && fresh(r.call.parties)
      ensures old(M.Exact(store.Stored(), store.byUser)) && id !in old(store.calls) ==>
        M.Exact(store.Stored(), store.byUser)
    {
      hide M.Complete; hide M.Exact; hide Roster; hide Ring; hide M.MemoryStore.Stored;
      hide M.MemoryStore.Filed; hide PartiesOf;
      if inp.caller == 0 || |inp.callees| == 0 { return M.Err(MissingParties); }
      var media := Audio;
      match inp.media {
        case DefaultMedia =>
        case ChosenMedia(m) => media := m;
        case UnknownMedia => return M.Err(BadMedia);
      }
      var mode := if |inp.callees| == 1 then Direct else Group;
      match inp.mode {
        case DefaultMode =>
        case ChosenMode(m) => mode := m;
        case UnknownMode => return M.Err(BadMode);
      }
      if mode.Direct? && |inp.callees| != 1 { return M.Err(DirectNeedsOneCallee); }
      var transport := if mode.Group? then SFU else P2P;
      var ps := Invite(inp, id, now);
      store.Undisturbed();
      var head := Call(id, room, inp.app, inp.caller, media, mode, Ringing, transport, now, None, None, NoReason, []);
      r := File(head, ps);
    }

    /** A new record is put into the store, and a copy of it returned. */
    method File(head: Call, ps: seq<Party>) returns (r: M.Reply)
      requires store.Valid() && PartiesOf(ps, head.id)
      requires forall p :: p in ps ==> p !in store.Parties()
      modifies store
      ensures store.Valid() && fresh(store.calls.Values - old(store.calls.Values))
      ensures forall p :: p in store.Parties() ==> p in old(store.Parties()) || p in ps
      ensures var c := head.(participants := Roster(ps));
        store.Stored() == old(store.Stored())[c.id := c] && M.Says(r, Returned(c))
      ensures store.Detached(r) && r.Ok? && fresh(r.call) && fresh(r.call.parties)
      ensures old(M.Exact(store.Stored(), store.byUser)) && head.id !in old(store.calls) ==>
        M.Exact(store.Stored(), store.byUser)
    {
      hide M.Complete; hide M.Exact; hide Roster; hide M.MemoryStore.Stored;
      var c := new CallRecord(head, ps);
      store.Undisturbed();
      store.Put(c);
      var cp := store.Copy(head.id);
      return M.Ok(cp);
    }

    method Resume(id: CallId, u: UserId, d: DeviceId) returns (r: M.Reply)
      requires store.Valid()
      modifies store, store.calls.Values, store.Parties()
      ensures store.Valid() && store.calls == old(store.calls) && fresh(store.Parties() - old(store.Parties()))
      ensures store.Stored() == Effect(old(store.Stored()), Reconnect(id, u, d))
      ensures M.Says(r, AnswerTo(old(store.Stored()), Reconnect(id, u, d))) && store.Detached(r)
      ensures r.Ok? ==> fresh(r.call) && fresh(r.call.parties)
      ensures old(M.Exact(store.Stored(), store.byUser)) ==> M.Exact(store.Stored(), store.byUser)
    {
      hide Apply; hide M.Complete; hide M.Exact; hide Roster; hide M.MemoryStore.Stored; hide M.MemoryStore.Filed;
      hide Effect; hide AnswerTo;
      var stop;
      r, stop := Reread(id, u, d);
      if !stop {
        r := Reclaim(id, u, d);
      }
    }

    /** The first read of Resume, which stops it on an error, for a stranger or when the call is over. */
    method Reread(id: CallId, u: UserId, ghost d: DeviceId) returns (r: M.Reply, stop: bool)
      requires store.Valid()
      ensures store.Valid() && store.Stored() == old(store.Stored()) && store.Parties() == old(store.Parties())
      ensures var m := store.Stored(); var req := Reconnect(id, u, d);
        if stop then
          && Effect(m, req) == m && M.Says(r, AnswerTo(m, req)) && store.Detached(r)
          && (r.Ok? ==> fresh(r.call) && fresh(r.call.parties))
        else
          && Effect(m, req) == Effect(m, Perform(id, Op.Resume(u, d), 0))
          && AnswerTo(m, req) == AnswerTo(Effect(m, req), Read(id))
    {
      hide Apply; hide M.Complete; hide Roster; hide M.MemoryStore.Stored; hide M.MemoryStore.Filed;
      hide Effect; hide AnswerTo; hide Find; hide PartiesOf;
      ReconnectByParts(store.Stored(), id, u, d);
      r := store.Get(id);
      if r.Err? { return r, true; }
      var p, at := r.call.FindParticipant(u);
      if p == null { return M.Err(NotParticipant), true; }
      stop := r.call.IsTerminal();
    }

    /** The update of Resume, whose result it ignores, and its second read. */
    method Reclaim(id: CallId, u: UserId, d: DeviceId) returns (r: M.Reply)
      requires store.Valid()
      modifies store, store.calls.Values, store.Parties()
      ensures store.Valid() && store.calls == old(store.calls) && fresh(store.Parties() - old(store.Parties()))
      ensures store.Stored() == Effect(old(store.Stored()), Perform(id, Op.Resume(u, d), 0))
      ensures M.Says(r, AnswerTo(store.Stored(), Read(id))) && store.Detached(r)
      ensures r.Ok? ==> fresh(r.call) && fresh(r.call.parties)
      ensures old(M.Exact(store.Stored(), store.byUser)) ==> M.Exact(store.Stored(), store.byUser)
    {
      hide Apply; hide M.Complete; hide M.Exact; hide M.MemoryStore.Stored; hide M.MemoryStore.Filed; hide Effect;
      hide M.Says;
      var ignored := store.Update(id, Op.Resume(u, d), 0);
      r := store.Get(id);
    }

    method Handle(req: Request) returns (r: M.Reply)
      requires store.Valid() && M.Exact(store.Stored(), store.byUser) && Fresh(store.Stored(), req)
      modifies store, store.calls.Values, store.Parties()
      ensures store.Valid() && M.Exact(store.Stored(), store.byUser)
      ensures fresh(store.calls.Values - old(store.calls.Values)) && fresh(store.Parties() - old(store.Parties()))
      ensures store.Stored() == Effect(old(store.Stored()), req)
      ensures M.Says(r, AnswerTo(old(store.Stored()), req)) && store.Detached(r)
      ensures r.Ok? ==> fresh(r.call) && fresh(r.call.parties)
    {
      hide Apply; hide M.Complete; hide M.Exact; hide Roster; hide M.MemoryStore.Stored; hide M.MemoryStore.Filed;
      match req
      case Open(inp, id, room, now) =>
        store.InStored(id);
        r := Create(inp, id, room, now);
      case Read(id) => r := store.Get(id);
      case Perform(id, op, now) => r := store.Update(id, op, now);
      case Reconnect(id, u, d) => r := Resume(id, u, d);
      case ActiveCalls(key) =>
        var ids := store.ActiveCallIDsForUser(key);
        forall id ensures id in LiveCalls(store.Stored(), key) <==> id in ids {
          M.IndexedLive(store.Stored(), store.byUser, key, id);
        }
        assert LiveCalls(store.Stored(), key) == set id | id in ids;
        r := M.Ids(ids);
      case Sweep(_) => r := M.Done;
    }

    /** Handling a request disturbs none of the replies handed out before. */
    method HandleNext(req: Request, ghost held: seq<M.Reply>, ghost answers: seq<Answer>) returns (r: M.Reply)
      requires store.Valid() && M.Exact(store.Stored(), store.byUser) && Fresh(store.Stored(), req)
      requires |held| == |answers|
      requires forall i :: 0 <= i < |held| ==> M.Says(held[i], answers[i]) && store.Detached(held[i])
      modifies store, store.calls.Values, store.Parties()
      ensures store.Valid() && M.Exact(store.Stored(), store.byUser)
      ensures fresh(store.calls.Values - old(store.calls.Values)) && fresh(store.Parties() - old(store.Parties()))
      ensures store.Stored() == Effect(old(store.Stored()), req)
      ensures M.Says(r, AnswerTo(old(store.Stored()), req)) && store.Detached(r)
      ensures forall i :: 0 <= i < |held| ==> M.Says(held[i], answers[i]) && store.Detached(held[i])
    {
      hide AnswerTo; hide Effect; hide Fresh; hide M.Says; hide M.Exact; hide M.MemoryStore.Stored;
      hide M.MemoryStore.Valid;
      r := Handle(req);
    }
  }

  /**
   A new service handles the requests one after the other.  In the end it stores what the
   specification stores, and every reply still says what the specification answered at its time:
   no record that was handed out has changed since.
   */
  method Serve(reqs: seq<Request>) returns (service: Service, replies: seq<M.Reply>)
    requires FreshIds(reqs)
    ensures service.store.Stored() == After(reqs)
    ensures |replies| == |reqs| && forall i :: 0 <= i < |reqs| ==> M.Says(replies[i], AnswerAt(reqs, i))
  {
    hide AnswerTo; hide Effect; hide Fresh; hide M.Says; hide M.Exact; hide M.MemoryStore.Stored;
    hide M.MemoryStore.Valid; hide M.MemoryStore.Detached;
    service := new Service();
    replies := [];
    for n := 0 to |reqs|
      invariant fresh(service) && fresh(service.store) && service.store.Valid()
      invariant fresh(service.store.calls.Values) && fresh(service.store.Parties())
      invariant M.Exact(service.store.Stored(), service.store.byUser)
      invariant service.store.Stored() == After(reqs[..n])
      invariant |replies| == n
      invariant forall i :: 0 <= i < n ==> M.Says(replies[i], AnswerAt(reqs, i)) && service.store.Detached(replies[i])
    {
      assert reqs[..n + 1][..n] == reqs[..n];
      var r := service.HandleNext(reqs[n], replies, seq(n, i requires 0 <= i < n => AnswerAt(reqs, i)));
      replies := replies + [r];
    }
    assert reqs[..|reqs|] == reqs;
  }
}
