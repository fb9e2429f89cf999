/**
 The in-process call store: records updated in place under one lock, and an index by user that
 is only ever added to.
 */
module MemoryStore {
  import opened Wrappers
  import opened CallModel
  import opened CallRuns
  import opened UserIndex
  import opened CallRecords
  import opened StoreSpec

  /** Every stored call is in the index of each user it lists. */
  ghost predicate Complete(m: Contents, index: map<Key, set<CallId>>) {
    forall id, u :: id in m && m[id].Lists(u) ==> id in Members(index, (m[id].app, u))
  }

  /** The index holds nothing else. */
  ghost predicate Exact(m: Contents, index: map<Key, set<CallId>>) {
    forall key, id :: id in Members(index, key) ==> id in m && m[id].app == key.0 && m[id].Lists(key.1)
  }

  lemma AddAllKeeps(m: Contents, index: map<Key, set<CallId>>, c: Call)
    requires Complete(m, index)
    ensures Complete(m[c.id := c], AddAll(index, c, |c.participants|))
    ensures Exact(m, index) && (c.id in m ==> m[c.id].app == c.app && forall u :: m[c.id].Lists(u) ==> c.Lists(u))
      ==> Exact(m[c.id := c], AddAll(index, c, |c.participants|))
  {
    hide AddAll; hide Members;
    forall key, id ensures id in Members(AddAll(index, c, |c.participants|), key) <==>
      id in Members(index, key) || (id == c.id && key.0 == c.app && c.Lists(key.1))
    {
      AddAllMembers(index, c, |c.participants|, key, id);
    }
  }

  /** With such an index, the live calls it holds for a user are the user's live calls. */
  lemma IndexedLive(m: Contents, index: map<Key, set<CallId>>, key: Key, id: CallId)
    requires Complete(m, index) && Exact(m, index)
    ensures id in LiveCalls(m, key) <==> id in Members(index, key) && id in m && !m[id].Terminal()
  {
    assert key == (key.0, key.1);
  }

  /** The answer to a request: a record, an error, a list of ids, or nothing. */
  datatype Reply = Ok(call: CallRecord) | Err(error: CallError) | Ids(ids: seq<CallId>) | Done

  /** The reply says what `a` says. */
  ghost predicate Says(r: Reply, a: Answer)
    reads if r.Ok? then {r.call} else {}
    reads if r.Ok? then r.call.parties else []
  {
    match r
    case Ok(c) => a == Returned(c.Value())
    case Err(e) => a == Denied(e)
    case Ids(ids) => a == Active(set id | id in ids) && forall i, j :: 0 <= i < j < |ids| ==> ids[i] != ids[j]
    case Done => a == Nothing
  }

  class MemoryStore {
    var calls: map<CallId, CallRecord>
    var byUser: map<Key, set<CallId>>

    /** The participant records of the stored calls. */
    ghost function Parties(): set<Party>
      reads this`calls, calls.Values
    {
      set id, p | id in calls && p in calls[id].parties :: p
    }

    ghost predicate Filed()
      reads this`calls, calls.Values
    {
      forall id :: id in calls ==> calls[id].id == id && calls[id].Valid()
    }

    ghost function Stored(): Contents
      reads this`calls, calls.Values, Parties()
    {
      assert forall id :: id in calls ==> forall p :: p in calls[id].parties ==> p in Parties();
      map id | id in calls :: calls[id].Value()
    }

    ghost predicate Valid()
      reads this, calls.Values, Parties()
    {
      Filed() && Complete(Stored(), byUser)
    }

    /** Allocation elsewhere leaves the store as it was. */
    twostate lemma Undisturbed()
      requires old(Valid()) && unchanged(this) && unchanged(old(calls.Values)) && unchanged(old(Parties()))
      ensures Valid() && Stored() == old(Stored()) && Parties() == old(Parties())
    {
      hide Complete;
      assert Stored() == old(Stored());
    }

    /** Nothing the reply holds belongs to the store. */
    ghost predicate Detached(r: Reply)
      reads this`calls, calls.Values
      reads if r.Ok? then {r.call} else {}
    {
      r.Ok? ==> r.call.Valid() && r.call !in calls.Values && forall p :: p in r.call.parties ==> p !in Parties()
    }

    constructor ()
      ensures Valid() && Stored() == map[] && calls == map[] && Exact(Stored(), byUser)
    {
      calls, byUser := map[], map[];
    }

    /** The loop of Put and Update over the participants. */
    method Index(c: CallRecord)
      modifies this`byUser
      ensures byUser == AddAll(old(byUser), c.Value(), |c.parties|)
    {
      for n := 0 to |c.parties|
        invariant byUser == AddAll(old(byUser), c.Value(), n)
      {
        var key := (c.app, c.parties[n].user);
        if key !in byUser {
          byUser := byUser[key := {}];
        }
        byUser := byUser[key := byUser[key] + {c.id}];
      }
    }

    /** The store keeps the record it is given. */
    method Put(c: CallRecord)
      requires Valid() && c.Valid()
      modifies this
      ensures Valid() && calls == old(calls)[c.id := c]
      ensures Stored() == old(Stored())[c.id := c.Value()]
      ensures old(Exact(Stored(), byUser)) && c.id !in old(calls) ==> Exact(Stored(), byUser)
    {
      hide AddAll; hide Complete; hide Exact;
      AddAllKeeps(Stored(), byUser, c.Value());
      calls := calls[c.id := c];
      Index(c);
      assert Stored() == old(Stored())[c.id := c.Value()];
    }

    method Get(id: CallId) returns (r: Reply)
      requires Valid()
      ensures Valid() && Stored() == old(Stored()) && Parties() == old(Parties())
      ensures Says(r, AnswerTo(Stored(), Read(id)))
      ensures Detached(r) && (r.Ok? ==> fresh(r.call) && fresh(r.call.parties))
    {
      if id !in calls { return Err(NotFound); }
      var cp := Copy(id);
      return Ok(cp);
    }

    method Copy(id: CallId) returns (cp: CallRecord)
      requires Valid() && id in calls
      ensures cp.Valid() && cp.Value() == Stored()[id] && fresh(cp) && fresh(cp.parties)
      ensures Valid() && Stored() == old(Stored()) && Parties() == old(Parties()) && Detached(Ok(cp))
    {
      hide Complete;
      cp := calls[id].Clone();
      assert Stored() == old(Stored());
    }

    method ActiveCallIDsForUser(key: Key) returns (out: seq<CallId>)
      requires Valid()
      ensures forall i, j :: 0 <= i < j < |out| ==> out[i] != out[j]
      ensures forall id :: id in out <==> id in Members(byUser, key) && id in Stored() && !Stored()[id].Terminal()
    {
      hide Complete;
      out := [];
      var rest := Members(byUser, key);
      while rest != {}
        invariant rest <= Members(byUser, key)
        invariant forall i, j :: 0 <= i < j < |out| ==> out[i] != out[j]
        invariant forall id :: id in out <==>
          id in Members(byUser, key) && id !in rest && id in Stored() && !Stored()[id].Terminal()
        decreases rest
      {
        var id :| id in rest;
        rest := rest - {id};
        if id in calls {
          var over := calls[id].IsTerminal();
          if !over { out := out + [id]; }
        }
      }
    }

    /** Records of different calls are different, and so are their participants' records. */
    lemma Apart(id: CallId)
      requires Filed() && id in calls
      ensures forall k :: k in calls && k != id ==>
        calls[k] != calls[id] && forall p :: p in calls[k].parties ==> p !in calls[id].parties
    {
    }

    /** The closure of `op` run on the record of call `id`, in place. */
    method Mutate(id: CallId, op: Op, now: Time) returns (err: Option<CallError>)
      requires Filed() && id in calls
      modifies calls[id], calls[id].parties
      ensures Filed() && calls == old(calls) && fresh(Parties() - old(Parties()))
      ensures Meets(Apply(op, now, old(Stored())[id]), old(Stored())[id], Stored()[id], err)
      ensures Stored() == old(Stored())[id := Stored()[id]]
    {
      hide Apply; hide Meets; hide Roster; hide Stored; hide Parties;
      var c := calls[id];
      Apart(id);
      err := c.Do(op, now);
      OnlyOne(id);
      Newcomers(id);
    }

    /** What is stored when only the record of call `id` has changed. */
    twostate lemma OnlyOne(id: CallId)
      requires old(Filed()) && calls == old(calls) && id in calls && calls[id].Valid()
      requires forall k :: k in calls && k != id ==>
        calls[k].parties == old(calls[k].parties) && calls[k].Value() == old(calls[k].Value())
      ensures Filed() && Stored() == old(Stored())[id := calls[id].Value()]
      ensures Stored()[id] == calls[id].Value() && old(Stored())[id] == old(calls[id].Value())
    {
    }

    /** If only call `id` took in participants, and new records, the store did. */
    twostate lemma Newcomers(id: CallId)
      requires calls == old(calls) && id in calls && old(calls[id].parties) <= calls[id].parties
      requires fresh(calls[id].parties[|old(calls[id].parties)|..])
      requires forall k :: k in calls && k != id ==> calls[k].parties == old(calls[k].parties)
      ensures fresh(Parties() - old(Parties()))
    {
      forall p | p in Parties() && p !in old(Parties()) ensures fresh(p) {
        assert p in calls[id].parties && p !in old(calls[id].parties);
        assert p in calls[id].parties[|old(calls[id].parties)|..];
      }
    }

    /** Runs the closure and, unless it refuses, brings the index up to date. */
    method Change(id: CallId, op: Op, now: Time) returns (err: Option<CallError>)
      requires Valid() && id in calls
      modifies this`byUser, calls[id], calls[id].parties
      ensures Valid() && calls == old(calls) && fresh(Parties() - old(Parties()))
      ensures Meets(Apply(op, now, old(Stored())[id]), old(Stored())[id], Stored()[id], err)
      ensures Stored() == old(Stored())[id := Stored()[id]]
      ensures old(Exact(Stored(), byUser)) ==> Exact(Stored(), byUser)
    {
      hide Apply; hide AddAll; hide Complete; hide Exact;
      err := Mutate(id, op, now);
      if err.Some? {
        assert Stored() == old(Stored());
      } else {
        ApplyKeepsIdentity(op, now, old(Stored())[id], Stored()[id]);
        Reindex(id, old(Stored()));
      }
    }

    method Update(id: CallId, op: Op, now: Time) returns (r: Reply)
      requires Valid()
      modifies this, calls.Values, Parties()
      ensures Valid() && calls == old(calls) && fresh(Parties() - old(Parties()))
      ensures Stored() == Effect(old(Stored()), Perform(id, op, now))
      ensures Says(r, AnswerTo(old(Stored()), Perform(id, op, now)))
      ensures Detached(r) && (r.Ok? ==> fresh(r.call) && fresh(r.call.parties))
      ensures old(Exact(Stored(), byUser)) ==> Exact(Stored(), byUser)
    {
      hide Apply; hide Complete; hide Exact; hide Filed; hide Stored; hide Parties;
      InStored(id);
      if id !in calls { return Err(NotFound); }
      InParties(id);
      InStored(id);
      var err := Change(id, op, now);
      if err.Some? { return Err(err.value); }
      var cp := Copy(id);
      return Ok(cp);
    }

    lemma InStored(id: CallId)
      ensures id in Stored() <==> id in calls
    {
    }

    lemma InParties(id: CallId)
      requires id in calls
      ensures forall p :: p in calls[id].parties ==> p in Parties()
    {
    }

    /** Call `id`, changed since the store held `m`, is indexed under all its users. */
    method Reindex(id: CallId, ghost m: Contents)
      requires Filed() && id in calls && id in m && Complete(m, byUser)
      requires Stored() == m[id := Stored()[id]]
      requires Stored()[id].app == m[id].app && forall u :: m[id].Lists(u) ==> Stored()[id].Lists(u)
      modifies this`byUser
      ensures Valid() && Stored() == old(Stored()) && Parties() == old(Parties())
      ensures Exact(m, old(byUser)) ==> Exact(Stored(), byUser)
    {
      hide AddAll; hide Complete; hide Exact;
      ghost var c := calls[id].Value();
      assert Stored() == m[c.id := c];
      AddAllKeeps(m, byUser, c);
      Index(calls[id]);
      assert Stored() == old(Stored());
      assert byUser == AddAll(old(byUser), c, |c.participants|);
    }
  }
}
