/** The index of call ids by app and user, as both stores keep it. */
module UserIndex {
  import opened CallModel

  type Key = (AppId, UserId)

  function Members(index: map<Key, set<CallId>>, key: Key): set<CallId> {
    if key in index then index[key] else {}
  }

  function AddTo(index: map<Key, set<CallId>>, key: Key, id: CallId): map<Key, set<CallId>> {
    index[key := Members(index, key) + {id}]
  }

  /** The call's id added for each of the first `n` participants. */
  function AddAll(index: map<Key, set<CallId>>, c: Call, n: nat): map<Key, set<CallId>>
    requires n <= |c.participants|
  {
    if n == 0 then index
    else AddTo(AddAll(index, c, n - 1), (c.app, c.participants[n - 1].user), c.id)
  }

  lemma {:induction false} AddAllMembers(index: map<Key, set<CallId>>, c: Call, n: nat, key: Key, id: CallId)
    requires n <= |c.participants|
    ensures id in Members(AddAll(index, c, n), key) <==>
      || id in Members(index, key)
      || (id == c.id && key.0 == c.app && exists j :: 0 <= j < n && c.participants[j].user == key.1)
  {
    if n > 0 {
      AddAllMembers(index, c, n - 1, key, id);
    }
  }
}
