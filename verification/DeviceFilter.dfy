/**
 Which device rows of a message's targets get a delivery: rows of one iOS installation that
 differ only in transport (apns, apns_voip) must not both be pushed to.
 */
module DeviceFilter {

  datatype Platform = IOS | Android
  datatype Provider = APNs | VoIP | Other(name: nat)
  datatype MessageType = Notification | Silent | Background | IncomingCall | CallCancelled | CallEnded
  {
    predicate CallRelated() { IncomingCall? || CallCancelled? || CallEnded? }
  }

  datatype Device = Device(id: nat, app: nat, installation: nat, platform: Platform, provider: Provider)

  /** Rows are grouped by (app, installation). */
  type Key = (nat, nat)

  function KeyOf(d: Device): Key { (d.app, d.installation) }

  datatype Delivery = Delivery(device: Device, provider: Provider)

  // ---- Specification ----

  /** The rows of `ds` with the given key, in order. */
  function Rows(ds: seq<Device>, key: Key): seq<Device> {
    if ds == [] then []
    else
      var d := ds[|ds| - 1];
      Rows(ds[..|ds| - 1], key) + (if KeyOf(d) == key then [d] else [])
  }

  function OfProvider(ds: seq<Device>, p: Provider): seq<Device> {
    if ds == [] then []
    else
      var d := ds[|ds| - 1];
      OfProvider(ds[..|ds| - 1], p) + (if d.provider == p then [d] else [])
  }

  function OfOthers(ds: seq<Device>): seq<Device> {
    if ds == [] then []
    else
      var d := ds[|ds| - 1];
      OfOthers(ds[..|ds| - 1]) + (if d.provider.Other? then [d] else [])
  }

  /** The keys of `ds` in order of first appearance. */
  function Order(ds: seq<Device>): seq<Key> {
    if ds == [] then []
    else
      var front := Order(ds[..|ds| - 1]);
      var key := KeyOf(ds[|ds| - 1]);
      if key in front then front else front + [key]
  }

  /** The rows of one installation that are kept. */
  function Choose(group: seq<Device>, call: bool): seq<Device>
    requires group != []
  {
    if |group| == 1 || group[0].platform != IOS then group
    else
      var voip, apns, other := OfProvider(group, VoIP), OfProvider(group, APNs), OfOthers(group);
      if call then (if |voip| > 0 then voip else apns + other)
      else (if |apns| > 0 then apns else if |other| > 0 then other else voip)
  }

  /** The rows kept for the given keys, one key after the other. */
  function Kept(ds: seq<Device>, keys: seq<Key>, call: bool): seq<Device> {
    if keys == [] then []
    else
      var group := Rows(ds, keys[|keys| - 1]);
      Kept(ds, keys[..|keys| - 1], call) + (if group == [] then [] else Choose(group, call))
  }

  function Filter(ds: seq<Device>, t: MessageType): seq<Device> {
    Kept(ds, Order(ds), t.CallRelated())
  }

  function SelectProvider(d: Device, t: MessageType): Provider {
    if d.platform == IOS && t == IncomingCall then (if d.provider == VoIP then VoIP else APNs) else d.provider
  }

  function Deliveries(ds: seq<Device>, t: MessageType): seq<Delivery> {
    var kept := Filter(ds, t);
    seq(|kept|, i requires 0 <= i < |kept| => Delivery(kept[i], SelectProvider(kept[i], t)))
  }

  // ---- The code's loops ----

  /** The rows of each installation, and the installations in order of first appearance. */
  method GroupRows(ds: seq<Device>) returns (byInstall: map<Key, seq<Device>>, order: seq<Key>)
    ensures order == Order(ds)
    ensures forall key :: key in byInstall <==> key in order
    ensures forall key :: key in byInstall ==> byInstall[key] == Rows(ds, key)
  {
    byInstall, order := map[], [];
    for n := 0 to |ds|
      invariant order == Order(ds[..n])
      invariant forall key :: key in byInstall <==> key in order
      invariant forall key :: key in byInstall ==> byInstall[key] == Rows(ds[..n], key)
      invariant forall key :: key !in byInstall ==> Rows(ds[..n], key) == []
    {
      assert ds[..n + 1][..n] == ds[..n];
      var key := KeyOf(ds[n]);
      if key !in byInstall {
        order := order + [key];
        byInstall := byInstall[key := []];
      }
      byInstall := byInstall[key := byInstall[key] + [ds[n]]];
    }
    assert ds[..|ds|] == ds;
  }

  method FilterDevices(ds: seq<Device>, t: MessageType) returns (out: seq<Device>)
    ensures out == Filter(ds, t)
  {
    hide Choose; hide Rows; hide Order;
    NothingKept(ds, t.CallRelated());
    if |ds| == 0 {
      return ds;
    }
    var byInstall, order := GroupRows(ds);
    assert order[..|order|] == order;
    hide Kept;
    out := [];
    for n := 0 to |order|
      invariant out == Kept(ds, order[..n], t.CallRelated())
    {
      assert order[n] in order;
      KeptMore(ds, order, n, t.CallRelated());
      var chosen := ChooseRows(byInstall[order[n]], t.CallRelated());
      out := out + chosen;
    }
  }

  lemma NothingKept(ds: seq<Device>, call: bool)
    ensures Kept(ds, [], call) == []
    ensures ds == [] ==> Order(ds) == []
  {
  }

  lemma KeptMore(ds: seq<Device>, keys: seq<Key>, n: nat, call: bool)
    requires n < |keys| && keys[n] in Order(ds)
    ensures Rows(ds, keys[n]) != []
    ensures Kept(ds, keys[..n + 1], call) == Kept(ds, keys[..n], call) + Choose(Rows(ds, keys[n]), call)
  {
    hide Choose; hide Rows; hide Order;
    OrderHasRows(ds, keys[n]);
    assert keys[..n + 1][..n] == keys[..n];
  }

  method ChooseRows(group: seq<Device>, call: bool) returns (out: seq<Device>)
    requires group != []
    ensures out == Choose(group, call)
  {
    if |group| == 1 || group[0].platform != IOS {
      return group;
    }
    var voip, apns, other := Partition(group);
    if call {
      if |voip| > 0 { out := voip; } else { out := apns + other; }
    } else {
      if |apns| > 0 { out := apns; } else if |other| > 0 { out := other; } else { out := voip; }
    }
  }

  method Partition(group: seq<Device>) returns (voip: seq<Device>, apns: seq<Device>, other: seq<Device>)
    ensures voip == OfProvider(group, VoIP) && apns == OfProvider(group, APNs) && other == OfOthers(group)
  {
    voip, apns, other := [], [], [];
    for n := 0 to |group|
      invariant voip == OfProvider(group[..n], VoIP)
      invariant apns == OfProvider(group[..n], APNs)
      invariant other == OfOthers(group[..n])
    {
      assert group[..n + 1][..n] == group[..n];
      match group[n].provider {
        case VoIP => voip := voip + [group[n]];
        case APNs => apns := apns + [group[n]];
        case Other(_) => other := other + [group[n]];
      }
    }
    assert group[..|group|] == group;
  }

  method EnqueueDeliveries(ds: seq<Device>, t: MessageType) returns (out: seq<Delivery>)
    ensures out == Deliveries(ds, t)
  {
    var kept := FilterDevices(ds, t);
    out := [];
    for n := 0 to |kept|
      invariant |out| == n
      invariant forall i :: 0 <= i < n ==> out[i] == Delivery(kept[i], SelectProvider(kept[i], t))
    {
      out := out + [Delivery(kept[n], SelectProvider(kept[n], t))];
    }
  }

  // ---- Properties ----

  lemma {:induction false} OrderHasRows(ds: seq<Device>, key: Key)
    ensures key in Order(ds) <==> Rows(ds, key) != []
  {
    if ds != [] { OrderHasRows(ds[..|ds| - 1], key); }
  }

  lemma {:induction false} OrderDistinct(ds: seq<Device>)
    ensures Distinct(Order(ds))
  {
    if ds != [] {
      OrderDistinct(ds[..|ds| - 1]);
      DistinctAppend(Order(ds[..|ds| - 1]), KeyOf(ds[|ds| - 1]));
    }
  }

  ghost predicate Distinct(keys: seq<Key>) {
    forall i, j :: 0 <= i < j < |keys| ==> keys[i] != keys[j]
  }

  lemma DistinctAppend(keys: seq<Key>, key: Key)
    requires Distinct(keys)
    ensures key in keys || Distinct(keys + [key])
  {
  }

  lemma {:induction false} RowsConcat(a: seq<Device>, b: seq<Device>, key: Key)
    ensures Rows(a + b, key) == Rows(a, key) + Rows(b, key)
    decreases |b|
  {
    if b == [] {
      assert a + b == a;
    } else {
      var front := b[..|b| - 1];
      assert (a + b)[..|a + b| - 1] == a + front;
      RowsConcat(a, front, key);
    }
  }

  /** Rows all of one key: that key selects everything, any other nothing. */
  lemma {:induction false} RowsUniform(ds: seq<Device>, own: Key, key: Key)
    requires forall i :: 0 <= i < |ds| ==> KeyOf(ds[i]) == own
    ensures Rows(ds, key) == if key == own then ds else []
  {
    if ds != [] { RowsUniform(ds[..|ds| - 1], own, key); }
  }

  lemma {:induction false} RowsKey(ds: seq<Device>, key: Key)
    ensures forall i :: 0 <= i < |Rows(ds, key)| ==> KeyOf(Rows(ds, key)[i]) == key
  {
    if ds != [] { RowsKey(ds[..|ds| - 1], key); }
  }

  /** How often row `x` occurs in each part of a group. */
  lemma {:induction false} CountByProvider(g: seq<Device>, x: Device)
    ensures forall p :: multiset(OfProvider(g, p))[x] == if x.provider == p then multiset(g)[x] else 0
    ensures multiset(OfOthers(g))[x] == if x.provider.Other? then multiset(g)[x] else 0
  {
    if g != [] {
      var front, last := g[..|g| - 1], g[|g| - 1];
      CountByProvider(front, x);
      CountLast(front, last, x);
      assert g == front + [last];
      forall p ensures multiset(OfProvider(g, p))[x] == if x.provider == p then multiset(g)[x] else 0 {
        CountLast(OfProvider(front, p), last, x);
      }
      CountLast(OfOthers(front), last, x);
    }
  }

  lemma CountLast(s: seq<Device>, last: Device, x: Device)
    ensures multiset(s + [last])[x] == multiset(s)[x] + if x == last then 1 else 0
  {
    assert multiset(s + [last]) == multiset(s) + multiset{last};
  }

  /** Splitting by provider splits the multiset. */
  lemma ProvidersSplit(g: seq<Device>)
    ensures multiset(g) == multiset(OfProvider(g, VoIP)) + multiset(OfProvider(g, APNs)) + multiset(OfOthers(g))
  {
    hide OfProvider; hide OfOthers;
    var sum := multiset(OfProvider(g, VoIP)) + multiset(OfProvider(g, APNs)) + multiset(OfOthers(g));
    forall x ensures multiset(g)[x] == sum[x] { CountByProvider(g, x); }
  }

  lemma ChooseSub(g: seq<Device>, call: bool)
    requires g != []
    ensures multiset(Choose(g, call)) <= multiset(g) && Choose(g, call) != []
  {
    ProvidersSplit(g);
    var voip, apns, other := OfProvider(g, VoIP), OfProvider(g, APNs), OfOthers(g);
    assert |multiset(g)| == |multiset(voip)| + |multiset(apns)| + |multiset(other)|;
    assert multiset(apns + other) == multiset(apns) + multiset(other);
  }

  lemma ChooseKey(g: seq<Device>, call: bool, key: Key)
    requires g != [] && forall i :: 0 <= i < |g| ==> KeyOf(g[i]) == key
    ensures forall i :: 0 <= i < |Choose(g, call)| ==> KeyOf(Choose(g, call)[i]) == key
  {
    ChooseSub(g, call);
    var c := Choose(g, call);
    forall i | 0 <= i < |c| ensures KeyOf(c[i]) == key {
      assert c[i] in multiset(c);
      assert c[i] in multiset(g);
    }
  }

  /** What is kept for one installation is `Choose` of its rows, whatever else is in the list. */
  lemma {:induction false} KeptRows(ds: seq<Device>, keys: seq<Key>, call: bool, key: Key)
    requires Distinct(keys)
    ensures Rows(Kept(ds, keys, call), key) ==
      if key in keys && Rows(ds, key) != [] then Choose(Rows(ds, key), call) else []
    decreases |keys|
  {
    hide Choose;
    if keys != [] {
      var front, last := keys[..|keys| - 1], keys[|keys| - 1];
      KeptRows(ds, front, call, key);
      ChosenRows(ds, last, call, key);
      hide Rows;
      var group := Rows(ds, last);
      RowsConcat(Kept(ds, front, call), if group == [] then [] else Choose(group, call), key);
      assert keys == front + [last];
    }
  }

  lemma ChosenRows(ds: seq<Device>, own: Key, call: bool, key: Key)
    ensures var group := Rows(ds, own);
      var chosen := if group == [] then [] else Choose(group, call);
      Rows(chosen, key) == if key == own then chosen else []
  {
    hide Choose;
    var group := Rows(ds, own);
    RowsKey(ds, own);
    if group != [] {
      ChooseKey(group, call, own);
      RowsUniform(Choose(group, call), own, key);
    }
  }

  lemma FilterRows(ds: seq<Device>, t: MessageType, key: Key)
    ensures Rows(Filter(ds, t), key) ==
      if Rows(ds, key) == [] then [] else Choose(Rows(ds, key), t.CallRelated())
  {
    OrderDistinct(ds);
    OrderHasRows(ds, key);
    KeptRows(ds, Order(ds), t.CallRelated(), key);
  }

  lemma {:induction false} CountInRows(ds: seq<Device>, d: Device)
    ensures multiset(ds)[d] == multiset(Rows(ds, KeyOf(d)))[d]
  {
    if ds != [] {
      var front, last := ds[..|ds| - 1], ds[|ds| - 1];
      CountInRows(front, d);
      assert ds == front + [last];
      assert multiset(ds) == multiset(front) + multiset{last};
      var rows := Rows(front, KeyOf(d));
      assert multiset(rows + [last]) == multiset(rows) + multiset{last};
    }
  }

  /** No row is invented or doubled: the output is a sub-multiset of the input. */
  lemma FilterIsSubMultiset(ds: seq<Device>, t: MessageType)
    ensures multiset(Filter(ds, t)) <= multiset(ds)
  {
    forall d ensures multiset(Filter(ds, t))[d] <= multiset(ds)[d] {
      var key := KeyOf(d);
      CountInRows(Filter(ds, t), d);
      CountInRows(ds, d);
      FilterRows(ds, t, key);
      if Rows(ds, key) != [] { ChooseSub(Rows(ds, key), t.CallRelated()); }
    }
  }

  // ---- Order ----

  /** `at` picks out, in order, exactly the rows with the key. */
  ghost predicate PicksRows(ds: seq<Device>, key: Key, at: seq<nat>) {
    Increasing(at, |ds|) && (forall p :: 0 <= p < |ds| ==> (KeyOf(ds[p]) == key <==> p in at))
  }

  ghost predicate Increasing(at: seq<nat>, n: nat) {
    && (forall k :: 0 <= k < |at| ==> at[k] < n)
    && (forall j, k :: 0 <= j < k < |at| ==> at[j] < at[k])
  }

  ghost predicate RowsAt(rows: seq<Device>, ds: seq<Device>, at: seq<nat>) {
    |rows| == |at| && forall k :: 0 <= k < |at| ==> at[k] < |ds| && rows[k] == ds[at[k]]
  }

  lemma IncreasingMore(at: seq<nat>, n: nat)
    requires Increasing(at, n)
    ensures Increasing(at, n + 1) && Increasing(at + [n], n + 1) && n !in at
  {
  }

  lemma PicksMore(ds: seq<Device>, key: Key, at: seq<nat>)
    requires ds != [] && PicksRows(ds[..|ds| - 1], key, at)
    ensures PicksRows(ds, key, if KeyOf(ds[|ds| - 1]) == key then at + [|ds| - 1] else at)
  {
    var n := |ds| - 1;
    IncreasingMore(at, n);
    hide Increasing; hide KeyOf;
    forall p | 0 <= p < n ensures KeyOf(ds[p]) == key <==> p in at { assert ds[..n][p] == ds[p]; }
  }

  lemma RowsMore(ds: seq<Device>, key: Key, at: seq<nat>)
    requires ds != [] && RowsAt(Rows(ds[..|ds| - 1], key), ds[..|ds| - 1], at)
    ensures var n := |ds| - 1; RowsAt(Rows(ds, key), ds, if KeyOf(ds[n]) == key then at + [n] else at)
  {
  }

  /** The rows of an installation are all of them, in the order of the input. */
  lemma {:induction false} RowsInOrder(ds: seq<Device>, key: Key) returns (at: seq<nat>)
    ensures PicksRows(ds, key, at) && RowsAt(Rows(ds, key), ds, at)
  {
    at := [];
    if ds != [] {
      hide PicksRows; hide RowsAt;
      var n := |ds| - 1;
      at := RowsInOrder(ds[..n], key);
      PicksMore(ds, key, at);
      RowsMore(ds, key, at);
      if KeyOf(ds[n]) == key { at := at + [n]; }
    }
  }

  /** Position of the first row with the key; the length when there is none. */
  function First(ds: seq<Device>, key: Key): (i: nat)
    ensures i <= |ds| && (i < |ds| ==> KeyOf(ds[i]) == key)
    ensures forall j :: 0 <= j < i ==> KeyOf(ds[j]) != key
  {
    if ds == [] then 0
    else
      var i := First(ds[..|ds| - 1], key);
      assert forall j :: 0 <= j < |ds| - 1 ==> ds[..|ds| - 1][j] == ds[j];
      if i < |ds| - 1 || KeyOf(ds[|ds| - 1]) == key then i else |ds|
  }

  ghost predicate InOrder(ds: seq<Device>, keys: seq<Key>) {
    forall i, j :: 0 <= i < j < |keys| ==> First(ds, keys[i]) < First(ds, keys[j])
  }

  lemma FirstOfPrefix(ds: seq<Device>, key: Key)
    requires ds != [] && key in Order(ds[..|ds| - 1])
    ensures First(ds, key) == First(ds[..|ds| - 1], key) < |ds| - 1
  {
    var front := ds[..|ds| - 1];
    OrderHasRows(front, key);
    RowsWitness(front, key);
    hide Rows; hide Order;
    var j :| 0 <= j < |front| && KeyOf(front[j]) == key;
    assert First(front, key) <= j;
  }

  lemma {:induction false} OrderIsFirstSeen(ds: seq<Device>)
    ensures InOrder(ds, Order(ds))
  {
    if ds != [] {
      var front, last := ds[..|ds| - 1], KeyOf(ds[|ds| - 1]);
      OrderIsFirstSeen(front);
      var o := Order(front);
      forall i | 0 <= i < |o| ensures First(ds, o[i]) == First(front, o[i]) < |front| { FirstOfPrefix(ds, o[i]); }
      if last !in o {
        OrderHasRows(front, last);
        FirstIsLast(ds);
      }
    }
  }

  lemma FirstIsLast(ds: seq<Device>)
    requires ds != [] && Rows(ds[..|ds| - 1], KeyOf(ds[|ds| - 1])) == []
    ensures First(ds, KeyOf(ds[|ds| - 1])) == |ds| - 1
  {
    var front, key := ds[..|ds| - 1], KeyOf(ds[|ds| - 1]);
    var i := First(front, key);
    if i < |front| { RowsNonempty(front, i); }
  }

  /** Rows are kept installation by installation, in the order the installations first appear in the input. */
  ghost predicate ByFirst(ds: seq<Device>, out: seq<Device>) {
    forall i, j :: 0 <= i < j < |out| ==> First(ds, KeyOf(out[i])) <= First(ds, KeyOf(out[j]))
  }

  ghost predicate AllIn(ds: seq<Device>, keys: seq<Key>) {
    forall i :: 0 <= i < |ds| ==> KeyOf(ds[i]) in keys
  }

  lemma {:induction false} KeptInOrder(ds: seq<Device>, keys: seq<Key>, call: bool)
    requires InOrder(ds, keys)
    ensures ByFirst(ds, Kept(ds, keys, call)) && AllIn(Kept(ds, keys, call), keys)
    decreases |keys|
  {
    if keys != [] {
      var front, last := keys[..|keys| - 1], keys[|keys| - 1];
      KeptInOrder(ds, front, call);
      var group := Rows(ds, last);
      RowsKey(ds, last);
      var more := if group == [] then [] else Choose(group, call);
      if group != [] { ChooseKey(group, call, last); }
      hide Rows; hide Choose; hide First;
      AppendInOrder(ds, Kept(ds, front, call), more, front, last);
    }
  }

  lemma AppendInOrder(ds: seq<Device>, out: seq<Device>, more: seq<Device>, keys: seq<Key>, last: Key)
    requires ByFirst(ds, out) && AllIn(out, keys) && InOrder(ds, keys + [last])
    requires forall i :: 0 <= i < |more| ==> KeyOf(more[i]) == last
    ensures ByFirst(ds, out + more) && AllIn(out + more, keys + [last])
  {
    hide First;
    var all := keys + [last];
    forall i | 0 <= i < |out| ensures First(ds, KeyOf(out[i])) < First(ds, last) {
      var k :| 0 <= k < |keys| && keys[k] == KeyOf(out[i]);
      assert all[k] == keys[k] && all[|keys|] == last;
    }
    forall i | 0 <= i < |out + more| ensures KeyOf((out + more)[i]) in all {
      if i < |out| {
        assert KeyOf(out[i]) in keys;
        var k :| 0 <= k < |keys| && keys[k] == KeyOf(out[i]);
        assert all[k] == KeyOf(out[i]);
      } else {
        assert all[|keys|] == last;
      }
    }
  }

  lemma FilterInOrder(ds: seq<Device>, t: MessageType)
    ensures ByFirst(ds, Filter(ds, t))
  {
    hide First; hide Kept; hide Order;
    OrderIsFirstSeen(ds);
    KeptInOrder(ds, Order(ds), t.CallRelated());
  }

  /** Every installation that has a row keeps one. */
  lemma EveryInstallationKept(ds: seq<Device>, t: MessageType, i: nat)
    requires i < |ds|
    ensures exists j :: 0 <= j < |Filter(ds, t)| && KeyOf(Filter(ds, t)[j]) == KeyOf(ds[i])
  {
    var key := KeyOf(ds[i]);
    RowsNonempty(ds, i);
    FilterRows(ds, t, key);
    ChooseSub(Rows(ds, key), t.CallRelated());
    RowsWitness(Filter(ds, t), key);
  }

  lemma {:induction false} RowsNonempty(ds: seq<Device>, i: nat)
    requires i < |ds|
    ensures Rows(ds, KeyOf(ds[i])) != []
  {
    if i < |ds| - 1 { RowsNonempty(ds[..|ds| - 1], i); }
  }

  lemma {:induction false} RowsWitness(ds: seq<Device>, key: Key)
    requires Rows(ds, key) != []
    ensures exists j :: 0 <= j < |ds| && KeyOf(ds[j]) == key
  {
    if KeyOf(ds[|ds| - 1]) != key {
      RowsWitness(ds[..|ds| - 1], key);
      var j :| 0 <= j < |ds| - 1 && KeyOf(ds[..|ds| - 1][j]) == key;
      assert KeyOf(ds[j]) == key;
    }
  }

  /** Whether a row of the installation with rows `g` is kept for a message of type `t`. */
  ghost predicate Keeps(g: seq<Device>, t: MessageType, d: Device)
    requires g != []
  {
    if |g| == 1 || g[0].platform != IOS then true
    else if t in {IncomingCall, CallCancelled, CallEnded} then Has(g, VoIP) ==> d.provider == VoIP
    else if Has(g, APNs) then d.provider == APNs
    else if HasOther(g) then d.provider.Other?
    else true
  }

  ghost predicate HasOther(g: seq<Device>) {
    exists i :: 0 <= i < |g| && g[i].provider.Other?
  }

  lemma {:induction false} PartsNonempty(g: seq<Device>)
    ensures forall p :: OfProvider(g, p) != [] <==> Has(g, p)
    ensures OfOthers(g) != [] <==> HasOther(g)
  {
    if g != [] {
      var front, last := g[..|g| - 1], g[|g| - 1];
      PartsNonempty(front);
      forall p ensures Has(g, p) <==> Has(front, p) || last.provider == p {
        if i :| 0 <= i < |front| && front[i].provider == p { assert g[i].provider == p; }
        if last.provider == p { assert g[|g| - 1].provider == p; }
      }
      if i :| 0 <= i < |front| && front[i].provider.Other? { assert g[i].provider.Other?; }
      if last.provider.Other? { assert g[|g| - 1].provider.Other?; }
    }
  }

  lemma ChoosesKept(g: seq<Device>, t: MessageType, d: Device)
    requires g != []
    ensures multiset(Choose(g, t.CallRelated()))[d] == if Keeps(g, t, d) then multiset(g)[d] else 0
  {
    hide OfProvider; hide OfOthers;
    PartsNonempty(g);
    CountByProvider(g, d);
    hide Has; hide HasOther;
    var apns, other := OfProvider(g, APNs), OfOthers(g);
    assert multiset(apns + other) == multiset(apns) + multiset(other);
  }

  /**
   Exactly which rows are kept, and that none is doubled: a row is kept as often as it is in the
   input if its installation keeps it, and not at all otherwise.  For a call the VoIP rows of an iOS
   installation displace the others; for anything else its apns rows do, or failing those its rows
   of other providers.
   */
  lemma KeptIff(ds: seq<Device>, t: MessageType, d: Device)
    requires d in ds
    ensures Rows(ds, KeyOf(d)) != []
    ensures multiset(Filter(ds, t))[d] == if Keeps(Rows(ds, KeyOf(d)), t, d) then multiset(ds)[d] else 0
  {
    hide Filter; hide Choose; hide Keeps;
    var i :| 0 <= i < |ds| && ds[i] == d;
    RowsNonempty(ds, i);
    CountInRows(Filter(ds, t), d);
    CountInRows(ds, d);
    FilterRows(ds, t, KeyOf(d));
    ChoosesKept(Rows(ds, KeyOf(d)), t, d);
  }

  /**
   Each delivery goes over its row's own provider, except that an incoming call goes to an iOS row
   over VoIP or apns only.
   */
  lemma ProviderOfDelivery(ds: seq<Device>, t: MessageType, i: nat)
    requires i < |Deliveries(ds, t)|
    ensures var x := Deliveries(ds, t)[i];
      && i < |Filter(ds, t)| && x.device == Filter(ds, t)[i]
      && (x.provider != x.device.provider ==>
            x.device.platform == IOS && t == IncomingCall && x.device.provider.Other? && x.provider == APNs)
      && (x.device.platform == IOS && t == IncomingCall ==> !x.provider.Other?)
  {
    hide Filter;
  }

  /** The rows of an iOS installation that registered apns and apns_voip, each at most once. */
  ghost predicate DualTransport(g: seq<Device>) {
    && (forall i :: 0 <= i < |g| ==> g[i].platform == IOS && (g[i].provider == APNs || g[i].provider == VoIP))
    && (|g| == 1 || (|g| == 2 && g[0].provider != g[1].provider))
  }

  ghost predicate Has(g: seq<Device>, p: Provider) {
    exists i :: 0 <= i < |g| && g[i].provider == p
  }

  lemma OnePerInstallation(g: seq<Device>, call: bool)
    requires DualTransport(g)
    ensures |Choose(g, call)| == 1 && Choose(g, call)[0] in g
    ensures call && Has(g, VoIP) ==> Choose(g, call)[0].provider == VoIP
    ensures !call && Has(g, APNs) ==> Choose(g, call)[0].provider == APNs
  {
    if |g| == 2 {
      assert g[..1] == [g[0]] && g[..1][..0] == [];
      forall p
        ensures OfProvider(g, p) ==
          (if g[0].provider == p then [g[0]] else []) + (if g[1].provider == p then [g[1]] else [])
      {
        assert OfProvider(g[..1], p) == if g[0].provider == p then [g[0]] else [];
      }
    }
  }

  /** The deliveries of one installation. */
  function For(key: Key, out: seq<Delivery>): seq<Delivery> {
    if out == [] then []
    else
      var x := out[|out| - 1];
      For(key, out[..|out| - 1]) + (if KeyOf(x.device) == key then [x] else [])
  }

  lemma {:induction false} ForRows(key: Key, kept: seq<Device>, t: MessageType)
    ensures var out := seq(|kept|, i requires 0 <= i < |kept| => Delivery(kept[i], SelectProvider(kept[i], t)));
      && |For(key, out)| == |Rows(kept, key)|
      && forall i :: 0 <= i < |For(key, out)| ==>
           For(key, out)[i] == Delivery(Rows(kept, key)[i], SelectProvider(Rows(kept, key)[i], t))
    decreases |kept|
  {
    if kept != [] {
      var front := kept[..|kept| - 1];
      ForRows(key, front, t);
      var out := seq(|kept|, i requires 0 <= i < |kept| => Delivery(kept[i], SelectProvider(kept[i], t)));
      assert out[..|out| - 1] ==
        seq(|front|, i requires 0 <= i < |front| => Delivery(front[i], SelectProvider(front[i], t)));
    }
  }

  /**
   Such an installation gets exactly one delivery: over VoIP when it has a VoIP row and the message
   is about a call, over apns when it has an apns row and the message is not.
   */
  lemma OneDeliveryPerInstallation(ds: seq<Device>, t: MessageType, key: Key)
    requires DualTransport(Rows(ds, key))
    ensures var out := For(key, Deliveries(ds, t));
      && |out| == 1 && out[0].device in Rows(ds, key)
      && (t.CallRelated() && Has(Rows(ds, key), VoIP) ==> out[0].provider == VoIP)
      && (!t.CallRelated() && Has(Rows(ds, key), APNs) ==> out[0].provider == APNs)
  {
    FilterRows(ds, t, key);
    OnePerInstallation(Rows(ds, key), t.CallRelated());
    ForRows(key, Filter(ds, t), t);
  }
}
