/**
 The push client's bounded event deduper: two maps from id to the time it was recorded, purged
 by age on every event and trimmed to `maxEntries` (oldest first) after every accepted one.
 */
module EventDeduper {
  import opened Wrappers

  type Id = nat                      // 0 stands for the empty string
  type Time = int
  type Seen = map<Id, Time>

  datatype EventType = IncomingCall | OtherType
  datatype CallAction = NoAction | EmptyAction | Ringing | OtherAction

  datatype Event = Event(id: Id, callId: Option<Id>, kind: EventType, action: CallAction)
  {
    /** A ringing incoming call with a call id: the events deduplicated by call as well. */
    predicate Rings() {
      callId.Some? && callId.value != 0 && kind.IncomingCall? && !action.OtherAction?
    }
  }

  function Purge(m: Seen, cutoff: Time): Seen {
    map k | k in m && !(m[k] < cutoff) :: m[k]
  }

  /** `r` keeps at most `max` of the entries of `m`, dropping none that is newer than one it keeps. */
  ghost predicate Trims(m: Seen, r: Seen, max: nat) {
    && (forall k :: k in r ==> k in m && r[k] == m[k])
    && (forall k, j :: k in m && k !in r && j in r ==> m[k] <= m[j])
    && (|m| <= max ==> r == m)
    && (|m| > max ==> |r| == max)
  }

  /** How one event changes the two maps; `ok` is the answer. */
  ghost predicate Accepts(events: Seen, calls: Seen, e: Event, t1: Time, t2: Time, ttl: Time, max: nat,
                          ok: bool, events': Seen, calls': Seen)
  {
    var es, cs := Purge(events, t1 - ttl), Purge(calls, t1 - ttl);
    if e.id != 0 && e.id in es then !ok && events' == es && calls' == cs
    else
      var es1 := if e.id != 0 then es[e.id := t2] else es;
      if e.Rings() && e.callId.value in cs then !ok && events' == es1 && calls' == cs
      else
        var cs1 := if e.Rings() then cs[e.callId.value := t2] else cs;
        ok && Trims(es1, events', max) && Trims(cs1, calls', max)
  }

  class Deduper {
    const maxEntries: nat
    const ttl: Time
    var seenEvents: Seen
    var seenCalls: Seen

    constructor (maxEntries: nat, ttl: Time)
      ensures this.maxEntries == maxEntries && this.ttl == ttl && seenEvents == map[] && seenCalls == map[]
    {
      this.maxEntries := maxEntries;
      this.ttl := ttl;
      seenEvents := map[];
      seenCalls := map[];
    }

    /** The clock is read twice: by the purge (`t1`) and for the entries (`t2`). */
    method Accept(e: Event, t1: Time, t2: Time) returns (ok: bool)
      modifies this
      ensures Accepts(old(seenEvents), old(seenCalls), e, t1, t2, ttl, maxEntries, ok, seenEvents, seenCalls)
      ensures ok ==> |seenEvents| <= maxEntries && |seenCalls| <= maxEntries
    {
      seenEvents := Purge(seenEvents, t1 - ttl);
      seenCalls := Purge(seenCalls, t1 - ttl);
      if e.id != 0 {
        if e.id in seenEvents {
          return false;
        }
        seenEvents := seenEvents[e.id := t2];
      }
      if e.Rings() {
        if e.callId.value in seenCalls {
          return false;
        }
        seenCalls := seenCalls[e.callId.value := t2];
      }
      seenEvents := Trim(seenEvents);
      seenCalls := Trim(seenCalls);
      return true;
    }

    method Trim(m: Seen) returns (r: Seen)
      ensures Trims(m, r, maxEntries)
    {
      r := m;
      while |r| > maxEntries
        invariant forall k :: k in r ==> k in m && r[k] == m[k]
        invariant forall k, j :: k in m && k !in r && j in r ==> m[k] <= m[j]
        invariant |m| <= maxEntries ==> r == m
        invariant |m| > maxEntries ==> |r| >= maxEntries
        decreases |r|
      {
        var k := Oldest(r);
        ghost var keys := r.Keys;
        r := r - {k};
        assert r.Keys == keys - {k};
      }
    }
  }

  method Oldest(m: Seen) returns (k: Id)
    requires m != map[]
    ensures k in m && forall j :: j in m ==> m[k] <= m[j]
  {
    k :| k in m;
    var todo := m.Keys - {k};
    while todo != {}
      invariant k in m && todo <= m.Keys
      invariant forall j :: j in m && j !in todo ==> m[k] <= m[j]
      decreases |todo|
    {
      var j :| j in todo;
      todo := todo - {j};
      if m[j] < m[k] {
        k := j;
      }
    }
  }

  // ---- One map over a run ----

  /** What one event does to one of the maps: purge at `t1`, maybe record `id` at `t2`, maybe trim. */
  datatype Tick = Tick(t1: Time, t2: Time, id: Id, recorded: bool, trimmed: bool)

  ghost predicate MapStep(m: Seen, r: Seen, tick: Tick, ttl: Time, max: nat) {
    var p := Purge(m, tick.t1 - ttl);
    var q := if tick.recorded then p[tick.id := tick.t2] else p;
    && (tick.recorded ==> tick.id !in p)
    && (if tick.trimmed then Trims(q, r, max) else r == q)
  }

  ghost predicate MapRun(ms: seq<Seen>, ticks: seq<Tick>, ttl: Time, max: nat) {
    && |ms| == |ticks| + 1 && ms[0] == map[]
    && (forall i :: 0 <= i < |ticks| ==> MapStep(ms[i], ms[i + 1], ticks[i], ttl, max))
  }

  /** The ids other than `x` recorded before event `j` with a reading of at least `t`. */
  ghost function Newer(ticks: seq<Tick>, j: nat, x: Id, t: Time): set<Id>
    requires j <= |ticks|
  {
    set k | 0 <= k < j && ticks[k].recorded && ticks[k].id != x && t <= ticks[k].t2 :: ticks[k].id
  }

  /** An event after `i` and before `j` read a time at which the record of event `i` had expired. */
  ghost predicate Expired(ticks: seq<Tick>, ttl: Time, i: nat, j: nat)
    requires i < j <= |ticks|
  {
    exists k :: i < k < j && ticks[i].t2 + ttl < ticks[k].t1
  }

  /** Id `x`, recorded by event `i`, is still known before event `j`, or has a reason not to be. */
  ghost predicate Remembered(ms: seq<Seen>, ticks: seq<Tick>, ttl: Time, max: nat, i: nat, j: nat)
    requires i < j <= |ticks| && j < |ms|
  {
    var x, t := ticks[i].id, ticks[i].t2;
    || (x in ms[j] && ms[j][x] == t)
    || Expired(ticks, ttl, i, j)
    || |Newer(ticks, j, x, t)| >= max
  }

  ghost predicate RecordedAs(ticks: seq<Tick>, j: nat, x: Id, t: Time)
    requires j <= |ticks|
  {
    exists i :: 0 <= i < j && ticks[i].recorded && ticks[i].id == x && ticks[i].t2 == t
  }

  /** Entries come from records. */
  lemma {:induction false} EntriesAreRecords(ms: seq<Seen>, ticks: seq<Tick>, ttl: Time, max: nat, j: nat, x: Id)
    requires MapRun(ms, ticks, ttl, max) && j <= |ticks| && x in ms[j]
    ensures RecordedAs(ticks, j, x, ms[j][x])
    decreases j
  {
    assert j > 0;
    assert MapStep(ms[j - 1], ms[j], ticks[j - 1], ttl, max);
    if ticks[j - 1].recorded && ticks[j - 1].id == x {
    } else {
      assert x in ms[j - 1] && ms[j - 1][x] == ms[j][x];
      EntriesAreRecords(ms, ticks, ttl, max, j - 1, x);
      var i :| 0 <= i < j - 1 && ticks[i].recorded && ticks[i].id == x && ticks[i].t2 == ms[j][x];
    }
  }

  /** A trimmed entry has `max` others that are no older. */
  lemma TrimmedHasNewer(ms: seq<Seen>, ticks: seq<Tick>, ttl: Time, max: nat, j: nat, q: Seen, x: Id)
    requires MapRun(ms, ticks, ttl, max) && j <= |ticks|
    requires Trims(q, ms[j], max) && x in q && x !in ms[j]
    ensures |Newer(ticks, j, x, q[x])| >= max
  {
    hide MapStep;
    var r := ms[j];
    assert |r| == max;
    forall y | y in r.Keys ensures y in Newer(ticks, j, x, q[x]) {
      assert q[x] <= q[y] == r[y];
      EntriesAreRecords(ms, ticks, ttl, max, j, y);
      var k :| 0 <= k < j && ticks[k].recorded && ticks[k].id == y && ticks[k].t2 == r[y];
    }
    SubsetSize(r.Keys, Newer(ticks, j, x, q[x]));
  }

  lemma {:induction false} SubsetSize(a: set<Id>, b: set<Id>)
    requires a <= b
    ensures |a| <= |b|
    decreases a
  {
    if x :| x in a {
      SubsetSize(a - {x}, b - {x});
    }
  }

  lemma NewerGrows(ticks: seq<Tick>, j: nat, x: Id, t: Time)
    requires j < |ticks|
    ensures |Newer(ticks, j, x, t)| <= |Newer(ticks, j + 1, x, t)|
  {
    SubsetSize(Newer(ticks, j, x, t), Newer(ticks, j + 1, x, t));
  }

  /** An entry that survives the purge of event `j - 1` is there after it, or was trimmed. */
  lemma EntryAfter(ms: seq<Seen>, ticks: seq<Tick>, ttl: Time, max: nat, i: nat, j: nat)
    requires MapRun(ms, ticks, ttl, max) && i < j <= |ticks| && ticks[i].recorded
    requires j - 1 == i ||
      (ticks[i].id in ms[j - 1] && ms[j - 1][ticks[i].id] == ticks[i].t2 && ticks[i].t2 + ttl >= ticks[j - 1].t1)
    ensures Remembered(ms, ticks, ttl, max, i, j)
  {
    hide Newer; hide MapStep; hide Trims; hide Expired;
    assert MapStep(ms[j - 1], ms[j], ticks[j - 1], ttl, max);
    var q := KeptOrTrimmed(ms[j - 1], ms[j], ticks[j - 1], ttl, max, ticks[i].id, ticks[i].t2);
    if ticks[i].id !in ms[j] {
      TrimmedHasNewer(ms, ticks, ttl, max, j, q, ticks[i].id);
    }
  }

  /** `q` is the map before the trimming of one event: an entry recorded or not yet due is in it. */
  lemma KeptOrTrimmed(m: Seen, r: Seen, tick: Tick, ttl: Time, max: nat, x: Id, t: Time) returns (q: Seen)
    requires MapStep(m, r, tick, ttl, max)
    requires (tick.recorded && tick.id == x && tick.t2 == t) || (x in m && m[x] == t && t + ttl >= tick.t1)
    ensures x in q && q[x] == t && (x in r ==> r[x] == t) && (x !in r ==> Trims(q, r, max))
  {
    var p := Purge(m, tick.t1 - ttl);
    q := if tick.recorded then p[tick.id := tick.t2] else p;
  }

  lemma {:induction false} RememberedRun(ms: seq<Seen>, ticks: seq<Tick>, ttl: Time, max: nat, i: nat, j: nat)
    requires MapRun(ms, ticks, ttl, max) && i < j <= |ticks| && ticks[i].recorded
    ensures Remembered(ms, ticks, ttl, max, i, j)
    decreases j
  {
    hide MapStep; hide Newer; hide MapRun;
    if j - 1 == i {
      EntryAfter(ms, ticks, ttl, max, i, j);
    } else {
      RememberedRun(ms, ticks, ttl, max, i, j - 1);
      NewerGrows(ticks, j - 1, ticks[i].id, ticks[i].t2);
      if ticks[i].t2 + ttl < ticks[j - 1].t1 {
        assert Expired(ticks, ttl, i, j);
      } else if Expired(ticks, ttl, i, j - 1) {
        var k :| i < k < j - 1 && ticks[i].t2 + ttl < ticks[k].t1;
        assert Expired(ticks, ttl, i, j);
      } else if |Newer(ticks, j - 1, ticks[i].id, ticks[i].t2)| < max {
        EntryAfter(ms, ticks, ttl, max, i, j);
      }
    }
  }

  /**
   An id recorded by event `i` is recorded again by event `j` only if an event since has read a time
   more than `ttl` later, or at least `max` other ids were recorded with readings no older.
   */
  lemma ForgottenOnlyIfCrowded(ms: seq<Seen>, ticks: seq<Tick>, ttl: Time, max: nat, i: nat, j: nat)
    requires MapRun(ms, ticks, ttl, max) && i < j < |ticks|
    requires ticks[i].recorded && ticks[j].recorded && ticks[j].id == ticks[i].id
    ensures Expired(ticks, ttl, i, j + 1) || |Newer(ticks, j, ticks[i].id, ticks[i].t2)| >= max
  {
    hide Newer;
    RememberedRun(ms, ticks, ttl, max, i, j);
    assert MapStep(ms[j], ms[j + 1], ticks[j], ttl, max);
    if k :| i < k < j && ticks[i].t2 + ttl < ticks[k].t1 { assert Expired(ticks, ttl, i, j + 1); }
    if ticks[i].t2 + ttl < ticks[j].t1 { assert Expired(ticks, ttl, i, j + 1); }
  }

  /** Strictly increasing readings. */
  ghost predicate ClockOk(ticks: seq<Tick>) {
    && (forall i :: 0 <= i < |ticks| ==> ticks[i].t1 <= ticks[i].t2)
    && (forall i, j :: 0 <= i < j < |ticks| ==> ticks[i].t2 < ticks[j].t1)
  }

  /** The other ids recorded strictly between two events. */
  ghost function Others(ticks: seq<Tick>, i: nat, j: nat, x: Id): set<Id>
    requires j <= |ticks|
  {
    set k | i < k < j && ticks[k].recorded && ticks[k].id != x :: ticks[k].id
  }

  /** With such a clock, newer means since, and expired means expired by now. */
  lemma InOrder(ticks: seq<Tick>, ttl: Time, i: nat, j: nat)
    requires ClockOk(ticks) && i < j < |ticks|
    ensures |Newer(ticks, j, ticks[i].id, ticks[i].t2)| <= |Others(ticks, i, j, ticks[i].id)|
    ensures Expired(ticks, ttl, i, j + 1) <==> ticks[i].t2 + ttl < ticks[j].t1
  {
    var x, t := ticks[i].id, ticks[i].t2;
    forall y | y in Newer(ticks, j, x, t) ensures y in Others(ticks, i, j, x) {
      var k :| 0 <= k < j && ticks[k].recorded && ticks[k].id != x && t <= ticks[k].t2 && ticks[k].id == y;
      assert k != i;
      assert k > i;
    }
    SubsetSize(Newer(ticks, j, x, t), Others(ticks, i, j, x));
    if k :| i < k < j + 1 && t + ttl < ticks[k].t1 { assert k < j ==> ticks[k].t2 < ticks[j].t1; }
  }

  // ---- The deduper over a run ----

  datatype Moment = Moment(e: Event, t1: Time, t2: Time, ok: bool)
  datatype Maps = Maps(events: Seen, calls: Seen)

  ghost predicate Run(ss: seq<Maps>, run: seq<Moment>, ttl: Time, max: nat) {
    && |ss| == |run| + 1 && ss[0] == Maps(map[], map[])
    && (forall i :: 0 <= i < |run| ==>
          Accepts(ss[i].events, ss[i].calls, run[i].e, run[i].t1, run[i].t2, ttl, max, run[i].ok,
                  ss[i + 1].events, ss[i + 1].calls))
  }

  ghost predicate Clock(run: seq<Moment>) {
    && (forall i :: 0 <= i < |run| ==> run[i].t1 <= run[i].t2)
    && (forall i, j :: 0 <= i < j < |run| ==> run[i].t2 < run[j].t1)
  }

  /** Event `i` of the run records its event id. */
  ghost predicate RecordsEvent(ss: seq<Maps>, run: seq<Moment>, ttl: Time, i: nat)
    requires |ss| == |run| + 1 && i < |run|
  {
    run[i].e.id != 0 && run[i].e.id !in Purge(ss[i].events, run[i].t1 - ttl)
  }

  /** Event `i` of the run records its call id. */
  ghost predicate RecordsCall(ss: seq<Maps>, run: seq<Moment>, ttl: Time, i: nat)
    requires |ss| == |run| + 1 && i < |run|
  {
    && run[i].e.Rings()
    && (run[i].e.id == 0 || RecordsEvent(ss, run, ttl, i))
    && run[i].e.callId.value !in Purge(ss[i].calls, run[i].t1 - ttl)
  }

  ghost function EventTicks(ss: seq<Maps>, run: seq<Moment>, ttl: Time): (ticks: seq<Tick>)
    requires |ss| == |run| + 1
    ensures |ticks| == |run|
    ensures forall i :: 0 <= i < |run| ==>
      ticks[i] == Tick(run[i].t1, run[i].t2, run[i].e.id, RecordsEvent(ss, run, ttl, i), run[i].ok)
  {
    seq(|run|, i requires 0 <= i < |run| =>
      Tick(run[i].t1, run[i].t2, run[i].e.id, RecordsEvent(ss, run, ttl, i), run[i].ok))
  }

  ghost function CallTicks(ss: seq<Maps>, run: seq<Moment>, ttl: Time): (ticks: seq<Tick>)
    requires |ss| == |run| + 1
    ensures |ticks| == |run|
    ensures forall i :: 0 <= i < |run| ==>
      ticks[i] == Tick(run[i].t1, run[i].t2, if run[i].e.callId.Some? then run[i].e.callId.value else 0,
                       RecordsCall(ss, run, ttl, i), run[i].ok)
  {
    seq(|run|, i requires 0 <= i < |run| =>
      Tick(run[i].t1, run[i].t2, if run[i].e.callId.Some? then run[i].e.callId.value else 0,
           RecordsCall(ss, run, ttl, i), run[i].ok))
  }

  ghost function EventMaps(ss: seq<Maps>): seq<Seen> { seq(|ss|, i requires 0 <= i < |ss| => ss[i].events) }
  ghost function CallMaps(ss: seq<Maps>): seq<Seen> { seq(|ss|, i requires 0 <= i < |ss| => ss[i].calls) }

  lemma EventMapRun(ss: seq<Maps>, run: seq<Moment>, ttl: Time, max: nat)
    requires Run(ss, run, ttl, max)
    ensures MapRun(EventMaps(ss), EventTicks(ss, run, ttl), ttl, max)
  {
    var ms, ticks := EventMaps(ss), EventTicks(ss, run, ttl);
    forall i | 0 <= i < |ticks| ensures MapStep(ms[i], ms[i + 1], ticks[i], ttl, max) {
      assert Accepts(ss[i].events, ss[i].calls, run[i].e, run[i].t1, run[i].t2, ttl, max, run[i].ok,
                     ss[i + 1].events, ss[i + 1].calls);
    }
  }

  lemma CallMapRun(ss: seq<Maps>, run: seq<Moment>, ttl: Time, max: nat)
    requires Run(ss, run, ttl, max)
    ensures MapRun(CallMaps(ss), CallTicks(ss, run, ttl), ttl, max)
  {
    var ms, ticks := CallMaps(ss), CallTicks(ss, run, ttl);
    forall i | 0 <= i < |ticks| ensures MapStep(ms[i], ms[i + 1], ticks[i], ttl, max) {
      assert Accepts(ss[i].events, ss[i].calls, run[i].e, run[i].t1, run[i].t2, ttl, max, run[i].ok,
                     ss[i + 1].events, ss[i + 1].calls);
    }
  }

  /**
   Whatever the clock does, an event id recorded with reading `t` is rejected, unless an event since
   has read a time after `t + ttl`, or at least `max` other event ids were recorded with readings
   from `t` on.
   */
  lemma DuplicateEventRejected(ss: seq<Maps>, run: seq<Moment>, ttl: Time, max: nat, i: nat, j: nat)
    requires Run(ss, run, ttl, max) && i < j < |run|
    requires RecordsEvent(ss, run, ttl, i) && run[j].e.id == run[i].e.id
    requires forall k :: i < k <= j ==> run[k].t1 <= run[i].t2 + ttl
    requires |Newer(EventTicks(ss, run, ttl), j, run[i].e.id, run[i].t2)| < max
    ensures !run[j].ok
  {
    hide MapRun; hide Newer;
    EventMapRun(ss, run, ttl, max);
    if RecordsEvent(ss, run, ttl, j) {
      ForgottenOnlyIfCrowded(EventMaps(ss), EventTicks(ss, run, ttl), ttl, max, i, j);
    }
    assert Accepts(ss[j].events, ss[j].calls, run[j].e, run[j].t1, run[j].t2, ttl, max, run[j].ok,
                   ss[j + 1].events, ss[j + 1].calls);
  }

  /** The same for the call id of ringing incoming calls. */
  lemma DuplicateRingRejected(ss: seq<Maps>, run: seq<Moment>, ttl: Time, max: nat, i: nat, j: nat)
    requires Run(ss, run, ttl, max) && i < j < |run|
    requires RecordsCall(ss, run, ttl, i) && run[j].e.Rings() && run[j].e.callId == run[i].e.callId
    requires forall k :: i < k <= j ==> run[k].t1 <= run[i].t2 + ttl
    requires |Newer(CallTicks(ss, run, ttl), j, run[i].e.callId.value, run[i].t2)| < max
    ensures !run[j].ok
  {
    hide MapRun; hide Newer;
    CallMapRun(ss, run, ttl, max);
    if RecordsCall(ss, run, ttl, j) {
      ForgottenOnlyIfCrowded(CallMaps(ss), CallTicks(ss, run, ttl), ttl, max, i, j);
    }
    assert Accepts(ss[j].events, ss[j].calls, run[j].e, run[j].t1, run[j].t2, ttl, max, run[j].ok,
                   ss[j + 1].events, ss[j + 1].calls);
  }

  /**
   With a strictly increasing clock: an event id recorded at `t` is rejected at every later time up
   to `t + ttl`, unless at least `max` other event ids were recorded since.
   */
  lemma DuplicateEventRejectedInOrder(ss: seq<Maps>, run: seq<Moment>, ttl: Time, max: nat, i: nat, j: nat)
    requires Run(ss, run, ttl, max) && Clock(run) && i < j < |run|
    requires RecordsEvent(ss, run, ttl, i) && run[j].e.id == run[i].e.id && run[j].t1 <= run[i].t2 + ttl
    requires |Others(EventTicks(ss, run, ttl), i, j, run[i].e.id)| < max
    ensures !run[j].ok
  {
    hide Newer; hide Others; hide Accepts;
    InOrder(EventTicks(ss, run, ttl), ttl, i, j);
    DuplicateEventRejected(ss, run, ttl, max, i, j);
  }

  /** The same for the call id of ringing incoming calls. */
  lemma DuplicateRingRejectedInOrder(ss: seq<Maps>, run: seq<Moment>, ttl: Time, max: nat, i: nat, j: nat)
    requires Run(ss, run, ttl, max) && Clock(run) && i < j < |run|
    requires RecordsCall(ss, run, ttl, i) && run[j].e.Rings() && run[j].e.callId == run[i].e.callId
    requires run[j].t1 <= run[i].t2 + ttl
    requires |Others(CallTicks(ss, run, ttl), i, j, run[i].e.callId.value)| < max
    ensures !run[j].ok
  {
    hide Newer; hide Others; hide Accepts;
    InOrder(CallTicks(ss, run, ttl), ttl, i, j);
    DuplicateRingRejected(ss, run, ttl, max, i, j);
  }

  /** Event `i` recorded the same event id, or the same call id, at most `ttl` before event `j`. */
  ghost predicate Repeats(ss: seq<Maps>, run: seq<Moment>, ttl: Time, i: nat, j: nat)
    requires |ss| == |run| + 1 && i < j < |run|
  {
    && run[j].t1 <= run[i].t2 + ttl
    && ((run[j].e.id == run[i].e.id && RecordsEvent(ss, run, ttl, i))
        || (run[j].e.Rings() && run[j].e.callId == run[i].e.callId && RecordsCall(ss, run, ttl, i)))
  }

  /** Nothing is rejected without reason: an ideal deduper, with room for everything, would reject it too. */
  lemma RejectedOnlyIfRepeated(ss: seq<Maps>, run: seq<Moment>, ttl: Time, max: nat, j: nat)
    requires Run(ss, run, ttl, max) && j < |run| && !run[j].ok
    ensures exists i :: 0 <= i < j && Repeats(ss, run, ttl, i, j)
  {
    var e := run[j].e;
    assert Accepts(ss[j].events, ss[j].calls, e, run[j].t1, run[j].t2, ttl, max, run[j].ok,
                   ss[j + 1].events, ss[j + 1].calls);
    if e.id != 0 && e.id in Purge(ss[j].events, run[j].t1 - ttl) {
      EventMapRun(ss, run, ttl, max);
      EntriesAreRecords(EventMaps(ss), EventTicks(ss, run, ttl), ttl, max, j, e.id);
      var ticks := EventTicks(ss, run, ttl);
      var i :| 0 <= i < j && ticks[i].recorded && ticks[i].id == e.id && ticks[i].t2 == ss[j].events[e.id];
      assert Repeats(ss, run, ttl, i, j);
    } else {
      CallMapRun(ss, run, ttl, max);
      var y := e.callId.value;
      EntriesAreRecords(CallMaps(ss), CallTicks(ss, run, ttl), ttl, max, j, y);
      var ticks := CallTicks(ss, run, ttl);
      var i :| 0 <= i < j && ticks[i].recorded && ticks[i].id == y && ticks[i].t2 == ss[j].calls[y];
      assert Repeats(ss, run, ttl, i, j);
    }
  }

  // ---- Which events are deduplicated by call ----

  /** An incoming call that rings: with a call id, and with no action, an empty one or "ringing". */
  predicate RingingCall(e: Event, call: Id) {
    e.kind == IncomingCall && e.callId == Some(call) && call != 0 && e.action in {NoAction, EmptyAction, Ringing}
  }

  /** The event has another kind, another action, or no call id. */
  predicate NotRinging(e: Event) {
    e.kind == OtherType || e.action == OtherAction || e.callId == None || e.callId == Some(0)
  }

  /**
   An event that is not a ringing call, such as the push that ends a call, is rejected exactly if its
   own non-empty event id is still known, whatever calls were recorded; and it records no call.
   */
  lemma OtherEventsIgnoreCalls(ss: seq<Maps>, run: seq<Moment>, ttl: Time, max: nat, j: nat)
    requires Run(ss, run, ttl, max) && j < |run| && NotRinging(run[j].e)
    ensures !run[j].ok <==>
      run[j].e.id != 0 && run[j].e.id in ss[j].events && run[j].t1 - ttl <= ss[j].events[run[j].e.id]
    ensures forall y :: y in ss[j + 1].calls ==> y in ss[j].calls && ss[j + 1].calls[y] == ss[j].calls[y]
  {
    assert Accepts(ss[j].events, ss[j].calls, run[j].e, run[j].t1, run[j].t2, ttl, max, run[j].ok,
                   ss[j + 1].events, ss[j + 1].calls);
  }

  /** A ringing call is rejected exactly if its event id or its call id is still known. */
  lemma RingingRejectedIff(ss: seq<Maps>, run: seq<Moment>, ttl: Time, max: nat, j: nat, call: Id)
    requires Run(ss, run, ttl, max) && j < |run| && RingingCall(run[j].e, call)
    ensures !run[j].ok <==>
      || (run[j].e.id != 0 && run[j].e.id in ss[j].events && run[j].t1 - ttl <= ss[j].events[run[j].e.id])
      || (call in ss[j].calls && run[j].t1 - ttl <= ss[j].calls[call])
    ensures run[j].ok ==> RecordsCall(ss, run, ttl, j)
  {
    assert Accepts(ss[j].events, ss[j].calls, run[j].e, run[j].t1, run[j].t2, ttl, max, run[j].ok,
                   ss[j + 1].events, ss[j + 1].calls);
  }

  /**
   So once a ringing call was delivered, whichever of the ringing actions it had, every other
   ringing event about it is rejected, unless the record has expired or been crowded out.
   */
  lemma OneRingPerCall(ss: seq<Maps>, run: seq<Moment>, ttl: Time, max: nat, i: nat, j: nat, call: Id)
    requires Run(ss, run, ttl, max) && i < j < |run|
    requires RingingCall(run[i].e, call) && run[i].ok && RingingCall(run[j].e, call)
    requires forall k :: i < k <= j ==> run[k].t1 <= run[i].t2 + ttl
    requires |Newer(CallTicks(ss, run, ttl), j, call, run[i].t2)| < max
    ensures !run[j].ok
  {
    hide Newer; hide Accepts;
    RingingRejectedIff(ss, run, ttl, max, i, call);
    DuplicateRingRejected(ss, run, ttl, max, i, j);
  }

  // ---- The bound on the maps ----

  lemma PurgeShrinks(m: Seen, cutoff: Time)
    ensures |Purge(m, cutoff)| <= |m|
  {
    SubsetSize(Purge(m, cutoff).Keys, m.Keys);
    assert |Purge(m, cutoff).Keys| == |Purge(m, cutoff)| && |m.Keys| == |m|;
  }

  /**
   Event `i` is a new event about a call that rings already, and finds the event map full: its event
   id is recorded, and the rejection for the call id skips the trimming.
   */
  ghost predicate Overflows(ss: seq<Maps>, run: seq<Moment>, ttl: Time, max: nat, i: nat)
    requires |ss| == |run| + 1 && i < |run|
  {
    && RecordsEvent(ss, run, ttl, i)
    && run[i].e.Rings() && run[i].e.callId.value in Purge(ss[i].calls, run[i].t1 - ttl)
    && |Purge(ss[i].events, run[i].t1 - ttl)| >= max
  }

  lemma BoundStep(ss: seq<Maps>, run: seq<Moment>, ttl: Time, max: nat, i: nat)
    requires Run(ss, run, ttl, max) && i < |run| && |ss[i].calls| <= max
    ensures |ss[i + 1].calls| <= max
    ensures |ss[i].events| <= max ==> (|ss[i + 1].events| <= max <==> !Overflows(ss, run, ttl, max, i))
    ensures Overflows(ss, run, ttl, max, i) ==> |ss[i + 1].events| > max
  {
    PurgeShrinks(ss[i].events, run[i].t1 - ttl);
    PurgeShrinks(ss[i].calls, run[i].t1 - ttl);
    assert Accepts(ss[i].events, ss[i].calls, run[i].e, run[i].t1, run[i].t2, ttl, max, run[i].ok,
                   ss[i + 1].events, ss[i + 1].calls);
  }

  /** The call map is within the bound after every event, accepted or not. */
  lemma {:induction false} CallsBounded(ss: seq<Maps>, run: seq<Moment>, ttl: Time, max: nat, j: nat)
    requires Run(ss, run, ttl, max) && j <= |run|
    ensures |ss[j].calls| <= max
  {
    hide Accepts;
    if j > 0 {
      CallsBounded(ss, run, ttl, max, j - 1);
      BoundStep(ss, run, ttl, max, j - 1);
    }
  }

  lemma {:induction false} EventsBounded(ss: seq<Maps>, run: seq<Moment>, ttl: Time, max: nat, j: nat)
    requires Run(ss, run, ttl, max) && j <= |run|
    requires forall i :: 0 <= i < j ==> !Overflows(ss, run, ttl, max, i)
    ensures |ss[j].events| <= max
  {
    hide Accepts;
    if j > 0 {
      EventsBounded(ss, run, ttl, max, j - 1);
      CallsBounded(ss, run, ttl, max, j - 1);
      BoundStep(ss, run, ttl, max, j - 1);
    }
  }

  /**
   Throughout a run the event map is within the bound if and only if no event overflows it.  (No
   assumption on the clock is needed.)
   */
  lemma EventsBoundedIff(ss: seq<Maps>, run: seq<Moment>, ttl: Time, max: nat)
    requires Run(ss, run, ttl, max)
    ensures (forall j :: 0 <= j <= |run| ==> |ss[j].events| <= max)
       <==> (forall i :: 0 <= i < |run| ==> !Overflows(ss, run, ttl, max, i))
  {
    hide Accepts; hide Overflows;
    if forall i :: 0 <= i < |run| ==> !Overflows(ss, run, ttl, max, i) {
      forall j | 0 <= j <= |run| ensures |ss[j].events| <= max { EventsBounded(ss, run, ttl, max, j); }
    } else {
      var i :| 0 <= i < |run| && Overflows(ss, run, ttl, max, i);
      CallsBounded(ss, run, ttl, max, i);
      BoundStep(ss, run, ttl, max, i);
    }
  }

  /** In particular after every accepted event, which never overflows, whatever happened before. */
  lemma BoundedAfterAccept(ss: seq<Maps>, run: seq<Moment>, ttl: Time, max: nat, j: nat)
    requires Run(ss, run, ttl, max) && j < |run| && run[j].ok
    ensures |ss[j + 1].events| <= max && |ss[j + 1].calls| <= max && !Overflows(ss, run, ttl, max, j)
  {
    assert Accepts(ss[j].events, ss[j].calls, run[j].e, run[j].t1, run[j].t2, ttl, max, run[j].ok,
                   ss[j + 1].events, ss[j + 1].calls);
  }

  // ---- A run that overflows ----

  /** Event ids 1 to `n`, recorded at times 0 to `n - 1`. */
  function Recorded(n: nat): (m: Seen)
    ensures |m| == n && (forall k :: k in m <==> 1 <= k <= n) && (forall k :: k in m ==> m[k] == k - 1)
  {
    if n == 0 then map[] else Recorded(n - 1)[n := n - 1]
  }

  /** The first event and event `max` ring call 5; those in between are about it but do not ring. */
  function Repeat(max: nat, i: nat): Moment {
    Moment(Event(i + 1, Some(5), IncomingCall, if i == 0 || i == max then Ringing else OtherAction), i, i, i < max)
  }

  function Before(i: nat): Maps {
    Maps(Recorded(i), if i == 0 then map[] else map[5 := 0])
  }

  lemma NothingPurged(m: Seen, cutoff: Time)
    requires cutoff <= 0 && forall k :: k in m ==> m[k] >= 0
    ensures Purge(m, cutoff) == m
  {
  }

  /** A new event with room for it, in maps that have nothing to purge. */
  lemma AcceptsWithRoom(es: Seen, cs: Seen, e: Event, t: Time, ttl: Time, max: nat, cs': Seen)
    requires Purge(es, t - ttl) == es && Purge(cs, t - ttl) == cs && e.id != 0 && e.id !in es
    requires e.Rings() ==> e.callId.value !in cs
    requires cs' == if e.Rings() then cs[e.callId.value := t] else cs
    requires |es| < max && |cs'| <= max
    ensures Accepts(es, cs, e, t, t, ttl, max, true, es[e.id := t], cs')
  {
    hide Purge;
  }

  /** A new event about a call that rings already. */
  lemma RejectsRing(es: Seen, cs: Seen, e: Event, t: Time, ttl: Time, max: nat)
    requires Purge(es, t - ttl) == es && Purge(cs, t - ttl) == cs && e.id != 0 && e.id !in es
    requires e.Rings() && e.callId.value in cs
    ensures Accepts(es, cs, e, t, t, ttl, max, false, es[e.id := t], cs)
  {
    hide Purge;
  }

  lemma RepeatStep(ttl: Time, max: nat, i: nat)
    requires 1 <= max <= ttl && i <= max
    ensures var e := Repeat(max, i);
      Accepts(Before(i).events, Before(i).calls, e.e, e.t1, e.t2, ttl, max, e.ok,
              Before(i + 1).events, Before(i + 1).calls)
  {
    assert Recorded(i + 1) == Recorded(i)[i + 1 := i];
    hide Recorded; hide Accepts; hide Purge;
    NothingPurged(Before(i).events, i - ttl);
    NothingPurged(Before(i).calls, i - ttl);
    if i < max {
      AcceptsWithRoom(Recorded(i), Before(i).calls, Repeat(max, i).e, i, ttl, max, map[5 := 0]);
    } else {
      RejectsRing(Recorded(i), Before(i).calls, Repeat(max, i).e, i, ttl, max);
    }
  }

  /**
   Not after every event: for every bound, with a ttl that lets as many entries live, a run without
   idle time whose last event, rejected for its call id, leaves more events recorded.
   */
  lemma RejectedEventsOverflow(ttl: Time, max: nat)
    requires 1 <= max <= ttl
    ensures exists ss: seq<Maps>, run: seq<Moment> ::
      Run(ss, run, ttl, max) && Clock(run) && |run| == max + 1 && |ss[max + 1].events| == max + 1
  {
    hide Accepts; hide Recorded; hide Purge;
    var ss := seq(max + 2, i requires 0 <= i => Before(i));
    var run := seq(max + 1, i requires 0 <= i => Repeat(max, i));
    forall i | 0 <= i < |run|
      ensures Accepts(ss[i].events, ss[i].calls, run[i].e, run[i].t1, run[i].t2, ttl, max, run[i].ok,
                      ss[i + 1].events, ss[i + 1].calls)
    {
      RepeatStep(ttl, max, i);
    }
    assert Run(ss, run, ttl, max) && Clock(run);
  }

  /** With a bound of zero no call is ever remembered, so no event is rejected for one and none overflows. */
  lemma ZeroNeverOverflows(ss: seq<Maps>, run: seq<Moment>, ttl: Time, j: nat)
    requires Run(ss, run, ttl, 0) && j <= |run|
    ensures |ss[j].events| <= 0
  {
    hide Accepts;
    forall i | 0 <= i < j ensures !Overflows(ss, run, ttl, 0, i) { CallsBounded(ss, run, ttl, 0, i); }
    EventsBounded(ss, run, ttl, 0, j);
  }
}
