/** The fixed-window rate limiter. */
module RateLimiter {

  type Key = nat
  type Time = int
  datatype Bucket = Bucket(count: nat, resetAt: Time)
  type Buckets = map<Key, Bucket>

  const DEFAULT_LIMIT: nat := 60
  const DEFAULT_WINDOW: nat := 60    // one minute; times are in seconds

  datatype Config = Config(limit: nat, window: nat)
  {
    ghost predicate Valid() { limit >= 1 && window >= 1 }
  }

  /** What `Allow` answers, and the buckets it leaves. */
  function Allowed(b: Buckets, cfg: Config, key: Key, now: Time): bool {
    key !in b || now > b[key].resetAt || b[key].count < cfg.limit
  }

  function AfterAllow(b: Buckets, cfg: Config, key: Key, now: Time): Buckets {
    if key !in b || now > b[key].resetAt then b[key := Bucket(1, now + cfg.window)]
    else if b[key].count >= cfg.limit then b
    else b[key := b[key].(count := b[key].count + 1)]
  }

  function AfterCleanup(b: Buckets, now: Time): Buckets {
    map k | k in b && !(now > b[k].resetAt) :: b[k]
  }

  class Limiter {
    var buckets: Buckets
    const cfg: Config

    constructor (limit: int, window: int)
      ensures cfg.Valid() && buckets == map[]
      ensures cfg == Config(if limit > 0 then limit else 60, if window > 0 then window else 60)
    {
      buckets := map[];
      cfg := Config(if limit <= 0 then DEFAULT_LIMIT else limit, if window <= 0 then DEFAULT_WINDOW else window);
    }

    method Allow(key: Key, now: Time) returns (ok: bool)
      modifies this`buckets
      ensures ok == Allowed(old(buckets), cfg, key, now)
      ensures buckets == AfterAllow(old(buckets), cfg, key, now)
    {
      if key !in buckets || now > buckets[key].resetAt {
        buckets := buckets[key := Bucket(1, now + cfg.window)];
        return true;
      }
      var b := buckets[key];
      if b.count >= cfg.limit {
        return false;
      }
      buckets := buckets[key := b.(count := b.count + 1)];
      return true;
    }

    method Cleanup(now: Time)
      modifies this`buckets
      ensures buckets == AfterCleanup(old(buckets), now)
    {
      var todo := buckets.Keys;
      while todo != {}
        invariant todo <= old(buckets).Keys
        invariant forall k :: k in buckets <==>
          k in old(buckets) && (k in todo || !(now > old(buckets)[k].resetAt))
        invariant forall k :: k in buckets ==> buckets[k] == old(buckets)[k]
        decreases |todo|
      {
        var k :| k in todo;
        todo := todo - {k};
        if now > buckets[k].resetAt {
          buckets := buckets - {k};
        }
      }
    }
  }

  // ---- Runs ----

  datatype Call = Allow(key: Key, now: Time) | Cleanup(now: Time)

  function Step(b: Buckets, cfg: Config, c: Call): Buckets {
    match c
    case Allow(key, now) => AfterAllow(b, cfg, key, now)
    case Cleanup(now) => AfterCleanup(b, now)
  }

  function After(cfg: Config, calls: seq<Call>): Buckets {
    if calls == [] then map[] else Step(After(cfg, calls[..|calls| - 1]), cfg, calls[|calls| - 1])
  }

  /** The call can touch the bucket of `key`. */
  predicate Concerns(c: Call, key: Key) { c.Cleanup? || c.key == key }

  /** The clock readings of the calls that concern `key` take effect in order. */
  ghost predicate Ordered(calls: seq<Call>, key: Key) {
    forall i, j :: 0 <= i < j < |calls| && Concerns(calls[i], key) && Concerns(calls[j], key) ==>
      calls[i].now <= calls[j].now
  }

  /** No Cleanup takes effect before an Allow of `key` that read the clock earlier. */
  ghost predicate CleanupsBefore(calls: seq<Call>, key: Key) {
    forall i, j :: 0 <= i < j < |calls| && calls[i].Cleanup? && calls[j].Allow? && calls[j].key == key ==>
      calls[i].now <= calls[j].now
  }

  /** One allowed call: when it was, and when the bucket it was counted in began. */
  datatype Grant = Grant(at: Time, epoch: Time)

  /** The grants of the key after one more call. */
  function MoreGrants(cfg: Config, b: Buckets, gs: seq<Grant>, key: Key, c: Call): seq<Grant> {
    if c.Allow? && c.key == key && Allowed(b, cfg, key, c.now)
    then gs + [Grant(c.now, AfterAllow(b, cfg, key, c.now)[key].resetAt - cfg.window)]
    else gs
  }

  /** The allowed calls of one key, oldest first. */
  function Grants(cfg: Config, calls: seq<Call>, key: Key): seq<Grant> {
    if calls == [] then []
    else
      var front := calls[..|calls| - 1];
      MoreGrants(cfg, After(cfg, front), Grants(cfg, front, key), key, calls[|calls| - 1])
  }

  function InEpoch(gs: seq<Grant>, epoch: Time): nat {
    if gs == [] then 0 else InEpoch(gs[..|gs| - 1], epoch) + (if gs[|gs| - 1].epoch == epoch then 1 else 0)
  }

  function Within(gs: seq<Grant>, lo: Time, hi: Time): nat {
    if gs == [] then 0 else Within(gs[..|gs| - 1], lo, hi) + (if lo <= gs[|gs| - 1].at <= hi then 1 else 0)
  }

  function EpochWithin(gs: seq<Grant>, epoch: Time, lo: Time, hi: Time): nat {
    if gs == [] then 0
    else EpochWithin(gs[..|gs| - 1], epoch, lo, hi)
         + (if gs[|gs| - 1].epoch == epoch && lo <= gs[|gs| - 1].at <= hi then 1 else 0)
  }

  ghost predicate Apart(g: Grant, h: Grant, window: nat) {
    g.epoch == h.epoch || g.epoch > h.epoch + window || h.epoch > g.epoch + window
  }

  ghost predicate Opens(gs: seq<Grant>, epoch: Time) {
    exists j :: 0 <= j < |gs| && gs[j] == Grant(epoch, epoch)
  }

  ghost predicate GrantOk(cfg: Config, gs: seq<Grant>, i: nat)
    requires i < |gs|
  {
    && gs[i].at <= gs[i].epoch + cfg.window
    && Opens(gs, gs[i].epoch)
    && (forall j :: 0 <= j < |gs| ==> Apart(gs[i], gs[j], cfg.window))
    && InEpoch(gs, gs[i].epoch) <= cfg.limit
  }

  ghost predicate NoLaterCleanup(calls: seq<Call>, now: Time) {
    forall i :: 0 <= i < |calls| && calls[i].Cleanup? ==> calls[i].now <= now
  }

  /** All grants are in epochs that are over when `epoch` begins. */
  ghost predicate Over(cfg: Config, gs: seq<Grant>, epoch: Time) {
    forall i :: 0 <= i < |gs| ==> gs[i].epoch + cfg.window < epoch
  }

  /** Every grant is in the current bucket's epoch or in one that was over before it; a dropped bucket is over. */
  ghost predicate BucketOk(cfg: Config, b: Buckets, gs: seq<Grant>, key: Key, calls: seq<Call>) {
    && (key in b ==>
          var epoch := b[key].resetAt - cfg.window;
          && InEpoch(gs, epoch) == b[key].count <= cfg.limit && Opens(gs, epoch)
          && forall i :: 0 <= i < |gs| ==> gs[i].epoch == epoch || gs[i].epoch + cfg.window < epoch)
    && (key !in b ==> forall now :: NoLaterCleanup(calls, now) ==> Over(cfg, gs, now))
  }

  lemma InEpochAppend(gs: seq<Grant>, g: Grant, epoch: Time)
    ensures InEpoch(gs + [g], epoch) == InEpoch(gs, epoch) + (if g.epoch == epoch then 1 else 0)
  {
    assert (gs + [g])[..|gs|] == gs;
  }

  lemma {:induction false} InEpochNone(gs: seq<Grant>, epoch: Time)
    requires forall i :: 0 <= i < |gs| ==> gs[i].epoch != epoch
    ensures InEpoch(gs, epoch) == 0
  {
    if gs != [] { InEpochNone(gs[..|gs| - 1], epoch); }
  }

  lemma OpensAppend(gs: seq<Grant>, g: Grant)
    ensures forall e :: Opens(gs, e) ==> Opens(gs + [g], e)
    ensures g.at == g.epoch ==> Opens(gs + [g], g.epoch)
  {
    forall e | Opens(gs, e) ensures Opens(gs + [g], e) {
      var j :| 0 <= j < |gs| && gs[j] == Grant(e, e);
      assert (gs + [g])[j] == Grant(e, e);
    }
    assert (gs + [g])[|gs|] == g;
  }

  /** What holds of a key's bucket and grants, in whatever order the readings of its Allow calls take effect. */
  ghost predicate RunOk(cfg: Config, calls: seq<Call>, key: Key) {
    var b, gs := After(cfg, calls), Grants(cfg, calls, key);
    BucketOk(cfg, b, gs, key, calls) && forall i :: 0 <= i < |gs| ==> GrantOk(cfg, gs, i)
  }

  lemma Extend(cfg: Config, calls: seq<Call>, key: Key, c: Call)
    ensures After(cfg, calls + [c]) == Step(After(cfg, calls), cfg, c)
    ensures Grants(cfg, calls + [c], key) == MoreGrants(cfg, After(cfg, calls), Grants(cfg, calls, key), key, c)
  {
    assert (calls + [c])[..|calls|] == calls;
  }

  /** A new bucket is opened. */
  lemma OpenBucket(cfg: Config, calls: seq<Call>, key: Key, now: Time)
    requires cfg.Valid() && RunOk(cfg, calls, key) && NoLaterCleanup(calls, now)
    requires var b := After(cfg, calls); key !in b || now > b[key].resetAt
    ensures RunOk(cfg, calls + [Allow(key, now)], key)
  {
    Extend(cfg, calls, key, Allow(key, now));
    hide After; hide Grants; hide InEpoch; hide Opens; hide NoLaterCleanup;
    var gs, g := Grants(cfg, calls, key), Grant(now, now);
    var gs1 := gs + [g];
    assert Over(cfg, gs, now);
    InEpochNone(gs, now);
    OpensAppend(gs, g);
    forall i | 0 <= i < |gs1| ensures GrantOk(cfg, gs1, i) {
      InEpochAppend(gs, g, gs1[i].epoch);
      if i < |gs| { assert GrantOk(cfg, gs, i); }
    }
    InEpochAppend(gs, g, now);
  }

  /** One more call is counted in the current bucket. */
  lemma CountInBucket(cfg: Config, calls: seq<Call>, key: Key, now: Time)
    requires cfg.Valid() && RunOk(cfg, calls, key)
    requires var b := After(cfg, calls); key in b && now <= b[key].resetAt && b[key].count < cfg.limit
    ensures RunOk(cfg, calls + [Allow(key, now)], key)
  {
    Extend(cfg, calls, key, Allow(key, now));
    hide After; hide Grants; hide InEpoch; hide Opens; hide NoLaterCleanup;
    var gs, g := Grants(cfg, calls, key), Grant(now, After(cfg, calls)[key].resetAt - cfg.window);
    var gs1 := gs + [g];
    OpensAppend(gs, g);
    forall i | 0 <= i < |gs1| ensures GrantOk(cfg, gs1, i) {
      InEpochAppend(gs, g, gs1[i].epoch);
      if i < |gs| { assert GrantOk(cfg, gs, i); }
    }
    InEpochAppend(gs, g, g.epoch);
  }

  /** Nothing is granted to the key, and its bucket is kept, or dropped because it is over. */
  lemma KeepGrants(cfg: Config, calls: seq<Call>, key: Key, c: Call)
    requires RunOk(cfg, calls, key)
    requires c.Allow? && c.key == key ==> !Allowed(After(cfg, calls), cfg, key, c.now)
    ensures RunOk(cfg, calls + [c], key)
  {
    Extend(cfg, calls, key, c);
    hide After; hide Grants; hide InEpoch; hide Opens;
    var b, gs, more := After(cfg, calls), Grants(cfg, calls, key), calls + [c];
    if key !in Step(b, cfg, c) {
      forall now | NoLaterCleanup(more, now) ensures Over(cfg, gs, now) {
        assert more[|calls|] == c;
        assert forall i :: 0 <= i < |calls| ==> more[i] == calls[i];
        assert NoLaterCleanup(calls, now);
      }
    }
  }

  lemma {:induction false} RunInvariant(cfg: Config, calls: seq<Call>, key: Key)
    requires cfg.Valid() && CleanupsBefore(calls, key)
    ensures RunOk(cfg, calls, key)
  {
    if calls != [] {
      var front, last := calls[..|calls| - 1], calls[|calls| - 1];
      RunInvariant(cfg, front, key);
      hide RunOk; hide After;
      assert calls == front + [last];
      if last.Allow? && last.key == key && Allowed(After(cfg, front), cfg, key, last.now) {
        var b := After(cfg, front);
        if key !in b || last.now > b[key].resetAt {
          OpenBucket(cfg, front, key, last.now);
        } else {
          CountInBucket(cfg, front, key, last.now);
        }
      } else {
        KeepGrants(cfg, front, key, last);
      }
    }
  }

  /**
   No bucket allows more than `limit` calls, in whatever order the readings of the Allow calls take
   effect.
   */
  lemma BucketBound(cfg: Config, calls: seq<Call>, key: Key, epoch: Time)
    requires cfg.Valid() && CleanupsBefore(calls, key)
    ensures InEpoch(Grants(cfg, calls, key), epoch) <= cfg.limit
  {
    RunInvariant(cfg, calls, key);
    var gs := Grants(cfg, calls, key);
    hide Grants; hide After;
    if i :| 0 <= i < |gs| && gs[i].epoch == epoch {
      assert GrantOk(cfg, gs, i);
    } else {
      InEpochNone(gs, epoch);
    }
  }

  /** Call `k`, of the key, is denied. */
  ghost predicate DeniedAt(cfg: Config, calls: seq<Call>, k: nat, key: Key) {
    && k < |calls| && calls[k].Allow? && calls[k].key == key
    && !Allowed(After(cfg, calls[..k]), cfg, key, calls[k].now)
  }

  /**
   Nobody is denied without reason: a call of the key is denied exactly if the last bucket opened for
   it has not ended by the call's reading, has not been dropped, and has allowed `limit` calls.
   */
  lemma DeniedIffFull(cfg: Config, calls: seq<Call>, k: nat, key: Key)
    requires cfg.Valid() && CleanupsBefore(calls, key) && k < |calls| && calls[k].Allow? && calls[k].key == key
    ensures var b, gs := After(cfg, calls[..k]), Grants(cfg, calls[..k], key);
      DeniedAt(cfg, calls, k, key) <==>
        && key in b && calls[k].now <= b[key].resetAt
        && InEpoch(gs, b[key].resetAt - cfg.window) == cfg.limit
  {
    var front := calls[..k];
    assert CleanupsBefore(front, key);
    RunInvariant(cfg, front, key);
    hide After; hide Grants;
  }

  // ---- Late readings ----

  /** Call `k` is counted in a bucket of the key that a later reading had opened. */
  ghost predicate LateAt(cfg: Config, calls: seq<Call>, k: nat, key: Key) {
    && k < |calls| && calls[k].Allow? && calls[k].key == key
    && var b := After(cfg, calls[..k]);
    && key in b && b[key].count < cfg.limit && calls[k].now < b[key].resetAt - cfg.window
  }

  /** No allowed call read the clock before its bucket began. */
  ghost predicate Timely(gs: seq<Grant>) {
    forall i :: 0 <= i < |gs| ==> gs[i].epoch <= gs[i].at
  }

  lemma {:induction false} TimelyRun(cfg: Config, calls: seq<Call>, key: Key)
    requires cfg.Valid() && forall k: nat :: !LateAt(cfg, calls, k, key)
    ensures Timely(Grants(cfg, calls, key))
  {
    if calls != [] {
      var n := |calls| - 1;
      var front, last := calls[..n], calls[n];
      forall k: nat ensures !LateAt(cfg, front, k, key) {
        if k < n { assert front[..k] == calls[..k] && !LateAt(cfg, calls, k, key); }
      }
      TimelyRun(cfg, front, key);
      assert !LateAt(cfg, calls, n, key);
    }
  }

  lemma {:induction false} TwoInEpoch(gs: seq<Grant>, i: nat, j: nat)
    requires i < j < |gs| && gs[i].epoch == gs[j].epoch
    ensures InEpoch(gs, gs[i].epoch) >= 2
  {
    var front := gs[..|gs| - 1];
    if j < |front| {
      TwoInEpoch(front, i, j);
    } else {
      OneInEpoch(front, i);
    }
  }

  lemma {:induction false} OneInEpoch(gs: seq<Grant>, i: nat)
    requires i < |gs|
    ensures InEpoch(gs, gs[i].epoch) >= 1
  {
    if i < |gs| - 1 { OneInEpoch(gs[..|gs| - 1], i); }
  }

  /** With a limit of one, every allowed call opens its own bucket. */
  lemma SingleIsTimely(cfg: Config, gs: seq<Grant>)
    requires cfg.limit == 1 && forall i :: 0 <= i < |gs| ==> GrantOk(cfg, gs, i)
    ensures Timely(gs)
  {
    hide InEpoch;
    forall i | 0 <= i < |gs| ensures gs[i].epoch <= gs[i].at {
      assert GrantOk(cfg, gs, i);
      var j :| 0 <= j < |gs| && gs[j] == Grant(gs[i].epoch, gs[i].epoch);
      if i < j { TwoInEpoch(gs, i, j); }
      if j < i { TwoInEpoch(gs, j, i); }
    }
  }

  lemma {:induction false} BucketReading(cfg: Config, calls: seq<Call>, key: Key) returns (i: nat)
    requires key in After(cfg, calls)
    ensures i < |calls| && calls[i] == Allow(key, After(cfg, calls)[key].resetAt - cfg.window)
  {
    var n := |calls| - 1;
    var b := After(cfg, calls[..n]);
    if key in b && After(cfg, calls)[key].resetAt == b[key].resetAt {
      i := BucketReading(cfg, calls[..n], key);
    } else {
      i := n;
    }
  }

  /** Readings that take effect in order are never late. */
  lemma OrderedNotLate(cfg: Config, calls: seq<Call>, key: Key, k: nat)
    requires Ordered(calls, key)
    ensures !LateAt(cfg, calls, k, key)
  {
    if k < |calls| && key in After(cfg, calls[..k]) {
      var i := BucketReading(cfg, calls[..k], key);
      assert calls[i] == calls[..k][i];
    }
  }

  // ---- The bound ----

  lemma {:induction false} WithinOneOrTwo(gs: seq<Grant>, e1: Time, e2: Time, lo: Time, hi: Time)
    requires forall i :: 0 <= i < |gs| && lo <= gs[i].at <= hi ==> gs[i].epoch == e1 || gs[i].epoch == e2
    ensures Within(gs, lo, hi) <= EpochWithin(gs, e1, lo, hi) + EpochWithin(gs, e2, lo, hi)
    ensures e1 == e2 ==> Within(gs, lo, hi) == EpochWithin(gs, e1, lo, hi)
  {
    if gs != [] { WithinOneOrTwo(gs[..|gs| - 1], e1, e2, lo, hi); }
  }

  lemma {:induction false} EpochWithinLess(gs: seq<Grant>, epoch: Time, lo: Time, hi: Time)
    ensures EpochWithin(gs, epoch, lo, hi) <= InEpoch(gs, epoch)
    ensures (exists j :: 0 <= j < |gs| && gs[j].epoch == epoch && !(lo <= gs[j].at <= hi)) ==>
      EpochWithin(gs, epoch, lo, hi) < InEpoch(gs, epoch)
  {
    if gs != [] {
      var front := gs[..|gs| - 1];
      EpochWithinLess(front, epoch, lo, hi);
      if exists j :: 0 <= j < |gs| && gs[j].epoch == epoch && !(lo <= gs[j].at <= hi) {
        var j :| 0 <= j < |gs| && gs[j].epoch == epoch && !(lo <= gs[j].at <= hi);
        if j < |front| { assert front[j] == gs[j]; }
      }
    }
  }

  ghost predicate Hit(gs: seq<Grant>, i: nat, lo: Time, hi: Time) {
    i < |gs| && lo <= gs[i].at <= hi
  }

  /** Grants within one window fall into at most two epochs. */
  lemma AtMostTwoEpochs(cfg: Config, gs: seq<Grant>, i: nat, j: nat, k: nat, lo: Time)
    requires Timely(gs) && forall n :: 0 <= n < |gs| ==> GrantOk(cfg, gs, n)
    requires Hit(gs, i, lo, lo + cfg.window) && Hit(gs, j, lo, lo + cfg.window) && Hit(gs, k, lo, lo + cfg.window)
    requires gs[i].epoch < gs[j].epoch
    ensures gs[k].epoch == gs[i].epoch || gs[k].epoch == gs[j].epoch
  {
    hide InEpoch; hide Opens;
    assert GrantOk(cfg, gs, i) && GrantOk(cfg, gs, j) && GrantOk(cfg, gs, k);
    assert Apart(gs[i], gs[j], cfg.window) && Apart(gs[i], gs[k], cfg.window) && Apart(gs[j], gs[k], cfg.window);
  }

  /** The call that opened the older of two epochs lies before the window. */
  lemma OpeningMissed(cfg: Config, gs: seq<Grant>, i: nat, j: nat, lo: Time)
    requires Timely(gs) && forall n :: 0 <= n < |gs| ==> GrantOk(cfg, gs, n)
    requires Hit(gs, i, lo, lo + cfg.window) && Hit(gs, j, lo, lo + cfg.window) && gs[i].epoch < gs[j].epoch
    ensures EpochWithin(gs, gs[i].epoch, lo, lo + cfg.window) <= cfg.limit - 1
  {
    hide InEpoch;
    assert GrantOk(cfg, gs, i) && GrantOk(cfg, gs, j);
    assert Apart(gs[i], gs[j], cfg.window);
    var n :| 0 <= n < |gs| && gs[n] == Grant(gs[i].epoch, gs[i].epoch);
    assert gs[n].at < lo;
    EpochWithinLess(gs, gs[i].epoch, lo, lo + cfg.window);
  }

  /**
   For every key and every sequence of calls in which no call of the key is counted in a bucket that
   a later reading opened, or the limit is one: any closed interval of one window contains at most
   2 * limit - 1 allowed calls.
   */
  lemma WindowBound(cfg: Config, calls: seq<Call>, key: Key, lo: Time)
    requires cfg.Valid() && CleanupsBefore(calls, key)
    requires cfg.limit == 1 || forall k: nat :: !LateAt(cfg, calls, k, key)
    ensures Within(Grants(cfg, calls, key), lo, lo + cfg.window) <= 2 * cfg.limit - 1
  {
    hide After; hide LateAt;
    RunInvariant(cfg, calls, key);
    var gs := Grants(cfg, calls, key);
    if cfg.limit == 1 { SingleIsTimely(cfg, gs); } else { TimelyRun(cfg, calls, key); }
    GrantsBound(cfg, gs, lo);
  }

  /** In particular when the readings that concern the key take effect in order. */
  lemma WindowBoundInOrder(cfg: Config, calls: seq<Call>, key: Key, lo: Time)
    requires cfg.Valid() && Ordered(calls, key)
    ensures Within(Grants(cfg, calls, key), lo, lo + cfg.window) <= 2 * cfg.limit - 1
  {
    hide LateAt; hide Grants; hide Within;
    forall k: nat ensures !LateAt(cfg, calls, k, key) { OrderedNotLate(cfg, calls, key, k); }
    WindowBound(cfg, calls, key, lo);
  }

  lemma GrantsBound(cfg: Config, gs: seq<Grant>, lo: Time)
    requires cfg.Valid() && Timely(gs) && forall n :: 0 <= n < |gs| ==> GrantOk(cfg, gs, n)
    ensures Within(gs, lo, lo + cfg.window) <= 2 * cfg.limit - 1
  {
    hide InEpoch; hide Opens;
    var hi := lo + cfg.window;
    if i: nat, j: nat :| Hit(gs, i, lo, hi) && Hit(gs, j, lo, hi) && gs[i].epoch < gs[j].epoch {
      forall k | 0 <= k < |gs| && lo <= gs[k].at <= hi
        ensures gs[k].epoch == gs[i].epoch || gs[k].epoch == gs[j].epoch
      {
        AtMostTwoEpochs(cfg, gs, i, j, k, lo);
      }
      WithinOneOrTwo(gs, gs[i].epoch, gs[j].epoch, lo, hi);
      OpeningMissed(cfg, gs, i, j, lo);
      EpochWithinLess(gs, gs[j].epoch, lo, hi);
      assert GrantOk(cfg, gs, j);
    } else if i: nat :| Hit(gs, i, lo, hi) {
      forall k | 0 <= k < |gs| && lo <= gs[k].at <= hi ensures gs[k].epoch == gs[i].epoch {
        assert Hit(gs, k, lo, hi);
      }
      WithinOneOrTwo(gs, gs[i].epoch, gs[i].epoch, lo, hi);
      EpochWithinLess(gs, gs[i].epoch, lo, hi);
      assert GrantOk(cfg, gs, i);
    } else {
      forall k | 0 <= k < |gs| ensures !(lo <= gs[k].at <= hi) { assert !Hit(gs, k, lo, hi); }
      NoneWithin(gs, lo, hi);
    }
  }

  lemma {:induction false} NoneWithin(gs: seq<Grant>, lo: Time, hi: Time)
    requires forall k :: 0 <= k < |gs| ==> !(lo <= gs[k].at <= hi)
    ensures Within(gs, lo, hi) == 0
  {
    if gs != [] { NoneWithin(gs[..|gs| - 1], lo, hi); }
  }

  lemma WithinAppend(gs: seq<Grant>, g: Grant, lo: Time, hi: Time)
    ensures Within(gs + [g], lo, hi) == Within(gs, lo, hi) + (if lo <= g.at <= hi then 1 else 0)
  {
    assert (gs + [g])[..|gs|] == gs;
  }

  /** `n` calls at one time. */
  function Burst(n: nat, now: Time): seq<Call> {
    seq(n, _ => Allow(0, now))
  }

  /** A burst that fits into the current bucket is allowed altogether. */
  lemma {:induction false} BurstAllowed(cfg: Config, calls: seq<Call>, n: nat, now: Time, lo: Time, hi: Time)
    requires var b := After(cfg, calls); 0 in b && now <= b[0].resetAt && b[0].count + n <= cfg.limit
    requires lo <= now <= hi
    ensures var b, b1 := After(cfg, calls), After(cfg, calls + Burst(n, now));
      0 in b1 && b1[0] == Bucket(b[0].count + n, b[0].resetAt)
    ensures Within(Grants(cfg, calls + Burst(n, now), 0), lo, hi) == Within(Grants(cfg, calls, 0), lo, hi) + n
  {
    hide After; hide Grants; hide Within;
    if n == 0 {
      assert calls + Burst(n, now) == calls;
    } else {
      BurstAllowed(cfg, calls, n - 1, now, lo, hi);
      var front := calls + Burst(n - 1, now);
      assert calls + Burst(n, now) == front + [Allow(0, now)];
      Extend(cfg, front, 0, Allow(0, now));
      WithinAppend(Grants(cfg, front, 0), Grant(now, After(cfg, front)[0].resetAt - cfg.window), lo, hi);
    }
  }

  /** The first call of a bucket, when there is none or the old one is over. */
  lemma OpeningAllowed(cfg: Config, calls: seq<Call>, now: Time, lo: Time, hi: Time)
    requires var b := After(cfg, calls); 0 in b ==> now > b[0].resetAt
    ensures var b1 := After(cfg, calls + [Allow(0, now)]); 0 in b1 && b1[0] == Bucket(1, now + cfg.window)
    ensures Within(Grants(cfg, calls + [Allow(0, now)], 0), lo, hi) ==
      Within(Grants(cfg, calls, 0), lo, hi) + (if lo <= now <= hi then 1 else 0)
  {
    hide After; hide Grants; hide Within;
    Extend(cfg, calls, 0, Allow(0, now));
    WithinAppend(Grants(cfg, calls, 0), Grant(now, now), lo, hi);
  }

  /** One call opens a bucket, the rest of it is used at its very end, and the whole next bucket right after. */
  function Rush(cfg: Config): seq<Call>
    requires cfg.Valid()
  {
    var w, more := cfg.window, cfg.limit - 1;
    [] + [Allow(0, 0)] + Burst(more, w) + [Allow(0, w + 1)] + Burst(more, w + 1)
  }

  lemma RushAllowed(cfg: Config)
    requires cfg.Valid()
    ensures var b := After(cfg, Rush(cfg)); 0 in b && b[0].resetAt == 2 * cfg.window + 1
    ensures Within(Grants(cfg, Rush(cfg), 0), cfg.window, 2 * cfg.window) == 2 * cfg.limit - 1
  {
    hide After; hide Grants; hide Within; hide Burst;
    var w, more := cfg.window, cfg.limit - 1;
    Start(cfg, w, 2 * w);
    OpeningAllowed(cfg, [], 0, w, 2 * w);
    var c1 := [] + [Allow(0, 0)];
    BurstAllowed(cfg, c1, more, w, w, 2 * w);
    var c2 := c1 + Burst(more, w);
    OpeningAllowed(cfg, c2, w + 1, w, 2 * w);
    var c3 := c2 + [Allow(0, w + 1)];
    BurstAllowed(cfg, c3, more, w + 1, w, 2 * w);
  }

  /** The bound is exact for every limit and window. */
  lemma WindowBoundReached(cfg: Config)
    requires cfg.Valid()
    ensures exists calls ::
      Ordered(calls, 0) && Within(Grants(cfg, calls, 0), cfg.window, 2 * cfg.window) == 2 * cfg.limit - 1
  {
    hide Grants; hide Within; hide Rush; hide Ordered; hide After;
    RushAllowed(cfg);
    RushOrdered(cfg);
  }

  lemma RushOrdered(cfg: Config)
    requires cfg.Valid()
    ensures Ordered(Rush(cfg), 0)
  {
  }

  /**
   Late readings exceed it, for every limit from two: the code reads the clock before it takes the
   lock, so a reading can take effect after a later one has opened the next bucket.
   */
  lemma LateReadingsExceed(cfg: Config)
    requires cfg.Valid() && cfg.limit >= 2
    ensures exists calls ::
      CleanupsBefore(calls, 0) && Within(Grants(cfg, calls, 0), cfg.window, 2 * cfg.window) > 2 * cfg.limit - 1
  {
    hide After; hide Grants; hide Within; hide CleanupsBefore; hide Rush; hide Burst;
    var w := cfg.window;
    var c4 := Rush(cfg);
    RushAllowed(cfg);
    OpeningAllowed(cfg, c4, 2 * w + 2, w, 2 * w);
    var c5 := c4 + [Allow(0, 2 * w + 2)];
    BurstAllowed(cfg, c5, 1, 2 * w, w, 2 * w);
    var c6 := c5 + Burst(1, 2 * w);
    NoCleanups(cfg, c6);
  }

  ghost predicate WindowOk(cfg: Config, gs: seq<Grant>, lo: Time) {
    Within(gs, lo, lo + cfg.window) <= 2 * cfg.limit - 1
  }

  /** So in whatever order readings take effect the bound holds if and only if the limit is one. */
  lemma WindowBoundAnyOrderIff(cfg: Config)
    requires cfg.Valid()
    ensures (forall calls, key, lo :: CleanupsBefore(calls, key) ==> WindowOk(cfg, Grants(cfg, calls, key), lo))
       <==> cfg.limit == 1
  {
    hide Grants; hide Within; hide CleanupsBefore;
    if cfg.limit == 1 {
      forall calls, key, lo | CleanupsBefore(calls, key) ensures WindowOk(cfg, Grants(cfg, calls, key), lo) {
        WindowBound(cfg, calls, key, lo);
      }
    } else {
      LateReadingsExceed(cfg);
      var calls :| CleanupsBefore(calls, 0)
        && Within(Grants(cfg, calls, 0), cfg.window, 2 * cfg.window) > 2 * cfg.limit - 1;
      assert !WindowOk(cfg, Grants(cfg, calls, 0), cfg.window);
    }
  }

  lemma NoCleanups(cfg: Config, calls: seq<Call>)
    requires cfg.Valid() && calls == Rush(cfg) + [Allow(0, 2 * cfg.window + 2)] + Burst(1, 2 * cfg.window)
    ensures CleanupsBefore(calls, 0)
  {
    assert forall i :: 0 <= i < |calls| ==> calls[i].Allow?;
  }

  lemma Start(cfg: Config, lo: Time, hi: Time)
    ensures After(cfg, []) == map[] && Within(Grants(cfg, [], 0), lo, hi) == 0
  {
  }

  // ---- Cleanup is invisible ----

  /** The answers to the Allow calls, in order. */
  function Answers(b: Buckets, cfg: Config, calls: seq<Call>): seq<bool>
    decreases |calls|
  {
    if calls == [] then []
    else
      var rest := Answers(Step(b, cfg, calls[0]), cfg, calls[1..]);
      match calls[0]
      case Allow(key, now) => [Allowed(b, cfg, key, now)] + rest
      case Cleanup(_) => rest
  }

  function WithoutCleanup(calls: seq<Call>): seq<Call>
    decreases |calls|
  {
    if calls == [] then []
    else if calls[0].Cleanup? then WithoutCleanup(calls[1..]) else [calls[0]] + WithoutCleanup(calls[1..])
  }

  /** `b` is `full` with some buckets dropped that are over whenever their key is asked for later. */
  ghost predicate Pruned(b: Buckets, full: Buckets, calls: seq<Call>) {
    && (forall k :: k in b ==> k in full && b[k] == full[k])
    && (forall k, j :: k in full && k !in b && 0 <= j < |calls| && calls[j].Allow? && calls[j].key == k ==>
          calls[j].now > full[k].resetAt)
  }

  lemma {:induction false} PrunedAnswers(b: Buckets, full: Buckets, cfg: Config, calls: seq<Call>)
    requires Pruned(b, full, calls) && forall key :: CleanupsBefore(calls, key)
    ensures Answers(b, cfg, calls) == Answers(full, cfg, WithoutCleanup(calls))
    decreases |calls|
  {
    if calls != [] {
      var c, rest := calls[0], calls[1..];
      var b1 := Step(b, cfg, c);
      forall key ensures CleanupsBefore(rest, key) { assert CleanupsBefore(calls, key); }
      if c.Cleanup? {
        PrunedByCleanup(b, full, calls);
        PrunedAnswers(b1, full, cfg, rest);
      } else {
        var full1 := Step(full, cfg, c);
        PrunedByAllow(b, full, cfg, calls);
        PrunedAnswers(b1, full1, cfg, rest);
        assert ([c] + WithoutCleanup(rest))[1..] == WithoutCleanup(rest);
      }
    }
  }

  lemma PrunedByCleanup(b: Buckets, full: Buckets, calls: seq<Call>)
    requires Pruned(b, full, calls) && calls != [] && calls[0].Cleanup? && forall key :: CleanupsBefore(calls, key)
    ensures Pruned(AfterCleanup(b, calls[0].now), full, calls[1..])
  {
    var b1, rest := AfterCleanup(b, calls[0].now), calls[1..];
    forall k, j | k in full && k !in b1 && 0 <= j < |rest| && rest[j].Allow? && rest[j].key == k
      ensures rest[j].now > full[k].resetAt
    {
      assert rest[j] == calls[j + 1];
      assert CleanupsBefore(calls, k);
    }
  }

  lemma PrunedByAllow(b: Buckets, full: Buckets, cfg: Config, calls: seq<Call>)
    requires Pruned(b, full, calls) && calls != [] && calls[0].Allow?
    ensures Allowed(b, cfg, calls[0].key, calls[0].now) == Allowed(full, cfg, calls[0].key, calls[0].now)
    ensures Pruned(Step(b, cfg, calls[0]), Step(full, cfg, calls[0]), calls[1..])
  {
    var rest := calls[1..];
    assert forall j :: 0 <= j < |rest| ==> rest[j] == calls[j + 1];
  }

  /** Wherever Cleanup calls are inserted, they change no answer. */
  lemma CleanupIsInvisible(cfg: Config, calls: seq<Call>)
    requires forall key :: CleanupsBefore(calls, key)
    ensures Answers(map[], cfg, calls) == Answers(map[], cfg, WithoutCleanup(calls))
  {
    PrunedAnswers(map[], map[], cfg, calls);
  }
}
