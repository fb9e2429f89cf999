/**
 The WebSocket hub's Redis subscription protocol.

 The hub mutex makes each critical section one atomic step; between them a connection's
 authentication does network I/O.  A run interleaves, in any way, the steps of
   authentication:  SetIdentity, BindUser, Reserve (placeholder), Subscribe, Fill or roll back
   unregistration:  Unregister (drop the binding, maybe take the slot), Close (close what was taken)
 of any number of connections.  By default nothing orders a connection's unregistration after
 its authentication; `Orderly` runs are those in which both belong to one goroutine.

 `bound`, `places` and `closed` are history: which users a connection was ever bound to, where
 each subscription ever opened is, and how often each was closed.
 */
module HubProtocol {
  import opened Wrappers

  type ConnId = nat
  type SubId = nat
  type UserKey = (nat, nat)          // (app, user); user 0 is the empty id

  /** An entry of `userSubs`: which placeholder it is, and whether its controllers are installed. */
  datatype Slot = Slot(sub: SubId, filled: bool)

  datatype AuthPhase =
    | Idle
    | Identified(uk: UserKey)                  // identity set, not yet bound
    | Bound(uk: UserKey)                       // bound, subscription not yet ensured
    | Reserved(uk: UserKey, sub: SubId)        // placeholder installed
    | Subscribed(uk: UserKey, sub: SubId)      // Redis subscription open, not yet installed
    | RollingBack(uk: UserKey, sub: SubId)     // placeholder was gone: must close what was opened

  datatype ClosePhase = Open | Closing(taken: Option<Slot>) | Gone

  datatype Conn = Conn(identity: Option<UserKey>, auth: AuthPhase, close: ClosePhase, bound: set<UserKey>)

  /** Where an opened subscription is. */
  datatype Place = InSetup(c: ConnId) | Installed(uk: UserKey) | InTeardown(c: ConnId) | Closed

  datatype State = State(
    conns: map<ConnId, Conn>,
    byUser: map<UserKey, set<ConnId>>,
    userSubs: map<UserKey, Slot>,
    nextSub: SubId,
    places: map<SubId, Place>,
    closed: multiset<SubId>)

  datatype Step =
    | Register(c: ConnId)
    | SetIdentity(c: ConnId, uk: UserKey) | BindUser(c: ConnId) | Reserve(c: ConnId)
    | Subscribe(c: ConnId) | Fill(c: ConnId) | RollBack(c: ConnId)
    | Unregister(c: ConnId) | Close(c: ConnId)

  const Init: State := State(map[], map[], map[], 0, map[], multiset{})

  predicate CanStep(s: State, e: Step) {
    if e.Register? then e.c !in s.conns
    else
      && e.c in s.conns
      && var conn := s.conns[e.c];
         match e
         case Register(_) => false
         case SetIdentity(_, _) => conn.auth.Idle?
         case BindUser(_) => conn.auth.Identified?
         case Reserve(_) => conn.auth.Bound?
         case Subscribe(_) => conn.auth.Reserved?
         case Fill(_) => conn.auth.Subscribed?
         case RollBack(_) => conn.auth.RollingBack?
         case Unregister(_) => conn.close.Open?
         case Close(_) => conn.close.Closing?
  }

  /** Authentication and unregistration of one connection run in one goroutine, in this order. */
  predicate Orderly(s: State, e: Step) {
    && (e.Unregister? && e.c in s.conns ==> s.conns[e.c].auth.Idle?)
    && (e.SetIdentity? && e.c in s.conns ==> s.conns[e.c].close.Open?)
  }

  function With(s: State, c: ConnId, conn: Conn): State {
    s.(conns := s.conns[c := conn])
  }

  function DoReserve(s: State, c: ConnId): State
    requires c in s.conns && s.conns[c].auth.Bound?
  {
    var conn := s.conns[c];
    var uk := conn.auth.uk;
    if uk in s.userSubs then With(s, c, conn.(auth := Idle))
    else With(s, c, conn.(auth := Reserved(uk, s.nextSub))).(
           userSubs := s.userSubs[uk := Slot(s.nextSub, false)], nextSub := s.nextSub + 1)
  }

  function DoFill(s: State, c: ConnId): State
    requires c in s.conns && s.conns[c].auth.Subscribed?
  {
    var conn := s.conns[c];
    var Subscribed(uk, x) := conn.auth;
    if uk in s.userSubs && s.userSubs[uk].sub == x then
      With(s, c, conn.(auth := Idle)).(
        userSubs := s.userSubs[uk := Slot(x, true)], places := s.places[x := Installed(uk)])
    else With(s, c, conn.(auth := RollingBack(uk, x)))
  }

  /** The key a connection unregisters from, if any. */
  function Leaving(conn: Conn): Option<UserKey> {
    match conn.identity
    case None => None
    case Some(uk) => if uk.1 == 0 then None else Some(uk)
  }

  /** The key of which connection `c` is the last one bound, if any. */
  function LastOf(s: State, c: ConnId): Option<UserKey>
    requires c in s.conns
  {
    match Leaving(s.conns[c])
    case None => None
    case Some(uk) => if uk in s.byUser && s.byUser[uk] - {c} == {} then Some(uk) else None
  }

  /** The slot that the unregistration of `c` takes out of `userSubs`. */
  function Taken(s: State, c: ConnId): Option<Slot>
    requires c in s.conns
  {
    match LastOf(s, c)
    case None => None
    case Some(uk) => if uk in s.userSubs then Some(s.userSubs[uk]) else None
  }

  function Unbound(s: State, c: ConnId): map<UserKey, set<ConnId>>
    requires c in s.conns
  {
    match Leaving(s.conns[c])
    case None => s.byUser
    case Some(uk) =>
      if uk !in s.byUser then s.byUser
      else if s.byUser[uk] - {c} == {} then s.byUser - {uk}
      else s.byUser[uk := s.byUser[uk] - {c}]
  }

  function DoUnregister(s: State, c: ConnId): State
    requires c in s.conns
  {
    var taken := Taken(s, c);
    With(s, c, s.conns[c].(close := Closing(taken))).(
      byUser := Unbound(s, c),
      userSubs := if taken.Some? then s.userSubs - {LastOf(s, c).value} else s.userSubs,
      places := if taken.Some? && taken.value.filled then s.places[taken.value.sub := InTeardown(c)] else s.places)
  }

  function DoClose(s: State, c: ConnId): State
    requires c in s.conns && s.conns[c].close.Closing?
  {
    var t := With(s, c, s.conns[c].(close := Gone));
    match s.conns[c].close.taken
    case None => t
    case Some(Slot(x, filled)) =>
      if filled then t.(closed := s.closed + multiset{x}, places := s.places[x := Closed]) else t
  }

  function Next(s: State, e: Step): State {
    if !CanStep(s, e) then s
    else
      match e
      case Register(c) => With(s, c, Conn(None, Idle, Open, {}))
      case SetIdentity(c, uk) => With(s, c, s.conns[c].(identity := Some(uk), auth := Identified(uk)))
      case BindUser(c) =>
        var uk := s.conns[c].auth.uk;
        With(s, c, s.conns[c].(auth := Bound(uk), bound := s.conns[c].bound + {uk})).(
          byUser := s.byUser[uk := (if uk in s.byUser then s.byUser[uk] else {}) + {c}])
      case Reserve(c) => DoReserve(s, c)
      case Subscribe(c) =>
        var Reserved(uk, x) := s.conns[c].auth;
        With(s, c, s.conns[c].(auth := Subscribed(uk, x))).(places := s.places[x := InSetup(c)])
      case Fill(c) => DoFill(s, c)
      case RollBack(c) =>
        var x := s.conns[c].auth.sub;
        With(s, c, s.conns[c].(auth := Idle)).(closed := s.closed + multiset{x}, places := s.places[x := Closed])
      case Unregister(c) => DoUnregister(s, c)
      case Close(c) => DoClose(s, c)
  }

  /** The state after the given steps; with `orderly`, steps that break the order do not happen. */
  function Run(s: State, es: seq<Step>, orderly: bool): State
    decreases |es|
  {
    if es == [] then s
    else Run(if orderly && !Orderly(s, es[0]) then s else Next(s, es[0]), es[1..], orderly)
  }

  // ---- Conservation, for every interleaving ----

  ghost predicate InHand(conn: Conn, x: SubId) {
    (conn.auth.Subscribed? || conn.auth.RollingBack?) && conn.auth.sub == x
  }

  ghost predicate AtSlot(s: State, uk: UserKey, x: SubId) {
    uk in s.userSubs && s.userSubs[uk] == Slot(x, true)
  }

  ghost predicate Setting(s: State, c: ConnId, x: SubId) {
    c in s.conns && InHand(s.conns[c], x)
  }

  ghost predicate TearingDown(s: State, c: ConnId, x: SubId) {
    c in s.conns && s.conns[c].close == Closing(Some(Slot(x, true)))
  }

  /** The places agree with where the hub and its goroutines hold each subscription. */
  ghost predicate PlaceOk(s: State, x: SubId) {
    && (forall uk :: AtSlot(s, uk, x) <==> x in s.places && s.places[x] == Installed(uk))
    && (forall c :: Setting(s, c, x) <==> x in s.places && s.places[x] == InSetup(c))
    && (forall c :: TearingDown(s, c, x) <==> x in s.places && s.places[x] == InTeardown(c))
    && s.closed[x] == (if x in s.places && s.places[x] == Closed then 1 else 0)
    && (x in s.places ==> x < s.nextSub)
  }

  ghost predicate FreshOk(s: State) {
    && (forall c :: c in s.conns && s.conns[c].auth.Reserved? ==>
          s.conns[c].auth.sub < s.nextSub && s.conns[c].auth.sub !in s.places)
    && (forall c, d :: c in s.conns && d in s.conns && c != d && s.conns[c].auth.Reserved? && s.conns[d].auth.Reserved?
          ==> s.conns[c].auth.sub != s.conns[d].auth.sub)
  }

  ghost predicate Conserved(s: State) {
    FreshOk(s) && forall x :: PlaceOk(s, x)
  }

  lemma ConservedReserve(s: State, c: ConnId)
    requires Conserved(s) && c in s.conns && s.conns[c].auth.Bound?
    ensures Conserved(DoReserve(s, c))
  {
    var t := DoReserve(s, c);
    assert PlaceOk(s, s.nextSub);
    forall x ensures PlaceOk(t, x) {
      assert PlaceOk(s, x);
      forall c' ensures Setting(t, c', x) <==> Setting(s, c', x) {}
      forall c' ensures TearingDown(t, c', x) <==> TearingDown(s, c', x) {}
      forall uk ensures AtSlot(t, uk, x) <==> AtSlot(s, uk, x) {}
    }
  }

  lemma ConservedSubscribe(s: State, c: ConnId)
    requires Conserved(s) && CanStep(s, Subscribe(c))
    ensures Conserved(Next(s, Subscribe(c)))
  {
    var t := Next(s, Subscribe(c));
    var y := s.conns[c].auth.sub;
    forall x ensures PlaceOk(t, x) {
      assert PlaceOk(s, x);
      forall c' ensures Setting(t, c', x) <==> Setting(s, c', x) || (c' == c && x == y) {}
      forall c' ensures TearingDown(t, c', x) <==> TearingDown(s, c', x) {}
      forall uk ensures AtSlot(t, uk, x) <==> AtSlot(s, uk, x) {}
    }
  }

  lemma ConservedFill(s: State, c: ConnId)
    requires Conserved(s) && c in s.conns && s.conns[c].auth.Subscribed?
    ensures Conserved(DoFill(s, c))
  {
    var t := DoFill(s, c);
    var uk, y := s.conns[c].auth.uk, s.conns[c].auth.sub;
    assert PlaceOk(s, y) && Setting(s, c, y);
    forall x ensures PlaceOk(t, x) {
      assert PlaceOk(s, x);
      forall c' ensures TearingDown(t, c', x) <==> TearingDown(s, c', x) {}
      if uk in s.userSubs && s.userSubs[uk].sub == y {
        forall c' ensures Setting(t, c', x) <==> Setting(s, c', x) && c' != c {}
        forall uk' ensures AtSlot(t, uk', x) <==> AtSlot(s, uk', x) || (uk' == uk && x == y) {}
      } else {
        forall c' ensures Setting(t, c', x) <==> Setting(s, c', x) {}
        forall uk' ensures AtSlot(t, uk', x) <==> AtSlot(s, uk', x) {}
      }
    }
  }

  lemma ConservedRollBack(s: State, c: ConnId)
    requires Conserved(s) && CanStep(s, RollBack(c))
    ensures Conserved(Next(s, RollBack(c)))
  {
    var t := Next(s, RollBack(c));
    var y := s.conns[c].auth.sub;
    assert PlaceOk(s, y) && Setting(s, c, y);
    forall x ensures PlaceOk(t, x) {
      assert PlaceOk(s, x);
      forall c' ensures Setting(t, c', x) <==> Setting(s, c', x) && c' != c {}
      forall c' ensures TearingDown(t, c', x) <==> TearingDown(s, c', x) {}
      forall uk ensures AtSlot(t, uk, x) <==> AtSlot(s, uk, x) {}
    }
  }

  lemma ConservedUnregister(s: State, c: ConnId)
    requires Conserved(s) && c in s.conns && s.conns[c].close.Open?
    ensures Conserved(DoUnregister(s, c))
  {
    hide Unbound; hide LastOf; hide Leaving;
    var t := DoUnregister(s, c);
    var taken := Taken(s, c);
    var uk := LastOf(s, c);
    if taken.Some? {
      assert PlaceOk(s, taken.value.sub) && (taken.value.filled ==> AtSlot(s, uk.value, taken.value.sub));
    }
    assert FreshOk(t);
    forall x ensures PlaceOk(t, x) {
      assert PlaceOk(s, x);
      forall c' ensures Setting(t, c', x) <==> Setting(s, c', x) {}
      forall c' ensures TearingDown(t, c', x) <==> TearingDown(s, c', x) || (c' == c && taken == Some(Slot(x, true))) {}
      forall uk' ensures AtSlot(t, uk', x) <==> AtSlot(s, uk', x) && !(taken.Some? && uk == Some(uk')) {}
    }
  }

  lemma ConservedClose(s: State, c: ConnId)
    requires Conserved(s) && c in s.conns && s.conns[c].close.Closing?
    ensures Conserved(DoClose(s, c))
  {
    var t := DoClose(s, c);
    var taken := s.conns[c].close.taken;
    if taken.Some? {
      assert PlaceOk(s, taken.value.sub) && (taken.value.filled ==> TearingDown(s, c, taken.value.sub));
    }
    forall x ensures PlaceOk(t, x) {
      assert PlaceOk(s, x);
      forall c' ensures Setting(t, c', x) <==> Setting(s, c', x) {}
      forall c' ensures TearingDown(t, c', x) <==> TearingDown(s, c', x) && c' != c {}
      forall uk ensures AtSlot(t, uk, x) <==> AtSlot(s, uk, x) {}
    }
  }

  /** Steps that hold no subscription before or after. */
  lemma ConservedOther(s: State, e: Step)
    requires Conserved(s) && CanStep(s, e) && (e.Register? || e.SetIdentity? || e.BindUser?)
    ensures Conserved(Next(s, e))
  {
    var t := Next(s, e);
    forall x ensures PlaceOk(t, x) {
      assert PlaceOk(s, x);
      forall c' ensures Setting(t, c', x) <==> Setting(s, c', x) {}
      forall c' ensures TearingDown(t, c', x) <==> TearingDown(s, c', x) {}
      forall uk ensures AtSlot(t, uk, x) <==> AtSlot(s, uk, x) {}
    }
  }

  lemma ConservedStep(s: State, e: Step)
    requires Conserved(s)
    ensures Conserved(Next(s, e))
  {
    hide Conserved;
    if CanStep(s, e) {
      match e
      case Reserve(c) => ConservedReserve(s, c);
      case Subscribe(c) => ConservedSubscribe(s, c);
      case Fill(c) => ConservedFill(s, c);
      case RollBack(c) => ConservedRollBack(s, c);
      case Unregister(c) => ConservedUnregister(s, c);
      case Close(c) => ConservedClose(s, c);
      case _ => ConservedOther(s, e);
    }
  }

  lemma {:induction false} ConservedRun(s: State, es: seq<Step>, orderly: bool)
    requires Conserved(s)
    ensures Conserved(Run(s, es, orderly))
    decreases |es|
  {
    hide Conserved; hide Next; hide Orderly;
    if es != [] {
      ConservedStep(s, es[0]);
      ConservedRun(if orderly && !Orderly(s, es[0]) then s else Next(s, es[0]), es[1..], orderly);
    }
  }

  ghost predicate Opened(s: State, x: SubId) { x in s.places }

  /** How often each of the four things that can be true of a subscription is true of `x`. */
  ghost predicate ExactlyOnePlace(s: State, x: SubId) {
    || ((exists uk :: AtSlot(s, uk, x) && forall uk' :: AtSlot(s, uk', x) ==> uk' == uk)
        && (forall c :: !Setting(s, c, x) && !TearingDown(s, c, x)) && s.closed[x] == 0)
    || ((exists c :: Setting(s, c, x) && forall c' :: Setting(s, c', x) ==> c' == c)
        && (forall uk :: !AtSlot(s, uk, x)) && (forall c :: !TearingDown(s, c, x)) && s.closed[x] == 0)
    || ((exists c :: TearingDown(s, c, x) && forall c' :: TearingDown(s, c', x) ==> c' == c)
        && (forall uk :: !AtSlot(s, uk, x)) && (forall c :: !Setting(s, c, x)) && s.closed[x] == 0)
    || ((forall uk :: !AtSlot(s, uk, x)) && (forall c :: !Setting(s, c, x) && !TearingDown(s, c, x))
        && s.closed[x] == 1)
  }

  /**
   Every subscription ever opened is the installed one of exactly one user, or held by exactly one
   authentication in setup, or by exactly one unregistration in teardown, or was closed exactly
   once; and nothing that was never opened is anywhere or was ever closed.
   */
  lemma SubscriptionsConserved(es: seq<Step>, orderly: bool, x: SubId)
    ensures var s := Run(Init, es, orderly);
      && (Opened(s, x) ==> ExactlyOnePlace(s, x))
      && (!Opened(s, x) ==>
            && (forall uk :: !AtSlot(s, uk, x)) && (forall c :: !Setting(s, c, x) && !TearingDown(s, c, x))
            && s.closed[x] == 0)
  {
    hide Run;
    InitConserved();
    ConservedRun(Init, es, orderly);
    var s := Run(Init, es, orderly);
    assert PlaceOk(s, x);
    if Opened(s, x) {
      match s.places[x]
      case Installed(uk) => assert AtSlot(s, uk, x);
      case InSetup(c) => assert Setting(s, c, x);
      case InTeardown(c) => assert TearingDown(s, c, x);
      case Closed =>
    }
  }

  lemma InitConserved()
    ensures Conserved(Init)
  {
    forall x ensures PlaceOk(Init, x) {}
  }

  // ---- Orderly runs ----

  ghost predicate Released(conn: Conn, uk: UserKey) {
    !conn.close.Open? && Leaving(conn) == Some(uk)
  }

  ghost predicate IsBound(s: State, uk: UserKey, c: ConnId) {
    uk in s.byUser && c in s.byUser[uk]
  }

  /** Bindings are exactly those made and not released; no user has an empty set. */
  ghost predicate BindingsOk(s: State) {
    && (forall uk, c :: IsBound(s, uk, c) <==>
          c in s.conns && uk in s.conns[c].bound && !Released(s.conns[c], uk))
    && (forall uk :: uk in s.byUser ==> s.byUser[uk] != {})
  }

  ghost predicate ConnOk(s: State, c: ConnId)
    requires c in s.conns
  {
    var conn := s.conns[c];
    && (!conn.auth.Idle? ==> conn.close.Open? && conn.identity == Some(conn.auth.uk))
    && (conn.auth.Bound? || conn.auth.Reserved? || conn.auth.Subscribed? ==> conn.auth.uk in conn.bound)
    && (conn.auth.Reserved? || conn.auth.Subscribed? ==>
          conn.auth.uk in s.userSubs && s.userSubs[conn.auth.uk] == Slot(conn.auth.sub, false))
    && !conn.auth.RollingBack?
    && (conn.close.Closing? && conn.close.taken.Some? ==> conn.close.taken.value.filled)
  }

  /** Some authentication for `uk` is between placeholder and fill. */
  ghost predicate SettingUp(s: State, uk: UserKey) {
    exists c :: c in s.conns && InSetupPhase(s.conns[c]) && s.conns[c].auth.uk == uk
  }

  ghost predicate InSetupPhase(conn: Conn) { conn.auth.Reserved? || conn.auth.Subscribed? }

  ghost predicate SlotsOk(s: State) {
    && (forall uk :: uk in s.userSubs ==> uk in s.byUser)
    && (forall uk :: uk in s.userSubs && !s.userSubs[uk].filled ==> SettingUp(s, uk))
    && (forall uk, c :: IsBound(s, uk, c) && c in s.conns && s.conns[c].auth != Bound(uk) ==> uk in s.userSubs)
  }

  ghost predicate OrderlyInv(s: State) {
    BindingsOk(s) && (forall c :: c in s.conns ==> ConnOk(s, c)) && SlotsOk(s)
  }

  lemma OrderlyEasy(s: State, e: Step)
    requires OrderlyInv(s) && CanStep(s, e) && Orderly(s, e)
    requires e.Register? || e.SetIdentity? || e.Subscribe?
    ensures OrderlyInv(Next(s, e))
  {
    var t := Next(s, e);
    forall uk, c ensures IsBound(t, uk, c) <==> IsBound(s, uk, c) {}
    assert BindingsOk(t);
    forall c | c in t.conns ensures ConnOk(t, c) {
      if c in s.conns { assert ConnOk(s, c); }
    }
    forall uk | SettingUp(s, uk) ensures SettingUp(t, uk) {
      var c :| c in s.conns && InSetupPhase(s.conns[c]) && s.conns[c].auth.uk == uk;
      assert t.conns[c].auth.Reserved? || t.conns[c].auth.Subscribed?;
    }
    forall uk, c | IsBound(t, uk, c) && t.conns[c].auth != Bound(uk) ensures uk in t.userSubs {
      assert IsBound(s, uk, c);
    }
  }

  lemma OrderlyBind(s: State, c: ConnId)
    requires OrderlyInv(s) && CanStep(s, BindUser(c))
    ensures OrderlyInv(Next(s, BindUser(c)))
  {
    var t := Next(s, BindUser(c));
    var uk := s.conns[c].auth.uk;
    assert ConnOk(s, c);
    forall uk', c' ensures IsBound(t, uk', c') <==> IsBound(s, uk', c') || (uk' == uk && c' == c) {}
    assert BindingsOk(t);
    forall c' | c' in t.conns ensures ConnOk(t, c') { assert ConnOk(s, c'); }
    forall uk' | SettingUp(s, uk') ensures SettingUp(t, uk') {
      var d :| d in s.conns && InSetupPhase(s.conns[d]) && s.conns[d].auth.uk == uk';
      assert t.conns[d].auth == s.conns[d].auth;
    }
    forall uk', c' | IsBound(t, uk', c') && t.conns[c'].auth != Bound(uk') ensures uk' in t.userSubs {
      assert IsBound(s, uk', c');
    }
  }

  lemma OrderlyReserve(s: State, c: ConnId)
    requires OrderlyInv(s) && c in s.conns && s.conns[c].auth.Bound?
    ensures OrderlyInv(DoReserve(s, c))
  {
    var t := DoReserve(s, c);
    var uk := s.conns[c].auth.uk;
    assert ConnOk(s, c);
    assert IsBound(s, uk, c);
    forall uk', c' ensures IsBound(t, uk', c') <==> IsBound(s, uk', c') {}
    assert BindingsOk(t);
    forall c' | c' in t.conns ensures ConnOk(t, c') { assert ConnOk(s, c'); }
    forall uk' | SettingUp(s, uk') ensures SettingUp(t, uk') {
      var d :| d in s.conns && InSetupPhase(s.conns[d]) && s.conns[d].auth.uk == uk';
      assert t.conns[d].auth == s.conns[d].auth;
    }
    if uk !in s.userSubs { assert SettingUp(t, uk) by { assert t.conns[c].auth.Reserved?; } }
    forall uk', c' | IsBound(t, uk', c') && t.conns[c'].auth != Bound(uk') ensures uk' in t.userSubs {
      assert IsBound(s, uk', c');
    }
  }

  /** Two connections never set up the same user at once. */
  lemma OneSetupPerUser(s: State, c: ConnId, d: ConnId)
    requires Conserved(s) && c in s.conns && d in s.conns && c != d && ConnOk(s, c) && ConnOk(s, d)
    requires s.conns[c].auth.Subscribed? && InSetupPhase(s.conns[d])
    ensures s.conns[d].auth.uk != s.conns[c].auth.uk
  {
    var x := s.conns[c].auth.sub;
    assert PlaceOk(s, x) && Setting(s, c, x);
    assert !Setting(s, d, x);
    assert s.conns[d].auth.sub != x;
  }

  lemma OrderlyFill(s: State, c: ConnId)
    requires OrderlyInv(s) && c in s.conns && s.conns[c].auth.Subscribed?
    requires Conserved(s)
    ensures OrderlyInv(DoFill(s, c))
  {
    var t := DoFill(s, c);
    var uk, x := s.conns[c].auth.uk, s.conns[c].auth.sub;
    assert ConnOk(s, c);
    assert PlaceOk(s, x) && Setting(s, c, x);
    forall uk', c' ensures IsBound(t, uk', c') <==> IsBound(s, uk', c') {}
    assert BindingsOk(t);
    forall c' | c' in t.conns ensures ConnOk(t, c') {
      assert ConnOk(s, c');
      if c' != c && InSetupPhase(s.conns[c']) { OneSetupPerUser(s, c, c'); }
    }
    forall uk' | uk' != uk && SettingUp(s, uk') ensures SettingUp(t, uk') {
      var d :| d in s.conns && InSetupPhase(s.conns[d]) && s.conns[d].auth.uk == uk';
      assert t.conns[d].auth == s.conns[d].auth;
    }
    forall uk', c' | IsBound(t, uk', c') && t.conns[c'].auth != Bound(uk') ensures uk' in t.userSubs {
      assert IsBound(s, uk', c');
    }
  }

  lemma SetupIsBound(s: State)
    requires OrderlyInv(s)
    ensures forall d :: d in s.conns && InSetupPhase(s.conns[d]) ==> IsBound(s, s.conns[d].auth.uk, d)
  {
    forall d | d in s.conns && InSetupPhase(s.conns[d]) ensures IsBound(s, s.conns[d].auth.uk, d) {
      assert ConnOk(s, d);
    }
  }

  /** When the last binding of `uk` goes, nobody is setting a subscription up for it. */
  lemma NobodySettingUp(s: State, uk: UserKey, c: ConnId)
    requires OrderlyInv(s) && c in s.conns && s.conns[c].auth.Idle?
    requires uk in s.byUser && s.byUser[uk] - {c} == {}
    ensures !SettingUp(s, uk)
  {
    SetupIsBound(s);
    assert forall d :: IsBound(s, uk, d) ==> d in s.byUser[uk] - {c} || d == c;
  }

  lemma BindingsUnregister(s: State, c: ConnId)
    requires BindingsOk(s) && c in s.conns && s.conns[c].close.Open?
    ensures BindingsOk(DoUnregister(s, c))
    ensures forall uk, c' :: IsBound(DoUnregister(s, c), uk, c') ==> IsBound(s, uk, c')
  {
    hide Taken; hide LastOf;
    var t := DoUnregister(s, c);
    var left := Leaving(s.conns[c]);
    forall uk, c' ensures IsBound(t, uk, c') <==> IsBound(s, uk, c') && !(c' == c && left == Some(uk)) {
      assert uk in s.byUser && c' in s.byUser[uk] && c' != c ==> c' in s.byUser[uk] - {c};
    }
  }

  lemma ConnsUnregister(s: State, c: ConnId)
    requires OrderlyInv(s) && c in s.conns && s.conns[c].close.Open? && s.conns[c].auth.Idle?
    ensures forall c' :: c' in s.conns ==> ConnOk(DoUnregister(s, c), c')
  {
    hide Unbound; hide Leaving; hide BindingsOk;
    var t := DoUnregister(s, c);
    var uk := LastOf(s, c);
    if uk.Some? { LastOfBound(s, c); NobodySettingUp(s, uk.value, c); }
    forall c' | c' in s.conns ensures ConnOk(t, c') {
      assert ConnOk(s, c');
      assert InSetupPhase(s.conns[c']) ==> SettingUp(s, s.conns[c'].auth.uk);
    }
  }

  lemma LastOfBound(s: State, c: ConnId)
    requires c in s.conns && LastOf(s, c).Some?
    ensures var uk := LastOf(s, c).value; uk in s.byUser && s.byUser[uk] - {c} == {} && uk !in Unbound(s, c)
  {
  }

  lemma SlotsUnregister(s: State, c: ConnId)
    requires OrderlyInv(s) && c in s.conns && s.conns[c].close.Open? && s.conns[c].auth.Idle?
    ensures SlotsOk(DoUnregister(s, c))
  {
    var t := DoUnregister(s, c);
    BindingsUnregister(s, c);
    hide Leaving; hide BindingsOk; hide ConnOk;
    forall uk | SettingUp(s, uk) ensures SettingUp(t, uk) {
      var d :| d in s.conns && InSetupPhase(s.conns[d]) && s.conns[d].auth.uk == uk;
      assert t.conns[d].auth == s.conns[d].auth;
    }
    forall uk, c' | IsBound(t, uk, c') && t.conns[c'].auth != Bound(uk) ensures uk in t.userSubs {
      assert IsBound(s, uk, c');
    }
  }

  lemma OrderlyUnregister(s: State, c: ConnId)
    requires OrderlyInv(s) && c in s.conns && s.conns[c].close.Open? && s.conns[c].auth.Idle?
    ensures OrderlyInv(DoUnregister(s, c))
  {
    hide BindingsOk; hide ConnOk; hide SlotsOk; hide Taken; hide LastOf; hide Unbound;
    BindingsUnregister(s, c);
    ConnsUnregister(s, c);
    SlotsUnregister(s, c);
  }

  lemma OrderlyClose(s: State, c: ConnId)
    requires OrderlyInv(s) && c in s.conns && s.conns[c].close.Closing?
    ensures OrderlyInv(DoClose(s, c))
  {
    var t := DoClose(s, c);
    forall uk, c' ensures IsBound(t, uk, c') <==> IsBound(s, uk, c') {}
    assert BindingsOk(t);
    forall c' | c' in t.conns ensures ConnOk(t, c') { assert ConnOk(s, c'); }
    forall uk | SettingUp(s, uk) ensures SettingUp(t, uk) {
      var d :| d in s.conns && InSetupPhase(s.conns[d]) && s.conns[d].auth.uk == uk;
      assert t.conns[d].auth == s.conns[d].auth;
    }
    forall uk, c' | IsBound(t, uk, c') && t.conns[c'].auth != Bound(uk) ensures uk in t.userSubs {
      assert IsBound(s, uk, c');
    }
  }

  lemma OrderlyStep(s: State, e: Step)
    requires OrderlyInv(s) && Conserved(s) && Orderly(s, e)
    ensures OrderlyInv(Next(s, e))
  {
    hide Conserved; hide BindingsOk; hide SlotsOk;
    assert e.c in s.conns ==> ConnOk(s, e.c);
    if CanStep(s, e) {
      match e
      case BindUser(c) => OrderlyBind(s, c);
      case Reserve(c) => OrderlyReserve(s, c);
      case Fill(c) => OrderlyFill(s, c);
      case RollBack(c) => assert false;
      case Unregister(c) => OrderlyUnregister(s, c);
      case Close(c) => OrderlyClose(s, c);
      case _ => OrderlyEasy(s, e);
    }
  }

  lemma {:induction false} OrderlyRun(s: State, es: seq<Step>)
    requires OrderlyInv(s) && Conserved(s)
    ensures OrderlyInv(Run(s, es, true)) && Conserved(Run(s, es, true))
    decreases |es|
  {
    hide Conserved; hide OrderlyInv; hide Next; hide Orderly;
    if es != [] {
      var t := if !Orderly(s, es[0]) then s else Next(s, es[0]);
      if Orderly(s, es[0]) {
        OrderlyStep(s, es[0]);
        ConservedStep(s, es[0]);
      }
      OrderlyRun(t, es[1..]);
    }
  }

  lemma OrderlyInit()
    ensures OrderlyInv(Init) && Conserved(Init)
  {
    InitConserved();
  }

  /**
   In every orderly run: a slot exists only while some connection of that user is bound; every
   bound connection that is past its subscription step has one; no authentication ever rolls
   back; and an unregistration never takes a placeholder that is still empty.
   */
  lemma SlotsFollowBindings(es: seq<Step>)
    ensures var s := Run(Init, es, true);
      && (forall uk :: uk in s.userSubs ==> exists c :: IsBound(s, uk, c))
      && (forall uk, c :: IsBound(s, uk, c) ==> c in s.conns && (s.conns[c].auth == Bound(uk) || uk in s.userSubs))
      && (forall c :: c in s.conns ==> !s.conns[c].auth.RollingBack?)
      && (forall c, slot :: c in s.conns && s.conns[c].close == Closing(Some(slot)) ==> slot.filled)
  {
    hide Run;
    OrderlyInit();
    OrderlyRun(Init, es);
    var s := Run(Init, es, true);
    KeysAreBound(s);
    forall c | c in s.conns ensures !s.conns[c].auth.RollingBack? { assert ConnOk(s, c); }
    forall c, slot | c in s.conns && s.conns[c].close == Closing(Some(slot)) ensures slot.filled {
      assert ConnOk(s, c);
    }
  }

  /** Every connection has been unregistered and its goroutines are done. */
  ghost predicate Drained(s: State) {
    forall c :: c in s.conns ==> s.conns[c].auth.Idle? && s.conns[c].close.Gone?
  }

  /** The connection was only ever bound to the (non-empty) user it had when it left. */
  ghost predicate OneUser(conn: Conn) {
    forall uk :: uk in conn.bound ==> conn.identity == Some(uk) && uk.1 != 0
  }

  /**
   When all connections of an orderly run are gone, nothing is left behind (every subscription
   ever opened has been closed, and no slot and no binding remains) if and only if each of them
   was only ever bound to one user.
   */
  lemma NothingLeaksIff(es: seq<Step>)
    requires Drained(Run(Init, es, true))
    ensures var s := Run(Init, es, true);
      (forall x :: Opened(s, x) ==> s.closed[x] == 1) <==> (forall c :: c in s.conns ==> OneUser(s.conns[c]))
    ensures var s := Run(Init, es, true);
      (s.byUser == map[] && s.userSubs == map[]) <==> (forall c :: c in s.conns ==> OneUser(s.conns[c]))
  {
    hide Run;
    OrderlyInit();
    OrderlyRun(Init, es);
    var s := Run(Init, es, true);
    if forall c :: c in s.conns ==> OneUser(s.conns[c]) {
      DrainedClean(s);
    } else {
      var c :| c in s.conns && !OneUser(s.conns[c]);
      var uk :| uk in s.conns[c].bound && Leaving(s.conns[c]) != Some(uk);
      DrainedLeaks(s, c, uk);
    }
  }

  /** Some connection that is still open is bound to the user. */
  ghost predicate InUse(s: State, uk: UserKey) {
    exists c :: IsBound(s, uk, c) && c in s.conns && s.conns[c].close.Open?
  }

  /** Connection `c` is closed, and was once bound to the user but left as another one, or as nobody. */
  ghost predicate LeftBehind(s: State, uk: UserKey, c: ConnId) {
    && c in s.conns && !s.conns[c].close.Open?
    && uk in s.conns[c].bound && (s.conns[c].identity != Some(uk) || uk.1 == 0)
  }

  /**
   At every moment of an orderly run, not only at its end: a user without an open connection has a
   slot if and only if some closed connection left it behind.  So if each closed connection was only
   ever bound to the non-empty user it left as, every slot is in use.
   */
  lemma UnusedSlotsIff(es: seq<Step>)
    ensures var s := Run(Init, es, true);
      forall uk :: !InUse(s, uk) ==> (uk in s.userSubs <==> exists c :: LeftBehind(s, uk, c))
    ensures var s := Run(Init, es, true);
      (forall c :: c in s.conns && !s.conns[c].close.Open? ==> OneUser(s.conns[c])) ==>
        forall uk :: uk in s.userSubs ==> InUse(s, uk)
  {
    hide Run;
    OrderlyInit();
    OrderlyRun(Init, es);
    var s := Run(Init, es, true);
    forall uk | !InUse(s, uk) ensures uk in s.userSubs <==> exists c :: LeftBehind(s, uk, c) { UnusedSlot(s, uk); }
  }

  lemma UnusedSlot(s: State, uk: UserKey)
    requires OrderlyInv(s) && !InUse(s, uk)
    ensures uk in s.userSubs <==> exists c :: LeftBehind(s, uk, c)
  {
    if uk in s.userSubs {
      KeysAreBound(s);
      var c :| IsBound(s, uk, c);
      assert LeftBehind(s, uk, c);
    }
    if c :| LeftBehind(s, uk, c) {
      assert IsBound(s, uk, c) && ConnOk(s, c);
    }
  }

  lemma KeysAreBound(s: State)
    requires BindingsOk(s)
    ensures forall uk :: uk in s.byUser ==> exists c :: IsBound(s, uk, c)
  {
    forall uk | uk in s.byUser ensures exists c :: IsBound(s, uk, c) {
      var c :| c in s.byUser[uk];
      assert IsBound(s, uk, c);
    }
  }

  lemma DrainedClean(s: State)
    requires OrderlyInv(s) && Conserved(s) && Drained(s)
    requires forall c :: c in s.conns ==> OneUser(s.conns[c])
    ensures s.byUser == map[] && s.userSubs == map[]
    ensures forall x :: Opened(s, x) ==> s.closed[x] == 1
  {
    KeysAreBound(s);
    assert forall uk, c :: !IsBound(s, uk, c);
    forall uk ensures uk !in s.userSubs {}
    forall x | Opened(s, x) ensures s.closed[x] == 1 {
      assert PlaceOk(s, x);
      assert s.places[x].Installed? ==> AtSlot(s, s.places[x].uk, x);
      assert s.places[x].InSetup? ==> Setting(s, s.places[x].c, x);
      assert s.places[x].InTeardown? ==> TearingDown(s, s.places[x].c, x);
    }
  }

  lemma DrainedLeaks(s: State, c: ConnId, uk: UserKey)
    requires OrderlyInv(s) && Conserved(s) && Drained(s)
    requires c in s.conns && uk in s.conns[c].bound && Leaving(s.conns[c]) != Some(uk)
    ensures uk in s.byUser && uk in s.userSubs && Opened(s, s.userSubs[uk].sub) && s.closed[s.userSubs[uk].sub] == 0
  {
    assert IsBound(s, uk, c);
    assert uk in s.userSubs;
    assert !s.userSubs[uk].filled ==> SettingUp(s, uk);
    var x := s.userSubs[uk].sub;
    assert AtSlot(s, uk, x) && PlaceOk(s, x);
  }

  function AuthSteps(c: ConnId, uk: UserKey): seq<Step> {
    [SetIdentity(c, uk), BindUser(c), Reserve(c), Subscribe(c), Fill(c)]
  }

  lemma {:induction false} RunConcat(s: State, es: seq<Step>, fs: seq<Step>, orderly: bool)
    ensures Run(s, es + fs, orderly) == Run(Run(s, es, orderly), fs, orderly)
    decreases |es|
  {
    hide Next; hide Orderly;
    if es == [] {
      assert es + fs == fs;
    } else {
      assert (es + fs)[1..] == es[1..] + fs;
      RunConcat(if orderly && !Orderly(s, es[0]) then s else Next(s, es[0]), es[1..], fs, orderly);
    }
  }

  lemma RunCons(s: State, e: Step, rest: seq<Step>)
    requires Orderly(s, e)
    ensures Run(s, [e] + rest, true) == Run(Next(s, e), rest, true)
  {
    hide Next; hide Orderly;
    assert ([e] + rest)[1..] == rest;
  }

  lemma RunFive(s: State, e1: Step, e2: Step, e3: Step, e4: Step, e5: Step)
    requires var t1 := Next(s, e1); var t2 := Next(t1, e2); var t3 := Next(t2, e3); var t4 := Next(t3, e4);
      Orderly(s, e1) && Orderly(t1, e2) && Orderly(t2, e3) && Orderly(t3, e4) && Orderly(t4, e5)
    ensures Run(s, [e1, e2, e3, e4, e5], true) == Next(Next(Next(Next(Next(s, e1), e2), e3), e4), e5)
  {
    hide Next; hide Orderly; hide Run;
    var t1 := Next(s, e1);
    var t2 := Next(t1, e2);
    var t3 := Next(t2, e3);
    var t4 := Next(t3, e4);
    assert [e1, e2, e3, e4, e5] == [e1] + [e2, e3, e4, e5];
    assert [e2, e3, e4, e5] == [e2] + [e3, e4, e5];
    assert [e3, e4, e5] == [e3] + [e4, e5];
    assert [e4, e5] == [e4] + [e5];
    assert [e5] == [e5] + [];
    RunCons(s, e1, [e2, e3, e4, e5]);
    RunCons(t1, e2, [e3, e4, e5]);
    RunCons(t2, e3, [e4, e5]);
    RunCons(t3, e4, [e5]);
    RunCons(t4, e5, []);
    RunNil(Next(t4, e5));
  }

  lemma RunNil(s: State)
    ensures Run(s, [], true) == s
  {
  }

  /** An undisturbed authentication leaves the connection idle and bound to the user as well. */
  lemma Authenticate(s: State, c: ConnId, uk: UserKey)
    requires c in s.conns && s.conns[c].auth.Idle? && s.conns[c].close.Open?
    ensures Run(s, AuthSteps(c, uk), true).conns == s.conns[c := Conn(Some(uk), Idle, Open, s.conns[c].bound + {uk})]
  {
    hide Run;
    RunFive(s, SetIdentity(c, uk), BindUser(c), Reserve(c), Subscribe(c), Fill(c));
    var t2 := Next(Next(s, SetIdentity(c, uk)), BindUser(c));
    assert t2.conns == s.conns[c := Conn(Some(uk), Bound(uk), Open, s.conns[c].bound + {uk})];
    var t3 := Next(t2, Reserve(c));
    var t5 := Next(Next(t3, Subscribe(c)), Fill(c));
    if uk in t2.userSubs {
      assert t5 == t3;
    } else {
      assert t3.conns == t2.conns[c := t2.conns[c].(auth := Reserved(uk, t2.nextSub))];
    }
    assert t5.conns == s.conns[c := Conn(Some(uk), Idle, Open, s.conns[c].bound + {uk})];
  }

  /** An undisturbed unregistration leaves the connection gone. */
  lemma Depart(s: State, c: ConnId)
    requires c in s.conns && s.conns[c].auth.Idle? && s.conns[c].close.Open?
    ensures Run(s, [Unregister(c), Close(c)], true).conns == s.conns[c := s.conns[c].(close := Gone)]
  {
    hide Taken; hide LastOf; hide Unbound;
    var es := [Unregister(c), Close(c)];
    assert es[1..] == [Close(c)] && [Close(c)][1..] == [];
    var t := Next(s, Unregister(c));
    assert Run(s, es, true) == Run(t, [Close(c)], true);
    assert Run(t, [Close(c)], true) == Next(t, Close(c));
  }

  ghost predicate LeavesOpen(s: State) {
    Drained(s) && exists x :: Opened(s, x) && s.closed[x] != 1
  }

  /** The protocol does leak: a connection that authenticates as two users keeps the first one's slot. */
  lemma ReauthenticationLeaks()
    ensures exists es :: LeavesOpen(Run(Init, es, true))
  {
    hide OrderlyInv; hide Conserved; hide Next; hide Run;
    var a, b := (1, 1), (1, 2);
    var e0, e1, e2, e3 := [Register(0)], AuthSteps(0, a), AuthSteps(0, b), [Unregister(0), Close(0)];
    OrderlyInit();
    Arrive();
    var s0 := Run(Init, e0, true);
    OrderlyRun(Init, e0);
    Authenticate(s0, 0, a);
    OrderlyRun(s0, e1);
    var s1 := Run(s0, e1, true);
    Authenticate(s1, 0, b);
    OrderlyRun(s1, e2);
    var s2 := Run(s1, e2, true);
    Depart(s2, 0);
    var s3 := Run(s2, e3, true);
    RunConcat(Init, e0, e1, true);
    RunConcat(Init, e0 + e1, e2, true);
    RunConcat(Init, e0 + e1 + e2, e3, true);
    var es := e0 + e1 + e2 + e3;
    assert Run(Init, es, true) == s3;
    var conn := s3.conns[0];
    assert a in conn.bound && Leaving(conn) == Some(b);
    assert !OneUser(conn);
    assert Drained(s3);
    NothingLeaksIff(es);
    assert LeavesOpen(Run(Init, es, true));
  }

  lemma Arrive()
    ensures Run(Init, [Register(0)], true).conns == map[0 := Conn(None, Idle, Open, {})]
  {
    assert Run(Init, [Register(0)], true) == Next(Init, Register(0));
  }
}
