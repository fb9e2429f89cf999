/**
 Idempotent message creation: any number of concurrent sends, any number of keys.

 Each database statement is one atomic step under READ COMMITTED.  The idempotency table's
 primary key makes an insert wait while another open transaction has inserted the same key
 (`locks`), and fail once that key is committed.  Message ids are unique per send.  Any
 statement may fail (`Error`), and a commit may succeed although its acknowledgement is lost.
 */
module Idempotency {

  type SendId = nat
  type MessageId = nat
  type Key = nat                   // an (app, idempotency key) pair

  datatype Answer = Created(id: MessageId) | Duplicate(id: MessageId) | Error

  datatype Phase =
    | Begun                        // transaction open
    | Looked                       // SELECT ... FOR SHARE found no row
    | MessageInserted
    | KeyInserted                  // both inserts done, not committed
    | Violated                     // unique violation; transaction rolled back, lookup next
    | Answered(answer: Answer)
    | Enqueued(id: MessageId)      // deliveries enqueued for a newly created message

  datatype Send = Send(key: Key, id: MessageId, phase: Phase)

  datatype State = State(
    sends: map<SendId, Send>,
    keys: map<Key, MessageId>,     // committed idempotency rows
    messages: map<MessageId, Key>, // committed message rows, with the key they were sent under
    locks: map<Key, SendId>,       // uncommitted idempotency rows
    batches: seq<SendId>)          // delivery batches enqueued

  datatype Step =
    | Begin(c: SendId, key: Key, id: MessageId) | Look(c: SendId) | InsertMessage(c: SendId) | InsertKey(c: SendId)
    | Commit(c: SendId) | CommitUnacknowledged(c: SendId) | Find(c: SendId) | Abort(c: SendId) | Enqueue(c: SendId)

  const Init: State := State(map[], map[], map[], map[], [])

  predicate CanStep(s: State, e: Step) {
    match e
    case Begin(c, _, id) =>
      c !in s.sends && id !in s.messages && forall d :: d in s.sends ==> s.sends[d].id != id
    case _ =>
      && e.c in s.sends
      && var send := s.sends[e.c];
         match e
         case Begin(_, _, _) => false
         case Look(_) => send.phase.Begun?
         case InsertMessage(_) => send.phase.Looked?
         case InsertKey(c) => send.phase.MessageInserted? && (send.key in s.locks ==> s.locks[send.key] == c)
         case Commit(_) => send.phase.KeyInserted?
         case CommitUnacknowledged(_) => send.phase.KeyInserted?
         case Find(_) => send.phase.Violated?
         case Abort(_) => !send.phase.Answered? && !send.phase.Enqueued?
         case Enqueue(_) => send.phase.Answered? && send.phase.answer.Created?
  }

  function Moved(s: State, c: SendId, phase: Phase): State
    requires c in s.sends
  {
    s.(sends := s.sends[c := s.sends[c].(phase := phase)])
  }

  /** The transaction of `c` ends: its uncommitted key row is gone. */
  function Unlocked(s: State, c: SendId): State
    requires c in s.sends
  {
    var key := s.sends[c].key;
    if key in s.locks && s.locks[key] == c then s.(locks := s.locks - {key}) else s
  }

  function Committed(s: State, c: SendId, answer: Answer): State
    requires c in s.sends
  {
    var send := s.sends[c];
    Moved(Unlocked(s, c), c, Answered(answer)).(
      keys := s.keys[send.key := send.id], messages := s.messages[send.id := send.key])
  }

  function Next(s: State, e: Step): State {
    if !CanStep(s, e) then s
    else
      match e
      case Begin(c, key, id) => s.(sends := s.sends[c := Send(key, id, Begun)])
      case Look(c) =>
        var key := s.sends[c].key;
        Moved(s, c, if key in s.keys then Answered(Duplicate(s.keys[key])) else Looked)
      case InsertMessage(c) => Moved(s, c, MessageInserted)
      case InsertKey(c) =>
        var key := s.sends[c].key;
        if key in s.keys then Moved(s, c, Violated)
        else Moved(s, c, KeyInserted).(locks := s.locks[key := c])
      case Commit(c) => Committed(s, c, Created(s.sends[c].id))
      case CommitUnacknowledged(c) => Committed(s, c, Error)
      case Find(c) =>
        var key := s.sends[c].key;
        Moved(s, c, Answered(if key in s.keys then Duplicate(s.keys[key]) else Error))
      case Abort(c) => Moved(Unlocked(s, c), c, Answered(Error))
      case Enqueue(c) => Moved(s, c, Enqueued(s.sends[c].id)).(batches := s.batches + [c])
  }

  function Run(s: State, es: seq<Step>): State
    decreases |es|
  {
    if es == [] then s else Run(Next(s, es[0]), es[1..])
  }

  // ---- Invariant ----

  ghost predicate Won(s: State, c: SendId)
    requires c in s.sends
  {
    s.sends[c].key in s.keys && s.keys[s.sends[c].key] == s.sends[c].id
  }

  ghost predicate SendOk(s: State, c: SendId)
    requires c in s.sends
  {
    var send := s.sends[c];
    match send.phase
    case KeyInserted => send.key !in s.keys && send.key in s.locks && s.locks[send.key] == c
    case Violated => send.key in s.keys
    case Answered(Created(id)) => id == send.id && Won(s, c)
    case Answered(Duplicate(id)) => send.key in s.keys && s.keys[send.key] == id
    case Enqueued(id) => id == send.id && Won(s, c)
    case _ => true
  }

  ghost predicate SentBy(s: State, id: MessageId, c: SendId) {
    c in s.sends && s.sends[c].id == id && id in s.messages && s.sends[c].key == s.messages[id]
  }

  /** A committed message row belongs to a send, and its key row names it. */
  ghost predicate MessageRowOk(s: State, id: MessageId) {
    id in s.messages ==>
      s.messages[id] in s.keys && s.keys[s.messages[id]] == id && exists c :: SentBy(s, id, c)
  }

  /** A committed key row names a message row committed under it. */
  ghost predicate KeyRowOk(s: State, key: Key) {
    key in s.keys ==> s.keys[key] in s.messages && s.messages[s.keys[key]] == key
  }

  ghost predicate DistinctIds(s: State, c: SendId, d: SendId) {
    c in s.sends && d in s.sends && s.sends[c].id == s.sends[d].id ==> c == d
  }

  ghost predicate TablesOk(s: State) {
    && (forall id :: MessageRowOk(s, id)) && (forall key :: KeyRowOk(s, key)) && (forall c, d :: DistinctIds(s, c, d))
  }

  ghost predicate LockOk(s: State, key: Key) {
    key in s.locks ==>
      s.locks[key] in s.sends && s.sends[s.locks[key]].key == key && s.sends[s.locks[key]].phase.KeyInserted?
  }

  ghost predicate BatchesOk(s: State) {
    && (forall i :: 0 <= i < |s.batches| ==> s.batches[i] in s.sends && s.sends[s.batches[i]].phase.Enqueued?)
    && (forall i, j :: 0 <= i < j < |s.batches| ==> s.batches[i] != s.batches[j])
  }

  ghost predicate Inv(s: State) {
    && (forall c :: c in s.sends ==> SendOk(s, c))
    && TablesOk(s) && (forall key :: LockOk(s, key)) && BatchesOk(s)
  }

  /** Steps that leave the committed tables alone, and give new sends new ids. */
  lemma TablesKept(s: State, t: State)
    requires TablesOk(s) && t.keys == s.keys && t.messages == s.messages
    requires forall c :: c in s.sends ==>
      c in t.sends && t.sends[c].id == s.sends[c].id && t.sends[c].key == s.sends[c].key
    requires forall c, d :: c in t.sends && c !in s.sends && d in t.sends && d != c ==> t.sends[d].id != t.sends[c].id
    ensures TablesOk(t)
  {
    forall id ensures MessageRowOk(t, id) {
      assert MessageRowOk(s, id);
      if id in s.messages {
        var c :| SentBy(s, id, c);
        assert SentBy(t, id, c);
      }
    }
    forall key ensures KeyRowOk(t, key) { assert KeyRowOk(s, key); }
    forall c, d ensures DistinctIds(t, c, d) { assert DistinctIds(s, c, d); }
  }

  lemma InvBegin(s: State, c: SendId, key: Key, id: MessageId)
    requires Inv(s) && CanStep(s, Begin(c, key, id))
    ensures Inv(Next(s, Begin(c, key, id)))
  {
    var t := Next(s, Begin(c, key, id));
    TablesKept(s, t);
    hide TablesOk;
    forall c' | c' in t.sends ensures SendOk(t, c') {
      if c' != c { assert SendOk(s, c'); }
    }
    forall key' ensures LockOk(t, key') { assert LockOk(s, key'); }
  }

  /** A step that moves one send, keeps the committed tables, and at most adds its own lock. */
  lemma InvMoved(s: State, t: State, c: SendId)
    requires Inv(s) && c in s.sends && !s.sends[c].phase.Enqueued?
    requires t.keys == s.keys && t.messages == s.messages && t.batches == s.batches
    requires c in t.sends && t.sends == s.sends[c := s.sends[c].(phase := t.sends[c].phase)]
    requires SendOk(t, c)
    requires t.sends[c].phase.KeyInserted? ==> t.locks == s.locks[s.sends[c].key := c]
    requires !t.sends[c].phase.KeyInserted? ==> t.locks == Unlocked(s, c).locks
    requires t.sends[c].phase.KeyInserted? ==> s.sends[c].key !in s.locks
    ensures Inv(t)
  {
    TablesKept(s, t);
    hide TablesOk;
    forall c' | c' in t.sends ensures SendOk(t, c') {
      if c' != c { OtherSendOk(s, t, c, c'); }
    }
    forall key ensures LockOk(t, key) { assert LockOk(s, key); }
  }

  lemma OtherSendOk(s: State, t: State, c: SendId, d: SendId)
    requires c in s.sends && d in s.sends && c != d && SendOk(s, d) && d in t.sends && t.sends[d] == s.sends[d]
    requires t.keys == s.keys
    requires || t.locks == Unlocked(s, c).locks
             || (t.locks == s.locks[s.sends[c].key := c] && s.sends[c].key !in s.locks)
    ensures SendOk(t, d)
  {
  }

  lemma CommitTables(s: State, c: SendId, answer: Answer)
    requires TablesOk(s) && c in s.sends && s.sends[c].key !in s.keys
    ensures TablesOk(Committed(s, c, answer))
  {
    var t := Committed(s, c, answer);
    var id, key := s.sends[c].id, s.sends[c].key;
    assert id !in s.messages by {
      assert MessageRowOk(s, id);
      assert forall d :: SentBy(s, id, d) ==> DistinctIds(s, c, d);
    }
    forall x ensures MessageRowOk(t, x) {
      assert MessageRowOk(s, x);
      if x == id {
        assert SentBy(t, id, c);
      } else if x in s.messages {
        var d :| SentBy(s, x, d);
        assert SentBy(t, x, d);
      }
    }
    forall k ensures KeyRowOk(t, k) { assert KeyRowOk(s, k); }
    forall d, d' ensures DistinctIds(t, d, d') { assert DistinctIds(s, d, d'); }
  }

  lemma InvCommit(s: State, c: SendId, answer: Answer)
    requires Inv(s) && c in s.sends && s.sends[c].phase.KeyInserted?
    requires answer == Error || answer == Created(s.sends[c].id)
    ensures Inv(Committed(s, c, answer))
  {
    var t := Committed(s, c, answer);
    assert SendOk(s, c);
    CommitTables(s, c, answer);
    hide TablesOk;
    assert t.locks == s.locks - {s.sends[c].key};
    forall c' | c' in t.sends ensures SendOk(t, c') { assert SendOk(s, c'); }
    forall key ensures LockOk(t, key) { assert LockOk(s, key); }
  }

  lemma InvEnqueue(s: State, c: SendId)
    requires Inv(s) && CanStep(s, Enqueue(c))
    ensures Inv(Next(s, Enqueue(c)))
  {
    var t := Next(s, Enqueue(c));
    TablesKept(s, t);
    hide TablesOk;
    forall c' | c' in t.sends ensures SendOk(t, c') { assert SendOk(s, c'); }
    forall key ensures LockOk(t, key) { assert LockOk(s, key); }
  }

  /** A send that has not inserted its key holds no lock. */
  lemma NoLock(s: State, c: SendId)
    requires Inv(s) && c in s.sends && !s.sends[c].phase.KeyInserted?
    ensures Unlocked(s, c) == s
    ensures s.sends[c].key in s.locks ==> s.locks[s.sends[c].key] != c
  {
    assert LockOk(s, s.sends[c].key);
  }

  lemma InvStep(s: State, e: Step)
    requires Inv(s)
    ensures Inv(Next(s, e))
  {
    if CanStep(s, e) {
      var t := Next(s, e);
      if e.c in s.sends && !s.sends[e.c].phase.KeyInserted? { NoLock(s, e.c); }
      assert e.c in s.sends ==> SendOk(s, e.c);
      hide Inv;
      match e
      case Begin(c, key, id) => InvBegin(s, c, key, id);
      case Commit(c) => InvCommit(s, c, Created(s.sends[c].id));
      case CommitUnacknowledged(c) => InvCommit(s, c, Error);
      case Enqueue(c) => InvEnqueue(s, c);
      case _ => InvMoved(s, t, e.c);
    }
  }

  lemma {:induction false} InvRun(s: State, es: seq<Step>)
    requires Inv(s)
    ensures Inv(Run(s, es))
    decreases |es|
  {
    hide Inv; hide Next;
    if es != [] {
      InvStep(s, es[0]);
      InvRun(Next(s, es[0]), es[1..]);
    }
  }

  // ---- What callers see ----

  ghost predicate SaysNew(s: State, c: SendId) {
    c in s.sends && (s.sends[c].phase.Enqueued? || (s.sends[c].phase.Answered? && s.sends[c].phase.answer.Created?))
  }

  /** The message id a caller that returned without error was given. */
  ghost predicate Returned(s: State, c: SendId, id: MessageId) {
    && c in s.sends
    && (s.sends[c].phase == Enqueued(id) || s.sends[c].phase == Answered(Created(id))
        || s.sends[c].phase == Answered(Duplicate(id)))
  }

  /** The `i`-th delivery batch was enqueued by a send under `key`. */
  ghost predicate BatchFor(s: State, key: Key, i: nat) {
    i < |s.batches| && s.batches[i] in s.sends && s.sends[s.batches[i]].key == key
  }

  /**
   For every interleaving, per (app, key): at most one message row commits; every caller that
   returns without error returns the id of that committed row; at most one caller is told the
   message is new; and at most one batch of deliveries is enqueued.
   */
  lemma OneMessagePerKey(es: seq<Step>, key: Key)
    ensures var s := Run(Init, es);
      && (forall x, y :: x in s.messages && y in s.messages && s.messages[x] == key && s.messages[y] == key ==> x == y)
      && (forall c, id :: Returned(s, c, id) && s.sends[c].key == key ==> id in s.messages && s.messages[id] == key)
      && (forall c, d :: SaysNew(s, c) && SaysNew(s, d) && s.sends[c].key == key && s.sends[d].key == key ==> c == d)
      && (forall i: nat, j: nat :: BatchFor(s, key, i) && BatchFor(s, key, j) ==> i == j)
  {
    hide Run;
    InvRun(Init, es);
    var s := Run(Init, es);
    forall x, y | x in s.messages && y in s.messages && s.messages[x] == key && s.messages[y] == key ensures x == y {
      assert MessageRowOk(s, x) && MessageRowOk(s, y);
    }
    forall c, id | Returned(s, c, id) && s.sends[c].key == key ensures id in s.messages && s.messages[id] == key {
      assert SendOk(s, c) && KeyRowOk(s, key);
    }
    forall c, d | SaysNew(s, c) && SaysNew(s, d) && s.sends[c].key == key && s.sends[d].key == key ensures c == d {
      OneWinner(s, c, d);
    }
    forall i: nat, j: nat | BatchFor(s, key, i) && BatchFor(s, key, j) ensures i == j {
      OneWinner(s, s.batches[i], s.batches[j]);
    }
  }

  lemma OneWinner(s: State, c: SendId, d: SendId)
    requires Inv(s) && SaysNew(s, c) && SaysNew(s, d) && s.sends[c].key == s.sends[d].key
    ensures c == d
  {
    assert SendOk(s, c) && SendOk(s, d) && DistinctIds(s, c, d);
  }

  /** After a unique violation the winner's row is there to be found: that lookup never comes back empty. */
  lemma LoserFindsWinner(es: seq<Step>, c: SendId)
    requires c in Run(Init, es).sends && Run(Init, es).sends[c].phase.Violated?
    ensures var s := Run(Init, es);
      s.sends[c].key in s.keys && Next(s, Find(c)).sends[c].phase == Answered(Duplicate(s.keys[s.sends[c].key]))
  {
    hide Run;
    InvRun(Init, es);
    assert SendOk(Run(Init, es), c);
  }

  // ---- What becomes of every send ----

  ghost predicate GotError(s: State, c: SendId) {
    c in s.sends && s.sends[c].phase == Answered(Error)
  }

  /** The send's own message is the committed one of its key. */
  ghost predicate IsWinner(s: State, c: SendId) {
    c in s.sends && Won(s, c)
  }

  /** Who wins is told so, unless told of an error; nobody else is told so, or given its own id as a duplicate. */
  ghost predicate Told(s: State, c: SendId) {
    && (SaysNew(s, c) <==> IsWinner(s, c) && !GotError(s, c))
    && (c in s.sends && s.sends[c].phase.Answered? && s.sends[c].phase.answer.Duplicate? ==> !IsWinner(s, c))
  }

  /** How one step changes the fate of send `c`. */
  ghost predicate FateStep(s: State, e: Step, t: State, c: SendId) {
    && Told(t, c)
    && (GotError(t, c) && IsWinner(t, c) <==>
          (GotError(s, c) && IsWinner(s, c)) || (e == CommitUnacknowledged(c) && CanStep(s, e)))
    && (GotError(t, c) && !IsWinner(t, c) <==>
          (GotError(s, c) && !IsWinner(s, c)) || (e == Abort(c) && CanStep(s, e)))
  }

  /** A commit of another send leaves the send's own standing alone. */
  lemma OtherCommit(s: State, d: SendId, answer: Answer, c: SendId)
    requires Inv(s) && d in s.sends && s.sends[d].phase.KeyInserted? && c in s.sends && c != d
    ensures IsWinner(Committed(s, d, answer), c) <==> IsWinner(s, c)
  {
    assert SendOk(s, d) && DistinctIds(s, c, d);
  }

  lemma TellsFate(s: State, e: Step, c: SendId)
    requires Inv(s) && Told(s, c)
    ensures FateStep(s, e, Next(s, e), c)
  {
    hide FateStep; hide Inv; hide Told; hide CanStep;
    if CanStep(s, e) && (e.Commit? || e.CommitUnacknowledged?) {
      CommitTells(s, e, c);
    } else {
      OthersTell(s, e, c);
    }
  }

  lemma CommitTells(s: State, e: Step, c: SendId)
    requires Inv(s) && Told(s, c) && CanStep(s, e) && (e.Commit? || e.CommitUnacknowledged?)
    ensures FateStep(s, e, Next(s, e), c)
  {
    hide Inv;
    if c in s.sends && c != e.c {
      OtherCommit(s, e.c, if e.Commit? then Created(s.sends[e.c].id) else Error, c);
    }
  }

  lemma OthersTell(s: State, e: Step, c: SendId)
    requires Inv(s) && Told(s, c) && (CanStep(s, e) ==> !e.Commit? && !e.CommitUnacknowledged?)
    ensures FateStep(s, e, Next(s, e), c)
  {
    if CanStep(s, e) {
      if e.Begin? && e.c == c { NewIsNoWinner(s, c, e.key, e.id); }
      if e.c in s.sends { assert SendOk(s, e.c); }
      hide Inv;
    }
  }

  lemma NewIsNoWinner(s: State, c: SendId, key: Key, id: MessageId)
    requires Inv(s) && CanStep(s, Begin(c, key, id))
    ensures key in s.keys ==> s.keys[key] != id
  {
    assert KeyRowOk(s, key);
  }

  lemma {:induction false} RunConcat(s: State, es: seq<Step>, fs: seq<Step>)
    ensures Run(s, es + fs) == Run(Run(s, es), fs)
    decreases |es|
  {
    hide Next;
    if es == [] {
      assert es + fs == fs;
    } else {
      assert (es + fs)[1..] == es[1..] + fs;
      RunConcat(Next(s, es[0]), es[1..], fs);
    }
  }

  /** The run takes step `e`. */
  ghost predicate Takes(es: seq<Step>, e: Step) {
    exists k :: 0 <= k < |es| && es[k] == e && CanStep(Run(Init, es[..k]), e)
  }

  lemma TakesMore(es: seq<Step>, e: Step, last: Step)
    ensures Takes(es + [last], e) <==> Takes(es, e) || (last == e && CanStep(Run(Init, es), e))
  {
    hide Run; hide CanStep;
    var more := es + [last];
    assert more[..|es|] == es;
    assert forall k :: 0 <= k < |es| ==> more[k] == es[k] && more[..k] == es[..k];
    if last == e && CanStep(Run(Init, es), e) { assert more[|es|] == e; }
  }

  /** The fate of send `c`, told by the steps of the run. */
  ghost predicate FateOk(es: seq<Step>, s: State, c: SendId) {
    && Told(s, c)
    && (GotError(s, c) && IsWinner(s, c) <==> Takes(es, CommitUnacknowledged(c)))
    && (GotError(s, c) && !IsWinner(s, c) <==> Takes(es, Abort(c)))
  }

  lemma {:induction false} FateRun(es: seq<Step>, c: SendId)
    ensures FateOk(es, Run(Init, es), c)
    decreases |es|
  {
    if es != [] {
      var front, last := es[..|es| - 1], es[|es| - 1];
      FateRun(front, c);
      InvRun(Init, front);
      hide Run; hide Next; hide Inv; hide CanStep; hide Takes; hide Told; hide GotError; hide IsWinner;
      assert es == front + [last];
      RunConcat(Init, front, [last]);
      RunOne(Run(Init, front), last);
      TellsFate(Run(Init, front), last, c);
      TakesMore(front, CommitUnacknowledged(c), last);
      TakesMore(front, Abort(c), last);
    }
  }

  lemma RunOne(s: State, e: Step)
    ensures Run(s, [e]) == Next(s, e)
  {
    hide Next;
  }

  /**
   For every interleaving and every send: it is told that its message is new if and only if it is the
   one whose message committed under the key and its acknowledgement was not lost; it gets an error
   if and only if its acknowledgement was lost or it was aborted; and who is told of a duplicate is
   not the winner.
   */
  lemma EverySendIsTold(es: seq<Step>, c: SendId)
    requires c in Run(Init, es).sends
    ensures var s := Run(Init, es); var phase := s.sends[c].phase;
      && (SaysNew(s, c) <==> IsWinner(s, c) && !Takes(es, CommitUnacknowledged(c)))
      && (phase == Answered(Error) <==> Takes(es, CommitUnacknowledged(c)) || Takes(es, Abort(c)))
      && (phase.Answered? && phase.answer.Duplicate? ==> !IsWinner(s, c))
  {
    hide Run; hide Takes; hide CanStep;
    FateRun(es, c);
  }

  /** Every committed key has a winner, who was told so unless its acknowledgement was lost. */
  lemma EveryKeyHasWinner(es: seq<Step>, key: Key) returns (c: SendId)
    requires key in Run(Init, es).keys
    ensures var s := Run(Init, es);
      && IsWinner(s, c) && s.sends[c].key == key
      && (SaysNew(s, c) <==> !Takes(es, CommitUnacknowledged(c)))
  {
    hide Run; hide Takes; hide CanStep;
    InvRun(Init, es);
    var s := Run(Init, es);
    assert KeyRowOk(s, key) && MessageRowOk(s, s.keys[key]);
    c :| SentBy(s, s.keys[key], c);
    EverySendIsTold(es, c);
  }

  // ---- No send is stuck ----

  /**
   A send that has no answer yet can take its next step, unless it waits for the key of another send
   that is about to commit; one that was told its message is new can enqueue it.
   */
  lemma NeverStuck(es: seq<Step>, c: SendId)
    requires c in Run(Init, es).sends
    ensures var s := Run(Init, es); var send := s.sends[c];
      match send.phase
      case Begun => CanStep(s, Look(c))
      case Looked => CanStep(s, InsertMessage(c))
      case MessageInserted =>
        CanStep(s, InsertKey(c)) || (send.key in s.locks && CanStep(s, Commit(s.locks[send.key])))
      case KeyInserted => CanStep(s, Commit(c))
      case Violated => CanStep(s, Find(c))
      case Answered(answer) => answer.Created? ==> CanStep(s, Enqueue(c))
      case Enqueued(_) => true
  {
    hide Run;
    InvRun(Init, es);
    assert LockOk(Run(Init, es), Run(Init, es).sends[c].key);
  }

  /** A send under a new key that nobody else is working on: its message is created, committed and enqueued. */
  lemma SendSolo(s: State, c: SendId, key: Key, id: MessageId)
    requires CanStep(s, Begin(c, key, id)) && key !in s.keys && key !in s.locks
    ensures var t := Run(s, [Begin(c, key, id), Look(c), InsertMessage(c), InsertKey(c), Commit(c), Enqueue(c)]);
      && c in t.sends && t.sends[c] == Send(key, id, Enqueued(id))
      && t.keys == s.keys[key := id] && t.messages == s.messages[id := key]
      && t.locks == s.locks && t.batches == s.batches + [c]
  {
    hide Next; hide CanStep;
    RunSix(s, Begin(c, key, id), Look(c), InsertMessage(c), InsertKey(c), Commit(c), Enqueue(c));
    InsertsMessage(s, c, key, id);
    var t := s.(sends := s.sends[c := Send(key, id, MessageInserted)]);
    CommitsAndEnqueues(t, c);
  }

  lemma InsertsMessage(s: State, c: SendId, key: Key, id: MessageId)
    requires CanStep(s, Begin(c, key, id)) && key !in s.keys
    ensures Next(Next(Next(s, Begin(c, key, id)), Look(c)), InsertMessage(c)) ==
      s.(sends := s.sends[c := Send(key, id, MessageInserted)])
  {
    var t1 := Next(s, Begin(c, key, id));
    assert t1 == s.(sends := s.sends[c := Send(key, id, Begun)]);
    assert Next(t1, Look(c)) == s.(sends := s.sends[c := Send(key, id, Looked)]);
  }

  lemma CommitsAndEnqueues(s: State, c: SendId)
    requires c in s.sends && s.sends[c].phase.MessageInserted?
    requires s.sends[c].key !in s.keys && s.sends[c].key !in s.locks
    ensures var t := Next(Next(Next(s, InsertKey(c)), Commit(c)), Enqueue(c)); var send := s.sends[c];
      && t.sends == s.sends[c := Send(send.key, send.id, Enqueued(send.id))]
      && t.keys == s.keys[send.key := send.id] && t.messages == s.messages[send.id := send.key]
      && t.locks == s.locks && t.batches == s.batches + [c]
  {
    var send := s.sends[c];
    var t1 := Next(s, InsertKey(c));
    assert t1.locks == s.locks[send.key := c];
    var t2 := Next(t1, Commit(c));
    assert t2.locks == s.locks;
    assert t2.sends == s.sends[c := Send(send.key, send.id, Answered(Created(send.id)))];
  }

  lemma RunCons(s: State, e: Step, rest: seq<Step>)
    ensures Run(s, [e] + rest) == Run(Next(s, e), rest)
  {
    hide Next;
    assert ([e] + rest)[1..] == rest;
  }

  lemma RunSix(s: State, a: Step, b: Step, c: Step, d: Step, e: Step, f: Step)
    ensures Run(s, [a, b, c, d, e, f]) == Next(Next(Next(Next(Next(Next(s, a), b), c), d), e), f)
  {
    hide Next; hide Run;
    var s1 := Next(s, a);
    var s2 := Next(s1, b);
    var s3 := Next(s2, c);
    var s4 := Next(s3, d);
    assert [a, b, c, d, e, f] == [a] + [b, c, d, e, f] && [b, c, d, e, f] == [b] + [c, d, e, f];
    assert [c, d, e, f] == [c] + [d, e, f] && [d, e, f] == [d] + [e, f] && [e, f] == [e] + [f];
    RunCons(s, a, [b, c, d, e, f]);
    RunCons(s1, b, [c, d, e, f]);
    RunCons(s2, c, [d, e, f]);
    RunCons(s3, d, [e, f]);
    RunCons(s4, e, [f]);
    RunOne(Next(s4, e), f);
  }

  /** A later send under a committed key is told of the duplicate at once. */
  lemma ResendSolo(s: State, c: SendId, key: Key, id: MessageId)
    requires CanStep(s, Begin(c, key, id)) && key in s.keys
    ensures Next(Next(s, Begin(c, key, id)), Look(c)) ==
      s.(sends := s.sends[c := Send(key, id, Answered(Duplicate(s.keys[key])))])
  {
  }
}
