/** The ACP transport's side of JSON-RPC 2.0: any number of calling threads and one reader sharing a pending table. */
module JsonRpc {
  import opened Prelude

  /*
   Each lock-protected block, and each write to an entry, is one step; the reader may pause between taking
   an entry out of the table, storing its answer and setting its event, and a timeout may fall in any of
   those gaps. Writing a request out is assumed not to raise.
   */

  datatype Id = Number(n: int) | Text(s: string) | Null

  /** One line from the peer. `Noise` is skipped; `Malformed` makes the reader thread's dispatch raise. */
  datatype Message = Response(id: Id, failed: bool, body: string) | Request | Notification | Noise | Malformed

  /** What is stored in an entry: the message at some position of the inbox, or the drain's own error. */
  datatype Answer = Reply(at: nat) | ConnectionClosed

  datatype Pc = Calling | Allocated | Registered | Waiting | GivingUp | TimedOut | Returned

  /** `early` remembers that the caller registered before the reader emptied the table. */
  datatype Caller = Caller(pc: Pc, id: nat, answer: Option<Answer>, event: bool, result: Option<Answer>, early: bool)

  /** The reader thread: between lines, holding an entry it took out, or going through the ones left at the end. */
  datatype Reader = Reading | Storing(i: nat, at: nat) | Setting(i: nat) | Closing | Draining(rest: set<nat>) | DrainSetting(i: nat, rest: set<nat>) | Ended

  datatype Peer = Peer(nextId: nat, pending: map<nat, nat>, callers: seq<Caller>, inbox: seq<Message>, reader: Reader)

  datatype Action =
    | Call
    | Allocate(i: nat)
    | Register(i: nat)
    | Write(i: nat)
    | Wake(i: nat)
    | Timeout(i: nat)
    | GiveUp(i: nat)
    | Receive(m: Message)
    | Store
    | SetEvent
    | EndOfStream
    | TakeAll
    | DrainStore(i: nat)
    | DrainSet
    | DrainEnd

  const START := Peer(1, map[], [], [], Reading)

  predicate At(s: Peer, i: nat, pc: Pc) { i < |s.callers| && s.callers[i].pc == pc }

  predicate Enabled(s: Peer, a: Action) {
    match a
    case Call => true
    case Allocate(i) => At(s, i, Calling)
    case Register(i) => At(s, i, Allocated)
    case Write(i) => At(s, i, Registered)
    case Wake(i) => At(s, i, Waiting) && s.callers[i].event
    case Timeout(i) => At(s, i, Waiting) && !s.callers[i].event
    case GiveUp(i) => At(s, i, GivingUp)
    case Receive(_) => s.reader.Reading?
    case Store => s.reader.Storing? && s.reader.i < |s.callers|
    case SetEvent => s.reader.Setting? && s.reader.i < |s.callers|
    case EndOfStream => s.reader.Reading?
    case TakeAll => s.reader.Closing?
    case DrainStore(i) => s.reader.Draining? && i in s.reader.rest && i < |s.callers|
    case DrainSet => s.reader.DrainSetting? && s.reader.i < |s.callers|
    case DrainEnd => s.reader.Draining? && s.reader.rest == {}
  }

  function Put(s: Peer, i: nat, c: Caller): Peer
    requires i < |s.callers|
  {
    s.(callers := s.callers[i := c])
  }

  /** `_pending.pop(obj["id"], None)` finds an entry only under a number some caller was given. */
  function Popped(s: Peer, m: Message): Option<nat> {
    if m.Response? && m.id.Number? && m.id.n >= 0 && m.id.n in s.pending then Some(s.pending[m.id.n]) else None
  }

  function Next(s: Peer, a: Action): Peer
    requires Enabled(s, a)
  {
    match a
    case Call => s.(callers := s.callers + [Caller(Calling, 0, None, false, None, false)])
    case Allocate(i) => Put(s, i, s.callers[i].(pc := Allocated, id := s.nextId)).(nextId := s.nextId + 1)
    case Register(i) =>
      var early := s.reader.Reading? || s.reader.Storing? || s.reader.Setting? || s.reader.Closing?;
      Put(s, i, s.callers[i].(pc := Registered, early := early)).(pending := s.pending[s.callers[i].id := i])
    case Write(i) => Put(s, i, s.callers[i].(pc := Waiting))
    case Wake(i) => Put(s, i, s.callers[i].(pc := Returned, result := s.callers[i].answer))
    case Timeout(i) => Put(s, i, s.callers[i].(pc := GivingUp))
    case GiveUp(i) => Put(s, i, s.callers[i].(pc := TimedOut)).(pending := s.pending - {s.callers[i].id})
    case Receive(m) =>
      var s' := s.(inbox := s.inbox + [m]);
      if m.Malformed? then s'.(reader := Closing)
      else if Popped(s, m).Some? then s'.(pending := s.pending - {m.id.n}, reader := Storing(Popped(s, m).value, |s.inbox|))
      else s'
    case Store =>
      Put(s, s.reader.i, s.callers[s.reader.i].(answer := Some(Reply(s.reader.at)))).(reader := Setting(s.reader.i))
    case SetEvent => Put(s, s.reader.i, s.callers[s.reader.i].(event := true)).(reader := Reading)
    case EndOfStream => s.(reader := Closing)
    case TakeAll => s.(pending := map[], reader := Draining(s.pending.Values))
    case DrainStore(i) => Put(s, i, s.callers[i].(answer := Some(ConnectionClosed))).(reader := DrainSetting(i, s.reader.rest - {i}))
    case DrainSet => Put(s, s.reader.i, s.callers[s.reader.i].(event := true)).(reader := Draining(s.reader.rest))
    case DrainEnd => s.(reader := Ended)
  }

  /* ---- the invariant ---- */

  predicate HasId(c: Caller) { !c.pc.Calling? }

  /** Registered, and not yet given up for good. */
  predicate Outstanding(c: Caller) { c.pc.Registered? || c.pc.Waiting? || c.pc.GivingUp? }

  /** Still without an answer. */
  predicate Blank(c: Caller) { c.answer.None? && !c.event }

  /** The table has been emptied for good. */
  predicate Emptied(r: Reader) { r.Draining? || r.DrainSetting? || r.Ended? }

  /** The callers whose entries the reader has taken out and not finished with. */
  predicate InHand(r: Reader, i: nat) {
    match r
    case Storing(j, _) => i == j
    case Setting(j) => i == j
    case Draining(rest) => i in rest
    case DrainSetting(j, rest) => i == j || i in rest
    case _ => false
  }

  /** The entry whose answer is stored and whose event is not yet set. */
  predicate HalfDone(r: Reader, i: nat) { (r.Setting? && r.i == i) || (r.DrainSetting? && r.i == i) }

  predicate AnswersTo(inbox: seq<Message>, at: nat, id: nat) { at < |inbox| && inbox[at].Response? && inbox[at].id == Number(id) }

  /** An answer is either this caller's own response or the drain's error. */
  predicate AnswerOk(s: Peer, c: Caller) {
    match c.answer
    case None => true
    case Some(Reply(at)) => AnswersTo(s.inbox, at, c.id)
    case Some(ConnectionClosed) => Emptied(s.reader)
  }

  predicate CallerOk(s: Peer, i: nat) {
    i < |s.callers| ==>
      var c := s.callers[i];
      && (HasId(c) ==> 0 < c.id < s.nextId)
      && (c.pc.Calling? || c.pc.Allocated? ==> Blank(c) && !InHand(s.reader, i))
      && AnswerOk(s, c) && (c.answer.Some? ==> c.early)
      && (c.answer.Some? <==> c.event || HalfDone(s.reader, i))
      && (c.event ==> !InHand(s.reader, i))
      && (Outstanding(c) && Blank(c) ==> (c.id in s.pending && s.pending[c.id] == i) || InHand(s.reader, i))
      && (c.pc.Returned? <==> c.result.Some?)
      && (c.result.Some? ==> c.event && c.result == c.answer)
  }

  predicate PendingOk(s: Peer, id: nat) {
    id in s.pending ==>
      var i := s.pending[id];
      i < |s.callers| && s.callers[i].id == id && Outstanding(s.callers[i]) && Blank(s.callers[i]) && !InHand(s.reader, i)
      && (s.callers[i].early <==> !Emptied(s.reader))
  }

  /** What the reader holds is an entry that exists; registered before the table was emptied. */
  predicate HandOk(s: Peer, i: nat) {
    InHand(s.reader, i) ==>
      && i < |s.callers| && HasId(s.callers[i])
      && (s.reader.Storing? ==> AnswersTo(s.inbox, s.reader.at, s.callers[i].id))
      && s.callers[i].early
  }

  predicate DrainOk(s: Peer) { s.reader.DrainSetting? ==> s.reader.i !in s.reader.rest }

  predicate IdsDiffer(s: Peer, i: nat, j: nat) {
    i != j && i < |s.callers| && j < |s.callers| && HasId(s.callers[i]) && HasId(s.callers[j]) ==> s.callers[i].id != s.callers[j].id
  }

  ghost predicate Inv(s: Peer) {
    && s.nextId > 0 && DrainOk(s)
    && (forall i: nat :: CallerOk(s, i))
    && (forall id :: PendingOk(s, id))
    && (forall i :: HandOk(s, i))
    && (forall i: nat, j: nat :: IdsDiffer(s, i, j))
  }

  /* ---- every step keeps it ---- */

  predicate ByCaller(a: Action) { a.Call? || a.Allocate? || a.Register? || a.Write? || a.Wake? || a.Timeout? || a.GiveUp? }

  lemma CallerKeepsCaller(s: Peer, a: Action, i: nat)
    requires Inv(s) && Enabled(s, a) && ByCaller(a)
    ensures CallerOk(Next(s, a), i)
  {
    assert CallerOk(s, i) && HandOk(s, i);
    if a.GiveUp? && i < |s.callers| { assert IdsDiffer(s, i, a.i) && CallerOk(s, a.i); }
    if a.Register? && i < |s.callers| { assert IdsDiffer(s, i, a.i); }
  }

  lemma CallerKeepsPending(s: Peer, a: Action, id: nat)
    requires Inv(s) && Enabled(s, a) && ByCaller(a)
    ensures PendingOk(Next(s, a), id)
  {
    assert PendingOk(s, id);
    if a.Register? { assert CallerOk(s, a.i); }
    if a.Wake? { assert CallerOk(s, a.i); }
  }

  /** An entry the reader is about to take was still waiting in the table. */
  lemma TakenWasWaiting(s: Peer, a: Action, i: nat)
    requires Inv(s) && Enabled(s, a) && InHand(Next(s, a).reader, i) && !InHand(s.reader, i)
    ensures i < |s.callers| && s.callers[i].id in s.pending && s.pending[s.callers[i].id] == i && PendingOk(s, s.callers[i].id)
    ensures a.TakeAll? || (a.Receive? && a.m.Response? && a.m.id == Number(s.callers[i].id))
  {
    if a.Receive? { assert PendingOk(s, a.m.id.n); }
    if a.TakeAll? {
      var id :| id in s.pending && s.pending[id] == i;
      assert PendingOk(s, id);
    }
  }

  lemma ReaderKeepsCaller(s: Peer, a: Action, i: nat)
    requires Inv(s) && Enabled(s, a) && !ByCaller(a)
    ensures CallerOk(Next(s, a), i)
  {
    assert CallerOk(s, i) && HandOk(s, i);
    if InHand(Next(s, a).reader, i) && !InHand(s.reader, i) { TakenWasWaiting(s, a, i); }
  }

  lemma ReaderKeepsPending(s: Peer, a: Action, id: nat)
    requires Inv(s) && Enabled(s, a) && !ByCaller(a)
    ensures PendingOk(Next(s, a), id)
  {
    assert PendingOk(s, id);
    if a.Receive? && Popped(s, a.m).Some? { assert PendingOk(s, a.m.id.n); }
  }

  lemma StepKeepsHand(s: Peer, a: Action, i: nat)
    requires Inv(s) && Enabled(s, a)
    ensures HandOk(Next(s, a), i)
  {
    assert HandOk(s, i) && CallerOk(s, i);
    if InHand(Next(s, a).reader, i) && !InHand(s.reader, i) { TakenWasWaiting(s, a, i); }
  }

  lemma StepKeepsIds(s: Peer, a: Action, i: nat, j: nat)
    requires Inv(s) && Enabled(s, a)
    ensures IdsDiffer(Next(s, a), i, j)
  {
    assert IdsDiffer(s, i, j) && CallerOk(s, i) && CallerOk(s, j);
  }

  lemma NextKeeps(s: Peer, a: Action)
    requires Inv(s) && Enabled(s, a)
    ensures Inv(Next(s, a))
  {
    var s' := Next(s, a);
    forall i: nat ensures CallerOk(s', i) { if ByCaller(a) { CallerKeepsCaller(s, a, i); } else { ReaderKeepsCaller(s, a, i); } }
    forall id ensures PendingOk(s', id) { if ByCaller(a) { CallerKeepsPending(s, a, id); } else { ReaderKeepsPending(s, a, id); } }
    forall i ensures HandOk(s', i) { StepKeepsHand(s, a, i); }
    forall i: nat, j: nat ensures IdsDiffer(s', i, j) { StepKeepsIds(s, a, i, j); }
  }

  /* ---- runs ---- */

  ghost predicate IsRun(states: seq<Peer>, actions: seq<Action>) {
    && |states| == |actions| + 1 && states[0] == START
    && forall k | 0 <= k < |actions| :: Enabled(states[k], actions[k]) && states[k + 1] == Next(states[k], actions[k])
  }

  lemma {:induction false} RunKeeps(states: seq<Peer>, actions: seq<Action>, n: nat)
    requires IsRun(states, actions) && n < |states|
    ensures Inv(states[n])
  {
    if n > 0 {
      RunKeeps(states, actions, n - 1);
      NextKeeps(states[n - 1], actions[n - 1]);
    }
  }

  /** Where a sequence of actions leads, if each is enabled when its turn comes. */
  function After(s: Peer, actions: seq<Action>): Option<Peer> {
    if actions == [] then Some(s)
    else
      var mid, last := After(s, actions[..|actions| - 1]), actions[|actions| - 1];
      if mid.Some? && Enabled(mid.value, last) then Some(Next(mid.value, last)) else None
  }

  lemma AfterOne(s: Peer, actions: seq<Action>, mid: Peer, a: Action)
    requires After(s, actions) == Some(mid) && Enabled(mid, a)
    ensures After(s, actions + [a]) == Some(Next(mid, a))
  {
    assert (actions + [a])[..|actions|] == actions;
  }

  lemma {:induction false} AfterKeeps(actions: seq<Action>)
    requires After(START, actions).Some?
    ensures Inv(After(START, actions).value)
  {
    if actions != [] {
      AfterKeeps(actions[..|actions| - 1]);
      NextKeeps(After(START, actions[..|actions| - 1]).value, actions[|actions| - 1]);
    }
  }

  /** What actions lead to is reached by a run, so everything below holds of it. */
  lemma {:induction false} ReachedByRun(actions: seq<Action>) returns (states: seq<Peer>)
    requires After(START, actions).Some?
    ensures IsRun(states, actions) && states[|actions|] == After(START, actions).value
  {
    if actions == [] {
      states := [START];
    } else {
      var front := actions[..|actions| - 1];
      var before := ReachedByRun(front);
      states := before + [After(START, actions).value];
      forall k | 0 <= k < |actions| ensures Enabled(states[k], actions[k]) && states[k + 1] == Next(states[k], actions[k]) {
        if k < |front| { assert states[k] == before[k] && states[k + 1] == before[k + 1] && front[k] == actions[k]; }
      }
    }
  }

  /**
   Correlation: in every interleaving no id is used twice, a caller returns only with a response the peer
   sent under that caller's own id, or with the drain's error, and no response reaches two callers.
   */
  lemma ResponsesReachTheirCallers(states: seq<Peer>, actions: seq<Action>, n: nat)
    requires IsRun(states, actions) && n < |states|
    ensures var s := states[n];
      && (forall i, j | 0 <= i < j < |s.callers| && HasId(s.callers[i]) && HasId(s.callers[j]) :: s.callers[i].id != s.callers[j].id)
      && (forall i | 0 <= i < |s.callers| && s.callers[i].pc.Returned? :: s.callers[i].result.Some? && AnswerOk(s, s.callers[i])
            && s.callers[i].result == s.callers[i].answer)
      && (forall i, j, at | 0 <= i < |s.callers| && 0 <= j < |s.callers|
            && s.callers[i].answer == Some(Reply(at)) && s.callers[j].answer == Some(Reply(at)) :: i == j)
  {
    RunKeeps(states, actions, n);
    var s := states[n];
    forall i, j | 0 <= i < j < |s.callers| && HasId(s.callers[i]) && HasId(s.callers[j]) ensures s.callers[i].id != s.callers[j].id {
      assert IdsDiffer(s, i, j);
    }
    forall i | 0 <= i < |s.callers| && s.callers[i].pc.Returned?
      ensures s.callers[i].result.Some? && AnswerOk(s, s.callers[i]) && s.callers[i].result == s.callers[i].answer
    {
      assert CallerOk(s, i);
    }
    forall i, j, at | 0 <= i < |s.callers| && 0 <= j < |s.callers|
      && s.callers[i].answer == Some(Reply(at)) && s.callers[j].answer == Some(Reply(at)) ensures i == j
    {
      assert CallerOk(s, i) && CallerOk(s, j) && IdsDiffer(s, i, j);
    }
  }

  /** An answer, once stored, is never overwritten, and a call that is over stays over. */
  lemma AnswersAreFinal(s: Peer, a: Action, i: nat)
    requires Inv(s) && Enabled(s, a) && i < |s.callers|
    ensures var c, c' := s.callers[i], Next(s, a).callers[i];
      && (c.answer.Some? ==> c'.answer == c.answer)
      && (c.event ==> c'.event)
      && (HasId(c) ==> c'.id == c.id)
      && (c.pc.Returned? || c.pc.TimedOut? ==> c'.pc == c.pc && c'.result == c.result)
  {
    assert CallerOk(s, i) && HandOk(s, i);
    if a.DrainStore? { assert CallerOk(s, a.i) && HandOk(s, a.i); }
  }

  /** A response to a call that has timed out, or has already been answered, or was never made, is dropped. */
  lemma LateResponseIsDropped(s: Peer, m: Message)
    requires Inv(s) && s.reader.Reading? && m.Response?
    requires forall i | 0 <= i < |s.callers| && m.id == Number(s.callers[i].id) :: !Outstanding(s.callers[i]) || !Blank(s.callers[i])
    ensures Next(s, Receive(m)) == s.(inbox := s.inbox + [m])
  {
    if m.id.Number? && m.id.n >= 0 { assert PendingOk(s, m.id.n); }
  }

  /** ...and any other response reaches the one caller waiting for it. */
  lemma TimelyResponseIsTaken(s: Peer, i: nat, failed: bool, body: string)
    requires Inv(s) && s.reader.Reading? && i < |s.callers| && Outstanding(s.callers[i]) && Blank(s.callers[i])
    ensures var s' := Next(s, Receive(Response(Number(s.callers[i].id), failed, body)));
      s'.reader == Storing(i, |s.inbox|) && s.callers[i].id !in s'.pending
  {
    assert CallerOk(s, i);
  }

  /** The reader can always go on until it has drained the table; what it holds always exists. */
  lemma ReaderNeverStuck(s: Peer)
    requires Inv(s)
    ensures s.reader.Ended? || exists a :: Enabled(s, a) && !ByCaller(a)
  {
    match s.reader
    case Reading => assert Enabled(s, EndOfStream);
    case Storing(i, _) => assert HandOk(s, i); assert Enabled(s, Store);
    case Setting(i) => assert HandOk(s, i); assert Enabled(s, SetEvent);
    case Closing => assert Enabled(s, TakeAll);
    case Draining(rest) =>
      if rest == {} { assert Enabled(s, DrainEnd); }
      else {
        var i :| i in rest;
        assert HandOk(s, i);
        assert Enabled(s, DrainStore(i));
      }
    case DrainSetting(i, _) => assert HandOk(s, i); assert Enabled(s, DrainSet);
    case Ended =>
  }

  /**
   Once the reader has ended, a waiting caller has been woken exactly when it registered before the
   table was emptied; one that came later can only time out. Either way exactly one of the two exits is
   open to it, so nobody waits past its timeout.
   */
  lemma DrainWakesEveryone(s: Peer, i: nat)
    requires Inv(s) && s.reader.Ended? && At(s, i, Waiting)
    ensures s.callers[i].event <==> s.callers[i].early
    ensures Enabled(s, Wake(i)) <==> s.callers[i].early
    ensures Enabled(s, Timeout(i)) <==> !s.callers[i].early
  {
    assert CallerOk(s, i);
    if !s.callers[i].event { assert PendingOk(s, s.callers[i].id); }
  }
}
