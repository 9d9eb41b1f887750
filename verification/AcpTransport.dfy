/**
 The pending table as the object the threads share: entries are objects, the table maps an id to the
 entry its caller is waiting on, and answering writes through that reference. Each object carries the
 actions it has taken part in, and every method is shown to be the action, or actions, of `JsonRpc` it
 stands for; so what is proved of every run there holds of the object.
 */
module AcpTransport {
  import opened Prelude
  import opened JsonRpc

  datatype Stored = Answered(response: Message) | Closed

  class PendingRequest {
    var response: Option<Stored>
    var event: bool

    constructor ()
      ensures response.None? && !event
    {
      response, event := None, false;
    }

    /** The answer is stored before the event is set, so a woken caller always finds one. */
    method Answer(stored: Stored)
      modifies this
      ensures response == Some(stored) && event
    {
      response := Some(stored);
      event := true;
    }
  }

  /** The object's answer is the one the machine has on record. */
  predicate SameAnswer(inbox: seq<Message>, stored: Option<Stored>, answer: Option<Answer>) {
    match answer
    case None => stored.None?
    case Some(Reply(at)) => at < |inbox| && stored == Some(Answered(inbox[at]))
    case Some(ConnectionClosed) => stored == Some(Closed)
  }

  class Transport {
    var nextId: nat
    var pending: map<nat, PendingRequest>
    var closed: bool
    ghost var trace: seq<Action>
    ghost var peer: Peer
    ghost var entries: seq<PendingRequest?>

    /** The entry a caller made, if it has made one. */
    ghost predicate EntryOk(i: nat)
      reads this`entries, this`peer, entries
    {
      i < |entries| && i < |peer.callers| ==>
        && (entries[i] == null <==> peer.callers[i].pc.Calling? || peer.callers[i].pc.Allocated?)
        && (entries[i] != null ==> entries[i].event == peer.callers[i].event && SameAnswer(peer.inbox, entries[i].response, peer.callers[i].answer))
    }

    ghost predicate Apart(i: nat, j: nat)
      reads this`entries
    {
      i < |entries| && j < |entries| && i != j && entries[i] != null ==> entries[i] != entries[j]
    }

    /** The table files each pending id under the entry of the caller the machine has waiting for it. */
    ghost predicate FiledOk(id: nat)
      reads this`pending, this`peer, this`entries
    {
      && (id in pending <==> id in peer.pending)
      && (id in pending ==> peer.pending[id] < |entries| && pending[id] == entries[peer.pending[id]])
    }

    /** The object shows the machine's state. */
    ghost predicate Mirrors()
      reads this`nextId, this`pending, this`trace, this`peer, this`entries, entries
    {
      && After(START, trace) == Some(peer)
      && nextId == peer.nextId && |entries| == |peer.callers|
      && (forall i: nat :: EntryOk(i)) && (forall i: nat, j: nat :: Apart(i, j)) && (forall id: nat :: FiledOk(id))
    }

    /** Between methods the reader is between lines, or has stopped reading, or has ended. */
    ghost predicate Valid()
      reads this, entries
    {
      Mirrors() && (peer.reader.Reading? || peer.reader.Closing? || peer.reader.Ended?) && (closed <==> peer.reader.Ended?)
    }

    constructor ()
      ensures Valid() && trace == [] && pending == map[] && !closed
    {
      nextId, pending, closed := 1, map[], false;
      trace, peer, entries := [], START, [];
    }

    /** The machine takes one step. */
    ghost method Take(a: Action)
      requires Enabled(peer, a) && After(START, trace) == Some(peer)
      modifies this`trace, this`peer
      ensures peer == Next(old(peer), a) && trace == old(trace) + [a] && After(START, trace) == Some(peer)
    {
      AfterOne(START, trace, peer, a);
      trace, peer := trace + [a], Next(peer, a);
    }

    /** A thread enters, and takes the next id. */
    ghost method TakeCall()
      requires After(START, trace) == Some(peer)
      modifies this`trace, this`peer
      ensures var before := old(peer);
        peer == before.(callers := before.callers + [Caller(Allocated, before.nextId, None, false, None, false)], nextId := before.nextId + 1)
      ensures trace == old(trace) + [Call, Allocate(old(|peer.callers|))] && After(START, trace) == Some(peer)
    {
      var caller := |peer.callers|;
      Take(Call);
      Take(Allocate(caller));
    }

    /** A new call begins by taking an id nobody else was given. */
    method AllocateId() returns (value: nat, ghost caller: nat)
      requires Valid()
      modifies this`nextId, this`trace, this`peer, this`entries
      ensures Valid() && value == old(nextId) && value !in pending
      ensures trace == old(trace) + [Call, Allocate(caller)] && At(peer, caller, Allocated) && peer.callers[caller].id == value
    {
      NextIdIsFree(trace, peer);
      assert FiledOk(nextId);
      caller := |peer.callers|;
      entries := entries + [null];
      TakeCall();
      value := nextId;
      nextId := nextId + 1;
      forall i: nat ensures EntryOk(i) { assert old(EntryOk(i)); }
      forall i: nat, j: nat ensures Apart(i, j) { assert old(Apart(i, j)); }
      forall id: nat ensures FiledOk(id) { assert old(FiledOk(id)); }
    }

    /** Its entry is filed under that id before the request is written, so no response can come too early. */
    method Register(id: nat, ghost caller: nat) returns (entry: PendingRequest)
      requires Valid() && At(peer, caller, Allocated) && peer.callers[caller].id == id
      modifies this`pending, this`trace, this`peer, this`entries
      ensures Valid() && trace == old(trace) + [Action.Register(caller)]
      ensures fresh(entry) && pending == old(pending)[id := entry] && entries == old(entries)[caller := entry]
      ensures At(peer, caller, Registered) && peer.callers[caller].id == id
    {
      AllocatedIsBlank(trace, peer, caller);
      assert EntryOk(caller) && FiledOk(id);
      entry := new PendingRequest();
      pending := pending[id := entry];
      entries := entries[caller := entry];
      Take(Action.Register(caller));
      forall i: nat ensures EntryOk(i) { assert old(EntryOk(i)); }
      forall i: nat, j: nat ensures Apart(i, j) { assert old(Apart(i, j)); }
      forall n: nat ensures FiledOk(n) { assert old(FiledOk(n)); }
    }

    /** The request goes out; assumed not to raise. */
    ghost method Sent(caller: nat)
      requires Valid() && At(peer, caller, Registered)
      modifies this`trace, this`peer
      ensures Valid() && trace == old(trace) + [Write(caller)] && At(peer, caller, Waiting) && peer.callers[caller].id == old(peer.callers[caller].id)
    {
      Take(Write(caller));
      forall i: nat ensures EntryOk(i) { assert old(EntryOk(i)); }
      forall i: nat, j: nat ensures Apart(i, j) { assert old(Apart(i, j)); }
      forall n: nat ensures FiledOk(n) { assert old(FiledOk(n)); }
    }

    /** The wait is over: with the answer found in the entry, or by taking the entry out of the table. */
    method Finish(id: nat, entry: PendingRequest, ghost caller: nat) returns (r: Option<Stored>)
      requires Valid() && At(peer, caller, Waiting) && peer.callers[caller].id == id && entries[caller] == entry
      modifies this`pending, this`trace, this`peer
      ensures Valid() && trace == old(trace) + if old(entry.event) then [Wake(caller)] else [Timeout(caller), GiveUp(caller)]
      ensures old(entry.event) ==> r.Some? && (r.value.Answered? ==> r.value.response.Response? && r.value.response.id == Number(id))
      ensures !old(entry.event) ==> r.None? && id !in pending
    {
      assert EntryOk(caller);
      if entry.event {
        WokenHasAnswer(trace, peer, caller);
        Take(Wake(caller));
        r := entry.response;
      } else {
        Take(Timeout(caller));
        Take(GiveUp(caller));
        pending := pending - {id};
        r := None;
      }
      forall i: nat ensures EntryOk(i) { assert old(EntryOk(i)); }
      forall i: nat, j: nat ensures Apart(i, j) { assert old(Apart(i, j)); }
      forall n: nat ensures FiledOk(n) { assert old(FiledOk(n)); }
    }

    /** Taking the entry out, storing the answer, setting the event. */
    ghost method TakeAnswer(m: Message)
      requires m.Response? && peer.reader.Reading? && Popped(peer, m).Some? && Popped(peer, m).value < |peer.callers|
      requires After(START, trace) == Some(peer)
      modifies this`trace, this`peer
      ensures var before, i := old(peer), Popped(old(peer), m).value;
        peer == before.(inbox := before.inbox + [m], pending := before.pending - {m.id.n},
                        callers := before.callers[i := before.callers[i].(answer := Some(Reply(|before.inbox|)), event := true)])
      ensures trace == old(trace) + [Receive(m), Store, SetEvent] && After(START, trace) == Some(peer)
    {
      Take(Receive(m));
      Take(Store);
      Take(SetEvent);
    }

    /** Whether or not anyone still waits for it, one response answers at most the one entry filed under its id. */
    method HandleResponse(m: Message)
      requires Valid() && m.Response? && peer.reader.Reading?
      modifies this`pending, this`trace, this`peer, pending.Values
      ensures Valid() && peer.reader.Reading? && nextId == old(nextId) && entries == old(entries)
      ensures var found := m.id.Number? && m.id.n >= 0 && m.id.n in old(pending);
        && trace == old(trace) + (if found then [Receive(m), Store, SetEvent] else [Receive(m)])
        && pending == (if found then old(pending) - {m.id.n} else old(pending))
        && (found ==> old(pending)[m.id.n].event && old(pending)[m.id.n].response == Some(Answered(m)))
      ensures forall id | id in pending :: unchanged(pending[id])
    {
      if m.id.Number? && m.id.n >= 0 { assert FiledOk(m.id.n); }
      if m.id.Number? && m.id.n >= 0 && m.id.n in pending {
        var id := m.id.n;
        ghost var caller := peer.pending[id];
        FiledIsWaiting(trace, peer, id);
        assert EntryOk(caller);
        var entry := pending[id];
        forall other: nat | other in pending && other != id ensures pending[other] != entry {
          assert FiledOk(other) && EntryOk(peer.pending[other]) && Apart(peer.pending[other], caller);
        }
        pending := pending - {id};
        entry.Answer(Answered(m));
        TakeAnswer(m);
        forall i: nat ensures EntryOk(i) { assert old(EntryOk(i)) && old(Apart(i, caller)); }
      } else {
        Take(Receive(m));
        forall i: nat ensures EntryOk(i) { assert old(EntryOk(i)); }
      }
      forall i: nat, j: nat ensures Apart(i, j) { assert old(Apart(i, j)); }
      forall n: nat ensures FiledOk(n) { assert old(FiledOk(n)); }
    }

    /** The drain's two writes to one entry. */
    ghost method TakeDrain(i: nat)
      requires peer.reader.Draining? && i in peer.reader.rest && i < |peer.callers| && After(START, trace) == Some(peer)
      modifies this`trace, this`peer
      ensures var before := old(peer);
        peer == before.(callers := before.callers[i := before.callers[i].(answer := Some(ConnectionClosed), event := true)],
                        reader := Draining(before.reader.rest - {i}))
      ensures After(START, trace) == Some(peer) && old(trace) <= trace
    {
      Take(DrainStore(i));
      Take(DrainSet);
    }

    /** A step that leaves the callers, the table and the inbox alone changes nothing the object shows. */
    ghost method TakeQuietly(a: Action)
      requires Mirrors() && (a.EndOfStream? || a.DrainEnd?) && Enabled(peer, a)
      modifies this`trace, this`peer
      ensures Mirrors() && peer == Next(old(peer), a) && trace == old(trace) + [a]
    {
      Take(a);
      forall i: nat ensures EntryOk(i) { assert old(EntryOk(i)); }
      forall i: nat, j: nat ensures Apart(i, j) { assert old(Apart(i, j)); }
      forall n: nat ensures FiledOk(n) { assert old(FiledOk(n)); }
    }

    /** Emptying the table under its lock. */
    method TakeTable() returns (taken: map<nat, PendingRequest>, ghost filed: map<nat, nat>)
      requires Mirrors() && peer.reader.Closing?
      modifies this`pending, this`trace, this`peer
      ensures Mirrors() && pending == map[] && taken == old(pending) && trace == old(trace) + [TakeAll]
      ensures peer.reader == Draining(filed.Values) && filed.Keys == taken.Keys
      ensures forall id | id in taken :: filed[id] < |entries| && entries[filed[id]] == taken[id]
      ensures forall i, j | i in filed && j in filed && i != j :: filed[i] != filed[j]
    {
      filed := peer.pending;
      FiledApart(trace, peer);
      forall id: nat ensures id in pending <==> id in filed ensures id in pending ==> filed[id] < |entries| && pending[id] == entries[filed[id]] {
        assert FiledOk(id);
      }
      taken := pending;
      pending := map[];
      Take(TakeAll);
      forall i: nat ensures EntryOk(i) { assert old(EntryOk(i)); }
      forall i: nat, j: nat ensures Apart(i, j) { assert old(Apart(i, j)); }
    }

    /** One entry left over is woken with the error. */
    method WakeClosed(entry: PendingRequest, ghost caller: nat)
      requires Mirrors() && pending == map[] && peer.reader.Draining? && caller in peer.reader.rest
      requires caller < |entries| && entries[caller] == entry
      modifies this`trace, this`peer, entry
      ensures Mirrors() && old(trace) <= trace && peer.reader == Draining(old(peer.reader.rest) - {caller})
      ensures entry.event && entry.response == Some(Closed)
    {
      assert EntryOk(caller);
      entry.Answer(Closed);
      TakeDrain(caller);
      forall i: nat ensures EntryOk(i) { assert old(EntryOk(i)) && old(Apart(i, caller)); }
      forall i: nat, j: nat ensures Apart(i, j) { assert old(Apart(i, j)); }
      forall n: nat ensures FiledOk(n) { assert old(FiledOk(n)); }
    }

    /** Of the entries taken out, `todo` are still to be woken. */
    ghost predicate Waking(taken: map<nat, PendingRequest>, filed: map<nat, nat>, todo: set<nat>)
      reads this`nextId, this`pending, this`trace, this`peer, this`entries, entries, taken.Values
    {
      && Mirrors() && pending == map[] && filed.Keys == taken.Keys && todo <= taken.Keys
      && peer.reader == Draining(Callers(filed, todo))
      && (forall id | id in taken :: filed[id] < |entries| && entries[filed[id]] == taken[id])
      && (forall i, j | i in filed && j in filed && i != j :: filed[i] != filed[j])
      && (forall id | id in taken && id !in todo :: taken[id].event && taken[id].response == Some(Closed))
    }

    method WakeOne(taken: map<nat, PendingRequest>, ghost filed: map<nat, nat>, ghost todo: set<nat>, id: nat)
      requires Waking(taken, filed, todo) && id in todo
      modifies this`trace, this`peer, taken[id]
      ensures Waking(taken, filed, todo - {id}) && old(trace) <= trace
    {
      forall other | other in taken && other != id ensures taken[other] != taken[id] { assert Apart(filed[other], filed[id]); }
      OneLess(filed, todo, id);
      WakeClosed(taken[id], filed[id]);
    }

    /** Every entry taken out, one after another. */
    method WakeAll(taken: map<nat, PendingRequest>, ghost filed: map<nat, nat>)
      requires Waking(taken, filed, taken.Keys)
      modifies this`trace, this`peer, taken.Values
      ensures Waking(taken, filed, {}) && old(trace) <= trace
    {
      var todo := taken.Keys;
      while todo != {}
        invariant Waking(taken, filed, todo) && old(trace) <= trace
        decreases |todo|
      {
        var id :| id in todo;
        WakeOne(taken, filed, todo, id);
        todo := todo - {id};
      }
    }

    /** The reader stops reading and takes the whole table. */
    method TakeOver() returns (taken: map<nat, PendingRequest>, ghost filed: map<nat, nat>)
      requires Valid() && !closed
      modifies this`pending, this`closed, this`trace, this`peer
      ensures closed && taken == old(pending) && old(trace) <= trace && Waking(taken, filed, taken.Keys)
    {
      closed := true;
      if peer.reader.Reading? { TakeQuietly(EndOfStream); }
      taken, filed := TakeTable();
      assert Callers(filed, taken.Keys) == filed.Values;
    }

    /** The end of the read loop: every entry still in the table is woken with the error, and the table is empty. */
    method Drain()
      requires Valid() && !closed
      modifies this`pending, this`closed, this`trace, this`peer, pending.Values
      ensures Valid() && closed && pending == map[] && entries == old(entries) && old(trace) <= trace
      ensures forall id | id in old(pending) :: old(pending)[id].event && old(pending)[id].response == Some(Closed)
    {
      var taken, filed := TakeOver();
      WakeAll(taken, filed);
      TakeQuietly(DrainEnd);
    }

    ghost predicate DistinctEntries()
      reads this`pending
    {
      forall i, j | i in pending && j in pending && i != j :: pending[i] != pending[j]
    }

    lemma EntriesDiffer()
      requires Valid()
      ensures DistinctEntries()
    {
      FiledApart(trace, peer);
      forall i, j | i in pending && j in pending && i != j ensures pending[i] != pending[j] {
        assert FiledOk(i) && FiledOk(j) && Apart(peer.pending[i], peer.pending[j]);
      }
    }

    /** A message that answers nobody. */
    ghost method Skip(m: Message)
      requires Valid() && peer.reader.Reading? && !m.Response?
      modifies this`trace, this`peer
      ensures Valid() && trace == old(trace) + [Receive(m)] && (if m.Malformed? then peer.reader.Closing? else peer.reader.Reading?)
    {
      Take(Receive(m));
      forall i: nat ensures EntryOk(i) { assert old(EntryOk(i)); }
      forall i: nat, j: nat ensures Apart(i, j) { assert old(Apart(i, j)); }
      forall n: nat ensures FiledOk(n) { assert old(FiledOk(n)); }
    }

    /** The entry was woken: with the response to this very id, or with the error. */
    static predicate WokenFor(id: nat, response: Option<Stored>, event: bool) {
      event && response.Some? && (response.value.Answered? ==> response.value.response.Response? && response.value.response.id == Number(id))
    }

    /** One line: an entry leaves the table exactly when its response came. False when the dispatch raised. */
    method Dispatch(m: Message) returns (ok: bool)
      requires Valid() && peer.reader.Reading?
      modifies this`pending, this`trace, this`peer, pending.Values
      ensures Valid() && entries == old(entries) && (if ok then peer.reader.Reading? else peer.reader.Closing?) && (ok <==> !m.Malformed?)
      ensures pending.Keys == old(pending).Keys - (if m.Response? && m.id.Number? && m.id.n >= 0 then {m.id.n} else {})
      ensures forall id | id in pending :: pending[id] == old(pending)[id] && unchanged(pending[id])
      ensures forall id | id in old(pending) && id !in pending :: old(pending)[id].event && old(pending)[id].response == Some(Answered(m))
    {
      if m.Response? {
        HandleResponse(m);
        return true;
      }
      Skip(m);
      ok := !m.Malformed?;
    }

    /** The reader thread: every call outstanding when it starts is woken by the time it ends, and only its own response can do it. */
    method ReadLoop(lines: seq<Message>)
      requires Valid() && peer.reader.Reading?
      modifies this`pending, this`closed, this`trace, this`peer, pending.Values
      ensures Valid() && closed && pending == map[] && entries == old(entries)
      ensures forall id | id in old(pending) :: WokenFor(id, old(pending)[id].response, old(pending)[id].event)
    {
      EntriesDiffer();
      ghost var outstanding := pending;
      var at, ok := 0, true;
      while ok && at < |lines|
        invariant at <= |lines| && Valid() && !closed && entries == old(entries) && (ok ==> peer.reader.Reading?)
        invariant forall id | id in pending :: id in outstanding && pending[id] == outstanding[id]
        invariant forall id | id in outstanding && id !in pending :: WokenFor(id, outstanding[id].response, outstanding[id].event)
      {
        ok := Dispatch(lines[at]);
        at := at + 1;
      }
      Drain();
    }
  }

  /** A caller with an id and no entry yet: nothing is filed under its id, and it has no answer. */
  lemma AllocatedIsBlank(trace: seq<Action>, s: Peer, i: nat)
    requires After(START, trace) == Some(s) && At(s, i, Allocated)
    ensures s.callers[i].id !in s.pending && Blank(s.callers[i])
  {
    AfterKeeps(trace);
    assert CallerOk(s, i) && PendingOk(s, s.callers[i].id);
    forall j: nat | j < |s.callers| && j != i && HasId(s.callers[j]) ensures s.callers[j].id != s.callers[i].id { assert IdsDiffer(s, i, j); }
  }

  lemma WokenHasAnswer(trace: seq<Action>, s: Peer, i: nat)
    requires After(START, trace) == Some(s) && At(s, i, Waiting) && s.callers[i].event
    ensures s.callers[i].answer.Some? && AnswerOk(s, s.callers[i])
  {
    AfterKeeps(trace);
    assert CallerOk(s, i);
  }

  lemma FiledIsWaiting(trace: seq<Action>, s: Peer, id: nat)
    requires After(START, trace) == Some(s) && id in s.pending
    ensures var i := s.pending[id];
      && i < |s.callers| && Outstanding(s.callers[i]) && Blank(s.callers[i])
      && forall other: nat | other in s.pending && other != id :: s.pending[other] != i
  {
    AfterKeeps(trace);
    forall other: nat | other in s.pending ensures s.pending[other] < |s.callers| && s.callers[s.pending[other]].id == other { assert PendingOk(s, other); }
    assert PendingOk(s, id);
  }

  function Callers(filed: map<nat, nat>, ids: set<nat>): set<nat>
    requires ids <= filed.Keys
  {
    set id | id in ids :: filed[id]
  }

  lemma OneLess(filed: map<nat, nat>, ids: set<nat>, id: nat)
    requires ids <= filed.Keys && id in ids && forall i, j | i in filed && j in filed && i != j :: filed[i] != filed[j]
    ensures filed[id] in Callers(filed, ids) && Callers(filed, ids - {id}) == Callers(filed, ids) - {filed[id]}
  {
  }

  /** No two ids are filed under one caller, and every filed caller exists. */
  lemma FiledApart(trace: seq<Action>, s: Peer)
    requires After(START, trace) == Some(s)
    ensures forall i: nat, j: nat | i in s.pending && j in s.pending && i != j :: s.pending[i] != s.pending[j]
    ensures forall i: nat | i in s.pending :: s.pending[i] < |s.callers| && Outstanding(s.callers[s.pending[i]])
  {
    forall i: nat | i in s.pending ensures s.pending[i] < |s.callers| && Outstanding(s.callers[s.pending[i]]) { FiledIsWaiting(trace, s, i); }
    forall i: nat, j: nat | i in s.pending && j in s.pending && i != j ensures s.pending[i] != s.pending[j] { FiledIsWaiting(trace, s, i); }
  }

  lemma NextIdIsFree(trace: seq<Action>, s: Peer)
    requires After(START, trace) == Some(s)
    ensures s.nextId !in s.pending
  {
    AfterKeeps(trace);
    assert PendingOk(s, s.nextId);
    forall i: nat | i < |s.callers| && HasId(s.callers[i]) ensures s.callers[i].id < s.nextId { assert CallerOk(s, i); }
  }
}
