/**
 The single supervisor lease: taken by inserting the one row, released only by its owner, and reaped only
 when its owner's process, on this host, is provably gone.
 */
module Lease {
  import opened Prelude
  import Decimal
  import opened Ids

  datatype LeaseRow = LeaseRow(owner: string, note: string, takenAt: nat)

  datatype TakeReply = TakeReply(leased: bool, holder: string)

  /** `claim_owner_token`. */
  function OwnerToken(o: Owner): string { o.host + ":" + Decimal.Print(o.pid) }

  /** `^host:pid$`, where `$` also stands before one final newline. */
  function ParseToken(owner: string): Option<Owner> {
    var s := if |owner| > 0 && owner[|owner| - 1] == '\n' then owner[..|owner| - 1] else owner;
    ParseOwnerBody(s + "]")
  }

  /** The reaper reads back the very process that took the lease. */
  lemma TokenRoundTrip(o: Owner)
    requires ValidHost(o.host) && o.pid > 0
    ensures ParseToken(OwnerToken(o)) == Some(o) && ParseToken(OwnerToken(o) + "\n") == Some(o)
  {
    OwnerBody(o);
    var token := OwnerToken(o);
    assert token + "]" == OwnerText(o);
    assert token[|token| - 1] == OwnerText(o)[|token| - 1];
    assert (token + "\n")[..|token|] == token;
  }

  /** A lease's owner is read as a process only when it is that process's token, a last newline aside. */
  lemma TokenIsNamed(owner: string, o: Owner)
    requires ParseToken(owner) == Some(o)
    ensures ValidHost(o.host) && o.pid > 0 && (owner == OwnerToken(o) || owner == OwnerToken(o) + "\n")
  {
    var s := if |owner| > 0 && owner[|owner| - 1] == '\n' then owner[..|owner| - 1] else owner;
    BodyIsText(s + "]", o);
    assert OwnerText(o) == OwnerToken(o) + "]";
    assert (s + "]")[..|s|] == s && (OwnerToken(o) + "]")[..|OwnerToken(o)|] == OwnerToken(o);
  }

  lemma TokenInjective(a: Owner, b: Owner)
    requires ValidHost(a.host) && a.pid > 0 && ValidHost(b.host) && b.pid > 0
    ensures OwnerToken(a) == OwnerToken(b) <==> a == b
  {
    TokenRoundTrip(a);
    TokenRoundTrip(b);
  }

  function Take(row: Option<LeaseRow>, owner: string, note: string, now: nat): (Option<LeaseRow>, TakeReply) {
    match row
    case Some(r) => (row, TakeReply(r.owner == owner, r.owner))
    case None => (Some(LeaseRow(owner, note, now)), TakeReply(true, owner))
  }

  function Release(row: Option<LeaseRow>, owner: string): Option<LeaseRow> {
    if row.Some? && row.value.owner == owner then None else row
  }

  /** Whether the row names a process of this host that the liveness test calls gone. */
  predicate Reapable(row: Option<LeaseRow>, host: string, alive: nat -> bool) {
    && row.Some? && ParseToken(row.value.owner).Some?
    && var o := ParseToken(row.value.owner).value; o.host == host && !alive(o.pid)
  }

  function Reap(row: Option<LeaseRow>, host: string, alive: nat -> bool): Option<LeaseRow> {
    if Reapable(row, host, alive) then None else row
  }

  class SupervisorLease {
    var row: Option<LeaseRow>

    constructor ()
      ensures row.None?
    {
      row := None;
    }

    method TakeLease(owner: string, note: string, now: nat) returns (r: TakeReply)
      modifies this
      ensures (row, r) == Take(old(row), owner, note, now)
      ensures row.Some? && r.holder == row.value.owner && (r.leased <==> row.value.owner == owner)
      ensures row == if old(row).Some? then old(row) else Some(LeaseRow(owner, note, now))
    {
      if row.None? {
        row := Some(LeaseRow(owner, note, now));
        return TakeReply(true, owner);
      }
      return TakeReply(row.value.owner == owner, row.value.owner);
    }

    method ReleaseLease(owner: string) returns (gone: bool)
      modifies this
      ensures row == Release(old(row), owner)
      ensures gone <==> old(row).Some? && old(row).value.owner == owner
      ensures row == if gone then None else old(row)
    {
      gone := row.Some? && row.value.owner == owner;
      if gone { row := None; }
    }

    method ReapLease(host: string, alive: nat -> bool) returns (reaped: Option<(LeaseRow, Owner)>)
      modifies this
      ensures row == Reap(old(row), host, alive)
      ensures reaped.Some? <==> Reapable(old(row), host, alive)
      ensures row == if reaped.Some? then None else old(row)
      ensures reaped.Some? <==> old(row).Some? && exists o :: ParseToken(old(row).value.owner) == Some(o) && o.host == host && !alive(o.pid)
      ensures reaped.Some? ==> Some(reaped.value.0) == old(row) && ParseToken(reaped.value.0.owner) == Some(reaped.value.1)
    {
      if row.None? { return None; }
      var o := ParseToken(row.value.owner);
      if o.None? || o.value.host != host { return None; }
      if alive(o.value.pid) { return None; }
      reaped := Some((row.value, o.value));
      row := None;
    }
  }

  /* ---- processes ---- */

  /** `believes` is what a process has been told and has not since given up. */
  datatype Proc = Proc(owner: Owner, alive: bool, believes: bool)

  datatype Sys = Sys(row: Option<LeaseRow>, procs: seq<Proc>)

  datatype Action =
    | Spawn(owner: Owner)
    | DoTake(p: nat, note: string)
    | DoRelease(p: nat)
    | DoReap(host: string, alive: nat -> bool)
    | Die(p: nat)

  const START := Sys(None, [])

  /** Pids are not recycled, and the liveness test never calls a live process dead. */
  predicate Enabled(s: Sys, a: Action) {
    match a
    case Spawn(o) => ValidHost(o.host) && o.pid > 0 && forall q | 0 <= q < |s.procs| :: s.procs[q].owner != o
    case DoTake(p, _) => p < |s.procs| && s.procs[p].alive
    case DoRelease(p) => p < |s.procs| && s.procs[p].alive
    case DoReap(host, alive) => forall q | 0 <= q < |s.procs| && s.procs[q].alive && s.procs[q].owner.host == host :: alive(s.procs[q].owner.pid)
    case Die(p) => p < |s.procs|
  }

  function Next(s: Sys, a: Action, now: nat): Sys
    requires Enabled(s, a)
  {
    match a
    case Spawn(o) => s.(procs := s.procs + [Proc(o, true, false)])
    case DoTake(p, note) =>
      var (row, reply) := Take(s.row, OwnerToken(s.procs[p].owner), note, now);
      Sys(row, s.procs[p := s.procs[p].(believes := reply.leased)])
    case DoRelease(p) => Sys(Release(s.row, OwnerToken(s.procs[p].owner)), s.procs[p := s.procs[p].(believes := false)])
    case DoReap(host, alive) => s.(row := Reap(s.row, host, alive))
    case Die(p) => s.(procs := s.procs[p := s.procs[p].(alive := false)])
  }

  predicate Holds(s: Sys, p: nat) { p < |s.procs| && s.row.Some? && s.row.value.owner == OwnerToken(s.procs[p].owner) }

  predicate ProcOk(s: Sys, p: nat) {
    p < |s.procs| ==>
      && ValidHost(s.procs[p].owner.host) && s.procs[p].owner.pid > 0
      && (s.procs[p].alive && s.procs[p].believes ==> Holds(s, p))
  }

  ghost predicate Inv(s: Sys) {
    && (forall p: nat :: ProcOk(s, p))
    && (forall p, q | 0 <= p < q < |s.procs| :: s.procs[p].owner != s.procs[q].owner)
    && (s.row.Some? ==> exists p | 0 <= p < |s.procs| :: Holds(s, p))
  }

  lemma AtMostOneHolds(s: Sys, p: nat, q: nat)
    requires Inv(s) && Holds(s, p) && Holds(s, q)
    ensures p == q
  {
    assert ProcOk(s, p) && ProcOk(s, q);
    TokenInjective(s.procs[p].owner, s.procs[q].owner);
  }

  lemma NextKeeps(s: Sys, a: Action, now: nat)
    requires Inv(s) && Enabled(s, a)
    ensures Inv(Next(s, a, now))
  {
    var s' := Next(s, a, now);
    forall p: nat ensures ProcOk(s', p) {
      assert ProcOk(s, p);
      if p < |s.procs| && s.procs[p].alive && s.procs[p].believes {
        TokenRoundTrip(s.procs[p].owner);
        if a.DoRelease? && a.p != p {
          assert ProcOk(s, a.p);
          TokenInjective(s.procs[p].owner, s.procs[a.p].owner);
        }
      }
    }
    if s'.row.Some? {
      if a.DoTake? && s.row.None? { assert Holds(s', a.p); }
      else {
        var p :| 0 <= p < |s.procs| && Holds(s, p);
        assert Holds(s', p);
      }
    }
  }

  ghost predicate IsRun(states: seq<Sys>, actions: seq<(Action, nat)>) {
    && |states| == |actions| + 1 && states[0] == START
    && forall k | 0 <= k < |actions| :: Enabled(states[k], actions[k].0) && states[k + 1] == Next(states[k], actions[k].0, actions[k].1)
  }

  lemma {:induction false} RunKeeps(states: seq<Sys>, actions: seq<(Action, nat)>, n: nat)
    requires IsRun(states, actions) && n < |states|
    ensures Inv(states[n])
  {
    if n > 0 {
      RunKeeps(states, actions, n - 1);
      NextKeeps(states[n - 1], actions[n - 1].0, actions[n - 1].1);
    }
  }

  /** In every run at most one live process believes it is the supervisor, and it is right. */
  lemma OneSupervisor(states: seq<Sys>, actions: seq<(Action, nat)>, n: nat, p: nat, q: nat)
    requires IsRun(states, actions) && n < |states|
    requires var s := states[n];
      p < |s.procs| && q < |s.procs| && s.procs[p].alive && s.procs[q].alive && s.procs[p].believes && s.procs[q].believes
    ensures p == q && Holds(states[n], p)
  {
    RunKeeps(states, actions, n);
    assert ProcOk(states[n], p) && ProcOk(states[n], q);
    AtMostOneHolds(states[n], p, q);
  }

  /** Nothing but the holder's own release, or its death, can end a lease. */
  lemma LeaseOutlivesOthers(s: Sys, a: Action, now: nat, p: nat)
    requires Inv(s) && Enabled(s, a) && Holds(s, p) && s.procs[p].alive && a != DoRelease(p)
    ensures Holds(Next(s, a, now), p)
  {
    assert ProcOk(s, p);
    TokenRoundTrip(s.procs[p].owner);
    if a.DoRelease? {
      assert ProcOk(s, a.p);
      TokenInjective(s.procs[p].owner, s.procs[a.p].owner);
    }
  }

  /**
   After the holder dies, a reap on its own host that sees it gone lets the next comer in; a reap
   anywhere else, or one that cannot tell, leaves the lease where it is.
   */
  lemma DeadHolderIsReplaced(s: Sys, p: nat, q: nat, host: string, alive: nat -> bool, note: string, now: nat)
    requires Inv(s) && Holds(s, p) && p != q && q < |s.procs|
    ensures var row := Reap(s.row, host, alive);
      Take(row, OwnerToken(s.procs[q].owner), note, now).1.leased <==> host == s.procs[p].owner.host && !alive(s.procs[p].owner.pid)
  {
    assert ProcOk(s, p) && ProcOk(s, q);
    TokenRoundTrip(s.procs[p].owner);
    TokenInjective(s.procs[p].owner, s.procs[q].owner);
  }
}
