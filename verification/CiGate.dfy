/** The merge gate's decision over the check runs and statuses reported for a pull request's head. */
module CiGate {
  import opened Prelude
  import Lex

  /* Only the newest run of each name counts, and one named failure, `gate`, is excused by a later green `ui-evidence`. */

  /** A name as JSON gives it: absent, null or a string. */
  datatype Name = Missing | Nil | Named(s: string)

  datatype Run = Run(name: Name, headSha: Option<string>, status: Option<string>, conclusion: Option<string>,
    completedAt: Option<string>, startedAt: Option<string>)

  /** An entry of the check-runs list; anything but an object has no SHA and is refused for it. */
  datatype Entry = NotAnObject | Object(run: Run)

  datatype Status = Status(context: Option<string>, state: Option<string>)

  datatype Reason = NoHead | Unreadable | WrongSha(index: nat) | NothingReported | NotGreen(runs: seq<Run>, statuses: seq<Status>)

  datatype Decision = Allow | Refuse(reason: Reason)

  function NameOf(r: Run): Name { if r.name.Missing? then Named("?") else r.name }

  function Or(a: Option<string>, b: string): string { if a.Some? && a.value != "" then a.value else b }

  /** `completed_at`, else `started_at`, else empty. */
  function SortKey(r: Run): string { Or(r.completedAt, Or(r.startedAt, "")) }

  predicate Done(r: Run) { r.status == Some("completed") }

  predicate Green(r: Run) { Done(r) && r.conclusion in {Some("success"), Some("neutral"), Some("skipped")} }

  /** Run `i` is the one its name stands by: no other of that name is newer, and a tie goes to the later entry. */
  predicate IsLatest(runs: seq<Run>, i: nat) {
    i < |runs| && forall j | 0 <= j < |runs| && NameOf(runs[j]) == NameOf(runs[i]) ::
      if i < j then Lex.Less(SortKey(runs[j]), SortKey(runs[i])) else !Lex.Less(SortKey(runs[i]), SortKey(runs[j]))
  }

  /** A `gate` failure outlived by the newest `ui-evidence`, itself green and strictly later. */
  predicate Excused(runs: seq<Run>, i: nat)
    requires i < |runs|
  {
    && NameOf(runs[i]) == Named("gate") && Done(runs[i]) && runs[i].conclusion == Some("failure")
    && exists j | 0 <= j < |runs| :: IsLatest(runs, j) && NameOf(runs[j]) == Named("ui-evidence") && Green(runs[j])
         && Lex.Less(SortKey(runs[i]), SortKey(runs[j]))
  }

  predicate Passes(runs: seq<Run>, i: nat) { IsLatest(runs, i) ==> Green(runs[i]) || Excused(runs, i) }

  /** What the gate stands for. */
  predicate Allowed(sha: string, runs: seq<Run>, statuses: seq<Status>) {
    && (runs != [] || statuses != [])
    && (forall i | 0 <= i < |runs| :: runs[i].headSha == Some(sha))
    && (forall s | s in statuses :: s.state == Some("success"))
    && (forall i | 0 <= i < |runs| :: Passes(runs, i))
  }

  /* ---- the newest run of every name ---- */

  lemma LatestIsUnique(runs: seq<Run>, i: nat, j: nat)
    requires IsLatest(runs, i) && IsLatest(runs, j) && NameOf(runs[i]) == NameOf(runs[j])
    ensures i == j
  {
  }

  lemma NotLessTransitive(a: string, b: string, c: string)
    requires !Lex.Less(a, b) && !Lex.Less(b, c)
    ensures !Lex.Less(a, c)
    ensures Lex.Less(b, a) || Lex.Less(c, b) ==> Lex.Less(c, a)
  {
  }

  /** One more run either takes over its name or leaves every name as it was. */
  lemma OneMoreRun(runs: seq<Run>, r: Run, current: nat, i: nat)
    requires IsLatest(runs, current) && NameOf(runs[current]) == NameOf(r) && i <= |runs|
    ensures var more := runs + [r];
      IsLatest(more, i) <==>
        if i == |runs| then !Lex.Less(SortKey(r), SortKey(runs[current]))
        else IsLatest(runs, i) && (NameOf(runs[i]) == NameOf(r) ==> Lex.Less(SortKey(r), SortKey(runs[current])))
  {
    var more := runs + [r];
    assert forall j | 0 <= j < |runs| :: more[j] == runs[j];
    if i == |runs| {
      forall j | 0 <= j < |runs| && NameOf(runs[j]) == NameOf(r)
        ensures !Lex.Less(SortKey(r), SortKey(runs[current])) ==> !Lex.Less(SortKey(r), SortKey(runs[j]))
      {
        if !Lex.Less(SortKey(r), SortKey(runs[current])) {
          if current < j { Lex.Total(SortKey(runs[j]), SortKey(runs[current])); }
          NotLessTransitive(SortKey(r), SortKey(runs[current]), SortKey(runs[j]));
        }
      }
      Lex.Total(SortKey(r), SortKey(r));
      assert IsLatest(more, i) ==> !Lex.Less(SortKey(more[i]), SortKey(more[current]));
    } else {
      if IsLatest(runs, i) && NameOf(runs[i]) == NameOf(r) { LatestIsUnique(runs, i, current); }
      if IsLatest(more, i) {
        assert NameOf(more[|runs|]) == NameOf(more[i]) ==> Lex.Less(SortKey(more[|runs|]), SortKey(more[i]));
        assert IsLatest(runs, i);
      }
    }
  }

  lemma FirstOfItsName(runs: seq<Run>, r: Run, i: nat)
    requires i <= |runs| && forall j | 0 <= j < |runs| :: NameOf(runs[j]) != NameOf(r)
    ensures IsLatest(runs + [r], i) <==> i == |runs| || IsLatest(runs, i)
  {
    var more := runs + [r];
    assert forall j | 0 <= j < |runs| :: more[j] == runs[j];
    Lex.Total(SortKey(r), SortKey(r));
    if i < |runs| && IsLatest(more, i) { assert IsLatest(runs, i); }
  }

  /** `latest` maps each name to the position of its newest run among the first `n`; `order` is first appearance. */
  predicate Tracks(runs: seq<Run>, n: nat, order: seq<Name>, latest: map<Name, nat>)
    requires n <= |runs|
  {
    && (forall name | name in order :: name in latest) && (forall name | name in latest :: name in order)
    && (forall i | 0 <= i < n :: NameOf(runs[i]) in latest)
    && (forall name | name in latest :: latest[name] < n && NameOf(runs[latest[name]]) == name && IsLatest(runs[..n], latest[name]))
    && (forall k, l | 0 <= k < l < |order| :: order[k] != order[l])
  }

  lemma TrackKnownName(runs: seq<Run>, n: nat, order: seq<Name>, latest: map<Name, nat>)
    requires n < |runs| && Tracks(runs, n, order, latest) && NameOf(runs[n]) in latest
    ensures var name := NameOf(runs[n]);
      Tracks(runs, n + 1, order, if !Lex.Less(SortKey(runs[n]), SortKey(runs[latest[name]])) then latest[name := n] else latest)
  {
    var name, before := NameOf(runs[n]), runs[..n];
    assert runs[..n + 1] == before + [runs[n]];
    forall other | other in latest ensures IsLatest(before, latest[other]) ==>
      (IsLatest(runs[..n + 1], latest[other]) <==> (other == name ==> Lex.Less(SortKey(runs[n]), SortKey(runs[latest[name]]))))
    {
      OneMoreRun(before, runs[n], latest[name], latest[other]);
    }
    OneMoreRun(before, runs[n], latest[name], n);
  }

  lemma TrackNewName(runs: seq<Run>, n: nat, order: seq<Name>, latest: map<Name, nat>)
    requires n < |runs| && Tracks(runs, n, order, latest) && NameOf(runs[n]) !in latest
    ensures Tracks(runs, n + 1, order + [NameOf(runs[n])], latest[NameOf(runs[n]) := n])
  {
    var before := runs[..n];
    assert runs[..n + 1] == before + [runs[n]];
    assert forall i | 0 <= i < n :: before[i] == runs[i];
    forall other | other in latest ensures IsLatest(runs[..n + 1], latest[other]) { FirstOfItsName(before, runs[n], latest[other]); }
    FirstOfItsName(before, runs[n], n);
  }

  /** `_latest_per_name`: exactly the runs their names stand by, one a name. */
  method LatestPerName(runs: seq<Run>) returns (order: seq<Name>, latest: map<Name, nat>)
    ensures Tracks(runs, |runs|, order, latest)
    ensures forall i | 0 <= i < |runs| :: IsLatest(runs, i) <==> latest[NameOf(runs[i])] == i
  {
    order, latest := [], map[];
    for n := 0 to |runs|
      invariant Tracks(runs, n, order, latest)
    {
      var name := NameOf(runs[n]);
      if name in latest { TrackKnownName(runs, n, order, latest); } else { TrackNewName(runs, n, order, latest); }
      if name !in latest {
        order, latest := order + [name], latest[name := n];
      } else if !Lex.Less(SortKey(runs[n]), SortKey(runs[latest[name]])) {
        latest := latest[name := n];
      }
    }
    assert runs[..|runs|] == runs;
    forall i | 0 <= i < |runs| ensures IsLatest(runs, i) <==> latest[NameOf(runs[i])] == i {
      if IsLatest(runs, i) { LatestIsUnique(runs, i, latest[NameOf(runs[i])]); }
    }
  }

  /** `_gate_superseded_by_ui_evidence`. */
  method GateSuperseded(runs: seq<Run>, order: seq<Name>, latest: map<Name, nat>) returns (r: bool)
    requires Tracks(runs, |runs|, order, latest)
    requires forall i | 0 <= i < |runs| :: IsLatest(runs, i) <==> latest[NameOf(runs[i])] == i
    ensures r <==> Named("gate") in latest && Excused(runs, latest[Named("gate")])
  {
    if Named("gate") !in latest { return false; }
    var gate := runs[latest[Named("gate")]];
    if !(Done(gate) && gate.conclusion == Some("failure")) { return false; }
    if Named("ui-evidence") !in latest { return false; }
    var evidence := runs[latest[Named("ui-evidence")]];
    if !Green(evidence) { return false; }
    return Lex.Less(SortKey(gate), SortKey(evidence));
  }

  /* ---- the decision ---- */

  function RunsOf(entries: seq<Entry>): seq<Run>
    requires forall e | e in entries :: e.Object?
  {
    seq(|entries|, i requires 0 <= i < |entries| => entries[i].run)
  }

  predicate RightSha(e: Entry, sha: string) { e.Object? && e.run.headSha == Some(sha) }

  /** The runs that stop a merge, in the order their names first appeared. */
  method FailingRuns(runs: seq<Run>) returns (failing: seq<Run>)
    ensures failing == [] <==> forall i | 0 <= i < |runs| :: Passes(runs, i)
    ensures forall r | r in failing :: exists i | 0 <= i < |runs| :: IsLatest(runs, i) && runs[i] == r && !Passes(runs, i)
  {
    var order, latest := LatestPerName(runs);
    var superseded := GateSuperseded(runs, order, latest);
    failing := [];
    for k := 0 to |order|
      invariant failing == [] <==> forall l | 0 <= l < k :: Passes(runs, latest[order[l]])
      invariant forall r | r in failing :: exists i | 0 <= i < |runs| :: IsLatest(runs, i) && runs[i] == r && !Passes(runs, i)
    {
      var i := latest[order[k]];
      if !Green(runs[i]) && !(superseded && runs[i].name == Named("gate")) {
        assert IsLatest(runs, i) && runs[i] == runs[i] && !Passes(runs, i);
        failing := failing + [runs[i]];
      }
    }
    forall i | 0 <= i < |runs| ensures failing == [] ==> Passes(runs, i) {
      if IsLatest(runs, i) {
        var l :| 0 <= l < |order| && order[l] == NameOf(runs[i]);
        assert latest[order[l]] == i;
      }
    }
  }

  method FailingStatuses(statuses: seq<Status>) returns (failing: seq<Status>)
    ensures failing == [] <==> forall s | s in statuses :: s.state == Some("success")
    ensures forall s | s in failing :: s in statuses && s.state != Some("success")
  {
    failing := [];
    for k := 0 to |statuses|
      invariant failing == [] <==> forall s | s in statuses[..k] :: s.state == Some("success")
      invariant forall s | s in failing :: s in statuses && s.state != Some("success")
    {
      assert statuses[..k + 1] == statuses[..k] + [statuses[k]];
      if statuses[k].state != Some("success") { failing := failing + [statuses[k]]; }
    }
    assert statuses[..|statuses|] == statuses;
  }

  /** `evaluate`: a head or checks that cannot be read are an error the caller passes in as None. */
  method Evaluate(head: Option<string>, checks: Option<(seq<Entry>, seq<Status>)>) returns (d: Decision)
    ensures d.Allow? <==>
      && head.Some? && head.value != "" && checks.Some?
      && (forall e | e in checks.value.0 :: RightSha(e, head.value))
      && Allowed(head.value, RunsOf(checks.value.0), checks.value.1)
    ensures d.Refuse? && d.reason.WrongSha? ==>
      && head.Some? && checks.Some? && d.reason.index < |checks.value.0| && !RightSha(checks.value.0[d.reason.index], head.value)
      && forall j | 0 <= j < d.reason.index :: RightSha(checks.value.0[j], head.value)
    ensures d.Refuse? && d.reason.NothingReported? ==> checks == Some(([], []))
  {
    if head.None? || head.value == "" { return Refuse(NoHead); }
    if checks.None? { return Refuse(Unreadable); }
    var (entries, statuses) := checks.value;
    for i := 0 to |entries|
      invariant forall j | 0 <= j < i :: RightSha(entries[j], head.value)
    {
      if !RightSha(entries[i], head.value) { return Refuse(WrongSha(i)); }
    }
    if entries == [] && statuses == [] { return Refuse(NothingReported); }
    var runs := RunsOf(entries);
    var failingRuns := FailingRuns(runs);
    var failingStatuses := FailingStatuses(statuses);
    if failingRuns != [] || failingStatuses != [] { return Refuse(NotGreen(failingRuns, failingStatuses)); }
    return Allow;
  }

  /* ---- what the decision does not depend on ---- */

  predicate DistinctKeys(runs: seq<Run>) {
    forall i, j | 0 <= i < j < |runs| && NameOf(runs[i]) == NameOf(runs[j]) :: SortKey(runs[i]) != SortKey(runs[j])
  }

  /** The same runs reordered, repeated or with some non-latest ones left out. */
  predicate SameNewest(runs: seq<Run>, runs': seq<Run>) {
    && (forall r | r in runs' :: r in runs)
    && (forall i | 0 <= i < |runs| && IsLatest(runs, i) :: runs[i] in runs')
  }

  /** Every name that has a run has a newest one. */
  lemma {:induction false} SomeLatest(runs: seq<Run>, i: nat) returns (j: nat)
    requires i < |runs|
    ensures IsLatest(runs, j) && NameOf(runs[j]) == NameOf(runs[i])
  {
    var n := |runs| - 1;
    var before, r := runs[..n], runs[n];
    assert runs == before + [r];
    if exists k | 0 <= k < n :: NameOf(before[k]) == NameOf(r) {
      var k :| 0 <= k < n && NameOf(before[k]) == NameOf(r);
      var current := SomeLatest(before, k);
      if NameOf(runs[i]) == NameOf(r) {
        OneMoreRun(before, r, current, n);
        OneMoreRun(before, r, current, current);
        j := if Lex.Less(SortKey(r), SortKey(before[current])) then current else n;
      } else {
        j := SomeLatest(before, i);
        OneMoreRun(before, r, current, j);
      }
    } else if i == n {
      j := n;
      FirstOfItsName(before, r, n);
    } else {
      j := SomeLatest(before, i);
      FirstOfItsName(before, r, j);
    }
  }

  /** The newest run of a name is the same run, wherever it now stands. */
  lemma NewestSurvives(runs: seq<Run>, runs': seq<Run>, i: nat, i': nat)
    requires DistinctKeys(runs) && SameNewest(runs, runs') && IsLatest(runs, i) && IsLatest(runs', i')
    requires NameOf(runs[i]) == NameOf(runs'[i'])
    ensures runs[i] == runs'[i']
  {
    assert runs[i] in runs' && runs'[i'] in runs;
    var k' :| 0 <= k' < |runs'| && runs'[k'] == runs[i];
    var k :| 0 <= k < |runs| && runs[k] == runs'[i'];
    Lex.Total(SortKey(runs[i]), SortKey(runs[k]));
  }

  lemma NewestExists(runs: seq<Run>, runs': seq<Run>, i: nat) returns (i': nat)
    requires DistinctKeys(runs) && SameNewest(runs, runs') && IsLatest(runs, i)
    ensures IsLatest(runs', i') && runs'[i'] == runs[i]
  {
    var k' :| 0 <= k' < |runs'| && runs'[k'] == runs[i];
    i' := SomeLatest(runs', k');
    NewestSurvives(runs, runs', i, i');
  }

  lemma NewestWasNewest(runs: seq<Run>, runs': seq<Run>, i': nat) returns (i: nat)
    requires DistinctKeys(runs) && SameNewest(runs, runs') && IsLatest(runs', i')
    ensures IsLatest(runs, i) && runs'[i'] == runs[i]
  {
    assert runs'[i'] in runs;
    var k :| 0 <= k < |runs| && runs[k] == runs'[i'];
    i := SomeLatest(runs, k);
    NewestSurvives(runs, runs', i, i');
  }

  lemma PassesAlike(runs: seq<Run>, runs': seq<Run>, i: nat, i': nat)
    requires DistinctKeys(runs) && SameNewest(runs, runs')
    requires IsLatest(runs, i) && IsLatest(runs', i') && runs[i] == runs'[i']
    ensures Passes(runs, i) <==> Passes(runs', i')
  {
    if Excused(runs, i) {
      var j :| 0 <= j < |runs| && IsLatest(runs, j) && NameOf(runs[j]) == Named("ui-evidence") && Green(runs[j])
        && Lex.Less(SortKey(runs[i]), SortKey(runs[j]));
      var j' := NewestExists(runs, runs', j);
    }
    if Excused(runs', i') {
      var j' :| 0 <= j' < |runs'| && IsLatest(runs', j') && NameOf(runs'[j']) == Named("ui-evidence") && Green(runs'[j'])
        && Lex.Less(SortKey(runs'[i']), SortKey(runs'[j']));
      var j := NewestWasNewest(runs, runs', j');
    }
  }

  /**
   With no two runs of a name equally old, neither the order the API lists them in nor the older runs
   matter: the decision is the same.
   */
  lemma OnlyNewestRunsMatter(sha: string, runs: seq<Run>, runs': seq<Run>, statuses: seq<Status>, statuses': seq<Status>)
    requires DistinctKeys(runs) && SameNewest(runs, runs')
    requires forall i | 0 <= i < |runs| :: runs[i].headSha == Some(sha)
    requires forall s :: s in statuses <==> s in statuses'
    ensures Allowed(sha, runs, statuses) <==> Allowed(sha, runs', statuses')
  {
    forall i' | 0 <= i' < |runs'| ensures runs'[i'].headSha == Some(sha) { assert runs'[i'] in runs; }
    if runs != [] { var top := SomeLatest(runs, 0); assert runs[top] in runs'; }
    if runs' != [] { assert runs'[0] in runs; }
    if statuses != [] { assert statuses[0] in statuses'; }
    if statuses' != [] { assert statuses'[0] in statuses; }
    if forall i | 0 <= i < |runs| :: Passes(runs, i) {
      forall i' | 0 <= i' < |runs'| ensures Passes(runs', i') {
        if IsLatest(runs', i') {
          var i := NewestWasNewest(runs, runs', i');
          PassesAlike(runs, runs', i, i');
        }
      }
    }
    if forall i' | 0 <= i' < |runs'| :: Passes(runs', i') {
      forall i | 0 <= i < |runs| ensures Passes(runs, i) {
        if IsLatest(runs, i) {
          var i' := NewestExists(runs, runs', i);
          PassesAlike(runs, runs', i, i');
        }
      }
    }
  }

  /* ---- in terms of the runs' own fields ---- */

  /** When a run was last heard of: when it completed, else when it started, else never. */
  predicate HeardAt(r: Run, at: string) {
    if r.completedAt.Some? && r.completedAt.value != "" then at == r.completedAt.value
    else if r.startedAt.Some? && r.startedAt.value != "" then at == r.startedAt.value
    else at == ""
  }

  predicate SameName(a: Run, b: Run) {
    a.name == b.name || (a.name == Missing && b.name == Named("?")) || (a.name == Named("?") && b.name == Missing)
  }

  /** A run stands for its name exactly when none of that name was heard of later, and none as late is listed after it. */
  lemma LatestIsLastHeardOf(runs: seq<Run>, i: nat)
    requires i < |runs|
    ensures IsLatest(runs, i) <==> forall j | 0 <= j < |runs| && SameName(runs[i], runs[j]) ::
      exists a, b :: HeardAt(runs[i], a) && HeardAt(runs[j], b) && if i < j then Lex.Less(b, a) else !Lex.Less(a, b)
  {
    forall j | 0 <= j < |runs|
      ensures (exists a, b :: HeardAt(runs[i], a) && HeardAt(runs[j], b) && if i < j then Lex.Less(b, a) else !Lex.Less(a, b))
        <==> if i < j then Lex.Less(SortKey(runs[j]), SortKey(runs[i])) else !Lex.Less(SortKey(runs[i]), SortKey(runs[j]))
    {
      assert HeardAt(runs[i], SortKey(runs[i])) && HeardAt(runs[j], SortKey(runs[j]));
    }
  }

  predicate Passed(r: Run) {
    r.status == Some("completed") && (r.conclusion == Some("success") || r.conclusion == Some("neutral") || r.conclusion == Some("skipped"))
  }

  /** One run alone is allowed exactly when it is of the head, completed, and a success, neutral or skipped. */
  lemma OneRunAllowed(sha: string, r: Run)
    ensures Allowed(sha, [r], []) <==> r.headSha == Some(sha) && Passed(r)
  {
    var runs := [r];
    Lex.Total(SortKey(r), SortKey(r));
    assert IsLatest(runs, 0);
    assert Named("gate") != Named("ui-evidence");
    assert Passes(runs, 0) <==> Green(r);
  }

  /** A failed gate beside one run of `ui-evidence`: excused exactly by a pass heard of strictly later. */
  lemma FailedGateAllowed(sha: string, gate: Run, evidence: Run, a: string, b: string)
    requires gate.name == Named("gate") && gate.headSha == Some(sha) && gate.status == Some("completed") && gate.conclusion == Some("failure")
    requires evidence.name == Named("ui-evidence") && evidence.headSha == Some(sha) && HeardAt(gate, a) && HeardAt(evidence, b)
    ensures Allowed(sha, [gate, evidence], []) <==> Passed(evidence) && Lex.Less(a, b)
    ensures Allowed(sha, [evidence, gate], []) <==> Passed(evidence) && Lex.Less(a, b)
  {
    TwoNames(gate, evidence);
    TwoNames(evidence, gate);
    GatePair(sha, [gate, evidence], 0, 1);
    GatePair(sha, [evidence, gate], 1, 0);
  }

  lemma GatePair(sha: string, runs: seq<Run>, g: nat, e: nat)
    requires |runs| == 2 && g < 2 && e < 2 && g != e && IsLatest(runs, 0) && IsLatest(runs, 1) && (forall i | 0 <= i < 2 :: runs[i].headSha == Some(sha))
    requires runs[g].name == Named("gate") && runs[g].status == Some("completed") && runs[g].conclusion == Some("failure")
    requires runs[e].name == Named("ui-evidence")
    ensures Allowed(sha, runs, []) <==> Green(runs[e]) && Lex.Less(SortKey(runs[g]), SortKey(runs[e]))
  {
    assert Named("gate") != Named("ui-evidence") by { assert |"gate"| != |"ui-evidence"|; }
    assert Passes(runs, e) <==> Green(runs[e]);
    assert !Green(runs[g]);
    assert Passes(runs, g) <==> Green(runs[e]) && Lex.Less(SortKey(runs[g]), SortKey(runs[e]));
  }

  lemma TwoNames(x: Run, y: Run)
    requires NameOf(x) != NameOf(y)
    ensures IsLatest([x, y], 0) && IsLatest([x, y], 1)
  {
    Lex.Total(SortKey(x), SortKey(x));
    Lex.Total(SortKey(y), SortKey(y));
  }

  /** A failure that began first and ended last is what its name stands by, in either order. */
  lemma LongFailureRefuses(sha: string)
    ensures var failed := Run(Named("test"), Some(sha), Some("completed"), Some("failure"), Some("10:40"), Some("10:00"));
      var passed := Run(Named("test"), Some(sha), Some("completed"), Some("success"), Some("10:20"), Some("10:10"));
      !Allowed(sha, [failed, passed], []) && !Allowed(sha, [passed, failed], [])
  {
    var failed := Run(Named("test"), Some(sha), Some("completed"), Some("failure"), Some("10:40"), Some("10:00"));
    var passed := Run(Named("test"), Some(sha), Some("completed"), Some("success"), Some("10:20"), Some("10:10"));
    assert Lex.Less("10:20", "10:40") by {
      assert "10:20"[1..] == "0:20" && "10:40"[1..] == "0:40" && "0:20"[1..] == ":20" && "0:40"[1..] == ":40" && ":20"[1..] == "20" && ":40"[1..] == "40";
    }
    Lex.Total("10:40", "10:20");
    Lex.Total("10:40", "10:40");
    assert NameOf(failed) != Named("gate");
    assert IsLatest([failed, passed], 0) && IsLatest([passed, failed], 1);
    assert !Passes([failed, passed], 0) && !Passes([passed, failed], 1);
  }

  /* ---- when the order decides ---- */

  /** No run of its name is newer; of equally new ones each is a top. */
  predicate Top(runs: seq<Run>, r: Run) {
    r in runs && forall q | q in runs && NameOf(q) == NameOf(r) :: !Lex.Less(SortKey(r), SortKey(q))
  }

  /** Would not stop a merge if its name stood by it: green, or a failed gate older than some green top of `ui-evidence`. */
  predicate Acceptable(runs: seq<Run>, r: Run) {
    || Green(r)
    || (&& NameOf(r) == Named("gate") && Done(r) && r.conclusion == Some("failure")
        && exists q | q in runs :: Top(runs, q) && NameOf(q) == Named("ui-evidence") && Green(q) && Lex.Less(SortKey(r), SortKey(q)))
  }

  predicate AllPass(runs: seq<Run>) { forall i | 0 <= i < |runs| :: Passes(runs, i) }

  lemma LatestIsTop(runs: seq<Run>, i: nat)
    requires IsLatest(runs, i)
    ensures Top(runs, runs[i])
  {
    forall q | q in runs && NameOf(q) == NameOf(runs[i]) ensures !Lex.Less(SortKey(runs[i]), SortKey(q)) {
      var j :| 0 <= j < |runs| && runs[j] == q;
      Lex.Total(SortKey(q), SortKey(runs[i]));
    }
  }

  lemma TopsTie(runs: seq<Run>, a: Run, b: Run)
    requires Top(runs, a) && Top(runs, b) && NameOf(a) == NameOf(b)
    ensures SortKey(a) == SortKey(b)
  {
    Lex.Total(SortKey(a), SortKey(b));
  }

  /** Everything passes exactly when every name stands by an acceptable run. */
  lemma PassIffAcceptable(runs: seq<Run>)
    ensures AllPass(runs) <==> forall i | 0 <= i < |runs| && IsLatest(runs, i) :: Acceptable(runs, runs[i])
  {
    if AllPass(runs) {
      forall i | 0 <= i < |runs| && IsLatest(runs, i) ensures Acceptable(runs, runs[i]) {
        assert Passes(runs, i);
        if !Green(runs[i]) {
          var j :| 0 <= j < |runs| && IsLatest(runs, j) && NameOf(runs[j]) == Named("ui-evidence") && Green(runs[j])
            && Lex.Less(SortKey(runs[i]), SortKey(runs[j]));
          LatestIsTop(runs, j);
        }
      }
    }
    if forall i | 0 <= i < |runs| && IsLatest(runs, i) :: Acceptable(runs, runs[i]) {
      forall i | 0 <= i < |runs| ensures Passes(runs, i) {
        if IsLatest(runs, i) && !Green(runs[i]) { AcceptableIsExcused(runs, i); }
      }
    }
  }

  lemma AcceptableIsExcused(runs: seq<Run>, i: nat)
    requires IsLatest(runs, i) && !Green(runs[i])
    requires forall k | 0 <= k < |runs| && IsLatest(runs, k) :: Acceptable(runs, runs[k])
    ensures Excused(runs, i)
  {
    assert Acceptable(runs, runs[i]);
    var q :| q in runs && Top(runs, q) && NameOf(q) == Named("ui-evidence") && Green(q) && Lex.Less(SortKey(runs[i]), SortKey(q));
    var k :| 0 <= k < |runs| && runs[k] == q;
    var j := SomeLatest(runs, k);
    LatestIsTop(runs, j);
    TopsTie(runs, runs[j], q);
    assert Named("ui-evidence") != Named("gate");
    assert Green(runs[j]);
  }

  /** The same runs in some order. */
  predicate Reordered(runs: seq<Run>, runs': seq<Run>) { multiset(runs') == multiset(runs) }

  lemma SameRuns(runs: seq<Run>, runs': seq<Run>, r: Run)
    requires Reordered(runs, runs')
    ensures r in runs' <==> r in runs
    ensures Top(runs', r) <==> Top(runs, r)
    ensures Acceptable(runs', r) <==> Acceptable(runs, r)
  {
    assert forall q :: (q in runs' <==> q in multiset(runs')) && (q in runs <==> q in multiset(runs));
    assert forall q :: Top(runs', q) <==> Top(runs, q);
  }

  function Filter(runs: seq<Run>, p: Run -> bool): (s: seq<Run>)
    ensures forall r :: r in s <==> r in runs && p(r)
  {
    if runs == [] then [] else
      var front, last := Filter(runs[..|runs| - 1], p), runs[|runs| - 1];
      assert runs == runs[..|runs| - 1] + [last];
      if p(last) then front + [last] else front
  }

  /** Those that satisfy `p` after those that do not. */
  function Sift(runs: seq<Run>, p: Run -> bool): seq<Run> { Filter(runs, r => !p(r)) + Filter(runs, p) }

  lemma {:induction false} SiftReorders(runs: seq<Run>, p: Run -> bool)
    ensures Reordered(runs, Sift(runs, p))
  {
    if runs != [] {
      var front, last := runs[..|runs| - 1], runs[|runs| - 1];
      SiftReorders(front, p);
      assert runs == front + [last];
    }
  }

  /** Sifted, a name stands by a run that satisfies `p` as soon as one of its tops does. */
  lemma SiftedLatest(runs: seq<Run>, p: Run -> bool, i: nat, r: Run)
    requires IsLatest(Sift(runs, p), i) && Top(runs, r) && NameOf(r) == NameOf(Sift(runs, p)[i]) && p(r)
    ensures p(Sift(runs, p)[i])
  {
    var first, second := Filter(runs, r => !p(r)), Filter(runs, p);
    var s := first + second;
    var k :| 0 <= k < |second| && second[k] == r;
    var at := |first| + k;
    assert s[at] == r && NameOf(s[at]) == NameOf(s[i]);
    assert s[i] in runs && (s[i] in first || s[i] in second);
  }

  /** Every order lets the runs pass exactly when every top of every name is acceptable. */
  lemma EveryOrderPasses(runs: seq<Run>)
    ensures (forall runs' | Reordered(runs, runs') :: AllPass(runs')) <==> forall r | Top(runs, r) :: Acceptable(runs, r)
  {
    if forall r | Top(runs, r) :: Acceptable(runs, r) {
      forall runs' | Reordered(runs, runs') ensures AllPass(runs') {
        PassIffAcceptable(runs');
        forall i | 0 <= i < |runs'| && IsLatest(runs', i) ensures Acceptable(runs', runs'[i]) {
          LatestIsTop(runs', i);
          SameRuns(runs, runs', runs'[i]);
        }
      }
    }
    if r :| Top(runs, r) && !Acceptable(runs, r) { BadTopStops(runs, r); }
  }

  lemma BadTopStops(runs: seq<Run>, r: Run)
    requires Top(runs, r) && !Acceptable(runs, r)
    ensures exists runs' :: Reordered(runs, runs') && !AllPass(runs')
  {
    var bad := (q: Run) => !Acceptable(runs, q);
    var runs' := Sift(runs, bad);
    SiftReorders(runs, bad);
    SameRuns(runs, runs', r);
    var k :| 0 <= k < |runs'| && runs'[k] == r;
    var i := SomeLatest(runs', k);
    SiftedLatest(runs, bad, i, r);
    SameRuns(runs, runs', runs'[i]);
    PassIffAcceptable(runs');
  }

  /** Every name that has a run has an acceptable top. */
  predicate Passable(runs: seq<Run>) { forall i | 0 <= i < |runs| :: HasAcceptableTop(runs, NameOf(runs[i])) }

  predicate HasAcceptableTop(runs: seq<Run>, name: Name) { exists q | q in runs :: NameOf(q) == name && Top(runs, q) && Acceptable(runs, q) }

  lemma PassingOrderShows(runs: seq<Run>, runs': seq<Run>)
    requires Reordered(runs, runs') && AllPass(runs')
    ensures Passable(runs)
  {
    PassIffAcceptable(runs');
    forall n | 0 <= n < |runs| ensures HasAcceptableTop(runs, NameOf(runs[n])) {
      SameRuns(runs, runs', runs[n]);
      var k :| 0 <= k < |runs'| && runs'[k] == runs[n];
      var i := SomeLatest(runs', k);
      LatestIsTop(runs', i);
      SameRuns(runs, runs', runs'[i]);
    }
  }

  lemma PassingOrder(runs: seq<Run>) returns (runs': seq<Run>)
    requires Passable(runs)
    ensures Reordered(runs, runs') && AllPass(runs')
  {
    var good := (q: Run) => Acceptable(runs, q);
    runs' := Sift(runs, good);
    SiftReorders(runs, good);
    PassIffAcceptable(runs');
    forall i | 0 <= i < |runs'| && IsLatest(runs', i) ensures Acceptable(runs', runs'[i]) {
      SameRuns(runs, runs', runs'[i]);
      var q := AcceptableTop(runs, runs'[i]);
      SiftedLatest(runs, good, i, q);
    }
  }

  lemma AcceptableTop(runs: seq<Run>, r: Run) returns (q: Run)
    requires Passable(runs) && r in runs
    ensures NameOf(q) == NameOf(r) && Top(runs, q) && Acceptable(runs, q)
  {
    var n :| 0 <= n < |runs| && runs[n] == r;
    assert HasAcceptableTop(runs, NameOf(runs[n]));
    q :| q in runs && NameOf(q) == NameOf(r) && Top(runs, q) && Acceptable(runs, q);
  }

  /** Some order lets them pass exactly when every name has an acceptable top. */
  lemma SomeOrderPasses(runs: seq<Run>)
    ensures (exists runs' :: Reordered(runs, runs') && AllPass(runs')) <==> Passable(runs)
  {
    if runs' :| Reordered(runs, runs') && AllPass(runs') { PassingOrderShows(runs, runs'); }
    if Passable(runs) { var runs' := PassingOrder(runs); }
  }

  /** What no order changes: something reported, every run of the head, every status a success. */
  predicate Settled(sha: string, runs: seq<Run>, statuses: seq<Status>) {
    && (runs != [] || statuses != [])
    && (forall r | r in runs :: r.headSha == Some(sha))
    && (forall s | s in statuses :: s.state == Some("success"))
  }

  lemma AllowedIff(sha: string, runs: seq<Run>, runs': seq<Run>, statuses: seq<Status>)
    requires Reordered(runs, runs')
    ensures Allowed(sha, runs', statuses) <==> Settled(sha, runs, statuses) && AllPass(runs')
  {
    assert |runs| == |multiset(runs)| && |runs'| == |multiset(runs')|;
    forall r ensures r in runs' <==> r in runs { SameRuns(runs, runs', r); }
  }

  /**
   The order of the list decides exactly when, everything else being in order, every name has an
   acceptable newest run and some name has another, equally new, that is not.
   */
  lemma OrderDecidesIff(sha: string, runs: seq<Run>, statuses: seq<Status>)
    ensures (exists a, b :: Reordered(runs, a) && Reordered(runs, b) && Allowed(sha, a, statuses) && !Allowed(sha, b, statuses)) <==>
      Settled(sha, runs, statuses) && Passable(runs) && exists r :: Top(runs, r) && !Acceptable(runs, r)
  {
    EveryOrderPasses(runs);
    SomeOrderPasses(runs);
    forall runs' | Reordered(runs, runs') ensures Allowed(sha, runs', statuses) <==> Settled(sha, runs, statuses) && AllPass(runs') {
      AllowedIff(sha, runs, runs', statuses);
    }
  }

  /** With a tie the order does decide: the same two runs, either way round. */
  lemma TieIsDecidedByOrder(sha: string, at: string)
    ensures var good := Run(Named("test"), Some(sha), Some("completed"), Some("success"), Some(at), None);
      var bad := good.(conclusion := Some("failure"));
      Allowed(sha, [bad, good], []) && !Allowed(sha, [good, bad], [])
  {
    var good := Run(Named("test"), Some(sha), Some("completed"), Some("success"), Some(at), None);
    var bad := good.(conclusion := Some("failure"));
    Lex.Total(SortKey(good), SortKey(bad));
    assert IsLatest([good, bad], 1) && !Passes([good, bad], 1);
    assert !IsLatest([bad, good], 0) by { assert NameOf([bad, good][1]) == NameOf([bad, good][0]); }
  }
}
