/** The CI shard planner: heaviest suite first, always into the lightest shard so far. */
module ShardPlan {
  import opened Prelude
  import Lex

  /*
   Weights are exact reals; with none of them negative, no shard ends heavier than 4/3 - 1/(3m) times the
   best possible heaviest shard.
   */

  /* ---- loads of an assignment of weighted jobs to shards ---- */

  /** Weight the first `n` jobs put on shard `i`. */
  function Load(w: seq<real>, a: seq<nat>, n: nat, i: nat): real
    requires n <= |w| && n <= |a|
  {
    if n == 0 then 0.0 else Load(w, a, n - 1, i) + if a[n - 1] == i then w[n - 1] else 0.0
  }

  function Sum(w: seq<real>, n: nat): real
    requires n <= |w|
  {
    if n == 0 then 0.0 else Sum(w, n - 1) + w[n - 1]
  }

  /** How many of the first `n` jobs are on shard `i`. */
  function Count(a: seq<nat>, n: nat, i: nat): nat
    requires n <= |a|
  {
    if n == 0 then 0 else Count(a, n - 1, i) + if a[n - 1] == i then 1 else 0
  }

  predicate Assignment(a: seq<nat>, n: nat, m: nat) { |a| == n && forall k | 0 <= k < n :: a[k] < m }

  predicate Descending(w: seq<real>) { forall i, j | 0 <= i <= j < |w| :: w[i] >= w[j] }

  predicate NonNegative(w: seq<real>) { forall k | 0 <= k < |w| :: w[k] >= 0.0 }

  /** Before job `k` no shard was lighter than `s`. */
  predicate Lightest(w: seq<real>, a: seq<nat>, k: nat, s: nat, m: nat)
    requires k <= |w| && k <= |a|
  {
    s < m && forall i | 0 <= i < m :: Load(w, a, k, s) <= Load(w, a, k, i)
  }

  /** Each job goes to a shard no other shard was lighter than. */
  predicate Greedy(w: seq<real>, a: seq<nat>, m: nat) { GreedyUpTo(w, a, |w|, m) }

  /** Each of the first `k` jobs went to a lightest shard. */
  predicate GreedyUpTo(w: seq<real>, a: seq<nat>, k: nat, m: nat) {
    k <= |w| && Assignment(a, k, m) && forall j | 0 <= j < k :: Lightest(w, a, j, a[j], m)
  }

  ghost predicate Within(w: seq<real>, a: seq<nat>, m: nat, t: real) {
    Assignment(a, |w|, m) && forall i | 0 <= i < m :: Load(w, a, |w|, i) <= t
  }

  /** `k` copies of `x`: products are kept as sums so that every step below is linear. */
  function Times(k: nat, x: real): real {
    if k == 0 then 0.0 else Times(k - 1, x) + x
  }

  lemma {:induction false} TimesIs(k: nat, x: real)
    ensures Times(k, x) == k as real * x
  {
    if k > 0 { TimesIs(k - 1, x); }
  }

  /* ---- totals over the shards ---- */

  function TotalLoad(w: seq<real>, a: seq<nat>, n: nat, m: nat): real
    requires n <= |w| && n <= |a|
  {
    if m == 0 then 0.0 else TotalLoad(w, a, n, m - 1) + Load(w, a, n, m - 1)
  }

  lemma {:induction false} AddJob(w: seq<real>, a: seq<nat>, n: nat, m: nat)
    requires 0 < n <= |w| && n <= |a|
    ensures TotalLoad(w, a, n, m) == TotalLoad(w, a, n - 1, m) + if a[n - 1] < m then w[n - 1] else 0.0
  {
    if m > 0 { AddJob(w, a, n, m - 1); }
  }

  /** No weight is lost: the shards' loads add up to the jobs' weights. */
  lemma {:induction false} TotalIsSum(w: seq<real>, a: seq<nat>, n: nat, m: nat)
    requires n <= |w| && n <= |a| && forall k | 0 <= k < n :: a[k] < m
    ensures TotalLoad(w, a, n, m) == Sum(w, n)
  {
    if n > 0 {
      TotalIsSum(w, a, n - 1, m);
      AddJob(w, a, n, m);
    } else {
      EmptyTotal(w, a, m);
    }
  }

  lemma {:induction false} EmptyTotal(w: seq<real>, a: seq<nat>, m: nat)
    ensures TotalLoad(w, a, 0, m) == 0.0
  {
    if m > 0 { EmptyTotal(w, a, m - 1); }
  }

  lemma {:induction false} LightestBelowMean(w: seq<real>, a: seq<nat>, n: nat, m: nat, x: real)
    requires n <= |w| && n <= |a| && forall i | 0 <= i < m :: x <= Load(w, a, n, i)
    ensures Times(m, x) <= TotalLoad(w, a, n, m)
  {
    if m > 0 { LightestBelowMean(w, a, n, m - 1, x); }
  }

  lemma {:induction false} MeanBelowHeaviest(w: seq<real>, a: seq<nat>, n: nat, m: nat, t: real)
    requires n <= |w| && n <= |a| && forall i | 0 <= i < m :: Load(w, a, n, i) <= t
    ensures TotalLoad(w, a, n, m) <= Times(m, t)
  {
    if m > 0 { MeanBelowHeaviest(w, a, n, m - 1, t); }
  }

  lemma {:induction false} PrefixIsLighter(w: seq<real>, a: seq<nat>, n: nat, last: nat, i: nat)
    requires NonNegative(w) && n <= last <= |w| && last <= |a|
    ensures 0.0 <= Load(w, a, n, i) <= Load(w, a, last, i)
    decreases last
  {
    if n < last { PrefixIsLighter(w, a, n, last - 1, i); }
    else if n > 0 { PrefixIsLighter(w, a, n - 1, n - 1, i); }
  }

  /* ---- pigeonholes ---- */

  function PairTotal(a: seq<nat>, n: nat, c: nat, m: nat): nat
    requires n <= |a| && c <= |a|
  {
    if m == 0 then 0 else PairTotal(a, n, c, m - 1) + Count(a, n, m - 1) + Count(a, c, m - 1)
  }

  lemma {:induction false} AddPairs(a: seq<nat>, n: nat, c: nat, m: nat)
    requires 0 < n <= |a| && c <= |a|
    ensures PairTotal(a, n, c, m) == PairTotal(a, n - 1, c, m) + (if a[n - 1] < m then 1 else 0)
    ensures PairTotal(a, c, n, m) == PairTotal(a, c, n - 1, m) + (if a[n - 1] < m then 1 else 0)
  {
    if m > 0 { AddPairs(a, n, c, m - 1); }
  }

  lemma {:induction false} NoPairs(a: seq<nat>, m: nat)
    ensures PairTotal(a, 0, 0, m) == 0
  {
    if m > 0 { NoPairs(a, m - 1); }
  }

  lemma {:induction false} PairTotalIs(a: seq<nat>, n: nat, c: nat, m: nat)
    requires n <= |a| && c <= |a| && forall k | 0 <= k < |a| :: a[k] < m
    ensures PairTotal(a, n, c, m) == n + c
    decreases n + c
  {
    if n > 0 {
      PairTotalIs(a, n - 1, c, m);
      AddPairs(a, n, c, m);
    } else if c > 0 {
      PairTotalIs(a, n, c - 1, m);
      AddPairs(a, c, n, m);
    } else {
      NoPairs(a, m);
    }
  }

  lemma {:induction false} Crowded(a: seq<nat>, n: nat, c: nat, m: nat) returns (i: nat)
    requires n <= |a| && c <= |a| && PairTotal(a, n, c, m) > 2 * m
    ensures i < m && Count(a, n, i) + Count(a, c, i) >= 3
  {
    i := m - 1;
    if Count(a, n, i) + Count(a, c, i) < 3 { i := Crowded(a, n, c, m - 1); }
  }

  lemma {:induction false} Sparse(a: seq<nat>, n: nat, c: nat, m: nat) returns (i: nat)
    requires n <= |a| && c <= |a| && PairTotal(a, n, c, m) < 2 * m
    ensures i < m && Count(a, n, i) + Count(a, c, i) <= 1
  {
    i := m - 1;
    if Count(a, n, i) + Count(a, c, i) > 1 { i := Sparse(a, n, c, m - 1); }
  }

  /** Jobs come heaviest first, so `Count` jobs from `c` on weigh at least that many times the last one. */
  lemma {:induction false} CountedWeight(w: seq<real>, a: seq<nat>, c: nat, n: nat, i: nat, p: real)
    requires c <= n <= |w| && n <= |a| && forall k | c <= k < n :: w[k] >= p
    ensures Count(a, c, i) <= Count(a, n, i)
    ensures Load(w, a, n, i) >= Load(w, a, c, i) + Times(Count(a, n, i) - Count(a, c, i), p)
  {
    if c < n { CountedWeight(w, a, c, n - 1, i, p); }
  }

  /** A shard with one job among the first `c` and another among the first `n` carries at least both. */
  lemma PairWeighs(w: seq<real>, a: seq<nat>, c: nat, n: nat, i: nat)
    requires Descending(w) && NonNegative(w) && 0 < c <= n <= |w| && |a| == |w|
    requires Count(a, c, i) >= 1 && Count(a, n, i) >= 2
    ensures Load(w, a, n, i) >= w[c - 1] + w[n - 1]
  {
    CountedWeight(w, a, 0, c, i, w[c - 1]);
    CountedWeight(w, a, c, n, i, w[n - 1]);
    var early, late := Count(a, c, i), Count(a, n, i) - Count(a, c, i);
    TimesAtLeast(early, w[c - 1]);
    TimesAtLeast(late, w[n - 1]);
  }

  lemma {:induction false} TimesAtLeast(k: nat, x: real)
    requires x >= 0.0
    ensures Times(k, x) >= 0.0
    ensures k >= 1 ==> Times(k, x) >= x
    ensures k >= 3 ==> Times(k, x) >= x + x + x
  {
    if k > 0 { TimesAtLeast(k - 1, x); }
    assert Times(0, x) + x == Times(1, x) && Times(1, x) + x == Times(2, x);
  }

  /** A shard with at most one job, none of them among the first `c`, weighs at most job `c`. */
  lemma {:induction false} LoneJobWeighs(w: seq<real>, a: seq<nat>, c: nat, n: nat, i: nat)
    requires Descending(w) && NonNegative(w) && c < |w| && n <= |w| && |a| == |w|
    requires Count(a, n, i) + (if c <= n then Count(a, c, i) else Count(a, n, i)) <= 1
    ensures Load(w, a, n, i) <= w[c]
    ensures Count(a, n, i) == 0 ==> Load(w, a, n, i) == 0.0
    decreases n
  {
    if n > 0 {
      if c <= n { CountedWeight(w, a, c, n, i, 0.0); CountedWeight(w, a, 0, c, i, 0.0); }
      NoJobsNoLoad(w, a, n - 1, i);
      if c < n { LoneJobWeighs(w, a, c, n - 1, i); }
      else { NoJobsNoLoad(w, a, n, i); }
    }
  }

  lemma {:induction false} NoJobsNoLoad(w: seq<real>, a: seq<nat>, n: nat, i: nat)
    requires n <= |w| && n <= |a|
    ensures Count(a, n, i) == 0 ==> Load(w, a, n, i) == 0.0
  {
    if n > 0 { NoJobsNoLoad(w, a, n - 1, i); }
  }

  /* ---- the bound ---- */

  /** The lightest shard before a job, and that job, fit under the mean of any plan's heaviest shard. */
  lemma LightestFitsMean(w: seq<real>, a: seq<nat>, b: seq<nat>, m: nat, k: nat, t: real)
    requires NonNegative(w) && Greedy(w, a, m) && Within(w, b, m, t) && k < |w|
    ensures Times(m, Load(w, a, k, a[k])) + w[k] <= Times(m, t)
  {
    var n := k + 1;
    assert Lightest(w, a, k, a[k], m);
    LightestBelowMean(w, a, k, m, Load(w, a, k, a[k]));
    TotalIsSum(w, a, k, m);
    forall i | 0 <= i < m ensures Load(w, b, n, i) <= t { PrefixIsLighter(w, b, n, |w|, i); }
    TotalIsSum(w, b, n, m);
    MeanBelowHeaviest(w, b, n, m, t);
    assert Sum(w, n) == Sum(w, k) + w[k];
  }

  /** Few jobs: one of the shards is still empty. */
  lemma EarlyJobStartsShard(w: seq<real>, a: seq<nat>, m: nat, k: nat)
    requires NonNegative(w) && Greedy(w, a, m) && k < |w| && k < m
    ensures Load(w, a, k, a[k]) <= 0.0
  {
    PairTotalIs(a, k, k, m);
    var i := Sparse(a, k, k, m);
    NoJobsNoLoad(w, a, k, i);
    assert Lightest(w, a, k, a[k], m);
  }

  /** Many heavy jobs: job `k` shares a shard with nothing heavier than job `2m - k - 1`. */
  lemma PairedJobIsLight(w: seq<real>, a: seq<nat>, m: nat, k: nat)
    requires Descending(w) && NonNegative(w) && Greedy(w, a, m) && m <= k < |w| && k < 2 * m
    ensures Load(w, a, k, a[k]) <= w[2 * m - k - 1]
  {
    var c := 2 * m - k - 1;
    PairTotalIs(a, k, c, m);
    var i := Sparse(a, k, c, m);
    LoneJobWeighs(w, a, c, k, i);
    assert Lightest(w, a, k, a[k], m);
  }

  /** ...while every other assignment puts two such jobs, or three heavy ones, together. */
  lemma SomePairIsHeavy(w: seq<real>, b: seq<nat>, m: nat, k: nat, t: real)
    requires Descending(w) && NonNegative(w) && Within(w, b, m, t) && m <= k < |w| && 3.0 * w[k] > t
    ensures k < 2 * m && w[2 * m - k - 1] + w[k] <= t
  {
    var n := k + 1;
    var c := if k < 2 * m then 2 * m - k else 0;
    PairTotalIs(b, n, c, m);
    var i := Crowded(b, n, c, m);
    PrefixIsLighter(w, b, n, |w|, i);
    CountedWeight(w, b, 0, n, i, w[k]);
    assert Load(w, b, n, i) >= Times(Count(b, n, i), w[k]) && Load(w, b, n, i) <= t;
    TimesAtLeast(Count(b, n, i), w[k]);
    if c > 0 { CountedWeight(w, b, 0, c, i, 0.0); CountedWeight(w, b, c, n, i, 0.0); }
    assert Count(b, n, i) < 3;
    PairWeighs(w, b, c, n, i);
  }

  lemma JobFits(w: seq<real>, b: seq<nat>, m: nat, k: nat, t: real)
    requires NonNegative(w) && Within(w, b, m, t) && k < |w|
    ensures 0.0 <= w[k] <= t
  {
    PrefixIsLighter(w, b, k + 1, |w|, b[k]);
    PrefixIsLighter(w, b, k, k, b[k]);
  }

  /** A heavy job finishes within the optimum itself. */
  lemma HeavyJobFinishes(w: seq<real>, a: seq<nat>, b: seq<nat>, m: nat, k: nat, t: real)
    requires Descending(w) && NonNegative(w) && Greedy(w, a, m) && Within(w, b, m, t) && k < |w| && 3.0 * w[k] > t
    ensures Load(w, a, k + 1, a[k]) <= t
  {
    JobFits(w, b, m, k, t);
    if k < m { EarlyJobStartsShard(w, a, m, k); }
    else {
      SomePairIsHeavy(w, b, m, k, t);
      PairedJobIsLight(w, a, m, k);
    }
  }

  lemma LightJobArithmetic(m: nat, l: real, p: real, t: real)
    requires m >= 1 && Times(m, l) + p <= Times(m, t) && 3.0 * p <= t && p >= 0.0
    ensures Times(3 * m, l + p) <= Times(4 * m - 1, t)
  {
    TimesIs(m, l);
    TimesIs(m, t);
    TimesIs(3 * m, l + p);
    TimesIs(4 * m - 1, t);
    LightJobProducts(m as real, l, p, t);
  }

  lemma LightJobProducts(r: real, l: real, p: real, t: real)
    requires r >= 1.0 && r * l + p <= r * t && 3.0 * p <= t
    ensures 3.0 * r * (l + p) <= (4.0 * r - 1.0) * t
  {
    SameFactor(r - 1.0, 3.0 * p, t);
    assert (r - 1.0) * (3.0 * p) == 3.0 * (r * p) - 3.0 * p;
    assert (r - 1.0) * t == r * t - t;
    assert 3.0 * r * (l + p) == 3.0 * (r * l) + 3.0 * (r * p);
    assert (4.0 * r - 1.0) * t == 4.0 * (r * t) - t;
  }

  lemma SameFactor(r: real, a: real, b: real)
    requires r >= 0.0 && a <= b
    ensures r * a <= r * b
  {
  }

  lemma {:induction false} WithinArithmetic(j: nat, k: nat, l: real, t: real)
    requires j <= k && l <= t && t >= 0.0
    ensures Times(j, l) <= Times(k, t)
    decreases k
  {
    if j > 0 { WithinArithmetic(j - 1, k - 1, l, t); }
    else { TimesAtLeast(k, t); }
  }

  /** The shard that has just taken job `k`. */
  lemma JobFinishes(w: seq<real>, a: seq<nat>, b: seq<nat>, m: nat, k: nat, t: real)
    requires Descending(w) && NonNegative(w) && Greedy(w, a, m) && Within(w, b, m, t) && k < |w|
    ensures Times(3 * m, Load(w, a, k + 1, a[k])) <= Times(4 * m - 1, t)
  {
    JobFits(w, b, m, k, t);
    if 3.0 * w[k] <= t {
      LightestFitsMean(w, a, b, m, k, t);
      LightJobArithmetic(m, Load(w, a, k, a[k]), w[k], t);
    } else {
      HeavyJobFinishes(w, a, b, m, k, t);
      WithinArithmetic(3 * m, 4 * m - 1, Load(w, a, k + 1, a[k]), t);
    }
  }

  lemma {:induction false} LoadBound(w: seq<real>, a: seq<nat>, b: seq<nat>, m: nat, n: nat, i: nat, t: real)
    requires Descending(w) && NonNegative(w) && Greedy(w, a, m) && Within(w, b, m, t) && n <= |w| && i < m
    ensures Times(3 * m, Load(w, a, n, i)) <= Times(4 * m - 1, t)
    decreases n
  {
    if n == 0 {
      PrefixIsLighter(w, b, 0, |w|, i);
      WithinArithmetic(3 * m, 4 * m - 1, 0.0, t);
    } else if a[n - 1] != i {
      LoadBound(w, a, b, m, n - 1, i, t);
    } else {
      JobFinishes(w, a, b, m, n - 1, t);
    }
  }

  /** 4/3 - 1/(3m). */
  function Factor(m: nat): real
    requires m >= 1
  {
    4.0 / 3.0 - 1.0 / (3.0 * m as real)
  }

  lemma DivideOut(m: nat, l: real, t: real)
    requires m >= 1 && Times(3 * m, l) <= Times(4 * m - 1, t)
    ensures l <= Factor(m) * t
  {
    TimesIs(3 * m, l);
    TimesIs(4 * m - 1, t);
    FactorTimes(m);
    var r := 3.0 * m as real;
    assert r * (Factor(m) * t) == (r * Factor(m)) * t;
    LargerProduct(r, l, Factor(m) * t);
  }

  lemma FactorTimes(m: nat)
    requires m >= 1
    ensures 3.0 * m as real * Factor(m) == (4 * m - 1) as real
  {
    var r := 3.0 * m as real;
    assert r * (1.0 / r) == 1.0;
    assert r * (4.0 / 3.0 - 1.0 / r) == r * (4.0 / 3.0) - r * (1.0 / r);
  }

  lemma LargerProduct(r: real, x: real, y: real)
    requires r > 0.0
    ensures x > y ==> r * x > r * y
  {
    assert x > y ==> r * (x - y) > 0.0;
  }

  /**
   Longest processing time first: whatever else could have been done with the same jobs and shards, no
   shard carries more than 4/3 - 1/(3m) times that plan's heaviest shard.
   */
  lemma LptBound(w: seq<real>, a: seq<nat>, b: seq<nat>, m: nat, i: nat, t: real)
    requires Descending(w) && NonNegative(w) && Greedy(w, a, m) && Within(w, b, m, t) && i < m
    ensures Load(w, a, |w|, i) <= Factor(m) * t
  {
    LoadBound(w, a, b, m, |w|, i, t);
    DivideOut(m, Load(w, a, |w|, i), t);
  }

  /** The bound is met exactly: two shards, five suites, 7 against a best possible 6. */
  lemma BoundIsTight()
    ensures var w, a, b := [3.0, 3.0, 2.0, 2.0, 2.0], [0, 1, 0, 1, 0], [0, 0, 1, 1, 1];
      && Descending(w) && Greedy(w, a, 2) && Within(w, b, 2, 6.0)
      && Load(w, a, 5, 0) == 7.0 && Factor(2) * 6.0 == 7.0
  {
    var w, a, b := [3.0, 3.0, 2.0, 2.0, 2.0], [0, 1, 0, 1, 0], [0, 0, 1, 1, 1];
    forall i: nat | i < 2 ensures Load(w, a, 0, i) == 0.0 && Load(w, b, 5, i) == 6.0 {
      assert Load(w, b, 3, i) == Load(w, b, 2, i) + if b[2] == i then 2.0 else 0.0;
    }
    assert Load(w, a, 1, 0) == 3.0 && Load(w, a, 1, 1) == 0.0;
    assert Load(w, a, 2, 0) == 3.0 && Load(w, a, 2, 1) == 3.0;
    assert Load(w, a, 3, 0) == 5.0 && Load(w, a, 3, 1) == 3.0;
    assert Load(w, a, 4, 0) == 5.0 && Load(w, a, 4, 1) == 5.0;
    forall k | 0 <= k < 5 ensures Lightest(w, a, k, a[k], 2) { }
  }

  /* ---- the planner ---- */

  /** A timing hint is a number or something the file should not hold. */
  datatype Hint = Seconds(value: real) | NotANumber

  type Job = (real, string)

  /** Tuple order: by weight, then by name. `Ahead(x, y)` says x may stand before y in the reversed sort. */
  predicate Ahead(x: Job, y: Job) { x.0 > y.0 || (x.0 == y.0 && (x.1 == y.1 || Lex.Less(y.1, x.1))) }

  predicate HeaviestFirst(jobs: seq<Job>) { forall i, j | 0 <= i < j < |jobs| :: Ahead(jobs[i], jobs[j]) }

  lemma AheadTransitive(x: Job, y: Job, z: Job)
    requires Ahead(x, y) && Ahead(y, z)
    ensures Ahead(x, z)
  {
    if x.0 == y.0 && y.0 == z.0 && x.1 != y.1 && y.1 != z.1 { Lex.Transitive(z.1, y.1, x.1); }
  }

  function Insert(x: Job, jobs: seq<Job>): (r: seq<Job>)
    ensures multiset(r) == multiset{x} + multiset(jobs)
    ensures forall y | y in r :: y == x || y in jobs
  {
    if jobs == [] then [x]
    else if Ahead(x, jobs[0]) then [x] + jobs
    else
      assert jobs == [jobs[0]] + jobs[1..];
      [jobs[0]] + Insert(x, jobs[1..])
  }

  /** `sorted(..., reverse=True)`. */
  function Sorted(jobs: seq<Job>): (r: seq<Job>)
    ensures multiset(r) == multiset(jobs)
  {
    if jobs == [] then []
    else
      assert jobs == [jobs[0]] + jobs[1..];
      Insert(jobs[0], Sorted(jobs[1..]))
  }

  lemma {:induction false} InsertKeepsOrder(x: Job, jobs: seq<Job>)
    requires HeaviestFirst(jobs)
    ensures HeaviestFirst(Insert(x, jobs))
  {
    if jobs == [] {
    } else if Ahead(x, jobs[0]) {
      forall j | 0 < j < |jobs| ensures Ahead(x, jobs[j]) { AheadTransitive(x, jobs[0], jobs[j]); }
    } else {
      Lex.Total(x.1, jobs[0].1);
      InsertKeepsOrder(x, jobs[1..]);
      var rest := Insert(x, jobs[1..]);
      forall j | 0 <= j < |rest| ensures Ahead(jobs[0], rest[j]) { assert rest[j] == x || rest[j] in jobs[1..]; }
    }
  }

  lemma {:induction false} SortedIsOrdered(jobs: seq<Job>)
    ensures HeaviestFirst(Sorted(jobs)) && |Sorted(jobs)| == |jobs|
    ensures forall i, j | 0 <= i < j < |jobs| :: Sorted(jobs)[i].0 >= Sorted(jobs)[j].0
    ensures forall i, j | 0 <= i < j < |jobs| && Sorted(jobs)[i].0 == Sorted(jobs)[j].0 :: !Lex.Less(Sorted(jobs)[i].1, Sorted(jobs)[j].1)
  {
    assert |multiset(Sorted(jobs))| == |multiset(jobs)|;
    if jobs != [] {
      SortedIsOrdered(jobs[1..]);
      InsertKeepsOrder(jobs[0], Sorted(jobs[1..]));
    }
    forall i, j | 0 <= i < j < |jobs| && Sorted(jobs)[i].0 == Sorted(jobs)[j].0 ensures !Lex.Less(Sorted(jobs)[i].1, Sorted(jobs)[j].1) {
      assert Ahead(Sorted(jobs)[i], Sorted(jobs)[j]);
      Lex.Total(Sorted(jobs)[i].1, Sorted(jobs)[j].1);
    }
  }

  function Weights(jobs: seq<Job>): (r: seq<real>)
    ensures |r| == |jobs|
  {
    seq(|jobs|, k requires 0 <= k < |jobs| => jobs[k].0)
  }

  function Names(jobs: seq<Job>): (r: seq<string>)
    ensures |r| == |jobs|
  {
    seq(|jobs|, k requires 0 <= k < |jobs| => jobs[k].1)
  }

  /** The suites the first `n` jobs put on shard `i`, in the order they were placed. */
  function NamesOn(names: seq<string>, a: seq<nat>, n: nat, i: nat): seq<string>
    requires n <= |names| && n <= |a|
  {
    if n == 0 then [] else NamesOn(names, a, n - 1, i) + if a[n - 1] == i then [names[n - 1]] else []
  }

  function Flatten(shards: seq<seq<string>>): seq<string> {
    if shards == [] then [] else Flatten(shards[..|shards| - 1]) + shards[|shards| - 1]
  }

  lemma {:induction false} FlattenAppend(shards: seq<seq<string>>, i: nat, name: string)
    requires i < |shards|
    ensures multiset(Flatten(shards[i := shards[i] + [name]])) == multiset(Flatten(shards)) + multiset{name}
  {
    var after, last := shards[i := shards[i] + [name]], |shards| - 1;
    if i == last {
      assert after[..last] == shards[..last];
    } else {
      FlattenAppend(shards[..last], i, name);
      assert after[..last] == shards[..last][i := shards[i] + [name]];
    }
  }

  lemma {:induction false} FlattenEmpty(shards: seq<seq<string>>)
    requires forall i | 0 <= i < |shards| :: shards[i] == []
    ensures Flatten(shards) == []
  {
    if shards != [] { FlattenEmpty(shards[..|shards| - 1]); }
  }

  /** `loads.index(min(loads))`. */
  method LightestShard(loads: array<real>) returns (s: nat)
    requires loads.Length > 0
    ensures s < loads.Length && forall i | 0 <= i < loads.Length :: loads[s] <= loads[i]
    ensures forall i | 0 <= i < s :: loads[s] < loads[i]
  {
    s := 0;
    for j := 1 to loads.Length
      invariant s < j
      invariant forall i | 0 <= i < j :: loads[s] <= loads[i]
      invariant forall i | 0 <= i < s :: loads[s] < loads[i]
    {
      if loads[j] < loads[s] { s := j; }
    }
  }

  /** The shards' loads, and their contents, after the first `k` jobs. */
  function LoadsAfter(w: seq<real>, a: seq<nat>, k: nat, m: nat): (r: seq<real>)
    requires k <= |w| && k <= |a|
    ensures |r| == m && forall i | 0 <= i < m :: r[i] == Load(w, a, k, i)
  {
    seq(m, i requires 0 <= i < m => Load(w, a, k, i))
  }

  function ShardsAfter(names: seq<string>, a: seq<nat>, k: nat, m: nat): (r: seq<seq<string>>)
    requires k <= |names| && k <= |a|
    ensures |r| == m && forall i | 0 <= i < m :: r[i] == NamesOn(names, a, k, i)
  {
    seq(m, i requires 0 <= i < m => NamesOn(names, a, k, i))
  }

  lemma {:induction false} PrefixAgrees(w: seq<real>, names: seq<string>, a: seq<nat>, a': seq<nat>, n: nat, i: nat)
    requires n <= |w| && n <= |names| && n <= |a| && a <= a'
    ensures Load(w, a', n, i) == Load(w, a, n, i) && NamesOn(names, a', n, i) == NamesOn(names, a, n, i)
  {
    if n > 0 { PrefixAgrees(w, names, a, a', n - 1, i); }
  }

  /** One more job on a lightest shard. */
  lemma PlacedGreedily(w: seq<real>, a: seq<nat>, k: nat, s: nat, m: nat)
    requires k < |w| && GreedyUpTo(w, a, k, m) && s < m
    requires forall i | 0 <= i < m :: LoadsAfter(w, a, k, m)[s] <= LoadsAfter(w, a, k, m)[i]
    ensures GreedyUpTo(w, a + [s], k + 1, m)
  {
    var a', names := a + [s], seq(|w|, i => "");
    forall n, i | 0 <= n <= k && 0 <= i < m ensures Load(w, a', n, i) == Load(w, a, n, i) { PrefixAgrees(w, names, a, a', n, i); }
    forall j | 0 <= j < k ensures Lightest(w, a', j, a'[j], m) { assert Lightest(w, a, j, a[j], m); }
    forall i | 0 <= i < m ensures Load(w, a', k, s) <= Load(w, a', k, i) {
      assert LoadsAfter(w, a, k, m)[s] <= LoadsAfter(w, a, k, m)[i];
    }
    assert Lightest(w, a', k, a'[k], m);
  }

  /** Of equally light shards the first is taken. */
  predicate FirstLightest(w: seq<real>, a: seq<nat>, k: nat) {
    k <= |w| && k <= |a| && forall j: nat | j < k :: BeforeAreHeavier(w, a, j, a[j])
  }

  predicate BeforeAreHeavier(w: seq<real>, a: seq<nat>, j: nat, s: nat)
    requires j <= |w| && j <= |a|
  {
    forall i: nat | i < s :: Load(w, a, j, s) < Load(w, a, j, i)
  }

  lemma PlacedFirst(w: seq<real>, a: seq<nat>, k: nat, s: nat, m: nat)
    requires k < |w| && |a| == k && FirstLightest(w, a, k) && s < m
    requires forall i | 0 <= i < s :: LoadsAfter(w, a, k, m)[s] < LoadsAfter(w, a, k, m)[i]
    ensures FirstLightest(w, a + [s], k + 1)
  {
    var a', names := a + [s], seq(|w|, i => "");
    forall n, i: nat | 0 <= n <= k ensures Load(w, a', n, i) == Load(w, a, n, i) { PrefixAgrees(w, names, a, a', n, i); }
    forall j: nat | j < k ensures BeforeAreHeavier(w, a', j, a'[j]) { assert BeforeAreHeavier(w, a, j, a[j]); }
    forall i: nat | i < s ensures Load(w, a', k, s) < Load(w, a', k, i) { assert LoadsAfter(w, a, k, m)[s] < LoadsAfter(w, a, k, m)[i]; }
    assert BeforeAreHeavier(w, a', k, a'[k]);
  }

  lemma PlacedOne(w: seq<real>, names: seq<string>, a: seq<nat>, k: nat, s: nat, m: nat)
    requires k < |w| == |names| && |a| == k && s < m
    ensures var loads, shards := LoadsAfter(w, a, k, m), ShardsAfter(names, a, k, m);
      && LoadsAfter(w, a + [s], k + 1, m) == loads[s := loads[s] + w[k]]
      && ShardsAfter(names, a + [s], k + 1, m) == shards[s := shards[s] + [names[k]]]
  {
    var a' := a + [s];
    forall i | 0 <= i < m
      ensures Load(w, a', k + 1, i) == Load(w, a, k, i) + (if i == s then w[k] else 0.0)
      ensures NamesOn(names, a', k + 1, i) == if i == s then NamesOn(names, a, k, i) + [names[k]] else NamesOn(names, a, k, i)
    {
      PrefixAgrees(w, names, a, a', k, i);
      assert NamesOn(names, a, k, i) + [] == NamesOn(names, a, k, i);
    }
  }

  lemma OneMoreName(names: seq<string>, k: nat, shards: seq<seq<string>>, s: nat)
    requires k < |names| && s < |shards| && multiset(Flatten(shards)) == multiset(names[..k])
    ensures multiset(Flatten(shards[s := shards[s] + [names[k]]])) == multiset(names[..k + 1])
  {
    FlattenAppend(shards, s, names[k]);
    assert names[..k + 1] == names[..k] + [names[k]];
  }

  /** No name placed is missing from the shards or there twice. */
  lemma {:induction false} ShardsHoldNames(names: seq<string>, a: seq<nat>, k: nat, m: nat)
    requires k <= |names| && Assignment(a, k, m)
    ensures multiset(Flatten(ShardsAfter(names, a, k, m))) == multiset(names[..k])
  {
    if k == 0 {
      FlattenEmpty(ShardsAfter(names, a, 0, m));
    } else {
      var before, s := a[..k - 1], a[k - 1];
      assert a == before + [s];
      ShardsHoldNames(names, before, k - 1, m);
      PlacedOne(seq(|names|, i => 0.0), names, before, k - 1, s, m);
      OneMoreName(names, k - 1, ShardsAfter(names, before, k - 1, m), s);
    }
  }

  /** One turn of the loop. */
  method PlaceJob(job: Job, shards: array<seq<string>>, loads: array<real>) returns (s: nat)
    requires shards.Length == loads.Length > 0
    modifies shards, loads
    ensures s < loads.Length && forall i | 0 <= i < loads.Length :: old(loads[..])[s] <= old(loads[..])[i]
    ensures forall i | 0 <= i < s :: old(loads[..])[s] < old(loads[..])[i]
    ensures loads[..] == old(loads[..])[s := old(loads[..])[s] + job.0]
    ensures shards[..] == old(shards[..])[s := old(shards[..])[s] + [job.1]]
  {
    s := LightestShard(loads);
    shards[s] := shards[s] + [job.1];
    loads[s] := loads[s] + job.0;
  }

  /** The loop: every job in turn onto the lightest shard. */
  method Pack(jobs: seq<Job>, ghost w: seq<real>, ghost names: seq<string>, shards: array<seq<string>>, loads: array<real>)
    returns (ghost a: seq<nat>)
    requires |w| == |names| == |jobs| && forall k | 0 <= k < |jobs| :: w[k] == jobs[k].0 && names[k] == jobs[k].1
    requires shards.Length == loads.Length > 0 && forall i | 0 <= i < loads.Length :: loads[i] == 0.0 && shards[i] == []
    modifies shards, loads
    ensures GreedyUpTo(w, a, |jobs|, loads.Length) && FirstLightest(w, a, |jobs|)
    ensures loads[..] == LoadsAfter(w, a, |jobs|, loads.Length) && shards[..] == ShardsAfter(names, a, |jobs|, loads.Length)
  {
    a := [];
    for k := 0 to |jobs|
      invariant GreedyUpTo(w, a, k, loads.Length) && FirstLightest(w, a, k)
      invariant loads[..] == LoadsAfter(w, a, k, loads.Length) && shards[..] == ShardsAfter(names, a, k, loads.Length)
    {
      var s := PlaceJob(jobs[k], shards, loads);
      PlacedGreedily(w, a, k, s, loads.Length);
      PlacedFirst(w, a, k, s, loads.Length);
      PlacedOne(w, names, a, k, s, loads.Length);
      a := a + [s];
    }
  }

  /** A timings file as the dictionary JSON gives: names, each with what stands under it. */
  type Hints = seq<(string, Hint)>

  function Lookup(hints: Hints, name: string): Option<Hint> {
    if hints == [] then None else if hints[0].0 == name then Some(hints[0].1) else Lookup(hints[1..], name)
  }

  /** Sum and number of the hints that are numbers. */
  function Known(hints: Hints): (real, nat) {
    if hints == [] then (0.0, 0)
    else
      var (total, count) := Known(hints[..|hints| - 1]);
      match hints[|hints| - 1].1
      case Seconds(value) => (total + value, count + 1)
      case NotANumber => (total, count)
  }

  /** A suite without a hint weighs the mean of those that have one. */
  function Fallback(hints: Hints): real {
    var (total, count) := Known(hints);
    if count == 0 then 15.0 else total / count as real
  }

  predicate Plannable(m: int, suites: seq<string>, hints: Hints) {
    suites != [] && m > 0 && forall s | s in suites :: Lookup(hints, s) != Some(NotANumber)
  }

  function WeightOf(name: string, hints: Hints, fallback: real): real {
    match Lookup(hints, name)
    case Some(Seconds(value)) => value
    case _ => fallback
  }

  function JobsOf(suites: seq<string>, hints: Hints): (r: seq<Job>)
    ensures |r| == |suites| && Names(r) == suites
  {
    seq(|suites|, k requires 0 <= k < |suites| => (WeightOf(suites[k], hints, Fallback(hints)), suites[k]))
  }

  predicate HintsNonNegative(hints: Hints) { forall h | h in hints :: h.1.Seconds? ==> h.1.value >= 0.0 }

  lemma {:induction false} KnownNonNegative(hints: Hints)
    requires HintsNonNegative(hints)
    ensures Known(hints).0 >= 0.0
  {
    if hints != [] { KnownNonNegative(hints[..|hints| - 1]); }
  }

  lemma {:induction false} LookupFinds(hints: Hints, name: string)
    ensures Lookup(hints, name).Some? ==> (name, Lookup(hints, name).value) in hints
  {
    if hints != [] && hints[0].0 != name { LookupFinds(hints[1..], name); }
  }

  lemma JobsNonNegative(suites: seq<string>, hints: Hints)
    requires HintsNonNegative(hints)
    ensures forall j | j in JobsOf(suites, hints) :: j.0 >= 0.0
  {
    KnownNonNegative(hints);
    var (total, count) := Known(hints);
    assert count > 0 ==> total / count as real >= 0.0;
    forall j | j in JobsOf(suites, hints) ensures j.0 >= 0.0 { LookupFinds(hints, j.1); }
  }

  /** The jobs in the order the planner takes them. */
  function Queue(suites: seq<string>, hints: Hints): seq<Job> { Sorted(JobsOf(suites, hints)) }

  lemma QueueIsReady(suites: seq<string>, hints: Hints)
    ensures |Queue(suites, hints)| == |suites| && multiset(Names(Queue(suites, hints))) == multiset(suites)
    ensures Descending(Weights(Queue(suites, hints)))
    ensures HintsNonNegative(hints) ==> NonNegative(Weights(Queue(suites, hints)))
  {
    var jobs := JobsOf(suites, hints);
    SortedIsOrdered(jobs);
    SortedNames(jobs);
    OrderedIsDescending(Sorted(jobs));
    if HintsNonNegative(hints) {
      JobsNonNegative(suites, hints);
      SameJobsNonNegative(jobs, Sorted(jobs));
    }
  }

  lemma OrderedIsDescending(jobs: seq<Job>)
    requires HeaviestFirst(jobs)
    ensures Descending(Weights(jobs))
  {
  }

  lemma SameJobsNonNegative(jobs: seq<Job>, sorted: seq<Job>)
    requires multiset(sorted) == multiset(jobs) && forall j | j in jobs :: j.0 >= 0.0
    ensures NonNegative(Weights(sorted))
  {
    forall k | 0 <= k < |sorted| ensures Weights(sorted)[k] >= 0.0 { assert sorted[k] in multiset(sorted); }
  }

  lemma NamesCons(x: Job, jobs: seq<Job>)
    ensures Names([x] + jobs) == [x.1] + Names(jobs)
    ensures multiset(Names([x] + jobs)) == multiset{x.1} + multiset(Names(jobs))
  {
    assert Names([x] + jobs) == [x.1] + Names(jobs);
  }

  lemma {:induction false} InsertNames(x: Job, jobs: seq<Job>)
    ensures multiset(Names(Insert(x, jobs))) == multiset{x.1} + multiset(Names(jobs))
  {
    if jobs == [] || Ahead(x, jobs[0]) {
      NamesCons(x, jobs);
      assert Insert(x, jobs) == [x] + jobs;
    } else {
      InsertNames(x, jobs[1..]);
      NamesCons(jobs[0], Insert(x, jobs[1..]));
      NamesCons(jobs[0], jobs[1..]);
      assert jobs == [jobs[0]] + jobs[1..];
    }
  }

  lemma {:induction false} SortedNames(jobs: seq<Job>)
    ensures multiset(Names(Sorted(jobs))) == multiset(Names(jobs))
  {
    if jobs != [] {
      SortedNames(jobs[1..]);
      InsertNames(jobs[0], Sorted(jobs[1..]));
      NamesCons(jobs[0], jobs[1..]);
      assert jobs == [jobs[0]] + jobs[1..];
    }
  }

  /** The matrix lists the shards that got any suite, with their numbers. */
  function Matrix(shards: seq<seq<string>>): seq<(nat, seq<string>)> {
    if shards == [] then []
    else Matrix(shards[..|shards| - 1]) + if shards[|shards| - 1] == [] then [] else [(|shards| - 1, shards[|shards| - 1])]
  }

  function MatrixNames(matrix: seq<(nat, seq<string>)>): seq<string> {
    if matrix == [] then [] else MatrixNames(matrix[..|matrix| - 1]) + matrix[|matrix| - 1].1
  }

  /** Leaving out the empty shards leaves out no suite. */
  lemma {:induction false} MatrixKeepsAll(shards: seq<seq<string>>)
    ensures MatrixNames(Matrix(shards)) == Flatten(shards)
    ensures forall e | e in Matrix(shards) :: e.0 < |shards| && e.1 == shards[e.0] && e.1 != []
  {
    if shards != [] {
      MatrixKeepsAll(shards[..|shards| - 1]);
      var before := Matrix(shards[..|shards| - 1]);
      var last := shards[|shards| - 1];
      if last == [] { assert Matrix(shards) == before && Flatten(shards) == Flatten(shards[..|shards| - 1]); }
      else { assert (before + [(|shards| - 1, last)])[..|before|] == before; }
    }
  }

  lemma {:induction false} MatrixHasAll(shards: seq<seq<string>>, i: nat)
    requires i < |shards| && shards[i] != []
    ensures (i, shards[i]) in Matrix(shards)
  {
    if i < |shards| - 1 { MatrixHasAll(shards[..|shards| - 1], i); }
  }

  datatype PlanError = NoSuites | NotPlannable | Miscounted | DroppedOrDuplicated

  datatype Plan = Plan(total: nat, matrix: seq<(nat, seq<string>)>, loads: seq<real>)

  /** Whatever the other plan, each of these loads stays within the factor of its heaviest shard. */
  ghost predicate LptLoads(w: seq<real>, loads: seq<real>) {
    |loads| > 0 && forall b, t | Within(w, b, |loads|, t) :: forall i | 0 <= i < |loads| :: loads[i] <= Factor(|loads|) * t
  }

  lemma GreedyIsLpt(w: seq<real>, a: seq<nat>, m: nat)
    requires GreedyUpTo(w, a, |w|, m) && Descending(w) && NonNegative(w) && m > 0
    ensures LptLoads(w, LoadsAfter(w, a, |w|, m))
  {
    forall b, t, i | Within(w, b, m, t) && 0 <= i < m ensures LoadsAfter(w, a, |w|, m)[i] <= Factor(m) * t {
      LptBound(w, a, b, m, i, t);
    }
  }

  /** Both of the planner's checks, from what the loop has established. */
  lemma ChecksPass(names: seq<string>, a: seq<nat>, m: nat, suites: seq<string>)
    requires Assignment(a, |names|, m) && multiset(names) == multiset(suites)
    ensures var placed := Flatten(ShardsAfter(names, a, |names|, m)); |placed| == |suites| && multiset(placed) == multiset(suites)
  {
    ShardsHoldNames(names, a, |names|, m);
    assert names[..|names|] == names;
    var placed := Flatten(ShardsAfter(names, a, |names|, m));
    assert |placed| == |multiset(placed)| == |multiset(suites)| == |suites|;
  }

  /** What a plan says about the jobs in the order they were taken. */
  ghost predicate IsPlan(jobs: seq<Job>, a: seq<nat>, m: nat, plan: Plan) {
    && GreedyUpTo(Weights(jobs), a, |jobs|, m) && FirstLightest(Weights(jobs), a, |jobs|)
    && plan.loads == LoadsAfter(Weights(jobs), a, |jobs|, m)
    && forall e | e in plan.matrix :: e.0 < m && e.1 == NamesOn(Names(jobs), a, |jobs|, e.0)
  }

  /* ---- what the hints have to do with it ---- */

  /** The hints that are numbers. */
  function NumbersIn(hints: Hints): seq<real> {
    if hints == [] then []
    else NumbersIn(hints[..|hints| - 1]) + if hints[|hints| - 1].1.Seconds? then [hints[|hints| - 1].1.value] else []
  }

  function Total(numbers: seq<real>): real { if numbers == [] then 0.0 else Total(numbers[..|numbers| - 1]) + numbers[|numbers| - 1] }

  /** A suite weighs its own recorded number; without one, the mean of the numbers there are, or 15. */
  ghost predicate Weighs(weight: string -> real, hints: Hints) {
    && (forall i | 0 <= i < |hints| && hints[i].1.Seconds? && (forall j | 0 <= j < i :: hints[j].0 != hints[i].0) :: weight(hints[i].0) == hints[i].1.value)
    && (forall name | (forall h | h in hints :: h.0 != name) ::
          if NumbersIn(hints) == [] then weight(name) == 15.0 else |NumbersIn(hints)| as real * weight(name) == Total(NumbersIn(hints)))
  }

  function WeightSum(weight: string -> real, names: seq<string>): real {
    if names == [] then 0.0 else WeightSum(weight, names[..|names| - 1]) + weight(names[|names| - 1])
  }

  function WeightsBy(weight: string -> real, names: seq<string>): seq<real> { seq(|names|, k requires 0 <= k < |names| => weight(names[k])) }

  lemma {:induction false} KnownIs(hints: Hints)
    ensures Known(hints) == (Total(NumbersIn(hints)), |NumbersIn(hints)|)
  {
    if hints != [] {
      KnownIs(hints[..|hints| - 1]);
      var before := NumbersIn(hints[..|hints| - 1]);
      if hints[|hints| - 1].1.Seconds? { assert (before + [hints[|hints| - 1].1.value])[..|before|] == before; }
      else { assert NumbersIn(hints) == before; }
    }
  }

  lemma {:induction false} LookupIsFirst(hints: Hints, i: nat)
    requires i < |hints| && forall j | 0 <= j < i :: hints[j].0 != hints[i].0
    ensures Lookup(hints, hints[i].0) == Some(hints[i].1)
  {
    if i > 0 {
      assert hints[0].0 != hints[i].0;
      LookupIsFirst(hints[1..], i - 1);
    }
  }

  lemma MeanTimesCount(total: real, count: nat)
    requires count > 0
    ensures count as real * (total / count as real) == total
  {
  }

  lemma HintedWeights(hints: Hints)
    ensures Weighs((name: string) => WeightOf(name, hints, Fallback(hints)), hints)
  {
    KnownIs(hints);
    forall i | 0 <= i < |hints| && hints[i].1.Seconds? && (forall j | 0 <= j < i :: hints[j].0 != hints[i].0)
      ensures WeightOf(hints[i].0, hints, Fallback(hints)) == hints[i].1.value
    {
      LookupIsFirst(hints, i);
    }
    forall name | (forall h | h in hints :: h.0 != name) ensures WeightOf(name, hints, Fallback(hints)) == Fallback(hints) { LookupFinds(hints, name); }
    if NumbersIn(hints) != [] { MeanTimesCount(Total(NumbersIn(hints)), |NumbersIn(hints)|); }
  }

  /** A shard's load is the weight of the names on it. */
  lemma {:induction false} LoadIsWeightSum(weight: string -> real, names: seq<string>, a: seq<nat>, n: nat, i: nat)
    requires n <= |names| && n <= |a|
    ensures Load(WeightsBy(weight, names), a, n, i) == WeightSum(weight, NamesOn(names, a, n, i))
  {
    if n > 0 {
      LoadIsWeightSum(weight, names, a, n - 1, i);
      var before := NamesOn(names, a, n - 1, i);
      assert (before + [names[n - 1]])[..|before|] == before && before + [] == before;
    }
  }

  lemma {:induction false} LoadCons(x: real, w: seq<real>, s: nat, b: seq<nat>, n: nat, i: nat)
    requires n <= |w| && n <= |b|
    ensures Load([x] + w, [s] + b, n + 1, i) == (if s == i then x else 0.0) + Load(w, b, n, i)
  {
    if n > 0 { LoadCons(x, w, s, b, n - 1, i); }
    else { assert Load([x] + w, [s] + b, 0, i) == 0.0; }
  }

  lemma WeightsCons(x: Job, jobs: seq<Job>)
    ensures Weights([x] + jobs) == [x.0] + Weights(jobs)
  {
  }

  lemma Lengths(x: Job, jobs: seq<Job>)
    ensures |Insert(x, jobs)| == |jobs| + 1 && |Sorted(jobs)| == |jobs|
  {
    assert |multiset(Insert(x, jobs))| == |multiset{x} + multiset(jobs)| && |multiset(Sorted(jobs))| == |multiset(jobs)|;
  }

  /** Two lists of jobs, each with its shards, that put the same weight on shard `i`. */
  predicate SameLoad(jobs: seq<Job>, a: seq<nat>, jobs': seq<Job>, a': seq<nat>, i: nat) {
    |a| == |jobs| && |a'| == |jobs'| && Load(Weights(jobs), a, |jobs|, i) == Load(Weights(jobs'), a', |jobs'|, i)
  }

  lemma FrontLoad(x: Job, jobs: seq<Job>, s: nat, a: seq<nat>, i: nat)
    requires |a| == |jobs|
    ensures Load(Weights([x] + jobs), [s] + a, |jobs| + 1, i) == (if s == i then x.0 else 0.0) + Load(Weights(jobs), a, |jobs|, i)
  {
    WeightsCons(x, jobs);
    LoadCons(x.0, Weights(jobs), s, a, |jobs|, i);
  }

  /** Swapping the first two jobs, shards and all, and changing the rest to what loads the same. */
  lemma SwapLoad(x: Job, y: Job, s: nat, t: nat, rest: seq<Job>, a: seq<nat>, rest': seq<Job>, a': seq<nat>, i: nat)
    requires |a| == |rest| && SameLoad(rest', a', [x] + rest, [s] + a, i)
    ensures SameLoad([y] + rest', [t] + a', [x] + ([y] + rest), [s] + ([t] + a), i)
  {
    FrontLoad(y, rest', t, a', i);
    FrontLoad(x, rest, s, a, i);
    FrontLoad(x, [y] + rest, s, [t] + a, i);
    FrontLoad(y, rest, t, a, i);
  }

  /** The same jobs on the same shards weigh the same, wherever one of them is listed. */
  lemma {:induction false} InsertCarries(x: Job, s: nat, jobs: seq<Job>, b: seq<nat>, m: nat) returns (b': seq<nat>)
    requires Assignment(b, |jobs|, m) && s < m
    ensures Assignment(b', |jobs| + 1, m)
    ensures forall i: nat :: SameLoad(Insert(x, jobs), b', [x] + jobs, [s] + b, i)
  {
    if jobs == [] || Ahead(x, jobs[0]) {
      b' := [s] + b;
      assert Insert(x, jobs) == [x] + jobs;
    } else {
      var rest := InsertCarries(x, s, jobs[1..], b[1..], m);
      b' := [b[0]] + rest;
      assert [jobs[0]] + jobs[1..] == jobs && [b[0]] + b[1..] == b;
      forall i: nat ensures SameLoad(Insert(x, jobs), b', [x] + jobs, [s] + b, i) {
        SwapLoad(x, jobs[0], s, b[0], jobs[1..], b[1..], Insert(x, jobs[1..]), rest, i);
      }
    }
  }

  lemma {:induction false} SortCarries(jobs: seq<Job>, b: seq<nat>, m: nat) returns (b': seq<nat>)
    requires Assignment(b, |jobs|, m)
    ensures Assignment(b', |jobs|, m)
    ensures forall i: nat :: SameLoad(Sorted(jobs), b', jobs, b, i)
  {
    if jobs == [] { return []; }
    var rest := SortCarries(jobs[1..], b[1..], m);
    Lengths(jobs[0], jobs[1..]);
    b' := InsertCarries(jobs[0], b[0], Sorted(jobs[1..]), rest, m);
    forall i: nat ensures SameLoad(Sorted(jobs), b', jobs, b, i) {
      assert SameLoad(Sorted(jobs[1..]), rest, jobs[1..], b[1..], i);
      assert SameLoad(Insert(jobs[0], Sorted(jobs[1..])), b', [jobs[0]] + Sorted(jobs[1..]), [b[0]] + rest, i);
      OneMoreInFront(jobs, b, Sorted(jobs[1..]), rest, i);
    }
  }

  lemma OneMoreInFront(jobs: seq<Job>, b: seq<nat>, rest': seq<Job>, a': seq<nat>, i: nat)
    requires jobs != [] && |b| == |jobs| && SameLoad(rest', a', jobs[1..], b[1..], i)
    ensures SameLoad([jobs[0]] + rest', [b[0]] + a', jobs, b, i)
  {
    assert [jobs[0]] + jobs[1..] == jobs && [b[0]] + b[1..] == b;
    FrontLoad(jobs[0], rest', b[0], a', i);
    FrontLoad(jobs[0], jobs[1..], b[0], b[1..], i);
  }

  lemma CarriedWithin(jobs: seq<Job>, b: seq<nat>, m: nat, t: real) returns (b': seq<nat>)
    requires Within(Weights(jobs), b, m, t)
    ensures Within(Weights(Sorted(jobs)), b', m, t)
  {
    b' := SortCarries(jobs, b, m);
    assert |b'| == |Sorted(jobs)| by { assert SameLoad(Sorted(jobs), b', jobs, b, 0); }
    forall i | 0 <= i < m ensures Load(Weights(Sorted(jobs)), b', |b'|, i) <= t { assert SameLoad(Sorted(jobs), b', jobs, b, i); }
  }

  /** No plan of these suites has a heaviest shard so light that one of these loads is above (4m - 1)/(3m) times it. */
  ghost predicate NoPlanMuchBetter(weight: string -> real, suites: seq<string>, loads: seq<real>) {
    forall b, t | Within(WeightsBy(weight, suites), b, |loads|, t) :: forall i | 0 <= i < |loads| ::
      3.0 * |loads| as real * loads[i] <= (4.0 * |loads| as real - 1.0) * t
  }

  lemma LptForSuites(suites: seq<string>, hints: Hints, weight: string -> real, loads: seq<real>)
    requires LptLoads(Weights(Queue(suites, hints)), loads) && Weights(JobsOf(suites, hints)) == WeightsBy(weight, suites)
    ensures NoPlanMuchBetter(weight, suites, loads)
  {
    var jobs := JobsOf(suites, hints);
    forall b, t, i | Within(WeightsBy(weight, suites), b, |loads|, t) && 0 <= i < |loads|
      ensures 3.0 * |loads| as real * loads[i] <= (4.0 * |loads| as real - 1.0) * t
    {
      var b' := CarriedWithin(jobs, b, |loads|, t);
      FactorOut(|loads|, loads[i], t);
    }
  }

  lemma FactorOut(m: nat, l: real, t: real)
    requires m > 0 && l <= Factor(m) * t
    ensures 3.0 * m as real * l <= (4.0 * m as real - 1.0) * t
  {
    FactorTimes(m);
    var r := 3.0 * m as real;
    assert r * l <= r * (Factor(m) * t) by { if l < Factor(m) * t { LargerProduct(r, Factor(m) * t, l); } }
    assert r * (Factor(m) * t) == (r * Factor(m)) * t;
  }

  /** What was returned, in terms of the suites and what each of them weighs. */
  ghost predicate LoadsWeigh(weight: string -> real, plan: Plan, m: nat) {
    && |plan.loads| == m && (forall e | e in plan.matrix :: e.0 < m && plan.loads[e.0] == WeightSum(weight, e.1))
    && (forall i: nat | i < m && (forall e | e in plan.matrix :: e.0 != i) :: plan.loads[i] == 0.0)
  }

  lemma ShardsWeigh(weight: string -> real, names: seq<string>, a: seq<nat>, m: nat)
    requires Assignment(a, |names|, m)
    ensures var shards, loads := ShardsAfter(names, a, |names|, m), LoadsAfter(WeightsBy(weight, names), a, |names|, m);
      LoadsWeigh(weight, Plan(|names|, Matrix(shards), loads), m)
  {
    var shards := ShardsAfter(names, a, |names|, m);
    MatrixKeepsAll(shards);
    forall i: nat | i < m ensures Load(WeightsBy(weight, names), a, |names|, i) == WeightSum(weight, shards[i]) { LoadIsWeightSum(weight, names, a, |names|, i); }
    forall i: nat | i < m && shards[i] != [] ensures exists e | e in Matrix(shards) :: e.0 == i {
      MatrixHasAll(shards, i);
      assert (i, shards[i]).0 == i;
    }
  }

  lemma JobsWeigh(jobs: seq<Job>, weight: string -> real)
    requires forall j | j in jobs :: j.0 == weight(j.1)
    ensures Weights(jobs) == WeightsBy(weight, Names(jobs))
  {
    forall k | 0 <= k < |jobs| ensures Weights(jobs)[k] == WeightsBy(weight, Names(jobs))[k] { assert jobs[k] in jobs; }
  }

  lemma QueueWeighs(suites: seq<string>, hints: Hints, weight: string -> real)
    requires forall name :: weight(name) == WeightOf(name, hints, Fallback(hints))
    ensures Weights(Queue(suites, hints)) == WeightsBy(weight, Names(Queue(suites, hints)))
    ensures Weights(JobsOf(suites, hints)) == WeightsBy(weight, suites)
  {
    var jobs := JobsOf(suites, hints);
    forall j | j in Sorted(jobs) ensures j in jobs { assert j in multiset(Sorted(jobs)); }
    JobsWeigh(jobs, weight);
    JobsWeigh(Sorted(jobs), weight);
  }

  /**
   The two checks the planner makes of its own work never fail; what it returns places every suite
   exactly once, heaviest first onto the lightest shard; each load is the weight of the suites on its shard,
   every suite weighing what its own hint says; and no plan of the same suites beats it by more than the LPT factor.
   */
  method PlanShards(m: int, suites: seq<string>, hints: Hints) returns (r: Result<Plan, PlanError>, ghost a: seq<nat>, ghost weight: string -> real)
    ensures r.Ok? <==> Plannable(m, suites, hints)
    ensures r.Err? ==> r.error.NoSuites? || r.error.NotPlannable?
    ensures r.Ok? ==> r.value.total == |suites| && multiset(MatrixNames(r.value.matrix)) == multiset(suites)
    ensures r.Ok? ==> IsPlan(Queue(suites, hints), a, m, r.value)
    ensures r.Ok? && HintsNonNegative(hints) ==> LptLoads(Weights(Queue(suites, hints)), r.value.loads)
    ensures r.Ok? ==> Weighs(weight, hints) && LoadsWeigh(weight, r.value, m)
    ensures r.Ok? && HintsNonNegative(hints) ==> NoPlanMuchBetter(weight, suites, r.value.loads)
  {
    weight := (name: string) => WeightOf(name, hints, Fallback(hints));
    a := [];
    if suites == [] { return Err(NoSuites), [], weight; }
    if m <= 0 || exists s | s in suites :: Lookup(hints, s) == Some(NotANumber) { return Err(NotPlannable), [], weight; }
    var queue := Queue(suites, hints);
    ghost var w, names := Weights(queue), Names(queue);
    QueueIsReady(suites, hints);
    var shards := new seq<string>[m](_ => []);
    var loads := new real[m](_ => 0.0);
    a := Pack(queue, w, names, shards, loads);
    ChecksPass(names, a, m, suites);
    var placed := Flatten(shards[..]);
    if |placed| != |suites| { return Err(Miscounted), a, weight; }
    if multiset(placed) != multiset(suites) { return Err(DroppedOrDuplicated), a, weight; }
    MatrixKeepsAll(shards[..]);
    HintedWeights(hints);
    QueueWeighs(suites, hints, weight);
    ShardsWeigh(weight, names, a, m);
    if HintsNonNegative(hints) {
      GreedyIsLpt(w, a, m);
      LptForSuites(suites, hints, weight, loads[..]);
    }
    return Ok(Plan(|suites|, Matrix(shards[..]), loads[..])), a, weight;
  }
}
