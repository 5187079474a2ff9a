/** Populations (galgopy/objects.py, class Population): a list of
    chromosomes sharing one template, ranked in place by a fitness function,
    whose best prefix is handed to the crossover with roulette weights. */
module Populations {
  import opened Wrappers
  import opened GeneTypes
  import opened Objects
  import opened Mutation

  /** The two fitness modes. */
  datatype FitnessMode = Maximize | Minimize

  /** The mode names `fitness` accepts; any other raises ValueError. */
  function ParseMode(name: string): (r: Result<FitnessMode>)
    ensures r.Ok? <==> name == "maximize" || name == "minimize"
    ensures r.Ok? ==> (r.value == Maximize <==> name == "maximize")
    ensures r.Err? ==> r.error == InvalidFitnessMode
  {
    if name == "maximize" then Ok(Maximize)
    else if name == "minimize" then Ok(Minimize)
    else Err(InvalidFitnessMode)
  }

  /** Every chromosome has the template of the first one. */
  predicate Homogeneous(cs: seq<Chromosome>) {
    forall i :: 0 <= i < |cs| ==> cs[i].Template() == cs[0].Template()
  }

  /** The fitness values of a list of chromosomes, in order. */
  function Fitnesses(cs: seq<Chromosome>): (fs: seq<real>)
    reads cs
    ensures |fs| == |cs|
  {
    seq(|cs|, i requires 0 <= i < |cs| reads cs => cs[i].fitness)
  }

  predicate Ascending(cs: seq<Chromosome>)
    reads cs
  {
    forall i, j :: 0 <= i < j < |cs| ==> cs[i].fitness <= cs[j].fitness
  }

  predicate Descending(cs: seq<Chromosome>)
    reads cs
  {
    forall i, j :: 0 <= i < j < |cs| ==> cs[i].fitness >= cs[j].fitness
  }

  /** Best first: non-increasing fitness for maximize, non-decreasing for
      minimize. */
  predicate Ranked(mode: FitnessMode, cs: seq<Chromosome>)
    reads cs
  {
    if mode == Maximize then Descending(cs) else Ascending(cs)
  }

  // ---------------------------------------------------------------------
  // list.sort and list.reverse

  /** Inserts `c` into a list after every leading chromosome whose fitness
      is not above its own, as a stable sort places it in an ascending list. */
  function InsertByFitness(s: seq<Chromosome>, c: Chromosome): (r: seq<Chromosome>)
    reads s, c
    ensures |r| == |s| + 1
  {
    if s == [] then [c]
    else if c.fitness < s[0].fitness then [c] + s
    else [s[0]] + InsertByFitness(s[1..], c)
  }

  /** Insertion adds exactly `c`. */
  lemma {:induction false} InsertByFitnessPermutes(s: seq<Chromosome>, c: Chromosome)
    ensures multiset(InsertByFitness(s, c)) == multiset(s) + multiset{c}
  {
    if s != [] && c.fitness >= s[0].fitness {
      InsertByFitnessPermutes(s[1..], c);
      assert s == [s[0]] + s[1..];
    }
  }

  /** A chromosome no fitter than any of an ascending list may lead it. */
  lemma AscendingCons(x: Chromosome, t: seq<Chromosome>)
    requires Ascending(t)
    requires forall k :: 0 <= k < |t| ==> x.fitness <= t[k].fitness
    ensures Ascending([x] + t)
  {
    var r := [x] + t;
    forall i, j | 0 <= i < j < |r|
      ensures r[i].fitness <= r[j].fitness
    {
      assert r[j] == t[j - 1];
      if i > 0 {
        assert r[i] == t[i - 1];
      }
    }
  }

  /** Insertion keeps an ascending list ascending. */
  lemma {:induction false} InsertByFitnessSorts(s: seq<Chromosome>, c: Chromosome)
    requires Ascending(s)
    ensures Ascending(InsertByFitness(s, c))
  {
    if s == [] {
    } else if c.fitness < s[0].fitness {
      assert forall k :: 0 <= k < |s| ==> s[0].fitness <= s[k].fitness;
      AscendingCons(c, s);
    } else {
      var tail := s[1..];
      var rest := InsertByFitness(tail, c);
      assert Ascending(tail) by {
        forall i, j | 0 <= i < j < |tail|
          ensures tail[i].fitness <= tail[j].fitness
        {
          assert tail[i] == s[i + 1] && tail[j] == s[j + 1];
        }
      }
      InsertByFitnessSorts(tail, c);
      InsertByFitnessPermutes(tail, c);
      forall k | 0 <= k < |rest|
        ensures s[0].fitness <= rest[k].fitness
      {
        assert rest[k] in multiset(rest);
        if rest[k] != c {
          assert rest[k] in multiset(tail);
          var m :| 0 <= m < |tail| && tail[m] == rest[k];
          assert s[m + 1] == rest[k];
        }
      }
      AscendingCons(s[0], rest);
    }
  }

  /** `list.sort()` on chromosomes, which compare by fitness (`__lt__`):
      the result is an ascending permutation of the input. */
  method SortByFitness(cs: seq<Chromosome>) returns (s: seq<Chromosome>)
    ensures Ascending(s)
    ensures multiset(s) == multiset(cs)
  {
    s := [];
    var i := 0;
    while i < |cs|
      invariant 0 <= i <= |cs|
      invariant Ascending(s)
      invariant multiset(s) == multiset(cs[..i])
    {
      InsertByFitnessSorts(s, cs[i]);
      InsertByFitnessPermutes(s, cs[i]);
      s := InsertByFitness(s, cs[i]);
      assert cs[..i + 1] == cs[..i] + [cs[i]];
      i := i + 1;
    }
    assert cs[..|cs|] == cs;
  }

  /** `list.reverse()`: position i receives the element at |s| - 1 - i. */
  function Reverse<T>(s: seq<T>): (r: seq<T>)
    ensures |r| == |s|
    ensures forall i :: 0 <= i < |s| ==> r[i] == s[|s| - 1 - i]
  {
    if s == [] then [] else Reverse(s[1..]) + [s[0]]
  }

  /** Reversal permutes the list. */
  lemma {:induction false} ReversePermutes<T>(s: seq<T>)
    ensures multiset(Reverse(s)) == multiset(s)
  {
    if s != [] {
      ReversePermutes(s[1..]);
      assert s == [s[0]] + s[1..];
    }
  }

  /** Reversal is its own inverse and turns an ascending list into a
      descending one. */
  lemma ReverseInvolutionAndOrder(s: seq<Chromosome>)
    ensures Reverse(Reverse(s)) == s
    ensures Ascending(s) ==> Descending(Reverse(s))
  {
    var r := Reverse(s);
    if Ascending(s) {
      forall i, j | 0 <= i < j < |r|
        ensures r[i].fitness >= r[j].fitness
      {
        assert r[i] == s[|s| - 1 - i] && r[j] == s[|s| - 1 - j];
      }
    }
  }

  /** The order `fitness` leaves the list in: the ascending sort, reversed
      for maximize. */
  function RankOrder(mode: FitnessMode, sorted: seq<Chromosome>): seq<Chromosome> {
    if mode == Maximize then Reverse(sorted) else sorted
  }

  /** Sorting and then reversing for maximize ranks the list best first
      without adding or losing a chromosome. */
  lemma RankOrderFacts(mode: FitnessMode, sorted: seq<Chromosome>)
    requires Ascending(sorted)
    ensures Ranked(mode, RankOrder(mode, sorted))
    ensures multiset(RankOrder(mode, sorted)) == multiset(sorted)
  {
    if mode == Maximize {
      ReversePermutes(sorted);
      ReverseInvolutionAndOrder(sorted);
    }
  }

  /** Two lists that are permutations of each other hold the same objects. */
  lemma SameMembers<T>(a: seq<T>, b: seq<T>)
    requires multiset(a) == multiset(b)
    ensures forall x :: x in a <==> x in b
  {
    forall x
      ensures x in a <==> x in b
    {
      assert x in a <==> x in multiset(a);
      assert x in b <==> x in multiset(b);
    }
  }

  /** A permutation of a homogeneous list is homogeneous. */
  lemma HomogeneousPermutation(cs: seq<Chromosome>, ds: seq<Chromosome>)
    requires Homogeneous(cs)
    requires multiset(ds) == multiset(cs)
    ensures Homogeneous(ds)
  {
    if |ds| > 0 {
      assert forall i :: 0 <= i < |ds| ==> ds[i] in multiset(ds);
      forall i | 0 <= i < |ds|
        ensures ds[i].Template() == cs[0].Template()
      {
        assert ds[i] in cs;
      }
    }
  }

  /** Any prefix of a homogeneous list is homogeneous. */
  lemma HomogeneousPrefix(cs: seq<Chromosome>, k: nat)
    requires Homogeneous(cs) && 0 < k <= |cs|
    ensures Homogeneous(cs[..k])
  {
  }

  // ---------------------------------------------------------------------
  // Roulette weights of get_parents

  /** Python's `sum`, left to right. */
  function Sum(xs: seq<real>): real {
    if xs == [] then 0.0 else xs[0] + Sum(xs[1..])
  }

  /** Python's `min`. */
  function MinOf(xs: seq<real>): (m: real)
    requires |xs| > 0
    ensures exists i :: 0 <= i < |xs| && xs[i] == m
    ensures forall i :: 0 <= i < |xs| ==> m <= xs[i]
  {
    if |xs| == 1 then xs[0]
    else
      var m := MinOf(xs[1..]);
      assert forall i :: 1 <= i < |xs| ==> xs[i] == xs[1..][i - 1];
      if xs[0] <= m then xs[0] else m
  }

  /** `[p.fitness - fitness_min for p in selected_parents]` */
  function Deviations(fs: seq<real>, m: real): (ds: seq<real>)
    ensures |ds| == |fs|
    ensures forall i :: 0 <= i < |fs| ==> ds[i] == fs[i] - m
  {
    if fs == [] then [] else [fs[0] - m] + Deviations(fs[1..], m)
  }

  /** `fitness_sum`: the total distance of the parents above the worst. */
  function Spread(fs: seq<real>): real
    requires |fs| > 0
  {
    Sum(Deviations(fs, MinOf(fs)))
  }

  /** The weight given to one parent of fitness `f` among `k` parents whose
      minimum is `m` and whose spread is `s`. */
  function Weight(mode: FitnessMode, f: real, m: real, s: real, k: nat): real
    requires k > 0
  {
    if s == 0.0 then 1.0 / k as real
    else if mode == Maximize then (f - m) / s
    else (1.0 - (f - m) / s) / s
  }

  /** The weights of a list of parents, position by position. */
  function WeightsOf(mode: FitnessMode, fs: seq<real>, m: real, s: real, k: nat): (ws: seq<real>)
    requires k > 0
    ensures |ws| == |fs|
    ensures forall i :: 0 <= i < |fs| ==> ws[i] == Weight(mode, fs[i], m, s, k)
  {
    if fs == [] then [] else [Weight(mode, fs[0], m, s, k)] + WeightsOf(mode, fs[1..], m, s, k)
  }

  /** The `proportional_fitness` values `get_parents` assigns to parents
      with fitness values `fs`. */
  function Weights(mode: FitnessMode, fs: seq<real>): (ws: seq<real>)
    requires |fs| > 0
    ensures |ws| == |fs|
  {
    WeightsOf(mode, fs, MinOf(fs), Spread(fs), |fs|)
  }

  /** All fitness values equal. */
  predicate Tied(fs: seq<real>) {
    forall i, j :: 0 <= i < |fs| && 0 <= j < |fs| ==> fs[i] == fs[j]
  }

  lemma DivAdd(a: real, b: real, s: real)
    requires s != 0.0
    ensures a / s + b / s == (a + b) / s
  {
  }

  lemma DivSelf(s: real)
    requires s != 0.0
    ensures s / s == 1.0
  {
  }

  lemma DivBounds(a: real, b: real, s: real)
    requires s > 0.0
    ensures a <= b ==> a / s <= b / s
    ensures a < b ==> a / s < b / s
    ensures 0.0 <= a ==> 0.0 <= a / s
    ensures a <= s ==> a / s <= 1.0
    ensures a == 0.0 ==> a / s == 0.0
  {
  }

  /** A sum of non-negative terms bounds each term, and is zero exactly
      when every term is. */
  lemma {:induction false} SumNonNegative(xs: seq<real>)
    requires forall i :: 0 <= i < |xs| ==> xs[i] >= 0.0
    ensures Sum(xs) >= 0.0
    ensures forall i :: 0 <= i < |xs| ==> xs[i] <= Sum(xs)
    ensures Sum(xs) == 0.0 <==> forall i :: 0 <= i < |xs| ==> xs[i] == 0.0
  {
    if xs != [] {
      SumNonNegative(xs[1..]);
      assert forall i :: 1 <= i < |xs| ==> xs[i] == xs[1..][i - 1];
    }
  }

  /** The spread is never negative, bounds every deviation, and is zero
      exactly when all parents are tied. */
  lemma SpreadZeroIffTied(fs: seq<real>)
    requires |fs| > 0
    ensures Spread(fs) >= 0.0
    ensures forall i :: 0 <= i < |fs| ==> fs[i] - MinOf(fs) <= Spread(fs)
    ensures Spread(fs) == 0.0 <==> Tied(fs)
  {
    var m := MinOf(fs);
    var ds := Deviations(fs, m);
    SumNonNegative(ds);
    if Tied(fs) {
      var i0 :| 0 <= i0 < |fs| && fs[i0] == m;
      assert forall i :: 0 <= i < |fs| ==> ds[i] == 0.0 by {
        forall i | 0 <= i < |fs| ensures ds[i] == 0.0 {
          assert fs[i] == fs[i0];
        }
      }
    }
    if Spread(fs) == 0.0 {
      forall i, j | 0 <= i < |fs| && 0 <= j < |fs|
        ensures fs[i] == fs[j]
      {
        assert ds[i] == 0.0 && ds[j] == 0.0;
      }
    }
  }

  /** The sums of the weights under each rule, for any list. */
  lemma {:induction false} SumWeightsOf(mode: FitnessMode, fs: seq<real>, m: real, s: real, k: nat)
    requires k > 0
    ensures s == 0.0 ==> Sum(WeightsOf(mode, fs, m, s, k)) == (|fs| as real) / (k as real)
    ensures s != 0.0 && mode == Maximize ==>
      Sum(WeightsOf(mode, fs, m, s, k)) == Sum(Deviations(fs, m)) / s
    ensures s != 0.0 && mode == Minimize ==>
      Sum(WeightsOf(mode, fs, m, s, k)) == (|fs| as real - Sum(Deviations(fs, m)) / s) / s
  {
    if fs != [] {
      var ws := WeightsOf(mode, fs, m, s, k);
      var ds := Deviations(fs, m);
      SumWeightsOf(mode, fs[1..], m, s, k);
      assert ws[1..] == WeightsOf(mode, fs[1..], m, s, k);
      assert ds[1..] == Deviations(fs[1..], m);
      var n := (|fs| - 1) as real;
      if s == 0.0 {
        DivAdd(1.0, n, k as real);
      } else if mode == Maximize {
        DivAdd(fs[0] - m, Sum(ds[1..]), s);
      } else {
        DivAdd(fs[0] - m, Sum(ds[1..]), s);
        DivAdd(1.0 - (fs[0] - m) / s, n - Sum(ds[1..]) / s, s);
      }
    }
  }

  /** Tied parents share equally: every weight is 1/k and they sum to 1
      (for either mode). */
  lemma TiedParentsShareEqually(mode: FitnessMode, fs: seq<real>)
    requires |fs| > 0 && Tied(fs)
    ensures forall i :: 0 <= i < |fs| ==> Weights(mode, fs)[i] == 1.0 / |fs| as real
    ensures Sum(Weights(mode, fs)) == 1.0
  {
    SpreadZeroIffTied(fs);
    SumWeightsOf(mode, fs, MinOf(fs), Spread(fs), |fs|);
    DivSelf(|fs| as real);
  }

  /** One maximize weight, for parents whose deviations f - m and g - m lie
      in [0, s]: it lies in [0, 1], is 0 for the worst parent, and follows
      the fitness order. */
  lemma MaximizeWeight(f: real, g: real, m: real, s: real, k: nat)
    requires k > 0 && s > 0.0
    requires 0.0 <= f - m <= s && 0.0 <= g - m <= s
    ensures 0.0 <= Weight(Maximize, f, m, s, k) <= 1.0
    ensures f == m ==> Weight(Maximize, f, m, s, k) == 0.0
    ensures f <= g ==> Weight(Maximize, f, m, s, k) <= Weight(Maximize, g, m, s, k)
  {
    DivBounds(f - m, g - m, s);
  }

  /** One minimize weight, as written: it lies in [0, 1/s], is 1/s for the
      best parent, and a strictly lower fitness gets a strictly larger
      weight. */
  lemma MinimizeWeight(f: real, g: real, m: real, s: real, k: nat)
    requires k > 0 && s > 0.0
    requires 0.0 <= f - m <= s && 0.0 <= g - m <= s
    ensures 0.0 <= Weight(Minimize, f, m, s, k) <= 1.0 / s
    ensures f == m ==> Weight(Minimize, f, m, s, k) == 1.0 / s
    ensures f < g ==> Weight(Minimize, f, m, s, k) > Weight(Minimize, g, m, s, k)
  {
    DivBounds(f - m, g - m, s);
    DivBounds(1.0 - (f - m) / s, 1.0, s);
    DivBounds(1.0 - (g - m) / s, 1.0 - (f - m) / s, s);
  }

  /** Maximize: the weights lie in [0, 1], sum to 1, follow the fitness
      order, and the worst parent gets 0. */
  lemma MaximizeWeights(fs: seq<real>)
    requires |fs| > 0 && !Tied(fs)
    ensures Sum(Weights(Maximize, fs)) == 1.0
    ensures forall i :: 0 <= i < |fs| ==> 0.0 <= Weights(Maximize, fs)[i] <= 1.0
    ensures forall i :: 0 <= i < |fs| && fs[i] == MinOf(fs) ==> Weights(Maximize, fs)[i] == 0.0
    ensures forall i, j :: 0 <= i < |fs| && 0 <= j < |fs| && fs[i] <= fs[j] ==>
      Weights(Maximize, fs)[i] <= Weights(Maximize, fs)[j]
  {
    WeightsSum(Maximize, fs);
    forall i, j | 0 <= i < |fs| && 0 <= j < |fs|
      ensures 0.0 <= Weights(Maximize, fs)[i] <= 1.0
      ensures fs[i] == MinOf(fs) ==> Weights(Maximize, fs)[i] == 0.0
      ensures fs[i] <= fs[j] ==> Weights(Maximize, fs)[i] <= Weights(Maximize, fs)[j]
    {
      WeightsAt(Maximize, fs, i, j);
    }
  }

  /** Minimize, as written: the weights lie in [0, 1/spread], a strictly
      better (lower) fitness gets a strictly larger weight, the best parent
      gets 1/spread, and together they sum to (k - 1)/spread rather than 1. */
  lemma MinimizeWeights(fs: seq<real>)
    requires |fs| > 0 && !Tied(fs)
    ensures Spread(fs) > 0.0
    ensures Sum(Weights(Minimize, fs)) == (|fs| as real - 1.0) / Spread(fs)
    ensures forall i :: 0 <= i < |fs| ==> 0.0 <= Weights(Minimize, fs)[i] <= 1.0 / Spread(fs)
    ensures forall i :: 0 <= i < |fs| && fs[i] == MinOf(fs) ==> Weights(Minimize, fs)[i] == 1.0 / Spread(fs)
    ensures forall i, j :: 0 <= i < |fs| && 0 <= j < |fs| && fs[i] < fs[j] ==>
      Weights(Minimize, fs)[i] > Weights(Minimize, fs)[j]
  {
    WeightsSum(Minimize, fs);
    forall i, j | 0 <= i < |fs| && 0 <= j < |fs|
      ensures 0.0 <= Weights(Minimize, fs)[i] <= 1.0 / Spread(fs)
      ensures fs[i] == MinOf(fs) ==> Weights(Minimize, fs)[i] == 1.0 / Spread(fs)
      ensures fs[i] < fs[j] ==> Weights(Minimize, fs)[i] > Weights(Minimize, fs)[j]
    {
      WeightsAt(Minimize, fs, i, j);
    }
  }

  /** The sum of the weights of untied parents: 1 for maximize, and
      (k - 1)/spread for minimize. */
  lemma WeightsSum(mode: FitnessMode, fs: seq<real>)
    requires |fs| > 0 && !Tied(fs)
    ensures Spread(fs) > 0.0
    ensures mode == Maximize ==> Sum(Weights(mode, fs)) == 1.0
    ensures mode == Minimize ==> Sum(Weights(mode, fs)) == (|fs| as real - 1.0) / Spread(fs)
  {
    var m, s, k := MinOf(fs), Spread(fs), |fs|;
    SpreadZeroIffTied(fs);
    SumWeightsOf(mode, fs, m, s, k);
    assert Sum(Deviations(fs, m)) == s;
    DivSelf(s);
  }

  /** The weights of two untied parents i and j, compared. */
  lemma WeightsAt(mode: FitnessMode, fs: seq<real>, i: nat, j: nat)
    requires |fs| > 0 && !Tied(fs) && i < |fs| && j < |fs|
    ensures Spread(fs) > 0.0
    ensures mode == Maximize ==>
      0.0 <= Weights(mode, fs)[i] <= 1.0 &&
      (fs[i] == MinOf(fs) ==> Weights(mode, fs)[i] == 0.0) &&
      (fs[i] <= fs[j] ==> Weights(mode, fs)[i] <= Weights(mode, fs)[j])
    ensures mode == Minimize ==>
      0.0 <= Weights(mode, fs)[i] <= 1.0 / Spread(fs) &&
      (fs[i] == MinOf(fs) ==> Weights(mode, fs)[i] == 1.0 / Spread(fs)) &&
      (fs[i] < fs[j] ==> Weights(mode, fs)[i] > Weights(mode, fs)[j])
  {
    var m, s, k := MinOf(fs), Spread(fs), |fs|;
    SpreadZeroIffTied(fs);
    assert Weights(mode, fs)[i] == Weight(mode, fs[i], m, s, k);
    assert Weights(mode, fs)[j] == Weight(mode, fs[j], m, s, k);
    if mode == Maximize {
      MaximizeWeight(fs[i], fs[j], m, s, k);
    } else {
      MinimizeWeight(fs[i], fs[j], m, s, k);
    }
  }

  /** The minimize weights of the code differ from `(max - f) / sum(max - f)`:
      for fitness values 0, 1, 3 the best parent gets 1/4, not 3/5. */
  lemma MinimizeWeightsNotNormalised()
    ensures Weights(Minimize, [0.0, 1.0, 3.0])[0] == 0.25
  {
    var a := [0.0, 1.0, 3.0];
    assert MinOf(a[2..]) == 3.0;
    assert MinOf(a[1..]) == 1.0;
    assert MinOf(a) == 0.0;
    assert Deviations(a, 0.0) == [0.0, 1.0, 3.0];
    assert Sum([3.0]) == 3.0;
    assert Sum([1.0, 3.0]) == 1.0 + Sum([3.0]);
    assert Spread(a) == 4.0;
  }

  /** For fitness values -0.75, 0 the best parent's minimize weight is 4/3,
      above 1. */
  lemma MinimizeWeightAboveOne()
    ensures Weights(Minimize, [-0.75, 0.0])[0] == 4.0 / 3.0
  {
    var b := [-0.75, 0.0];
    assert MinOf(b[1..]) == 0.0;
    assert MinOf(b) == -0.75;
    assert Deviations(b, -0.75) == [0.0, 0.75];
    assert Sum([0.75]) == 0.75;
    assert Spread(b) == 0.75;
  }

  /** For fitness values -0.75, 0, 0.25 the best parent's minimize weight is
      1/1.75. */
  lemma MinimizeWeightNegativeFitness()
    ensures Weights(Minimize, [-0.75, 0.0, 0.25])[0] == 1.0 / 1.75
  {
    var c := [-0.75, 0.0, 0.25];
    assert MinOf(c[2..]) == 0.25;
    assert MinOf(c[1..]) == 0.0;
    assert MinOf(c) == -0.75;
    assert Deviations(c, -0.75) == [0.0, 0.75, 1.0];
    assert Sum([1.0]) == 1.0;
    assert Sum([0.75, 1.0]) == 0.75 + Sum([1.0]);
    assert Spread(c) == 1.75;
  }

  // ---------------------------------------------------------------------
  // The Population class

  class Population {
    /** `chromosome_list`: the list object is reordered and overwritten in
        place; only its setter raises. */
    var chromosomes: seq<Chromosome>
    /** `_fitness_mode`, "maximize" until `fitness` is called. */
    var mode: FitnessMode

    predicate Valid()
      reads this
    {
      Homogeneous(chromosomes)
    }

    constructor Init(cs: seq<Chromosome>)
      requires Homogeneous(cs)
      ensures chromosomes == cs && mode == Maximize && Valid()
    {
      chromosomes := cs;
      mode := Maximize;
    }

    /** `Population(chromosome_list)`: raises when some chromosome's
        template differs from the first's; an empty list is accepted. */
    static method New(cs: seq<Chromosome>) returns (r: Result<Population>)
      ensures r.Ok? <==> Homogeneous(cs)
      ensures r.Err? ==> r.error == TemplateMismatch
      ensures r.Ok? ==> fresh(r.value) && r.value.chromosomes == cs && r.value.mode == Maximize
    {
      if !Homogeneous(cs) {
        return Err(TemplateMismatch);
      }
      var p := new Population.Init(cs);
      r := Ok(p);
    }

    /** `fitness(func, mode)`: an unknown mode raises before anything
        changes; otherwise the mode is stored, every chromosome's fitness is
        set to the objective of its gene values, and the list is sorted
        ascending and, for maximize, reversed, so the best comes first. */
    method Fitness(objective: seq<Value> -> real, modeName: string := "maximize") returns (o: Outcome)
      requires Valid()
      modifies this, chromosomes
      ensures Valid()
      ensures o.Pass? <==> ParseMode(modeName).Ok?
      ensures o.Fail? ==> o.error == InvalidFitnessMode
      ensures o.Fail? ==> chromosomes == old(chromosomes) && mode == old(mode)
      ensures o.Fail? ==> forall c :: c in chromosomes ==> c.fitness == old(c.fitness)
      ensures o.Pass? ==> mode == ParseMode(modeName).value
      ensures o.Pass? ==> multiset(chromosomes) == multiset(old(chromosomes))
      ensures o.Pass? ==> forall c :: c in chromosomes ==> c.fitness == objective(Values(c.genes))
      ensures o.Pass? ==> Ranked(mode, chromosomes)
      ensures forall c :: c in old(chromosomes) ==> c.proportionalFitness == old(c.proportionalFitness)
    {
      var parsed := ParseMode(modeName);
      if parsed.Err? {
        return Fail(parsed.error);
      }
      mode := parsed.value;
      EvaluateAll(chromosomes, objective);
      chromosomes := RankList(mode, chromosomes);
      o := Pass;
    }

    /** `get_parents(parents_count=2)`: raises when the count exceeds the
        population, then when it is below 1; otherwise returns the first k
        chromosomes in their order, after writing each one's roulette weight
        into `proportional_fitness`. */
    method GetParents(k: int := 2) returns (r: Result<seq<Chromosome>>)
      modifies chromosomes
      ensures k > |chromosomes| ==> r == Err(TooManyParents)
      ensures k <= |chromosomes| && k < 1 ==> r == Err(TooFewParents)
      ensures 1 <= k <= |chromosomes| ==> r == Ok(chromosomes[..k])
      ensures 1 <= k <= |chromosomes| ==> forall i :: 0 <= i < k ==>
        chromosomes[i].proportionalFitness == Weights(mode, Fitnesses(chromosomes[..k]))[i]
      ensures forall c :: c in chromosomes ==> c.fitness == old(c.fitness)
      ensures forall c :: c in chromosomes && (r.Err? || c !in chromosomes[..k]) ==>
        c.proportionalFitness == old(c.proportionalFitness)
    {
      if k > |chromosomes| {
        return Err(TooManyParents);
      } else if k < 1 {
        return Err(TooFewParents);
      }
      var selected := chromosomes[..k];
      var fs := Fitnesses(selected);
      var fmin := MinOf(fs);
      var fsum := Spread(fs);
      var i := 0;
      while i < k
        invariant 0 <= i <= k
        invariant forall c :: c in chromosomes ==> c.fitness == old(c.fitness)
        invariant Fitnesses(selected) == fs
        invariant forall j :: 0 <= j < i ==>
          selected[j].proportionalFitness == Weight(mode, selected[j].fitness, fmin, fsum, k)
        invariant forall c :: c in chromosomes && c !in selected ==> c.proportionalFitness == old(c.proportionalFitness)
      {
        var parent := selected[i];
        parent.proportionalFitness := Weight(mode, parent.fitness, fmin, fsum, k);
        i := i + 1;
      }
      r := Ok(selected);
    }

    /** `apply_mutation(mutation)`: entry i is replaced, in order, by the
        operator's result for it. When the operator raises at entry `failedAt`
        the entries before it are already replaced and the rest are not. */
    method ApplyMutation(op: MutationOp) returns (o: Outcome, ghost failedAt: nat)
      requires Valid()
      modifies this
      ensures Valid() && mode == old(mode)
      ensures |chromosomes| == |old(chromosomes)|
      ensures o.Pass? ==> forall i :: 0 <= i < |chromosomes| ==>
        fresh(chromosomes[i]) && Mutant(op, old(chromosomes)[i], chromosomes[i])
      ensures o.Fail? ==> failedAt < |chromosomes|
      ensures o.Fail? ==> forall i :: 0 <= i < failedAt ==>
        fresh(chromosomes[i]) && Mutant(op, old(chromosomes)[i], chromosomes[i])
      ensures o.Fail? ==> forall i :: failedAt <= i < |chromosomes| ==> chromosomes[i] == old(chromosomes)[i]
      ensures op.SwapMutation? ==>
        (o.Pass? <==> forall i :: 0 <= i < |chromosomes| ==>
          old(chromosomes)[i].Template().AreSameTypes() && |old(chromosomes)[i].genes| >= 2)
      ensures op.RandomMutation? ==>
        ((forall i :: 0 <= i < |chromosomes| ==> |old(chromosomes)[i].genes| > 0 && Redrawable(old(chromosomes)[i]))
         ==> o.Pass?)
      ensures forall i :: 0 <= i < |chromosomes| ==> chromosomes[i].Template() == old(chromosomes)[i].Template()
    {
      failedAt := 0;
      var i := 0;
      while i < |chromosomes|
        invariant 0 <= i <= |chromosomes| == |old(chromosomes)|
        invariant mode == old(mode)
        invariant forall j :: 0 <= j < i ==> fresh(chromosomes[j]) && Mutant(op, old(chromosomes)[j], chromosomes[j])
        invariant forall j :: i <= j < |chromosomes| ==> chromosomes[j] == old(chromosomes)[j]
        invariant forall j :: 0 <= j < |chromosomes| ==> chromosomes[j].Template() == old(chromosomes)[j].Template()
        invariant op.SwapMutation? ==> forall j :: 0 <= j < i ==>
          old(chromosomes)[j].Template().AreSameTypes() && |old(chromosomes)[j].genes| >= 2
      {
        var m := Mutation.ApplyMutation(op, chromosomes[i]);
        if m.Err? {
          failedAt := i;
          assert Valid() by { TemplatesKept(old(chromosomes), chromosomes); }
          return Fail(m.error), failedAt;
        }
        MutantKeepsTemplate(op, chromosomes[i], m.value);
        chromosomes := chromosomes[i := m.value];
        i := i + 1;
      }
      TemplatesKept(old(chromosomes), chromosomes);
      o := Pass;
    }

    /** `generate_random_population(population_size, chromosome_tmplt)`:
        `population_size` random chromosomes of the template (none when the
        size is not positive). */
    static method GenerateRandomPopulation(size: int, t: ChromosomeTemplate) returns (r: Result<Population>)
      ensures r.Ok? <==> size <= 0 || (|t.typesList| > 0 && forall i :: 0 <= i < |t.typesList| ==> Inhabited(t.typesList[i]))
      ensures r.Err? ==> r.error == TemplateError(t.typesList)
      ensures r.Ok? ==> fresh(r.value) && r.value.mode == Maximize && r.value.Valid()
      ensures r.Ok? ==> |r.value.chromosomes| == if size < 0 then 0 else size
      ensures r.Ok? ==> forall i :: 0 <= i < |r.value.chromosomes| ==>
        fresh(r.value.chromosomes[i]) && r.value.chromosomes[i].Template() == t
    {
      var cs: seq<Chromosome> := [];
      var n := 0;
      while n < size
        invariant 0 <= n <= (if size < 0 then 0 else size) && |cs| == n
        invariant forall i :: 0 <= i < n ==> fresh(cs[i]) && cs[i].Template() == t
        invariant n > 0 ==> |t.typesList| > 0 && forall i :: 0 <= i < |t.typesList| ==> Inhabited(t.typesList[i])
      {
        ghost var draws;
        var c;
        c, draws := Chromosome.GenerateRandomChromosome(t);
        if c.Err? {
          return Err(c.error);
        }
        cs := cs + [c.value];
        n := n + 1;
      }
      var p := new Population.Init(cs);
      r := Ok(p);
    }
  }

  /** The sort and, for maximize, the reversal of `fitness`: the same
      chromosomes, best first. */
  method RankList(mode: FitnessMode, cs: seq<Chromosome>) returns (r: seq<Chromosome>)
    requires Homogeneous(cs)
    ensures Ranked(mode, r) && multiset(r) == multiset(cs) && Homogeneous(r)
    ensures forall c :: c in r <==> c in cs
  {
    var sorted := SortByFitness(cs);
    RankOrderFacts(mode, sorted);
    HomogeneousPermutation(cs, sorted);
    HomogeneousPermutation(sorted, RankOrder(mode, sorted));
    SameMembers(cs, RankOrder(mode, sorted));
    r := RankOrder(mode, sorted);
  }

  /** The loop of `fitness`: `chromosome.fitness = func(chromosome)` for
      each chromosome, where the function sees the gene values. */
  method EvaluateAll(cs: seq<Chromosome>, objective: seq<Value> -> real)
    modifies cs
    ensures forall c :: c in cs ==> c.fitness == objective(Values(c.genes))
    ensures forall c :: c in cs ==> c.proportionalFitness == old(c.proportionalFitness)
  {
    var i := 0;
    while i < |cs|
      invariant 0 <= i <= |cs|
      invariant forall k :: 0 <= k < i ==> cs[k].fitness == objective(Values(cs[k].genes))
      invariant forall c :: c in cs ==> c.proportionalFitness == old(c.proportionalFitness)
    {
      var c := cs[i];
      c.fitness := objective(Values(c.genes));
      i := i + 1;
    }
  }

  /** Replacing chromosomes by ones with the same templates keeps a list
      homogeneous. */
  lemma TemplatesKept(cs: seq<Chromosome>, ds: seq<Chromosome>)
    requires Homogeneous(cs) && |ds| == |cs|
    requires forall i :: 0 <= i < |ds| ==> ds[i].Template() == cs[i].Template()
    ensures Homogeneous(ds)
  {
  }
}
