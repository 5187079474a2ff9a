/** The genetic algorithm driver (galgopy/galgopy.py, class GA): it ranks a
    population, remembers the best chromosome seen so far, and replaces the
    population generation by generation with mutated offspring of its best
    chromosomes. The population is indexed as a list: `population[0]` is
    the first chromosome of its list, and an empty population has none. */
module GeneticAlgorithm {
  import opened Wrappers
  import opened GeneTypes
  import opened Objects
  import opened Mutation
  import opened Populations
  import opened Crossover

  /** `_update_best_solution`'s test: nothing recorded yet, or a strictly
      better fitness under the mode named. */
  predicate Improves(modeName: string, best: Option<real>, f: real) {
    best.None? ||
    (f > best.value && modeName == "maximize") ||
    (f < best.value && modeName == "minimize")
  }

  /** `b` is one of `history` and none of `history` is better under `mode`. */
  predicate IsBest(mode: FitnessMode, b: real, history: seq<real>) {
    b in history &&
    forall i :: 0 <= i < |history| ==> (if mode == Maximize then history[i] <= b else b <= history[i])
  }

  /** `len(self._population) if not self._next_population_size else
      self._next_population_size`: None and 0 both mean "as many as now". */
  function NextSize(nextPopulationSize: Option<int>, current: nat): (n: int)
    ensures nextPopulationSize.None? ==> n == current
    ensures nextPopulationSize.Some? ==> n == if nextPopulationSize.value == 0 then current else nextPopulationSize.value
  {
    if nextPopulationSize.None? || nextPopulationSize.value == 0 then current else nextPopulationSize.value
  }

  /** The last two steps of `_generate_next`: `generate_new_population` of
      the chosen parents, then `apply_mutation` of the new population.
      `children` are the chromosomes before they are mutated. */
  method BreedAndMutate(crossover: CrossoverOp, mutation: MutationOp, parents: seq<Chromosome>, size: int)
      returns (r: Result<Population>, ghost children: seq<Chromosome>, ghost origins: seq<(nat, nat)>)
    requires WellFormed(crossover) && Homogeneous(parents) && |parents| > 0
    ensures r.Ok? ==> fresh(r.value) && r.value.Valid() && r.value.mode == Maximize
    ensures r.Ok? ==> |r.value.chromosomes| == |children| == |origins| == (if size < 0 then 0 else size)
    ensures r.Ok? ==> forall k :: 0 <= k < |children| ==>
      origins[k].0 < |parents| && origins[k].1 < |parents| && OneBred(crossover, parents, children[k], origins[k])
    ensures r.Ok? ==> forall k :: 0 <= k < |children| ==>
      fresh(r.value.chromosomes[k]) && Mutant(mutation, children[k], r.value.chromosomes[k]) &&
      r.value.chromosomes[k].Template() == parents[0].Template()
  {
    children := [];
    var next;
    next, origins := GenerateNewPopulation(crossover, parents, size);
    if next.Err? {
      return Err(next.error), children, origins;
    }
    children := next.value.chromosomes;
    ghost var failedAt;
    var mutated;
    mutated, failedAt := next.value.ApplyMutation(mutation);
    if mutated.Fail? {
      return Err(mutated.error), children, origins;
    }
    r := Ok(next.value);
  }

  /** The dictionary `__next__` returns. */
  datatype Report = Report(
    generation: nat,
    bestSolution: Option<Chromosome>,
    bestFitness: Option<real>,
    generationBestSolution: Option<Chromosome>,
    generationBestFitness: Option<real>,
    generationWorstSolution: Option<Chromosome>,
    generationWorstFitness: Option<real>)

  class GA {
    const objective: seq<Value> -> real
    const modeName: string
    const parentsCount: int
    const crossover: CrossoverOp
    const mutation: MutationOp
    const nextPopulationSize: Option<int>

    var population: Population
    var generation: nat
    var bestSolution: Option<Chromosome>
    var bestFitness: Option<real>
    var generationBestSolution: Option<Chromosome>
    var generationBestFitness: Option<real>
    var generationWorstSolution: Option<Chromosome>
    var generationWorstFitness: Option<real>
    /** The generation best fitness of every generation ranked so far. */
    ghost var history: seq<real>

    /** The recorded best is the best of every generation's best. */
    ghost predicate BestTracked()
      reads this
    {
      (bestFitness.None? <==> history == []) &&
      (bestSolution.None? <==> bestFitness.None?) &&
      (bestFitness.Some? ==> ParseMode(modeName).Ok? && IsBest(ParseMode(modeName).value, bestFitness.value, history))
    }

    /** The state after a successful `__init__` or generation. */
    ghost predicate Valid()
      reads this, population
    {
      population.Valid() && ParseMode(modeName).Ok? && WellFormed(crossover) &&
      |history| == generation + 1 && BestTracked() && bestFitness.Some? &&
      generationBestFitness == Some(history[generation])
    }

    constructor Init(initial: Population, objective: seq<Value> -> real, modeName: string, parentsCount: int,
                     crossover: CrossoverOp, mutation: MutationOp, nextPopulationSize: Option<int>)
      ensures population == initial && this.objective == objective && this.modeName == modeName
      ensures this.parentsCount == parentsCount && this.crossover == crossover && this.mutation == mutation
      ensures this.nextPopulationSize == nextPopulationSize
      ensures generation == 0 && history == []
      ensures bestSolution.None? && bestFitness.None?
      ensures generationBestSolution.None? && generationBestFitness.None?
      ensures generationWorstSolution.None? && generationWorstFitness.None?
    {
      population := initial;
      this.objective := objective;
      this.modeName := modeName;
      this.parentsCount := parentsCount;
      this.crossover := crossover;
      this.mutation := mutation;
      this.nextPopulationSize := nextPopulationSize;
      generation := 0;
      bestSolution, bestFitness := None, None;
      generationBestSolution, generationBestFitness := None, None;
      generationWorstSolution, generationWorstFitness := None, None;
      history := [];
    }

    /** `GA(initial_population, fitness_func, fitness_mode="maximize",
        parents_count=2, crossover=UniformCrossover(),
        mutation=RandomMutation(), next_population_size=None)`: stores its
        arguments and ranks the initial population, which raises for an
        unknown mode and for an empty population. The crossover operator
        is one its constructor accepted. */
    static method New(initial: Population, objective: seq<Value> -> real, modeName: string := "maximize",
                      parentsCount: int := 2, crossover: CrossoverOp := Uniform(true),
                      mutation: MutationOp := RandomMutation(DEFAULT_PROBABILITY),
                      nextPopulationSize: Option<int> := None)
        returns (r: Result<GA>)
      requires initial.Valid() && WellFormed(crossover)
      modifies initial, initial.chromosomes
      ensures r.Ok? <==> ParseMode(modeName).Ok? && |old(initial.chromosomes)| > 0
      ensures ParseMode(modeName).Err? ==> r == Err(InvalidFitnessMode)
      ensures ParseMode(modeName).Ok? && |old(initial.chromosomes)| == 0 ==> r == Err(NoFirstChromosome)
      ensures r.Ok? ==> fresh(r.value) && r.value.Valid() && r.value.population == initial
      ensures r.Ok? ==>
        |initial.chromosomes| > 0 && r.value.generation == 0 &&
        r.value.history == [initial.chromosomes[0].fitness] && r.value.bestSolution == Some(initial.chromosomes[0])
      ensures r.Ok? ==> multiset(initial.chromosomes) == multiset(old(initial.chromosomes))
      ensures r.Ok? ==> initial.mode == ParseMode(modeName).value && Ranked(initial.mode, initial.chromosomes)
      ensures r.Ok? ==> forall c :: c in initial.chromosomes ==> c.fitness == objective(Values(c.genes))
      ensures r.Ok? ==>
        var cs := initial.chromosomes;
        r.value.bestFitness == Some(cs[0].fitness) &&
        r.value.generationBestSolution == Some(cs[0]) && r.value.generationBestFitness == Some(cs[0].fitness) &&
        r.value.generationWorstSolution == Some(cs[|cs| - 1]) && r.value.generationWorstFitness == Some(cs[|cs| - 1].fitness)
      ensures r.Ok? ==>
        r.value.modeName == modeName && r.value.parentsCount == parentsCount &&
        r.value.crossover == crossover && r.value.mutation == mutation &&
        r.value.nextPopulationSize == nextPopulationSize && r.value.objective == objective
    {
      var ga := new GA.Init(initial, objective, modeName, parentsCount, crossover, mutation, nextPopulationSize);
      var o := ga.Rank();
      if o.Fail? {
        return Err(o.error);
      }
      r := Ok(ga);
    }

    /** `_update_best_solution(chromosome)`. */
    method UpdateBest(c: Chromosome)
      modifies this`bestSolution, this`bestFitness
      ensures Improves(modeName, old(bestFitness), c.fitness) ==>
        bestSolution == Some(c) && bestFitness == Some(c.fitness)
      ensures !Improves(modeName, old(bestFitness), c.fitness) ==>
        bestSolution == old(bestSolution) && bestFitness == old(bestFitness)
    {
      if Improves(modeName, bestFitness, c.fitness) {
        bestSolution := Some(c);
        bestFitness := Some(c.fitness);
      }
    }

    /** `_fitness`: ranks the population under the GA's mode, offers its
        first chromosome to `_update_best_solution` and records the first
        and the last chromosome as the generation's best and worst. */
    method Rank() returns (o: Outcome)
      requires population.Valid() && BestTracked()
      modifies population, population.chromosomes
      modifies this`bestSolution, this`bestFitness, this`history
      modifies this`generationBestSolution, this`generationBestFitness
      modifies this`generationWorstSolution, this`generationWorstFitness
      ensures population.Valid() && BestTracked()
      ensures |population.chromosomes| == |old(population.chromosomes)|
      ensures o.Fail? <==> ParseMode(modeName).Err? || |old(population.chromosomes)| == 0
      ensures ParseMode(modeName).Err? ==> o == Fail(InvalidFitnessMode)
      ensures ParseMode(modeName).Ok? && |old(population.chromosomes)| == 0 ==> o == Fail(NoFirstChromosome)
      ensures o.Fail? ==> history == old(history) && bestFitness == old(bestFitness)
      ensures o.Pass? ==> |population.chromosomes| > 0
      ensures o.Pass? ==> multiset(population.chromosomes) == multiset(old(population.chromosomes))
      ensures o.Pass? ==> population.mode == ParseMode(modeName).value && Ranked(population.mode, population.chromosomes)
      ensures o.Pass? ==> forall c :: c in population.chromosomes ==> c.fitness == objective(Values(c.genes))
      ensures o.Pass? ==>
        var cs := population.chromosomes;
        generationBestSolution == Some(cs[0]) && generationBestFitness == Some(cs[0].fitness) &&
        generationWorstSolution == Some(cs[|cs| - 1]) && generationWorstFitness == Some(cs[|cs| - 1].fitness) &&
        history == old(history) + [cs[0].fitness]
      ensures o.Pass? ==>
        var f := population.chromosomes[0].fitness;
        if Improves(modeName, old(bestFitness), f)
        then bestSolution == Some(population.chromosomes[0]) && bestFitness == Some(f)
        else bestSolution == old(bestSolution) && bestFitness == old(bestFitness)
    {
      o := population.Fitness(objective, modeName);
      if o.Fail? {
        return;
      }
      var cs := population.chromosomes;
      if |cs| == 0 {
        return Fail(NoFirstChromosome);
      }
      label Ranked:
      assert |multiset(cs)| == |cs|;
      Record(cs[0], cs[|cs| - 1], population.mode);
      assert unchanged@Ranked(population);
      assert unchanged@Ranked(cs);
    }

    /** The bookkeeping of `_fitness` once the population is ranked: its
        first chromosome is offered to `_update_best_solution`, and it and
        the last chromosome become the generation's best and worst. */
    method Record(first: Chromosome, last: Chromosome, ghost mode: FitnessMode)
      requires BestTracked() && ParseMode(modeName) == Ok(mode)
      modifies this`bestSolution, this`bestFitness, this`history
      modifies this`generationBestSolution, this`generationBestFitness
      modifies this`generationWorstSolution, this`generationWorstFitness
      ensures BestTracked() && history == old(history) + [first.fitness]
      ensures generationBestSolution == Some(first) && generationBestFitness == Some(first.fitness)
      ensures generationWorstSolution == Some(last) && generationWorstFitness == Some(last.fitness)
      ensures if Improves(modeName, old(bestFitness), first.fitness)
              then bestSolution == Some(first) && bestFitness == Some(first.fitness)
              else bestSolution == old(bestSolution) && bestFitness == old(bestFitness)
    {
      UpdateBestKeepsBest(mode, modeName, bestFitness, history, first.fitness);
      UpdateBest(first);
      history := history + [first.fitness];
      generationBestSolution, generationBestFitness := Some(first), Some(first.fitness);
      generationWorstSolution, generationWorstFitness := Some(last), Some(last.fitness);
    }

    /** The first half of `_generate_next`: the parents, their offspring
        population and its mutation, before the GA adopts it. Every chromosome
        of the result is the mutant of a child bred from two parents. */
    method Offspring() returns (r: Result<Population>, ghost parents: seq<Chromosome>, ghost children: seq<Chromosome>,
                                ghost origins: seq<(nat, nat)>)
      requires Valid()
      modifies population.chromosomes
      ensures parentsCount > |old(population.chromosomes)| ==> r == Err(TooManyParents)
      ensures parentsCount <= |old(population.chromosomes)| && parentsCount < 1 ==> r == Err(TooFewParents)
      ensures r.Ok? ==> 1 <= parentsCount <= |population.chromosomes| && parents == population.chromosomes[..parentsCount]
      ensures r.Ok? ==> fresh(r.value) && r.value.Valid() && r.value.mode == Maximize
      ensures r.Ok? ==>
        |r.value.chromosomes| == |children| == |origins| ==
        (var n := NextSize(nextPopulationSize, |population.chromosomes|); if n < 0 then 0 else n)
      ensures r.Ok? ==> forall k :: 0 <= k < |children| ==>
        origins[k].0 < |parents| && origins[k].1 < |parents| && OneBred(crossover, parents, children[k], origins[k])
      ensures r.Ok? ==> forall k :: 0 <= k < |children| ==>
        fresh(r.value.chromosomes[k]) && Mutant(mutation, children[k], r.value.chromosomes[k]) &&
        r.value.chromosomes[k].Template() == parents[0].Template()
      ensures population == old(population) && population.chromosomes == old(population.chromosomes)
      ensures forall c :: c in population.chromosomes ==> c.fitness == old(c.fitness)
    {
      parents, children, origins := [], [], [];
      var selected := population.GetParents(parentsCount);
      if selected.Err? {
        return Err(selected.error), parents, children, origins;
      }
      var ps := selected.value;
      parents := ps;
      HomogeneousPrefix(population.chromosomes, parentsCount);
      var size := NextSize(nextPopulationSize, |population.chromosomes|);
      r, children, origins := BreedAndMutate(crossover, mutation, ps, size);
    }

    /** `_generate_next`: breed and mutate the next population, adopt it,
        count the generation and rank it. Nothing of the GA changes when the
        offspring cannot be produced; an empty offspring population is
        adopted and counted, and then ranking it fails. */
    method GenerateNext() returns (o: Outcome, ghost parents: seq<Chromosome>, ghost mutants: seq<Chromosome>)
      requires Valid()
      modifies this, population.chromosomes
      ensures parentsCount > |old(population.chromosomes)| ==> o == Fail(TooManyParents)
      ensures parentsCount <= |old(population.chromosomes)| && parentsCount < 1 ==> o == Fail(TooFewParents)
      ensures o.Pass? ==> Valid()
      ensures o.Pass? ==> fresh(population) && generation == old(generation) + 1
      ensures o.Pass? ==>
        1 <= parentsCount <= |old(population.chromosomes)| &&
        parents == old(population.chromosomes)[..parentsCount]
      ensures o.Pass? ==>
        |population.chromosomes| == |mutants| == NextSize(nextPopulationSize, |old(population.chromosomes)|)
      ensures o.Pass? ==> multiset(population.chromosomes) == multiset(mutants)
      ensures o.Pass? ==> forall k :: 0 <= k < |mutants| ==>
        fresh(mutants[k]) && mutants[k].Template() == parents[0].Template()
      ensures o.Pass? ==> forall k :: 0 <= k < |population.chromosomes| ==> fresh(population.chromosomes[k])
      ensures o.Pass? ==> Ranked(population.mode, population.chromosomes)
      ensures o.Pass? ==> forall c :: c in population.chromosomes ==> c.fitness == objective(Values(c.genes))
      ensures o.Pass? ==> history == old(history) + [population.chromosomes[0].fitness]
      ensures o.Pass? ==> population.mode == ParseMode(modeName).value
      ensures o.Pass? ==>
        var cs := population.chromosomes;
        generationBestSolution == Some(cs[0]) && generationBestFitness == Some(cs[0].fitness) &&
        generationWorstSolution == Some(cs[|cs| - 1]) && generationWorstFitness == Some(cs[|cs| - 1].fitness)
      ensures o.Pass? ==>
        var f := population.chromosomes[0].fitness;
        if Improves(modeName, old(bestFitness), f)
        then bestSolution == Some(population.chromosomes[0]) && bestFitness == Some(f)
        else bestSolution == old(bestSolution) && bestFitness == old(bestFitness)
      ensures o.Fail? ==>
        (population == old(population) && generation == old(generation) && history == old(history) &&
         bestFitness == old(bestFitness)) ||
        (o.error == NoFirstChromosome && fresh(population) && |population.chromosomes| == 0 &&
         generation == old(generation) + 1)
    {
      parents, mutants := [], [];
      ghost var children, origins;
      var next;
      next, parents, children, origins := Offspring();
      if next.Err? {
        return Fail(next.error), parents, mutants;
      }
      mutants := next.value.chromosomes;
      population, generation := next.value, generation + 1;
      o := Rank();
      if o.Pass? {
        ghost var cs := population.chromosomes;
        SameMembers(cs, mutants);
        forall k | 0 <= k < |cs|
          ensures fresh(cs[k])
        {
          assert cs[k] in mutants;
        }
      }
    }

    /** `__next__`: one generation, then the report of the new state. */
    method Next() returns (r: Result<Report>)
      requires Valid()
      modifies this, population.chromosomes
      ensures r.Ok? ==> Valid() && generation == old(generation) + 1
      ensures r.Ok? ==> r.value == Report(generation, bestSolution, bestFitness, generationBestSolution,
                                           generationBestFitness, generationWorstSolution, generationWorstFitness)
      ensures r.Ok? ==> population.mode == ParseMode(modeName).value && Ranked(population.mode, population.chromosomes)
      ensures r.Ok? ==>
        var cs := population.chromosomes;
        |cs| > 0 && history == old(history) + [cs[0].fitness] &&
        generationBestSolution == Some(cs[0]) && generationBestFitness == Some(cs[0].fitness) &&
        generationWorstSolution == Some(cs[|cs| - 1]) && generationWorstFitness == Some(cs[|cs| - 1].fitness)
      ensures r.Ok? ==>
        var f := population.chromosomes[0].fitness;
        if Improves(modeName, old(bestFitness), f)
        then bestSolution == Some(population.chromosomes[0]) && bestFitness == Some(f)
        else bestSolution == old(bestSolution) && bestFitness == old(bestFitness)
    {
      var o, parents, mutants := GenerateNext();
      if o.Fail? {
        return Err(o.error);
      }
      r := Ok(Report(generation, bestSolution, bestFitness, generationBestSolution,
                     generationBestFitness, generationWorstSolution, generationWorstFitness));
    }

    /** `run(generations=100, expected_fitness=None)`: before each of up to
        `generations` generations, stops once the best fitness equals the
        expected one. `ran` is the number of generations produced and
        `seen[k]` the best fitness at the check before generation k. */
    method Run(generations: int := 100, expected: Option<real> := None)
        returns (o: Outcome, ghost ran: nat, ghost seen: seq<Option<real>>)
      requires Valid()
      modifies this, population.chromosomes
      ensures ran <= (if generations < 0 then 0 else generations)
      ensures o.Fail? ==> ran < generations
      ensures o.Pass? ==> Valid() && generation == old(generation) + ran
      ensures o.Pass? ==> old(history) <= history && |history| == |old(history)| + ran
      ensures o.Pass? && ran < generations ==> expected == bestFitness
      ensures o.Pass? && expected.None? ==> ran == (if generations < 0 then 0 else generations)
      ensures |seen| == ran + (if o.Fail? then 1 else 0)
      ensures forall k :: 0 <= k < |seen| ==> seen[k] != expected
      ensures |seen| > 0 ==> seen[0] == old(bestFitness)
      ensures o.Pass? ==> forall k :: 0 <= k < |seen| ==>
        seen[k].Some? && IsBest(ParseMode(modeName).value, seen[k].value, history[..|old(history)| + k])
      ensures old(bestFitness) == expected ==> o.Pass? && ran == 0
    {
      ran, seen := 0, [];
      o := Pass;
      var n := 0;
      while n < generations
        invariant Valid() && ran == n && n <= (if generations < 0 then 0 else generations)
        invariant generation == old(generation) + n
        invariant old(history) <= history && |history| == |old(history)| + n
        invariant population == old(population) || fresh(population)
        invariant forall k :: 0 <= k < |population.chromosomes| ==>
          population.chromosomes[k] in old(population.chromosomes) || fresh(population.chromosomes[k])
        invariant n == 0 ==> bestFitness == old(bestFitness)
        invariant |seen| == n && (n > 0 ==> seen[0] == old(bestFitness))
        invariant forall k :: 0 <= k < n ==> seen[k] != expected
        invariant forall k :: 0 <= k < n ==>
          seen[k].Some? && IsBest(ParseMode(modeName).value, seen[k].value, history[..|old(history)| + k])
        decreases generations - n
      {
        if expected == bestFitness {
          return;
        }
        assert history[..|old(history)| + n] == history;
        seen := seen + [bestFitness];
        ghost var before := history;
        var step, parents, mutants := GenerateNext();
        if step.Fail? {
          return step, ran, seen;
        }
        assert forall m :: 0 <= m <= |before| ==> history[..m] == before[..m];
        n := n + 1;
        ran := n;
      }
    }
  }

  // ---------------------------------------------------------------------
  // Properties

  /** Offering a generation's best to `_update_best_solution` keeps the
      recorded fitness the best of every generation's best. */
  lemma UpdateBestKeepsBest(mode: FitnessMode, modeName: string, best: Option<real>, history: seq<real>, f: real)
    requires ParseMode(modeName) == Ok(mode)
    requires best.None? <==> history == []
    requires best.Some? ==> IsBest(mode, best.value, history)
    ensures IsBest(mode, if Improves(modeName, best, f) then f else best.value, history + [f])
  {
    var h := history + [f];
    if !Improves(modeName, best, f) {
      var b := best.value;
      assert b in h;
      forall i | 0 <= i < |h|
        ensures if mode == Maximize then h[i] <= b else b <= h[i]
      {
        if i < |history| {
          assert h[i] == history[i];
        }
      }
    } else if best.Some? {
      var b := best.value;
      forall i | 0 <= i < |h|
        ensures if mode == Maximize then h[i] <= f else f <= h[i]
      {
        if i < |history| {
          assert h[i] == history[i];
        }
      }
    }
  }

  /** The best fitness never gets worse from one generation to the next. */
  lemma BestMonotone(mode: FitnessMode, b: real, history: seq<real>, b': real, history': seq<real>)
    requires IsBest(mode, b, history) && IsBest(mode, b', history') && history <= history'
    ensures mode == Maximize ==> b <= b'
    ensures mode == Minimize ==> b' <= b
  {
    var i :| 0 <= i < |history| && history[i] == b;
    assert history'[i] == b;
  }

  /** A ranked population's first chromosome has the best fitness of all and
      its last chromosome the worst. */
  lemma RankedEnds(mode: FitnessMode, cs: seq<Chromosome>)
    requires Ranked(mode, cs) && |cs| > 0
    ensures forall c :: c in cs ==>
      (mode == Maximize ==> cs[|cs| - 1].fitness <= c.fitness <= cs[0].fitness) &&
      (mode == Minimize ==> cs[0].fitness <= c.fitness <= cs[|cs| - 1].fitness)
  {
    forall c | c in cs
      ensures (mode == Maximize ==> cs[|cs| - 1].fitness <= c.fitness <= cs[0].fitness) &&
              (mode == Minimize ==> cs[0].fitness <= c.fitness <= cs[|cs| - 1].fitness)
    {
      var i :| 0 <= i < |cs| && cs[i] == c;
    }
  }
}
