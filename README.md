# galgopy genetic-algorithm engine in Dafny

This project models the live engine of the galgopy library and proves properties about the model. The library is a small genetic-algorithm package written in Python. The engine has five parts:

- **Gene types** (`GeneTypes`, from galgopy/gtypes.py). There are five value domains: binary, integer range, float interval, letters and a custom list. Each domain has its own membership test, structural equality, bound normalisation and random value.
- **Genes and chromosomes** (`Objects`, from galgopy/objects.py). A gene is a validated value of a fixed type. A chromosome is a non-empty, fixed list of genes with two mutable fitness fields. Its template is the list of its genes' types.
- **Populations** (`Populations`, the `Population` class of galgopy/objects.py). A population is a list of chromosomes that share one template. It is ranked in place by a fitness function: it is sorted, then reversed for maximize. Its best prefix is handed out as parents, each parent getting a roulette weight.
- **Crossover and mutation operators** (`Crossover` and `Mutation`, from galgopy/crossover.py and galgopy/mutation.py). There are four crossovers: one-point, multipoint, uniform and intermediate recombination. There are two mutations: per-gene random replacement and the two-position swap.
- **The driver** (`GeneticAlgorithm`, the `GA` class of galgopy/galgopy.py). It holds a generation counter, the best chromosome seen so far, and bookmarks for each generation's best and worst chromosome. It replaces the population generation by generation, in a bounded run loop that can stop early.

Genes, chromosomes, populations and the driver are classes whose fields the methods update. Gene types, templates and operators are datatypes. Every random draw is a nondeterministic choice constrained to the range the library call uses; ghost out-parameters record the draws, so that contracts can state the exact offspring. The user's fitness function is a parameter (`objective`) that sees a chromosome's gene values. Every error the code raises is an `Err`/`Fail` value (module `Wrappers`).

`Value` is `NumV(real) | StrV(string)`. Python compares ints and floats by value (`3.0 in range(0, 10)` holds), and nothing in the engine tells them apart, so both are one `NumV`.

## Model

| member | source | states |
|---|---|---|
| GeneTypes.NewIntType | galgopy/gtypes.py:73-82 | the stored bounds are ordered and are the two arguments in some order |
| GeneTypes.NewFloatType | galgopy/gtypes.py:104-113 | the same for FloatType; the default interval is [0, 1) |
| GeneTypes.NewStrType | galgopy/gtypes.py:138-159 | fails exactly for a mode other than all/lowercase/uppercase; the alphabet has 52, 26 lowercase or 26 uppercase letters |
| GeneTypes.TypeEq | galgopy/gtypes.py:57-193 | `__eq__` of the five types: the same class and the same parameters; StrType compares its resolved letters, CostumeType its value lists in order |
| GeneTypes.Validate | galgopy/gtypes.py:63-198 | `validate` of the five types: 0 or 1; an integral number in [min, max]; a number in [min, max); one letter of the alphabet; a member of the custom list |
| GeneTypes.RandomVal | galgopy/gtypes.py:63-196 | for every draw the library can return, the generated value validates exactly when the domain is inhabited |
| GeneTypes.ScaleUnitBounds | galgopy/gtypes.py:125-127 | `r·(max−min)+min` maps r in [0, 1) into [min, max) when min < max, and onto min when they coincide |
| GeneTypes.BinaryAcceptsZeroAndOne | galgopy/gtypes.py:66-67 | BinaryType accepts exactly 0 and 1 and no string |
| GeneTypes.IntTypeAcceptsClosedRange | galgopy/gtypes.py:97-98 | IntType(a, b) accepts exactly the integers between a and b, both ends included, in either argument order; it rejects fractions and strings |
| GeneTypes.BoundsOrderIrrelevant | galgopy/gtypes.py:81-113 | `IntType(a, b) == IntType(b, a)` and `FloatType(x, y) == FloatType(y, x)` |
| GeneTypes.FloatTypeHalfOpen | galgopy/gtypes.py:129-132 | min is accepted and max rejected; an interval with equal bounds accepts nothing |
| GeneTypes.StrTypeAcceptsLetters | galgopy/gtypes.py:170-171 | a StrType accepts exactly the one-letter strings over its alphabet |
| GeneTypes.InhabitedIffSomeValue | galgopy/gtypes.py:43-51 | a domain has a valid value if and only if it is inhabited |
| GeneTypes.InhabitedCanDraw | galgopy/gtypes.py:94-196 | the library call never raises for an inhabited domain |
| GeneTypes.StrDataInjective | galgopy/gtypes.py:154-159 | different modes give different letter lists |
| GeneTypes.TypeEqIsEquality | galgopy/gtypes.py:57-193 | each type's `__eq__` coincides with structural equality, so it is an equivalence |
| GeneTypes.DifferentKindsNeverEqual | galgopy/gtypes.py:57-58 | types of different classes are never equal; any two BinaryTypes are equal |
| Objects.Gene.New | galgopy/objects.py:7-22 | succeeds if and only if the type accepts the value; the gene then holds that value and type |
| Objects.Gene.SetValue | galgopy/objects.py:32-36 | a write succeeds if and only if the value validates; a rejected write keeps the old value |
| Objects.Gene.GenerateRandomGene | galgopy/objects.py:47-57 | succeeds if and only if the type is inhabited; the result is fresh, valid, of that type and holds the drawn value |
| Objects.TemplateEqIsEquality | galgopy/objects.py:75-78 | template equality (element by element, in order) is structural equality |
| Objects.TemplateEq | galgopy/objects.py:75-78 | template equality compares the type lists in order with each type's `__eq__` |
| Objects.ChromosomeTemplate.AreSameTypes | tests/test_objects.py:84-95 | every entry equals the first, parameters included |
| Objects.ChromosomeTemplate.TypesOfClass | tests/test_objects.py:98-112 | every entry is of the one class, whatever its parameters |
| Objects.AreSameTypesPairwise | tests/test_objects.py:82-93 | `are_same_types` holds if and only if any two entries are equal, parameters included |
| Objects.SameFloatTypes | galgopy/crossover.py:195-198 | an all-FloatType, all-equal template names one interval at every position |
| Objects.Chromosome.New | galgopy/objects.py:103-112 | fails exactly on an empty list; the template is the genes' types and both fitness fields are 0 |
| Objects.Chromosome.Template | galgopy/objects.py:108-110 | the template is built from the genes' types, in order |
| Objects.Chromosome.Less | galgopy/objects.py:122-123 | chromosomes are compared by fitness alone |
| Objects.FirstGeneError | galgopy/objects.py:176-178 | no gene error occurs if and only if every type of the template is inhabited |
| Objects.Chromosome.GenerateRandomChromosome | galgopy/objects.py:166-179 | succeeds if and only if the template is non-empty with every type inhabited; the result has exactly that template, one fresh valid gene per entry holding its draw |
| Objects.MixKeepsTypes | galgopy/crossover.py:157-164 | a child taking each gene from one of two parents with the same template has that template |
| Mutation.SwapAt | galgopy/mutation.py:80-86 | the gene list with two positions exchanged, of the same length |
| Mutation.Mutant | galgopy/mutation.py:49-87 | what either operator may return: the same length; RandomMutation keeps each gene or replaces it by a valid gene of its type; SwapMutation needs equal types and two genes, and keeps the list or exchanges two distinct positions |
| Mutation.ApplyRandomMutation | galgopy/mutation.py:49-54 | one draw per position; a gene is kept when its draw is above p, otherwise it becomes a fresh valid gene of the same type; it cannot fail when every type is inhabited |
| Mutation.ApplySwapMutation | galgopy/mutation.py:60-87 | fails with NotSameTypes, then with ChromosomeTooShort below two genes; otherwise the result is the input, or the input with two distinct positions exchanged when the draw is at most p (always when p ≥ 1) |
| Mutation.ApplyMutation | galgopy/mutation.py:35-87 | the result is a fresh `Mutant` of the input with zero fitness; a swap succeeds if and only if the types are equal and there are at least two genes |
| Mutation.SwapPermutes | galgopy/mutation.py:80-86 | a swap permutes the genes, touches only the two positions and undoes itself |
| Mutation.SwapKeepsTemplate | galgopy/mutation.py:72-86 | on equal types a swap keeps the template |
| Mutation.MutantKeepsTemplate | galgopy/mutation.py:49-87 | every result of either operator has the input's template |
| Populations.ParseMode | galgopy/objects.py:236-240 | exactly "maximize" and "minimize" are accepted |
| Populations.InsertByFitness | galgopy/objects.py:243 | one step of the stable sort: the chromosome goes after every leading chromosome whose fitness is not above its own; the list grows by one |
| Populations.InsertByFitnessPermutes | galgopy/objects.py:243 | inserting a chromosome adds exactly it |
| Populations.InsertByFitnessSorts | galgopy/objects.py:243 | insertion keeps an ascending list ascending |
| Populations.SortByFitness | galgopy/objects.py:243 | `list.sort()` under `__lt__` yields an ascending permutation of the list |
| Populations.Reverse | galgopy/objects.py:244-245 | position i of the result holds the element at position n−1−i |
| Populations.ReversePermutes | galgopy/objects.py:244-245 | reversal is a permutation |
| Populations.ReverseInvolutionAndOrder | galgopy/objects.py:243-245 | reversal undoes itself and turns ascending into descending |
| Populations.RankOrderFacts | galgopy/objects.py:243-245 | sorting and then reversing for maximize ranks best first without adding or losing a chromosome |
| Populations.RankList | galgopy/objects.py:243-245 | the ranked list is a permutation of the input, best first, holding the same chromosomes |
| Populations.EvaluateAll | galgopy/objects.py:241-242 | every chromosome's fitness becomes the objective of its gene values; nothing else changes |
| Populations.Population.New | galgopy/objects.py:185-204 | fails if and only if some template differs from the first's; the empty list is accepted; the mode starts at maximize |
| Populations.Population.Fitness | galgopy/objects.py:225-245 | an unknown mode fails before anything changes; otherwise the mode is stored, each fitness is the objective, and the list is a permutation of the old one ranked best first |
| Populations.Population.GetParents | galgopy/objects.py:247-282 | fails when k exceeds the size, then when k < 1; otherwise returns the first k in order, gives parent i weight `Weights(mode, fitnesses)[i]`, and changes no other field |
| Populations.Weight | galgopy/objects.py:271-281 | one parent's weight: 1/k when the spread is 0, `(f−min)/Σ` for maximize, `(1−(f−min)/Σ)/Σ` for minimize |
| Populations.Weights | galgopy/objects.py:266-281 | one weight per parent, from the parents' minimum and spread |
| Populations.MinOf | galgopy/objects.py:268 | the minimum is one of the values and at most each of them |
| Populations.SpreadZeroIffTied | galgopy/objects.py:268-273 | `fitness_sum` is non-negative and bounds every deviation; it is 0 if and only if all parents are tied |
| Populations.SumWeightsOf | galgopy/objects.py:271-281 | the sum of the weights under the tie, maximize and minimize rules |
| Populations.TiedParentsShareEqually | galgopy/objects.py:272-273 | tied parents each get 1/k, and the weights sum to 1 |
| Populations.MaximizeWeights | galgopy/objects.py:274-277 | maximize weights lie in [0, 1], sum to 1, follow the fitness order, and the worst parent gets 0 |
| Populations.MinimizeWeights | galgopy/objects.py:278-281 | minimize weights lie in [0, 1/Σ]; the best parent gets 1/Σ; lower fitness gets strictly more weight; the weights sum to (k−1)/Σ, not 1 |
| Populations.MinimizeWeightsNotNormalised | galgopy/objects.py:278-281 | for fitness values 0, 1, 3 the best parent's weight is 1/4 |
| Populations.MinimizeWeightAboveOne | galgopy/objects.py:278-281 | for fitness values −0.75, 0 the best parent's weight is 4/3 |
| Populations.MinimizeWeightNegativeFitness | galgopy/objects.py:278-281 | for fitness values −0.75, 0, 0.25 the best parent's weight is 1/1.75 |
| Populations.Population.ApplyMutation | galgopy/objects.py:284-291 | entry i becomes a fresh mutant of the old entry i, in order; on failure at i the entries before i are replaced and the rest are not; templates and length are kept |
| Populations.Population.GenerateRandomPopulation | galgopy/objects.py:293-311 | succeeds if and only if the size is not positive or the template can be filled; the result holds max(size, 0) fresh chromosomes of the template |
| Crossover.NewMultipoint | galgopy/crossover.py:85-104 | fails if and only if fewer than two cut points are asked for |
| Crossover.NewIntermediateRecombination | galgopy/crossover.py:175-190 | fails if and only if a is outside [0, 1] |
| Crossover.SelectParents | galgopy/crossover.py:31-46 | returns the parents at two drawn positions, which are distinct under random selection; it fails on an empty list for proportionate selection, and with fewer than two parents otherwise |
| Crossover.OnePointChild | galgopy/crossover.py:72-74 | `p1[:c] + p2[c:]`, of the parents' length |
| Crossover.OnePointComplementary | galgopy/crossover.py:72-74 | one-point children are complementary, and a cut at c is a multipoint crossover with the single cut c |
| Crossover.CountLeInSegment | galgopy/crossover.py:120-136 | a position of segment i has exactly i cut points at or below it |
| Crossover.SegmentOfChild | galgopy/crossover.py:120-136 | segment i of child 1 is that slice of the second parent when i is even and of the first when it is odd |
| Crossover.MultipointChild | galgopy/crossover.py:120-136 | position x comes from the second parent when an even number of cut points lie at or below it, and from the first otherwise |
| Crossover.MultipointChildren | galgopy/crossover.py:117-136 | the segment loop builds exactly `MultipointChild(p, q, cuts)` and `MultipointChild(q, p, cuts)` |
| Crossover.MultipointComplementary | galgopy/crossover.py:120-136 | multipoint children are complementary |
| Crossover.UniformChild | galgopy/crossover.py:157-164 | position i comes from the first parent when its coin is below 0.5 and from the second otherwise; one coin per position |
| Crossover.UniformChildren | galgopy/crossover.py:154-164 | one coin in [0, 1) per position; child 1 takes the first parent's gene when its coin is below 0.5, and child 2 the other gene |
| Crossover.UniformComplementary | galgopy/crossover.py:157-164 | uniform children are complementary |
| Crossover.ComplementaryConservesGenes | galgopy/crossover.py:157-164 | complementary children together hold exactly the parents' genes |
| Crossover.CutChildrenKeepTypes | galgopy/crossover.py:73-74 | complementary children of parents with one template have that template |
| Crossover.Midpoint | galgopy/crossover.py:205-213 | `(v1 + v2)·0.5` |
| Crossover.Blend | galgopy/crossover.py:218-230 | `v1·a + v2·(1 − a)` |
| Crossover.MidpointChild | galgopy/crossover.py:205-213 | one fresh gene per position with the first parent's type and value `(v1+v2)·0.5`; it cannot fail on float genes of one valid interval |
| Crossover.BlendChildren | galgopy/crossover.py:214-231 | child 1 takes `a·v1+(1−a)·v2` with gene 1's type and child 2 `a·v2+(1−a)·v1` with gene 2's type; it cannot fail when 0 ≤ a ≤ 1 and the genes are valid floats of one interval |
| Crossover.BlendWithin | galgopy/crossover.py:218-231 | a convex combination of two points of [lo, hi) stays in [lo, hi) |
| Crossover.BlendSpecialCases | galgopy/crossover.py:205-213 | the a = 0.5 branch is the blend at a = 0.5 (both children coincide); a = 1 and a = 0 copy a parent's values |
| Crossover.Breed | galgopy/crossover.py:70-235 | one pair's children, per operator: how many, their template, `Bred` from (p, q) and (q, p), and each draw error (one-point below two genes, more cut points than genes); the two children of every cut or uniform crossover are complementary |
| Crossover.Step | galgopy/crossover.py:70-74 | select a pair, then breed it; the errors of an iteration are exactly `StepError`, and none occurs on valid float genes; outside intermediate recombination the two children are complementary with respect to the selected parents |
| Crossover.Brood | galgopy/crossover.py:73-78 | the pair's children as fresh chromosomes of the parents' template, child 1 bred from (i, j) and child 2 from (j, i); the two gene lists are complementary with respect to parents i and j |
| Crossover.PairedExtend | galgopy/crossover.py:71-78 | appending a pair's child 1 and, when it fits, child 2 keeps entries 2m and 2m+1 paired and complementary |
| Crossover.Chromosomes | galgopy/crossover.py:73-74 | one fresh chromosome per child gene list, holding exactly that list, with fitness and proportional fitness 0 |
| Crossover.Grow | galgopy/crossover.py:71-78 | one pass of the loop: the first iteration's error, or the list extended by the pair's child 1 and, if it still fits under the size, child 2; every earlier entry and its lineage is kept, and the pairing of entries 2m and 2m+1 (`Paired`) carries over to the longer list |
| Crossover.BreedChildren | galgopy/crossover.py:69-79 | the loop returns exactly max(size, 0) fresh chromosomes of the parents' template, each bred from the recorded pair of parents, or the first iteration's error; for two-child operators entries 2m and 2m+1 come from the same pair in exchanged order and, outside intermediate recombination, are complementary |
| Crossover.GenerateNewPopulation | galgopy/crossover.py:192-236 | intermediate recombination first rejects a template that is not all-equal FloatType; the result is a valid fresh population of exactly max(size, 0) bred children in maximize mode, whose entries 2m and 2m+1 are complementary siblings for the cut and uniform crossovers |
| GeneticAlgorithm.NextSize | galgopy/galgopy.py:112-117 | None and 0 mean the current size; any other value is taken as given |
| GeneticAlgorithm.GA.New | galgopy/galgopy.py:17-60 | stores the arguments, starts at generation 0 and ranks the population; it fails for an unknown mode or an empty population; on success the population is a permutation of the initial one, ranked best first under the mode, every fitness is the objective of the genes, the best is the first ranked chromosome and the bookmarks are the first and last |
| GeneticAlgorithm.GA.UpdateBest | galgopy/galgopy.py:81-94 | the candidate replaces the best exactly when nothing is recorded or it is strictly better under the mode |
| GeneticAlgorithm.GA.Rank | galgopy/galgopy.py:96-105 | ranks the population, offers its first chromosome to the best, and bookmarks the first and last chromosome as the generation's best and worst |
| GeneticAlgorithm.GA.Record | galgopy/galgopy.py:101-105 | the bookmarks become the first and last chromosome; the all-time best stays the best of every generation's best |
| GeneticAlgorithm.BreedAndMutate | galgopy/galgopy.py:112-119 | the offspring population is fresh and has max(size, 0) chromosomes, each a fresh mutant of a child bred from two of the given parents and carrying the parents' template |
| GeneticAlgorithm.GA.Offspring | galgopy/galgopy.py:108-119 | the parents are the ranked prefix; the offspring population has `NextSize` chromosomes, each a mutant of a child bred from two parents; the current population is untouched |
| GeneticAlgorithm.GA.GenerateNext | galgopy/galgopy.py:107-122 | the parent errors leave the GA unchanged; on success the generation grows by exactly 1, the new population is the fresh offspring, ranked under the mode, of `NextSize` chromosomes; the bookmarks are its first and last chromosome, and the best is replaced exactly when the new first chromosome improves on it |
| GeneticAlgorithm.GA.Next | galgopy/galgopy.py:65-76 | exactly one generation, then a report of the counter, the best and the bookmarks; the new population is non-empty and ranked, its first fitness joins the history, the bookmarks are its ends and the best is replaced exactly when that chromosome improves on it |
| GeneticAlgorithm.GA.Run | galgopy/galgopy.py:124-137 | at most `generations` generations; an early stop means the best equals the expected fitness; without an expected fitness all of them run; the best history only grows; `seen` records the best fitness tested before each generation, starting with the initial best, none of them equal to the expected fitness, and on a finished run each the best of the history up to it; an initial best equal to the expected fitness runs no generation |
| GeneticAlgorithm.UpdateBestKeepsBest | galgopy/galgopy.py:81-94 | after an offer, the best is still the best of every generation's best |
| GeneticAlgorithm.BestMonotone | galgopy/galgopy.py:81-94 | the best fitness never gets worse: it never falls under maximize and never rises under minimize |
| GeneticAlgorithm.RankedEnds | galgopy/galgopy.py:101-105 | in a ranked population the first chromosome is the best and the last the worst, so best ≥ worst under maximize and best ≤ worst under minimize |

## Code and tests

Where the repository's tests expect something other than the code, the model follows the code:

- Minimize weights. galgopy/objects.py:278-281 computes `(1 − (f − fmin)/Σ)/Σ`. The tests in tests/test_objects.py:263-295 expect the normalised `(fmax − f)/Σ(fmax − f)`. The model uses the formula as written, and the three `MinimizeWeight…` example lemmas show where the two differ.
- Empty populations. galgopy/objects.py:194-203 accepts an empty list; a test row expects an error.
- Templates are not validated. galgopy/objects.py:63-70 stores any list as given.
- FloatType. The default max is 1, as in galgopy/gtypes.py:104, and there is no rounding argument.
- Missing definitions.
  - `ChromosomeTemplate.are_same_types` and `types_of_class` are called but not defined in galgopy/objects.py. They take the meaning tests/test_objects.py:82-112 gives them: all entries equal with their parameters, and all entries of one class whatever their parameters.
  - galgopy/objects.py imports `.genetypes`, which is not part of this model; galgopy/gtypes.py stands in for it.
- Population as a list. `Population` has no `__getitem__` and no `chromosome_tmplt`, yet both are used, and `get_parents` returns a plain list. The model indexes a population as its chromosome list (`population[0]`, `population[-1]`). An empty population has no first chromosome (`NoFirstChromosome`). Intermediate recombination reads the template of the first parent.

## Left out

- Random number generation. Each draw is a nondeterministic choice in the range the library call uses. The probabilities are not modelled: the roulette-wheel distribution of `random.choices` and the chance of a mutation are both absent.
- Crossover.SelectParents: with proportionate selection it states only that both parents are members of the list. The weights do not constrain the choice. `random.choices` raising on all-zero weights is library behaviour and is not modelled.
- Mutation.ApplyMutation: for RandomMutation it states only that an all-inhabited, non-empty chromosome cannot fail. Whether an uninhabited type fails depends on the draws; Mutation.ApplyRandomMutation states that case.
- GeneticAlgorithm.GA.GenerateNext: does not repeat the breeding and mutation relation of each offspring chromosome. GeneticAlgorithm.GA.Offspring states it, for the population before ranking. GenerateNext states the size, freshness, template and ranking of the adopted population, and that it is a permutation of the offspring.
- Objects.Gene: validity is not an invariant of the class. The `value` field can be assigned directly, while in the library only the validating setter writes it. `Gene.Valid()` is therefore a predicate that members which read gene values require again, as the blend of intermediate recombination does.
- Populations.SortByFitness: it does not state stability (equal fitness values keep their order). It states only ascending order and permutation.
- Floating point. Reals are exact. IEEE rounding is out of scope, for example `random()·(max − min) + min` rounding up to max, a blend leaving its interval, or `fitness_sum == 0` for nearly equal values.
- Value kinds. There is no distinction between Python ints and floats, and no `bool`. An int `a` of intermediate recombination is its real value.
- The objective function gets the chromosome's gene values, not the chromosome object. An objective that reads or writes a chromosome's fields, or raises, is not modelled.
- Chromosome construction does not reject non-Gene entries, because the type of the gene list rules them out. The setters that always raise (`gene_type`, `genes_list`, `chromosome_tmplt`, `types_list`, `chromosome_list`) are `const` fields or immutable datatypes.
- Formatting and I/O: every `__str__`, `__len__` and `__iter__`, and the dictionary formatting of `__next__`, which is modelled as a `Report` value.
- Python's shared default arguments are not modelled. They include the default crossover and mutation objects and the default gene lists.
- galgopy/gobjs.py, galgopy/gobjs2.py and galgopy/gbase.py are superseded earlier versions of the same classes, which nothing imports. The example scripts use a driver signature that galgopy/galgopy.py does not have. Neither is part of this model.
