/** Mutation operators (galgopy/mutation.py). Both copy the chromosome's
    gene list, change the copy and wrap it in a new Chromosome; the input
    chromosome is never altered (its gene list is a `const`). The library
    draws are nondeterministic choices recorded in ghost out-parameters. */
module Mutation {
  import opened Wrappers
  import opened GeneTypes
  import opened Objects

  /** RandomMutation and SwapMutation with their `mutation_probability`. */
  datatype MutationOp = RandomMutation(probability: real) | SwapMutation(probability: real)

  /** The default `mutation_probability`. */
  const DEFAULT_PROBABILITY: real := 0.01

  /** The gene list with the entries at `a` and `b` exchanged. */
  function SwapAt(gs: seq<Gene>, a: nat, b: nat): (r: seq<Gene>)
    requires a < |gs| && b < |gs|
    ensures |r| == |gs|
  {
    gs[a := gs[b]][b := gs[a]]
  }

  /** The relation between a chromosome and the chromosome an operator
      returns for it: the same length; RandomMutation keeps or replaces each
      gene by a valid gene of the same type; SwapMutation needs equal types
      and at least two genes, and keeps the list or exchanges two distinct
      positions. */
  predicate Mutant(op: MutationOp, c: Chromosome, d: Chromosome)
    reads d.genes
  {
    |d.genes| == |c.genes| &&
    match op
    case RandomMutation(_) =>
      forall i :: 0 <= i < |c.genes| ==>
        d.genes[i] == c.genes[i] || (d.genes[i].geneType == c.genes[i].geneType && d.genes[i].Valid())
    case SwapMutation(_) =>
      c.Template().AreSameTypes() && |c.genes| >= 2 &&
      (d.genes == c.genes ||
       exists a, b :: 0 <= a < |c.genes| && 0 <= b < |c.genes| && a != b && d.genes == SwapAt(c.genes, a, b))
  }

  /** The types of a chromosome all inhabited: every gene can be redrawn. */
  predicate Redrawable(c: Chromosome) {
    forall i :: 0 <= i < |c.genes| ==> Inhabited(c.genes[i].geneType)
  }

  /** `RandomMutation.apply_mutation`: for each position a draw u in [0, 1);
      when u <= p the gene is replaced by `generate_random_gene` of the same
      type. `units` records the draws made. */
  method ApplyRandomMutation(p: real, c: Chromosome) returns (r: Result<Chromosome>, ghost units: seq<real>)
    ensures |units| <= |c.genes|
    ensures forall i :: 0 <= i < |units| ==> 0.0 <= units[i] < 1.0
    ensures r.Ok? ==> fresh(r.value) && Mutant(RandomMutation(p), c, r.value)
    ensures r.Ok? ==> r.value.fitness == 0.0 && r.value.proportionalFitness == 0.0
    ensures r.Ok? ==> |units| == |c.genes| && forall i :: 0 <= i < |c.genes| ==>
      (units[i] > p ==> r.value.genes[i] == c.genes[i]) &&
      (units[i] <= p ==> fresh(r.value.genes[i]) && r.value.genes[i].geneType == c.genes[i].geneType && r.value.genes[i].Valid())
    ensures r.Err? ==>
      (|c.genes| == 0 && r.error == InvalidGenesList) ||
      (0 < |units| && units[|units| - 1] <= p && !Inhabited(c.genes[|units| - 1].geneType) &&
       r.error == GeneError(c.genes[|units| - 1].geneType))
    ensures |c.genes| > 0 && Redrawable(c) ==> r.Ok?
  {
    var genes := c.genes;
    units := [];
    var i := 0;
    while i < |c.genes|
      invariant 0 <= i <= |c.genes| && |genes| == |c.genes| && |units| == i
      invariant forall k :: 0 <= k < i ==> 0.0 <= units[k] < 1.0
      invariant forall k :: i <= k < |c.genes| ==> genes[k] == c.genes[k]
      invariant forall k :: 0 <= k < i ==>
        (units[k] > p ==> genes[k] == c.genes[k]) &&
        (units[k] <= p ==> fresh(genes[k]) && genes[k].geneType == c.genes[k].geneType && genes[k].Valid())
    {
      var u :| 0.0 <= u < 1.0;
      units := units + [u];
      if u <= p {
        var g, d := Gene.GenerateRandomGene(c.genes[i].geneType);
        if g.Err? {
          return Err(g.error), units;
        }
        genes := genes[i := g.value];
      }
      i := i + 1;
    }
    r := Chromosome.New(genes);
  }

  /** `SwapMutation.apply_mutation`: raises unless all gene types are equal,
      then unless there are at least two genes; otherwise with a draw
      u <= p it exchanges the genes at two distinct positions a and b. */
  method ApplySwapMutation(p: real, c: Chromosome) returns (r: Result<Chromosome>, ghost u: real, ghost a: nat, ghost b: nat)
    ensures !c.Template().AreSameTypes() ==> r == Err(NotSameTypes)
    ensures c.Template().AreSameTypes() && |c.genes| < 2 ==> r == Err(ChromosomeTooShort)
    ensures c.Template().AreSameTypes() && |c.genes| >= 2 ==>
      r.Ok? && fresh(r.value) && 0.0 <= u < 1.0 && a < |c.genes| && b < |c.genes| && a != b &&
      r.value.genes == (if u <= p then SwapAt(c.genes, a, b) else c.genes) &&
      r.value.fitness == 0.0 && r.value.proportionalFitness == 0.0
    ensures r.Ok? ==> Mutant(SwapMutation(p), c, r.value)
    ensures r.Ok? && p >= 1.0 ==> r.value.genes == SwapAt(c.genes, a, b)
  {
    a, b, u := 0, 1, 0.0;
    if !c.Template().AreSameTypes() {
      return Err(NotSameTypes), u, a, b;
    }
    if |c.genes| < 2 {
      return Err(ChromosomeTooShort), u, a, b;
    }
    var genes := c.genes;
    var draw :| 0.0 <= draw < 1.0;
    u := draw;
    if draw <= p {
      var x: nat, y: nat :| x < |c.genes| && y < |c.genes| && x != y;
      a, b := x, y;
      genes := SwapAt(c.genes, x, y);
    }
    var s := new Chromosome(genes);
    r := Ok(s);
  }

  /** `apply_mutation` of either operator. */
  method ApplyMutation(op: MutationOp, c: Chromosome) returns (r: Result<Chromosome>)
    ensures r.Ok? ==> fresh(r.value) && Mutant(op, c, r.value)
    ensures r.Ok? ==> r.value.fitness == 0.0 && r.value.proportionalFitness == 0.0
    ensures op.RandomMutation? ==> (r.Ok? <== |c.genes| > 0 && Redrawable(c))
    ensures op.SwapMutation? ==> (r.Ok? <==> c.Template().AreSameTypes() && |c.genes| >= 2)
    ensures op.SwapMutation? && !c.Template().AreSameTypes() ==> r == Err(NotSameTypes)
  {
    match op
    case RandomMutation(p) =>
      ghost var units;
      r, units := ApplyRandomMutation(p, c);
    case SwapMutation(p) =>
      ghost var u: real, a: nat, b: nat;
      r, u, a, b := ApplySwapMutation(p, c);
  }

  // ---------------------------------------------------------------------
  // Properties

  /** A swap only permutes the genes, and swapping the same two positions
      again restores the list. */
  lemma SwapPermutes(gs: seq<Gene>, a: nat, b: nat)
    requires a < |gs| && b < |gs|
    ensures multiset(SwapAt(gs, a, b)) == multiset(gs)
    ensures SwapAt(SwapAt(gs, a, b), a, b) == gs
    ensures a != b ==> SwapAt(gs, a, b)[a] == gs[b] && SwapAt(gs, a, b)[b] == gs[a]
    ensures forall x :: 0 <= x < |gs| && x != a && x != b ==> SwapAt(gs, a, b)[x] == gs[x]
  {
  }

  /** On a chromosome whose types are all equal a swap keeps the template. */
  lemma SwapKeepsTemplate(gs: seq<Gene>, a: nat, b: nat)
    requires a < |gs| && b < |gs|
    requires ChromosomeTemplate(TypesOf(gs)).AreSameTypes()
    ensures TypesOf(SwapAt(gs, a, b)) == TypesOf(gs)
  {
    AreSameTypesPairwise(ChromosomeTemplate(TypesOf(gs)));
    assert TypesOf(gs)[a] == TypesOf(gs)[b];
    forall x | 0 <= x < |gs|
      ensures TypesOf(SwapAt(gs, a, b))[x] == TypesOf(gs)[x]
    {
    }
  }

  /** Every result either operator may return has the input's template. */
  lemma MutantKeepsTemplate(op: MutationOp, c: Chromosome, d: Chromosome)
    requires Mutant(op, c, d)
    ensures d.Template() == c.Template()
  {
    match op
    case RandomMutation(_) =>
      assert TypesOf(d.genes) == TypesOf(c.genes);
    case SwapMutation(_) =>
      if d.genes != c.genes {
        var a, b :| 0 <= a < |c.genes| && 0 <= b < |c.genes| && a != b && d.genes == SwapAt(c.genes, a, b);
        SwapKeepsTemplate(c.genes, a, b);
      }
  }
}
