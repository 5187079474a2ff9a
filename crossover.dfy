/** Crossover operators (galgopy/crossover.py). Each builds a new population
    by repeatedly selecting two parents and appending their children until
    the requested size is reached. The library draws (chosen parents, cut
    points, coin flips) are nondeterministic choices; the offspring are a
    function of those draws, stated by the `...Child` functions below. */
module Crossover {
  import opened Wrappers
  import opened GeneTypes
  import opened Objects
  import opened Populations

  /** The four operators with their constructor arguments. */
  datatype CrossoverOp =
    | OnePoint(proportionate: bool)
    | Multipoint(proportionate: bool, cutPointsCount: int)
    | Uniform(proportionate: bool)
    | IntermediateRecombination(proportionate: bool, a: real)

  /** What the constructors guarantee of every operator object. */
  predicate WellFormed(x: CrossoverOp) {
    match x
    case Multipoint(_, n) => n >= 2
    case IntermediateRecombination(_, a) => 0.0 <= a <= 1.0
    case _ => true
  }

  /** `MultipointCrossover(proportionate_selection=True, cut_points_count=2)`:
      raises ValueError for fewer than two cut points. */
  function NewMultipoint(proportionate: bool := true, count: int := 2): (r: Result<CrossoverOp>)
    ensures r.Err? <==> count < 2
    ensures r.Err? ==> r.error == TooFewCutPoints
    ensures r.Ok? ==> r.value == Multipoint(proportionate, count) && WellFormed(r.value)
  {
    if count < 2 then Err(TooFewCutPoints) else Ok(Multipoint(proportionate, count))
  }

  /** `IntermediateRecombinationCrossover(proportionate_selection=True, a=0.5)`:
      raises ValueError unless 0 <= a <= 1. */
  function NewIntermediateRecombination(proportionate: bool := true, a: real := 0.5): (r: Result<CrossoverOp>)
    ensures r.Err? <==> !(0.0 <= a <= 1.0)
    ensures r.Err? ==> r.error == InvalidA
    ensures r.Ok? ==> r.value == IntermediateRecombination(proportionate, a) && WellFormed(r.value)
  {
    if !(0.0 <= a <= 1.0) then Err(InvalidA) else Ok(IntermediateRecombination(proportionate, a))
  }

  // ---------------------------------------------------------------------
  // Parent selection

  /** `_select_parents(parents)`: with proportionate selection
      `random.choices(parents, weights, k=2)`, two independent picks (the
      same parent may come twice), which raises IndexError on an empty
      list; otherwise `random.sample(parents, k=2)`, two distinct positions,
      which raises ValueError when there are fewer than two. `i` and `j` are
      the positions drawn. */
  method SelectParents(proportionate: bool, parents: seq<Chromosome>)
      returns (r: Result<(Chromosome, Chromosome)>, ghost i: nat, ghost j: nat)
    ensures proportionate ==> (r.Err? <==> |parents| == 0)
    ensures !proportionate ==> (r.Err? <==> |parents| < 2)
    ensures r.Err? ==> r.error == (if proportionate then EmptyChoice else SampleTooLarge)
    ensures r.Ok? ==> i < |parents| && j < |parents| && r.value == (parents[i], parents[j])
    ensures r.Ok? && !proportionate ==> i != j
  {
    i, j := 0, 0;
    if proportionate {
      if |parents| == 0 {
        return Err(EmptyChoice), i, j;
      }
      var x: nat, y: nat :| x < |parents| && y < |parents|;
      i, j := x, y;
      r := Ok((parents[x], parents[y]));
    } else {
      if |parents| < 2 {
        return Err(SampleTooLarge), i, j;
      }
      var x: nat, y: nat :| x < |parents| && y < |parents| && x != y;
      i, j := x, y;
      r := Ok((parents[x], parents[y]));
    }
  }

  // ---------------------------------------------------------------------
  // One-point crossover

  /** `p1[:c] + p2[c:]` */
  function OnePointChild(p: seq<Gene>, q: seq<Gene>, c: nat): (r: seq<Gene>)
    requires |p| == |q| && c <= |p|
    ensures |r| == |p|
  {
    p[..c] + q[c..]
  }

  // ---------------------------------------------------------------------
  // Multipoint crossover

  /** Strictly increasing positions. */
  predicate StrictlyIncreasing(cuts: seq<int>) {
    forall a, b :: 0 <= a < b < |cuts| ==> cuts[a] < cuts[b]
  }

  /** `sorted(random.sample(range(length), k=count))`: `count` distinct cut
      points from [0, length), in increasing order. */
  predicate ValidCuts(cuts: seq<int>, count: int, length: nat) {
    |cuts| == count && StrictlyIncreasing(cuts) &&
    forall k :: 0 <= k < |cuts| ==> 0 <= cuts[k] < length
  }

  /** The number of cut points at or below position `x`: the index of the
      segment that holds `x`. */
  function CountLe(cuts: seq<int>, x: int): (n: nat)
    ensures n <= |cuts|
  {
    if cuts == [] then 0 else (if cuts[0] <= x then 1 else 0) + CountLe(cuts[1..], x)
  }

  /** Child 1 of a multipoint crossover: position x comes from `q` when its
      segment index is even and from `p` when it is odd. (Child 2 is the
      same with the parents exchanged.) */
  function MultipointChild(p: seq<Gene>, q: seq<Gene>, cuts: seq<int>): (r: seq<Gene>)
    requires |p| == |q|
    ensures |r| == |p|
  {
    seq(|p|, x requires 0 <= x < |p| => if CountLe(cuts, x) % 2 == 0 then q[x] else p[x])
  }

  /** Segment i runs from cut i-1 (or 0) up to cut i (or the end). */
  function SegStart(cuts: seq<int>, i: nat): int
    requires i <= |cuts|
  {
    if i == 0 then 0 else cuts[i - 1]
  }

  function SegEnd(cuts: seq<int>, i: nat, length: nat): int
    requires i <= |cuts|
  {
    if i == |cuts| then length else cuts[i]
  }

  /** Every position of segment i has exactly i cut points at or below it. */
  lemma {:induction false} CountLeInSegment(cuts: seq<int>, i: nat, x: int)
    requires StrictlyIncreasing(cuts) && i <= |cuts|
    requires i == 0 || cuts[i - 1] <= x
    requires i == |cuts| || x < cuts[i]
    ensures CountLe(cuts, x) == i
  {
    if cuts != [] {
      var tail := cuts[1..];
      assert StrictlyIncreasing(tail);
      if i == 0 {
        CountLeInSegment(tail, 0, x);
      } else {
        assert cuts[0] <= cuts[i - 1];
        CountLeInSegment(tail, i - 1, x);
      }
    }
  }

  /** Segment i of a multipoint child is the same slice of one parent: `q`
      for even i, `p` for odd i. */
  lemma SegmentOfChild(p: seq<Gene>, q: seq<Gene>, cuts: seq<int>, i: nat)
    requires |p| == |q| && ValidCuts(cuts, |cuts|, |p|) && i <= |cuts|
    ensures 0 <= SegStart(cuts, i) <= SegEnd(cuts, i, |p|) <= |p|
    ensures MultipointChild(p, q, cuts)[SegStart(cuts, i)..SegEnd(cuts, i, |p|)] ==
      (if i % 2 == 0 then q else p)[SegStart(cuts, i)..SegEnd(cuts, i, |p|)]
  {
    var s, e := SegStart(cuts, i), SegEnd(cuts, i, |p|);
    assert 0 < i < |cuts| ==> cuts[i - 1] < cuts[i];
    var mc := MultipointChild(p, q, cuts);
    forall x | s <= x < e
      ensures mc[x] == (if i % 2 == 0 then q else p)[x]
    {
      CountLeInSegment(cuts, i, x);
    }
  }

  /** The segment loop of `MultipointCrossover.generate_new_population` for
      one pair of parents and one sorted list of cut points. */
  method MultipointChildren(p: seq<Gene>, q: seq<Gene>, cuts: seq<int>) returns (c1: seq<Gene>, c2: seq<Gene>)
    requires |p| == |q| && |cuts| >= 1 && ValidCuts(cuts, |cuts|, |p|)
    ensures c1 == MultipointChild(p, q, cuts)
    ensures c2 == MultipointChild(q, p, cuts)
  {
    ghost var m1, m2 := MultipointChild(p, q, cuts), MultipointChild(q, p, cuts);
    c1, c2 := [], [];
    var n := |cuts|;
    var i := 0;
    while i < n + 1
      invariant 0 <= i <= n + 1
      invariant i == 0 ==> |c1| == 0
      invariant 0 < i ==> |c1| == SegEnd(cuts, i - 1, |p|)
      invariant |c2| == |c1| <= |p|
      invariant c1 == m1[..|c1|] && c2 == m2[..|c2|]
    {
      SegmentOfChild(p, q, cuts, i);
      SegmentOfChild(q, p, cuts, i);
      var s, e := SegStart(cuts, i), SegEnd(cuts, i, |p|);
      assert |c1| == s;
      if i == 0 {
        c1 := c1 + q[..cuts[i]];
        c2 := c2 + p[..cuts[i]];
      } else if i == n {
        if i % 2 == 1 {
          c1 := c1 + p[cuts[i - 1]..];
          c2 := c2 + q[cuts[i - 1]..];
        } else {
          c1 := c1 + q[cuts[i - 1]..];
          c2 := c2 + p[cuts[i - 1]..];
        }
      } else if i % 2 == 1 {
        c1 := c1 + p[cuts[i - 1]..cuts[i]];
        c2 := c2 + q[cuts[i - 1]..cuts[i]];
      } else {
        c1 := c1 + q[cuts[i - 1]..cuts[i]];
        c2 := c2 + p[cuts[i - 1]..cuts[i]];
      }
      assert m1[..e] == m1[..s] + m1[s..e];
      assert m2[..e] == m2[..s] + m2[s..e];
      i := i + 1;
    }
    assert m1[..|p|] == m1 && m2[..|p|] == m2;
  }

  // ---------------------------------------------------------------------
  // Uniform crossover

  /** Child 1 of a uniform crossover: position i comes from `p` when its
      coin is below 0.5 and from `q` otherwise. `zip` stops at the shorter
      parent, and there is one coin per position. */
  function UniformChild(p: seq<Gene>, q: seq<Gene>, coins: seq<real>): (r: seq<Gene>)
    requires |coins| <= |p| && |coins| <= |q|
    ensures |r| == |coins|
  {
    seq(|coins|, i requires 0 <= i < |coins| => if coins[i] < 0.5 then p[i] else q[i])
  }

  /** The coin loop of `UniformCrossover.generate_new_population` for one
      pair of parents; `coins` are the `random()` draws, one per position. */
  method UniformChildren(p: seq<Gene>, q: seq<Gene>) returns (c1: seq<Gene>, c2: seq<Gene>, ghost coins: seq<real>)
    requires |p| == |q|
    ensures |coins| == |p| && forall i :: 0 <= i < |coins| ==> 0.0 <= coins[i] < 1.0
    ensures c1 == UniformChild(p, q, coins)
    ensures c2 == UniformChild(q, p, coins)
  {
    c1, c2, coins := [], [], [];
    var i := 0;
    while i < |p|
      invariant 0 <= i <= |p| && |coins| == i
      invariant forall k :: 0 <= k < i ==> 0.0 <= coins[k] < 1.0
      invariant c1 == UniformChild(p, q, coins) && c2 == UniformChild(q, p, coins)
    {
      var chance :| 0.0 <= chance < 1.0;
      coins := coins + [chance];
      if chance < 0.5 {
        c1 := c1 + [p[i]];
        c2 := c2 + [q[i]];
      } else {
        c1 := c1 + [q[i]];
        c2 := c2 + [p[i]];
      }
      i := i + 1;
    }
  }

  // ---------------------------------------------------------------------
  // Intermediate recombination

  /** `v1 * a + v2 * (1 - a)` */
  function Blend(a: real, x: real, y: real): real {
    Mul(a, x) + Mul(1.0 - a, y)
  }

  /** `(v1 + v2) * 0.5`, the a = 0.5 branch. */
  function Midpoint(x: real, y: real): real {
    (x + y) * 0.5
  }

  /** The all-FloatType, all-equal template intermediate recombination
      demands. */
  predicate FloatTemplate(t: ChromosomeTemplate) {
    t.TypesOfClass(FloatKind) && t.AreSameTypes()
  }

  /** Every pair of genes at one position has one FloatType and two values
      inside its interval. */
  predicate BlendSafe(p: seq<Gene>, q: seq<Gene>)
    reads p, q
  {
    |p| == |q| &&
    forall i :: 0 <= i < |p| ==>
      p[i].geneType.FloatType? && q[i].geneType == p[i].geneType && p[i].Valid() && q[i].Valid()
  }

  /** The a = 0.5 comprehension: one child whose gene i has gene i of `p`'s
      type and the midpoint of the two values. Arithmetic on a string
      value raises TypeError, and a result outside the type's interval
      makes `Gene` raise. */
  method MidpointChild(p: seq<Gene>, q: seq<Gene>) returns (r: Result<seq<Gene>>)
    requires |p| == |q|
    ensures r.Ok? ==> |r.value| == |p| && forall i :: 0 <= i < |p| ==>
      fresh(r.value[i]) && r.value[i].geneType == p[i].geneType &&
      p[i].value.NumV? && q[i].value.NumV? &&
      r.value[i].value == NumV(Midpoint(p[i].value.x, q[i].value.x))
    ensures r.Err? ==> r.error == NonNumericValue || r.error == GeneValueMismatch
    ensures BlendSafe(p, q) ==> r.Ok?
  {
    var child: seq<Gene> := [];
    var i := 0;
    while i < |p|
      invariant 0 <= i <= |p| && |child| == i
      invariant forall k :: 0 <= k < i ==>
        fresh(child[k]) && child[k].geneType == p[k].geneType &&
        p[k].value.NumV? && q[k].value.NumV? &&
        child[k].value == NumV(Midpoint(p[k].value.x, q[k].value.x))
    {
      if !p[i].value.NumV? || !q[i].value.NumV? {
        return Err(NonNumericValue);
      }
      var g := Gene.New(NumV(Midpoint(p[i].value.x, q[i].value.x)), p[i].geneType);
      if g.Err? {
        return Err(g.error);
      }
      child := child + [g.value];
      i := i + 1;
    }
    r := Ok(child);
  }

  /** The a != 0.5 loop: child 1 takes `a·v1 + (1-a)·v2` with gene 1's
      type and child 2 takes `a·v2 + (1-a)·v1` with gene 2's type, position
      by position, child 1's gene first. */
  method BlendChildren(a: real, p: seq<Gene>, q: seq<Gene>) returns (r: Result<(seq<Gene>, seq<Gene>)>)
    requires |p| == |q|
    ensures r.Ok? ==> |r.value.0| == |p| && |r.value.1| == |p| && forall i :: 0 <= i < |p| ==>
      fresh(r.value.0[i]) && fresh(r.value.1[i]) &&
      r.value.0[i].geneType == p[i].geneType && r.value.1[i].geneType == q[i].geneType &&
      p[i].value.NumV? && q[i].value.NumV? &&
      r.value.0[i].value == NumV(Blend(a, p[i].value.x, q[i].value.x)) &&
      r.value.1[i].value == NumV(Blend(a, q[i].value.x, p[i].value.x))
    ensures r.Err? ==> r.error == NonNumericValue || r.error == GeneValueMismatch
    ensures 0.0 <= a <= 1.0 && BlendSafe(p, q) ==> r.Ok?
  {
    var c1: seq<Gene> := [];
    var c2: seq<Gene> := [];
    var i := 0;
    while i < |p|
      invariant 0 <= i <= |p| && |c1| == i && |c2| == i
      invariant forall k :: 0 <= k < i ==>
        fresh(c1[k]) && fresh(c2[k]) &&
        c1[k].geneType == p[k].geneType && c2[k].geneType == q[k].geneType &&
        p[k].value.NumV? && q[k].value.NumV? &&
        c1[k].value == NumV(Blend(a, p[k].value.x, q[k].value.x)) &&
        c2[k].value == NumV(Blend(a, q[k].value.x, p[k].value.x))
    {
      if !p[i].value.NumV? || !q[i].value.NumV? {
        return Err(NonNumericValue);
      }
      var x, y := p[i].value.x, q[i].value.x;
      if 0.0 <= a <= 1.0 && BlendSafe(p, q) {
        BlendWithin(a, x, y, p[i].geneType.floatMin, p[i].geneType.floatMax);
        BlendWithin(a, y, x, p[i].geneType.floatMin, p[i].geneType.floatMax);
      }
      var g1 := Gene.New(NumV(Blend(a, x, y)), p[i].geneType);
      if g1.Err? {
        return Err(g1.error);
      }
      var g2 := Gene.New(NumV(Blend(a, y, x)), q[i].geneType);
      if g2.Err? {
        return Err(g2.error);
      }
      c1 := c1 + [g1.value];
      c2 := c2 + [g2.value];
      i := i + 1;
    }
    r := Ok((c1, c2));
  }

  // ---------------------------------------------------------------------
  // One step and the population loop

  /** How many children one pair of parents yields: intermediate
      recombination with a = 0.5 makes one, every other operator two. */
  function BroodSize(x: CrossoverOp): nat {
    if x.IntermediateRecombination? && x.a == 0.5 then 1 else 2
  }

  /** `child` is a child 1 the operator can build from the ordered pair
      (p, q) for some draw. A child 2 is a child 1 of (q, p). */
  ghost predicate Bred(x: CrossoverOp, p: seq<Gene>, q: seq<Gene>, child: seq<Gene>)
    reads p, q, child
  {
    BredFrom(x, p, q, child, Values(p), Values(q), Values(child))
  }

  /** `Bred` with the genes' values given as `pv`, `qv` and `cv`: only
      intermediate recombination looks at them. */
  ghost predicate BredFrom(x: CrossoverOp, p: seq<Gene>, q: seq<Gene>, child: seq<Gene>,
                           pv: seq<Value>, qv: seq<Value>, cv: seq<Value>)
  {
    |p| == |q| && |pv| == |p| && |qv| == |q| && |cv| == |child| &&
    match x
    case OnePoint(_) => exists c :: 1 <= c < |p| && child == OnePointChild(p, q, c)
    case Multipoint(_, n) => exists cuts :: ValidCuts(cuts, n, |p|) && child == MultipointChild(p, q, cuts)
    case Uniform(_) =>
      exists coins :: |coins| == |p| && (forall i :: 0 <= i < |coins| ==> 0.0 <= coins[i] < 1.0) &&
        child == UniformChild(p, q, coins)
    case IntermediateRecombination(_, a) =>
      |child| == |p| &&
      forall i :: 0 <= i < |p| ==>
        child[i].geneType == p[i].geneType && pv[i].NumV? && qv[i].NumV? &&
        cv[i] == NumV(if a == 0.5 then Midpoint(pv[i].x, qv[i].x) else Blend(a, pv[i].x, qv[i].x))
  }

  /** The draws and children of one iteration of a `generate_new_population`
      loop for the selected pair (p, q), in the order they are appended.
      The draw errors: `randint(1, len - 1)` on fewer than two genes,
      `sample` of more cut points than genes. */
  method Breed(x: CrossoverOp, p: seq<Gene>, q: seq<Gene>) returns (r: Result<seq<seq<Gene>>>)
    requires WellFormed(x) && |p| == |q| && TypesOf(p) == TypesOf(q)
    ensures r.Ok? ==> |r.value| == BroodSize(x)
    ensures r.Ok? ==> forall k :: 0 <= k < |r.value| ==> TypesOf(r.value[k]) == TypesOf(p)
    ensures r.Ok? ==> Bred(x, p, q, r.value[0]) && (|r.value| == 2 ==> Bred(x, q, p, r.value[1]))
    ensures r.Ok? && !x.IntermediateRecombination? ==> Complementary(p, q, r.value[0], r.value[1])
    ensures x.OnePoint? ==> (r.Err? <==> |p| < 2) && (r.Err? ==> r.error == EmptyRange)
    ensures x.Multipoint? ==> (r.Err? <==> x.cutPointsCount > |p|) && (r.Err? ==> r.error == SampleTooLarge)
    ensures x.Uniform? ==> r.Ok?
    ensures x.IntermediateRecombination? ==>
      (r.Err? ==> r.error == NonNumericValue || r.error == GeneValueMismatch) &&
      (BlendSafe(p, q) ==> r.Ok?)
  {
    match x
    case OnePoint(_) =>
      if |p| < 2 {
        return Err(EmptyRange);
      }
      var c: nat :| 1 <= c <= |p| - 1;
      var c1, c2 := OnePointChild(p, q, c), OnePointChild(q, p, c);
      CutChildrenKeepTypes(p, q, c1, c2);
      r := Ok([c1, c2]);
    case Multipoint(_, n) =>
      if n > |p| {
        return Err(SampleTooLarge);
      }
      assert ValidCuts(seq(n, k => k), n, |p|);
      var cuts: seq<int> :| ValidCuts(cuts, n, |p|);
      assert n == x.cutPointsCount >= 2;
      assert ValidCuts(cuts, n, |p|) && |cuts| == n;
      var c1, c2 := MultipointChildren(p, q, cuts);
      MultipointComplementary(p, q, cuts);
      CutChildrenKeepTypes(p, q, c1, c2);
      r := Ok([c1, c2]);
    case Uniform(_) =>
      var c1, c2, coins := UniformChildren(p, q);
      UniformComplementary(p, q, coins);
      CutChildrenKeepTypes(p, q, c1, c2);
      r := Ok([c1, c2]);
    case IntermediateRecombination(_, a) =>
      if a == 0.5 {
        var child := MidpointChild(p, q);
        if child.Err? {
          return Err(child.error);
        }
        assert TypesOf(child.value) == TypesOf(p);
        r := Ok([child.value]);
      } else {
        var children := BlendChildren(a, p, q);
        if children.Err? {
          return Err(children.error);
        }
        var c1, c2 := children.value.0, children.value.1;
        assert TypesOf(c1) == TypesOf(p);
        assert TypesOf(c2) == TypesOf(q);
        r := Ok([c1, c2]);
      }
  }

  /** What the first loop iteration can raise before any gene arithmetic:
      the parent selection, then the operator's own draw. */
  function StepError(x: CrossoverOp, parents: seq<Chromosome>): Option<Error> {
    if x.proportionate && |parents| == 0 then Some(EmptyChoice)
    else if !x.proportionate && |parents| < 2 then Some(SampleTooLarge)
    else if x.OnePoint? && |parents[0].genes| < 2 then Some(EmptyRange)
    else if x.Multipoint? && x.cutPointsCount > |parents[0].genes| then Some(SampleTooLarge)
    else None
  }

  /** One iteration of a `generate_new_population` loop before its appends:
      select a pair (positions i and j) and breed it. */
  method Step(x: CrossoverOp, parents: seq<Chromosome>) returns (r: Result<seq<seq<Gene>>>, ghost i: nat, ghost j: nat)
    requires WellFormed(x) && Homogeneous(parents)
    ensures r.Ok? ==> i < |parents| && j < |parents| && (!x.proportionate ==> i != j)
    ensures r.Ok? ==> |r.value| == BroodSize(x)
    ensures r.Ok? ==> forall k :: 0 <= k < |r.value| ==> TypesOf(r.value[k]) == TypesOf(parents[0].genes)
    ensures r.Ok? ==> Bred(x, parents[i].genes, parents[j].genes, r.value[0])
    ensures r.Ok? && |r.value| == 2 ==> Bred(x, parents[j].genes, parents[i].genes, r.value[1])
    ensures r.Ok? && !x.IntermediateRecombination? ==>
      Complementary(parents[i].genes, parents[j].genes, r.value[0], r.value[1])
    ensures StepError(x, parents).Some? ==> r == Err(StepError(x, parents).value)
    ensures (StepError(x, parents).None? && (x.IntermediateRecombination? ==>
        forall a, b :: 0 <= a < |parents| && 0 <= b < |parents| ==> BlendSafe(parents[a].genes, parents[b].genes)))
      ==> r.Ok?
  {
    var selected;
    selected, i, j := SelectParents(x.proportionate, parents);
    if selected.Err? {
      return Err(selected.error), i, j;
    }
    var p1, p2 := selected.value.0, selected.value.1;
    assert p1.Template() == parents[0].Template() && p2.Template() == parents[0].Template();
    assert TypesOf(p1.genes) == TypesOf(p2.genes) == TypesOf(parents[0].genes);
    r := Breed(x, p1.genes, p2.genes);
  }

  /** One iteration's children as chromosomes, in the order of their
      appends: child 1 bred from parents (i, j), child 2 from (j, i). */
  method Brood(x: CrossoverOp, parents: seq<Chromosome>) returns (r: Result<seq<Chromosome>>, ghost i: nat, ghost j: nat)
    requires WellFormed(x) && Homogeneous(parents)
    ensures r.Ok? ==> i < |parents| && j < |parents| && (!x.proportionate ==> i != j)
    ensures r.Ok? ==> |r.value| == BroodSize(x)
    ensures r.Ok? ==> forall k :: 0 <= k < |r.value| ==>
      fresh(r.value[k]) && r.value[k].fitness == 0.0 && r.value[k].proportionalFitness == 0.0 &&
      r.value[k].Template() == parents[0].Template()
    ensures r.Ok? ==> OneBred(x, parents, r.value[0], (i, j))
    ensures r.Ok? && |r.value| == 2 ==> OneBred(x, parents, r.value[1], (j, i))
    ensures r.Ok? && !x.IntermediateRecombination? ==>
      Complementary(parents[i].genes, parents[j].genes, r.value[0].genes, r.value[1].genes)
    ensures StepError(x, parents).Some? ==> r == Err(StepError(x, parents).value)
    ensures (StepError(x, parents).None? && |parents| > 0 && |parents[0].genes| > 0 &&
             (x.IntermediateRecombination? ==>
                forall a, b :: 0 <= a < |parents| && 0 <= b < |parents| ==>
                  BlendSafe(parents[a].genes, parents[b].genes)))
      ==> r.Ok?
  {
    var kids;
    kids, i, j := Step(x, parents);
    if kids.Err? {
      return Err(kids.error), i, j;
    }
    // `Chromosome(child1)` raises on an empty genes list.
    if |kids.value[0]| == 0 {
      return Err(InvalidGenesList), i, j;
    }
    // Every child has child 1's length, so `Chromosome` accepts it.
    assert forall k :: 0 <= k < |kids.value| ==> |TypesOf(kids.value[k])| == |TypesOf(kids.value[0])|;
    label Wrapped:
    var cs := Chromosomes(kids.value);
    // The new chromosomes leave every gene value as it was.
    assert Values(parents[i].genes) == old@Wrapped(Values(parents[i].genes));
    assert Values(parents[j].genes) == old@Wrapped(Values(parents[j].genes));
    assert forall k :: 0 <= k < |cs| ==> Values(cs[k].genes) == old@Wrapped(Values(kids.value[k]));
    r := Ok(cs);
  }

  /** `Chromosome(child)` for each child of one iteration, in order. */
  method Chromosomes(kids: seq<seq<Gene>>) returns (cs: seq<Chromosome>)
    requires forall k :: 0 <= k < |kids| ==> |kids[k]| > 0
    ensures |cs| == |kids|
    ensures forall k :: 0 <= k < |cs| ==>
      fresh(cs[k]) && cs[k].genes == kids[k] && cs[k].fitness == 0.0 && cs[k].proportionalFitness == 0.0
  {
    cs := [];
    var k := 0;
    while k < |kids|
      invariant 0 <= k <= |kids| && |cs| == k
      invariant forall n :: 0 <= n < k ==>
        fresh(cs[n]) && cs[n].genes == kids[n] && cs[n].fitness == 0.0 && cs[n].proportionalFitness == 0.0
    {
      var c := new Chromosome(kids[k]);
      cs := cs + [c];
      k := k + 1;
    }
  }

  /** The `while` loop shared by every `generate_new_population`: append
      child 1, stop if the size is reached, append child 2. `origins[k]`
      are the positions of the ordered pair of parents child k was bred
      from. */
  method BreedChildren(x: CrossoverOp, parents: seq<Chromosome>, size: int)
      returns (r: Result<seq<Chromosome>>, ghost origins: seq<(nat, nat)>)
    requires WellFormed(x) && Homogeneous(parents)
    ensures size <= 0 ==> r == Ok([])
    ensures size > 0 && StepError(x, parents).Some? ==> r == Err(StepError(x, parents).value)
    ensures (StepError(x, parents).None? && (size > 0 ==> |parents[0].genes| > 0) &&
             (x.IntermediateRecombination? ==>
                forall a, b :: 0 <= a < |parents| && 0 <= b < |parents| ==>
                  BlendSafe(parents[a].genes, parents[b].genes)))
      ==> r.Ok?
    ensures r.Ok? ==> |r.value| == (if size < 0 then 0 else size) == |origins|
    ensures r.Ok? ==> forall k :: 0 <= k < |r.value| ==>
      fresh(r.value[k]) && r.value[k].fitness == 0.0 && r.value[k].proportionalFitness == 0.0 &&
      r.value[k].Template() == parents[0].Template()
    ensures r.Ok? ==> forall k :: 0 <= k < |r.value| ==>
      origins[k].0 < |parents| && origins[k].1 < |parents| && OneBred(x, parents, r.value[k], origins[k])
    ensures r.Ok? ==> Paired(x, parents, r.value, origins)
  {
    origins := [];
    var list: seq<Chromosome> := [];
    while |list| < size
      invariant |list| <= (if size < 0 then 0 else size) && |origins| == |list|
      invariant |list| > 0 ==> |parents| > 0
      invariant forall k :: 0 <= k < |list| ==>
        fresh(list[k]) && list[k].fitness == 0.0 && list[k].proportionalFitness == 0.0 &&
        list[k].Template() == parents[0].Template()
      invariant forall k :: 0 <= k < |list| ==>
        origins[k].0 < |parents| && origins[k].1 < |parents| && OneBred(x, parents, list[k], origins[k])
      invariant Paired(x, parents, list, origins) && (BroodSize(x) == 2 ==> |list| % 2 == 0 || |list| == size)
      invariant StepError(x, parents).Some? ==> |list| == 0
      decreases size - |list|
    {
      var grown;
      grown, origins := Grow(x, parents, list, origins, size);
      if grown.Err? {
        return Err(grown.error), origins;
      }
      list := grown.value;
    }
    r := Ok(list);
  }

  /** One pass of that loop: breed a pair, append child 1 to `list` and,
      while `list` is still short of `size`, child 2. */
  method Grow(x: CrossoverOp, parents: seq<Chromosome>, list: seq<Chromosome>, ghost origins: seq<(nat, nat)>, size: int)
      returns (r: Result<seq<Chromosome>>, ghost grown: seq<(nat, nat)>)
    requires WellFormed(x) && Homogeneous(parents)
    requires |list| < size && |origins| == |list|
    requires forall k :: 0 <= k < |list| ==>
      origins[k].0 < |parents| && origins[k].1 < |parents| && OneBred(x, parents, list[k], origins[k])
    requires Paired(x, parents, list, origins) && (BroodSize(x) == 2 ==> |list| % 2 == 0)
    ensures StepError(x, parents).Some? ==> r == Err(StepError(x, parents).value)
    ensures (StepError(x, parents).None? && |parents[0].genes| > 0 &&
             (x.IntermediateRecombination? ==>
                forall a, b :: 0 <= a < |parents| && 0 <= b < |parents| ==>
                  BlendSafe(parents[a].genes, parents[b].genes)))
      ==> r.Ok?
    ensures r.Ok? ==> |list| < |r.value| <= size && |grown| == |r.value|
    ensures r.Ok? ==> forall k :: 0 <= k < |list| ==> r.value[k] == list[k]
    ensures r.Ok? ==> forall k :: |list| <= k < |r.value| ==>
      fresh(r.value[k]) && r.value[k].fitness == 0.0 && r.value[k].proportionalFitness == 0.0 &&
      r.value[k].Template() == parents[0].Template()
    ensures r.Ok? ==> forall k :: 0 <= k < |r.value| ==>
      grown[k].0 < |parents| && grown[k].1 < |parents| && OneBred(x, parents, r.value[k], grown[k])
    ensures r.Ok? ==> Paired(x, parents, r.value, grown) && (BroodSize(x) == 2 ==> |r.value| % 2 == 0 || |r.value| == size)
  {
    label Listed:
    var brood, i, j := Brood(x, parents);
    if brood.Err? {
      return Err(brood.error), origins;
    }
    // Brood allocates only: the children already in `list` keep their lineage.
    assert forall k :: 0 <= k < |parents| ==> Values(parents[k].genes) == old@Listed(Values(parents[k].genes));
    assert forall k :: 0 <= k < |list| ==> Values(list[k].genes) == old@Listed(Values(list[k].genes));
    assert forall k :: 0 <= k < |list| ==>
      origins[k].0 < |parents| && origins[k].1 < |parents| && OneBred(x, parents, list[k], origins[k]);
    // Child 1 is always appended, child 2 only while the list is short.
    var n := if |list| + |brood.value| <= size then |brood.value| else 1;
    PairedExtend(x, parents, list, origins, brood.value, i, j, n);
    r := Ok(list + brood.value[..n]);
    grown := origins + [(i, j), (j, i)][..n];
  }

  /** Appending one iteration's children to a list of whole pairs keeps
      the pairs: the new pair is the complementary one of a cut operator. */
  lemma PairedExtend(x: CrossoverOp, parents: seq<Chromosome>, list: seq<Chromosome>, origins: seq<(nat, nat)>,
                     kids: seq<Chromosome>, i: nat, j: nat, n: nat)
    requires Paired(x, parents, list, origins) && |origins| == |list|
    requires BroodSize(x) == 2 ==> |list| % 2 == 0
    requires n <= |kids| && n <= 2
    requires n == 2 && !x.IntermediateRecombination? ==>
      i < |parents| && j < |parents| &&
      Complementary(parents[i].genes, parents[j].genes, kids[0].genes, kids[1].genes)
    ensures Paired(x, parents, list + kids[..n], origins + [(i, j), (j, i)][..n])
  {
    var cs, os := list + kids[..n], origins + [(i, j), (j, i)][..n];
    if BroodSize(x) == 2 {
      forall k: nat | k < |cs| - 1 && k % 2 == 0
        ensures PairAt(x, parents, cs, os, k)
      {
        if k < |list| {
          assert PairAt(x, parents, list, origins, k);
          assert cs[k] == list[k] && cs[k + 1] == list[k + 1] && os[k] == origins[k] && os[k + 1] == origins[k + 1];
        } else {
          assert k == |list| && n == 2;
          assert cs[k] == kids[0] && cs[k + 1] == kids[1] && os[k] == (i, j) && os[k + 1] == (j, i);
        }
      }
    }
  }

  /** `generate_new_population(parents, next_population_size)`. Intermediate
      recombination first checks the parents' template (that of the first
      parent); then the shared loop runs and its list becomes a population,
      which never raises since every child has the parents' template. */
  method GenerateNewPopulation(x: CrossoverOp, parents: seq<Chromosome>, size: int)
      returns (r: Result<Population>, ghost origins: seq<(nat, nat)>)
    requires WellFormed(x) && Homogeneous(parents)
    ensures x.IntermediateRecombination? && |parents| == 0 ==> r == Err(NoFirstChromosome)
    ensures x.IntermediateRecombination? && |parents| > 0 && !FloatTemplate(parents[0].Template()) ==>
      r == Err(NotFloatTemplate)
    ensures !x.IntermediateRecombination? && size <= 0 ==> r.Ok?
    ensures (size > 0 && StepError(x, parents).Some? &&
             (x.IntermediateRecombination? ==> |parents| > 0 && FloatTemplate(parents[0].Template())))
      ==> r == Err(StepError(x, parents).value)
    ensures (StepError(x, parents).None? && (size > 0 ==> |parents[0].genes| > 0) &&
             (x.IntermediateRecombination? ==>
                |parents| > 0 && FloatTemplate(parents[0].Template()) &&
                forall a, b :: 0 <= a < |parents| && 0 <= b < |parents| ==>
                  BlendSafe(parents[a].genes, parents[b].genes)))
      ==> r.Ok?
    ensures r.Ok? ==> fresh(r.value) && r.value.Valid() && r.value.mode == Maximize
    ensures r.Ok? ==> |r.value.chromosomes| == (if size < 0 then 0 else size) == |origins|
    ensures r.Ok? ==> forall k :: 0 <= k < |r.value.chromosomes| ==>
      var c := r.value.chromosomes[k];
      fresh(c) && c.fitness == 0.0 && c.proportionalFitness == 0.0 &&
      c.Template() == parents[0].Template()
    ensures r.Ok? ==> forall k :: 0 <= k < |r.value.chromosomes| ==>
      origins[k].0 < |parents| && origins[k].1 < |parents| && OneBred(x, parents, r.value.chromosomes[k], origins[k])
    ensures r.Ok? ==> Paired(x, parents, r.value.chromosomes, origins)
  {
    origins := [];
    if x.IntermediateRecombination? {
      if |parents| == 0 {
        return Err(NoFirstChromosome), origins;
      }
      if !FloatTemplate(parents[0].Template()) {
        return Err(NotFloatTemplate), origins;
      }
    }
    var list;
    list, origins := BreedChildren(x, parents, size);
    if list.Err? {
      return Err(list.error), origins;
    }
    var population := new Population.Init(list.value);
    r := Ok(population);
  }

  /** Child `c` was bred from the ordered pair of parents at positions `o`
      (distinct positions under random selection). */
  ghost predicate OneBred(x: CrossoverOp, parents: seq<Chromosome>, c: Chromosome, o: (nat, nat))
    requires o.0 < |parents| && o.1 < |parents|
    reads parents[o.0].genes, parents[o.1].genes, c.genes
  {
    (!x.proportionate ==> o.0 != o.1) &&
    Bred(x, parents[o.0].genes, parents[o.1].genes, c.genes)
  }

  /** Entries 2m and 2m + 1 of a loop's list are the two children of one
      iteration, so they come from the mirrored pair of parents; a cut
      operator makes them from one draw, so they are complementary. */
  ghost predicate Paired(x: CrossoverOp, parents: seq<Chromosome>, cs: seq<Chromosome>, origins: seq<(nat, nat)>) {
    BroodSize(x) == 2 ==>
      forall k: nat :: k < |cs| - 1 && k % 2 == 0 ==> PairAt(x, parents, cs, origins, k)
  }

  /** Entries k and k + 1 are such a pair. */
  ghost predicate PairAt(x: CrossoverOp, parents: seq<Chromosome>, cs: seq<Chromosome>, origins: seq<(nat, nat)>, k: nat) {
    k + 1 < |cs| && k + 1 < |origins| && origins[k + 1] == (origins[k].1, origins[k].0) &&
    (!x.IntermediateRecombination? ==>
       origins[k].0 < |parents| && origins[k].1 < |parents| &&
       Complementary(parents[origins[k].0].genes, parents[origins[k].1].genes, cs[k].genes, cs[k + 1].genes))
  }

  // ---------------------------------------------------------------------
  // Properties

  /** Position by position, one child takes p's gene and the other q's. */
  predicate Complementary(p: seq<Gene>, q: seq<Gene>, c1: seq<Gene>, c2: seq<Gene>) {
    |p| == |q| == |c1| == |c2| &&
    forall i :: 0 <= i < |p| ==> (c1[i] == p[i] && c2[i] == q[i]) || (c1[i] == q[i] && c2[i] == p[i])
  }

  /** Complementary children of parents with one template have that
      template. */
  lemma CutChildrenKeepTypes(p: seq<Gene>, q: seq<Gene>, c1: seq<Gene>, c2: seq<Gene>)
    requires Complementary(p, q, c1, c2) && TypesOf(p) == TypesOf(q)
    ensures TypesOf(c1) == TypesOf(p) && TypesOf(c2) == TypesOf(p)
  {
    MixKeepsTypes(p, q, c1);
    MixKeepsTypes(p, q, c2);
  }

  /** One-point children are complementary, and a one-point cut at c is a
      multipoint crossover with the single cut point c. */
  lemma OnePointComplementary(p: seq<Gene>, q: seq<Gene>, c: nat)
    requires |p| == |q| && c <= |p|
    ensures Complementary(p, q, OnePointChild(p, q, c), OnePointChild(q, p, c))
    ensures OnePointChild(p, q, c) == MultipointChild(q, p, [c])
  {
    var mc := MultipointChild(q, p, [c]);
    forall x | 0 <= x < |p|
      ensures mc[x] == OnePointChild(p, q, c)[x]
    {
      assert CountLe([c], x) == (if c <= x then 1 else 0);
    }
  }

  /** Multipoint children are complementary. */
  lemma MultipointComplementary(p: seq<Gene>, q: seq<Gene>, cuts: seq<int>)
    requires |p| == |q|
    ensures Complementary(p, q, MultipointChild(p, q, cuts), MultipointChild(q, p, cuts))
  {
  }

  /** Uniform children are complementary. */
  lemma UniformComplementary(p: seq<Gene>, q: seq<Gene>, coins: seq<real>)
    requires |p| == |q| == |coins|
    ensures Complementary(p, q, UniformChild(p, q, coins), UniformChild(q, p, coins))
  {
  }

  /** Complementary children together hold exactly the parents' genes. */
  lemma {:induction false} ComplementaryConservesGenes(p: seq<Gene>, q: seq<Gene>, c1: seq<Gene>, c2: seq<Gene>)
    requires Complementary(p, q, c1, c2)
    ensures multiset(c1) + multiset(c2) == multiset(p) + multiset(q)
  {
    if p != [] {
      var n := |p| - 1;
      ComplementaryPrefix(p, q, c1, c2, n);
      ComplementaryConservesGenes(p[..n], q[..n], c1[..n], c2[..n]);
      LastSplit(p, n);
      LastSplit(q, n);
      LastSplit(c1, n);
      LastSplit(c2, n);
      var last1, last2 := multiset{c1[n]} + multiset{c2[n]}, multiset{p[n]} + multiset{q[n]};
      assert last1 == last2 by {
        if c1[n] != p[n] {
          assert c1[n] == q[n] && c2[n] == p[n];
        }
      }
      calc {
        multiset(c1) + multiset(c2);
        (multiset(c1[..n]) + multiset(c2[..n])) + last1;
        (multiset(p[..n]) + multiset(q[..n])) + last2;
        multiset(p) + multiset(q);
      }
    }
  }

  lemma ComplementaryPrefix(p: seq<Gene>, q: seq<Gene>, c1: seq<Gene>, c2: seq<Gene>, n: nat)
    requires Complementary(p, q, c1, c2) && n <= |p|
    ensures Complementary(p[..n], q[..n], c1[..n], c2[..n])
  {
  }

  lemma LastSplit(s: seq<Gene>, n: nat)
    requires n + 1 == |s|
    ensures multiset(s) == multiset(s[..n]) + multiset{s[n]}
  {
    assert s == s[..n] + [s[n]];
  }

  lemma MulSplit(a: real, b: real, c: real)
    ensures Mul(a, b) == Mul(a, c) + Mul(a, b - c)
  {
  }

  /** A convex combination of two points of [lo, hi) lies in [lo, hi), so
      the `Gene` of a blended value never raises. */
  lemma BlendWithin(a: real, x: real, y: real, lo: real, hi: real)
    requires 0.0 <= a <= 1.0
    requires lo <= x < hi && lo <= y < hi
    ensures lo <= Blend(a, x, y) < hi
  {
    MulSplit(a, x, lo);
    MulSplit(1.0 - a, y, lo);
    MulComplement(a, lo);
    MulNonNegative(a, x - lo);
    MulNonNegative(1.0 - a, y - lo);
    MulSplit(a, hi, x);
    MulSplit(1.0 - a, hi, y);
    MulComplement(a, hi);
    if a > 0.0 {
      MulPositive(a, hi - x);
      MulNonNegative(1.0 - a, hi - y);
    } else {
      MulPositive(1.0 - a, hi - y);
      MulNonNegative(a, hi - x);
    }
  }

  /** The a = 0.5 branch computes the blend with a = 0.5, whose two children
      coincide; so it builds one. At a = 1 child 1 copies the first parent's
      values and at a = 0 the second's. */
  lemma BlendSpecialCases(x: real, y: real)
    ensures Blend(0.5, x, y) == Midpoint(x, y) == Blend(0.5, y, x)
    ensures Blend(1.0, x, y) == x && Blend(0.0, x, y) == y
  {
  }
}
