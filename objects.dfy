/** Genes, chromosome templates and chromosomes (galgopy/objects.py).
    A gene's type is fixed at construction and its value is re-validated on
    every write; a chromosome's gene list is fixed at construction and its
    two fitness fields are written by the population that ranks it. */
module Objects {
  import opened Wrappers
  import opened GeneTypes

  class Gene {
    /** `gene_type`: its setter always raises, so it never changes. */
    const geneType: GeneType
    var value: Value

    /** The gene's value lies in the domain of its type. */
    predicate Valid()
      reads this
    {
      Validate(geneType, value)
    }

    constructor (v: Value, t: GeneType)
      requires Validate(t, v)
      ensures value == v && geneType == t
      ensures Valid()
    {
      value := v;
      geneType := t;
    }

    /** `Gene(value=0, gene_type=BinaryType())`: raises ValueError unless the
        type accepts the value. */
    static method New(v: Value := NumV(0.0), t: GeneType := BinaryType) returns (r: Result<Gene>)
      ensures r.Ok? <==> Validate(t, v)
      ensures r.Err? ==> r.error == GeneValueMismatch
      ensures r.Ok? ==> fresh(r.value) && r.value.value == v && r.value.geneType == t
    {
      if Validate(t, v) {
        var g := new Gene(v, t);
        r := Ok(g);
      } else {
        r := Err(GeneValueMismatch);
      }
    }

    /** The `value` setter: the new value is validated against the gene's
        type and rejected (the old value kept) when it does not belong. */
    method SetValue(v: Value) returns (o: Outcome)
      modifies this
      ensures o.Pass? <==> Validate(geneType, v)
      ensures o.Fail? ==> o.error == GeneValueMismatch
      ensures value == if o.Pass? then v else old(value)
    {
      if Validate(geneType, v) {
        value := v;
        o := Pass;
      } else {
        o := Fail(GeneValueMismatch);
      }
    }

    /** `generate_random_gene`: a gene of type `t` holding the value drawn by
        `get_random_val`. `d` is the library draw. It fails when the library
        cannot draw, and when the drawn value does not validate (a FloatType
        whose interval is empty). */
    static method GenerateRandomGene(t: GeneType := BinaryType) returns (r: Result<Gene>, ghost d: Draw)
      ensures r.Ok? <==> Inhabited(t)
      ensures r.Err? ==> r.error == GeneError(t)
      ensures CanDraw(t) ==> DrawFits(t, d)
      ensures r.Ok? ==> fresh(r.value) && r.value.geneType == t && r.value.Valid()
      ensures r.Ok? ==> r.value.value == RandomVal(t, d)
    {
      if !CanDraw(t) {
        d := SomeDrawOrZero(t);
        return Err(DrawError(t)), d;
      }
      assert DrawFits(t, SomeDraw(t));
      var draw :| DrawFits(t, draw);
      d := draw;
      r := New(RandomVal(t, draw), t);
    }
  }

  /** The error `generate_random_gene` raises for a type it cannot fill. */
  function GeneError(t: GeneType): Error {
    if CanDraw(t) then GeneValueMismatch else DrawError(t)
  }

  /** A placeholder draw recorded when the library raises before drawing. */
  function SomeDrawOrZero(t: GeneType): Draw {
    if CanDraw(t) then SomeDraw(t) else Draw(0, 0.0)
  }

  /** `ChromosomeTemplate(types_list)`: the list of gene types of a
      chromosome. The class stores the list as given; it checks nothing. */
  datatype ChromosomeTemplate = ChromosomeTemplate(typesList: seq<GeneType>)
  {
    /** `are_same_types`: every type equals the first, parameters included. */
    predicate AreSameTypes() {
      forall i :: 0 <= i < |typesList| ==> TypeEq(typesList[i], typesList[0])
    }

    /** `types_of_class(cls)`: every type is of the class `k`, whatever its
        parameters. */
    predicate TypesOfClass(k: GeneKind) {
      forall i :: 0 <= i < |typesList| ==> typesList[i].Kind() == k
    }
  }

  /** `ChromosomeTemplate.__eq__`: list equality, element by element with the
      gene types' own `__eq__`, so the order matters. */
  predicate TemplateEq(a: ChromosomeTemplate, b: ChromosomeTemplate) {
    |a.typesList| == |b.typesList| &&
    forall i :: 0 <= i < |a.typesList| ==> TypeEq(a.typesList[i], b.typesList[i])
  }

  /** The gene types of a list of genes, in order. */
  function TypesOf(gs: seq<Gene>): (ts: seq<GeneType>)
    ensures |ts| == |gs|
  {
    seq(|gs|, i requires 0 <= i < |gs| => gs[i].geneType)
  }

  /** The values of a list of genes, in order: what a fitness function sees
      of a chromosome. */
  function Values(gs: seq<Gene>): (vs: seq<Value>)
    reads gs
    ensures |vs| == |gs|
  {
    seq(|gs|, i requires 0 <= i < |gs| reads gs => gs[i].value)
  }

  class Chromosome {
    /** `genes_list`: its setter always raises, so it never changes. */
    const genes: seq<Gene>
    var fitness: real
    var proportionalFitness: real

    constructor (gs: seq<Gene>)
      requires |gs| > 0
      ensures genes == gs && fitness == 0.0 && proportionalFitness == 0.0
    {
      genes := gs;
      fitness := 0.0;
      proportionalFitness := 0.0;
    }

    /** `Chromosome(genes_list)`: raises on an empty list; both fitness
        fields start at 0. */
    static method New(gs: seq<Gene>) returns (r: Result<Chromosome>)
      ensures r.Ok? <==> |gs| > 0
      ensures r.Err? ==> r.error == InvalidGenesList
      ensures r.Ok? ==> fresh(r.value) && r.value.genes == gs
      ensures r.Ok? ==> r.value.fitness == 0.0 && r.value.proportionalFitness == 0.0
      ensures r.Ok? ==> r.value.Template() == ChromosomeTemplate(TypesOf(gs))
    {
      if |gs| == 0 {
        return Err(InvalidGenesList);
      }
      var c := new Chromosome(gs);
      r := Ok(c);
    }

    /** `chromosome_tmplt`: the template built from the genes' types. */
    function Template(): ChromosomeTemplate {
      ChromosomeTemplate(TypesOf(genes))
    }

    /** `__lt__`: chromosomes are ordered by fitness alone. */
    predicate Less(other: Chromosome)
      reads this, other
    {
      fitness < other.fitness
    }

    /** `generate_random_chromosome`: one random gene per template
        entry, in order; `draws` are the library draws. */
    static method GenerateRandomChromosome(t: ChromosomeTemplate) returns (r: Result<Chromosome>, ghost draws: seq<Draw>)
      ensures r.Ok? <==> |t.typesList| > 0 && forall i :: 0 <= i < |t.typesList| ==> Inhabited(t.typesList[i])
      ensures r.Err? ==> r.error == TemplateError(t.typesList)
      ensures r.Ok? ==> fresh(r.value) && r.value.Template() == t
      ensures r.Ok? ==> r.value.fitness == 0.0 && r.value.proportionalFitness == 0.0
      ensures r.Ok? ==> |draws| == |t.typesList| == |r.value.genes|
      ensures r.Ok? ==> forall i :: 0 <= i < |r.value.genes| ==>
        fresh(r.value.genes[i]) && r.value.genes[i].Valid() &&
        DrawFits(t.typesList[i], draws[i]) && r.value.genes[i].value == RandomVal(t.typesList[i], draws[i])
    {
      var ts := t.typesList;
      var genes: seq<Gene> := [];
      draws := [];
      var i := 0;
      while i < |ts|
        invariant 0 <= i <= |ts| && |genes| == i && |draws| == i
        invariant forall k :: 0 <= k < i ==> Inhabited(ts[k])
        invariant FirstGeneError(ts) == FirstGeneError(ts[i..])
        invariant forall k :: 0 <= k < i ==>
          fresh(genes[k]) && genes[k].geneType == ts[k] && genes[k].Valid() &&
          DrawFits(ts[k], draws[k]) && genes[k].value == RandomVal(ts[k], draws[k])
      {
        var g, d := Gene.GenerateRandomGene(ts[i]);
        if g.Err? {
          return Err(g.error), draws;
        }
        assert ts[i..][1..] == ts[i + 1..];
        genes := genes + [g.value];
        draws := draws + [d];
        i := i + 1;
      }
      assert TypesOf(genes) == ts;
      r := Chromosome.New(genes);
    }
  }

  /** The first type of a template that `generate_random_gene` cannot fill. */
  function FirstGeneError(ts: seq<GeneType>): (e: Option<Error>)
    ensures e.None? <==> forall i :: 0 <= i < |ts| ==> Inhabited(ts[i])
  {
    if ts == [] then None
    else if !Inhabited(ts[0]) then Some(GeneError(ts[0]))
    else
      var rest := FirstGeneError(ts[1..]);
      assert forall i :: 1 <= i < |ts| ==> ts[i] == ts[1..][i - 1];
      rest
  }

  /** The error `generate_random_chromosome` raises for a template: the first
      gene that cannot be generated, or the empty genes list. */
  function TemplateError(ts: seq<GeneType>): Error {
    match FirstGeneError(ts)
    case Some(e) => e
    case None => InvalidGenesList
  }

  // ---------------------------------------------------------------------
  // Properties of templates

  /** Template equality is the model's structural equality: element-wise, in
      order, with parameters. */
  lemma TemplateEqIsEquality(a: ChromosomeTemplate, b: ChromosomeTemplate)
    ensures TemplateEq(a, b) <==> a == b
  {
    if TemplateEq(a, b) {
      forall i | 0 <= i < |a.typesList|
        ensures a.typesList[i] == b.typesList[i]
      {
        TypeEqIsEquality(a.typesList[i], b.typesList[i]);
      }
      assert a.typesList == b.typesList;
    } else if a == b {
      forall i | 0 <= i < |a.typesList|
        ensures TypeEq(a.typesList[i], b.typesList[i])
      {
        TypeEqIsEquality(a.typesList[i], b.typesList[i]);
      }
    }
  }

  /** `are_same_types` holds exactly when any two entries are equal. */
  lemma AreSameTypesPairwise(t: ChromosomeTemplate)
    ensures t.AreSameTypes() <==>
      forall i, j :: 0 <= i < |t.typesList| && 0 <= j < |t.typesList| ==> t.typesList[i] == t.typesList[j]
  {
    forall i | 0 <= i < |t.typesList| {
      TypeEqIsEquality(t.typesList[i], t.typesList[0]);
    }
  }

  /** A template whose entries are all equal FloatTypes names one interval
      shared by every position. */
  lemma SameFloatTypes(t: ChromosomeTemplate)
    requires t.TypesOfClass(FloatKind) && t.AreSameTypes()
    ensures forall i :: 0 <= i < |t.typesList| ==> t.typesList[i] == t.typesList[0] && t.typesList[i].FloatType?
  {
    forall i | 0 <= i < |t.typesList|
      ensures t.typesList[i] == t.typesList[0]
    {
      TypeEqIsEquality(t.typesList[i], t.typesList[0]);
    }
  }

  /** A chromosome assembled position by position from two parents with the
      same template, taking each gene from one parent or the other, has that
      template too. */
  lemma MixKeepsTypes(p: seq<Gene>, q: seq<Gene>, child: seq<Gene>)
    requires |p| == |q| == |child| && TypesOf(p) == TypesOf(q)
    requires forall x :: 0 <= x < |child| ==> child[x] == p[x] || child[x] == q[x]
    ensures TypesOf(child) == TypesOf(p)
  {
    forall x | 0 <= x < |child|
      ensures TypesOf(child)[x] == TypesOf(p)[x]
    {
      assert TypesOf(q)[x] == q[x].geneType;
    }
  }

  /** Types of a concatenation and of a slice. */
  lemma TypesOfConcat(a: seq<Gene>, b: seq<Gene>)
    ensures TypesOf(a + b) == TypesOf(a) + TypesOf(b)
  {
  }

  lemma TypesOfSlice(a: seq<Gene>, i: nat, j: nat)
    requires i <= j <= |a|
    ensures TypesOf(a[i..j]) == TypesOf(a)[i..j]
  {
  }
}
