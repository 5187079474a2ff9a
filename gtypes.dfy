/** Gene types: the value domains a gene may take (galgopy/gtypes.py).
    Every variant is an immutable value: its constructor normalises its
    parameters once, `Validate` is the domain membership test, `TypeEq` is the
    structural `__eq__`, and `RandomVal` is `get_random_val` with the library's
    random draw passed in as a parameter. */
module GeneTypes {
  import opened Wrappers

  /** A dynamically typed gene value. Python compares ints and floats by
      numeric value (`1 == 1.0`, `3.0 in range(0, 10)`), and no operation of
      the engine tells them apart, so both are a `NumV`. */
  datatype Value = NumV(x: real) | StrV(s: string)

  /** The three modes of StrType. */
  datatype StrMode = AllLetters | LowercaseLetters | UppercaseLetters

  const LOWERCASE: string := "abcdefghijklmnopqrstuvwxyz"
  const UPPERCASE: string := "ABCDEFGHIJKLMNOPQRSTUVWXYZ"

  /** string.ascii_lowercase, string.ascii_uppercase, string.ascii_letters */
  function Alphabet(m: StrMode): string {
    match m
    case LowercaseLetters => LOWERCASE
    case UppercaseLetters => UPPERCASE
    case AllLetters => LOWERCASE + UPPERCASE
  }

  /** The list `_data` of a StrType: one single-character string per letter. */
  function StrData(m: StrMode): (d: seq<Value>)
    ensures |d| == |Alphabet(m)|
  {
    seq(|Alphabet(m)|, i requires 0 <= i < |Alphabet(m)| => StrV([Alphabet(m)[i]]))
  }

  /** The class of a gene type, as `isinstance` sees it. */
  datatype GeneKind = BinaryKind | IntKind | FloatKind | StrKind | CostumeKind

  datatype GeneType =
    | BinaryType
    | IntType(intMin: int, intMax: int)
    | FloatType(floatMin: real, floatMax: real)
    | StrType(mode: StrMode)
    | CostumeType(costumeData: seq<Value>)
  {
    function Kind(): GeneKind {
      match this
      case BinaryType => BinaryKind
      case IntType(_, _) => IntKind
      case FloatType(_, _) => FloatKind
      case StrType(_) => StrKind
      case CostumeType(_) => CostumeKind
    }
  }

  // ---------------------------------------------------------------------
  // Constructors

  /** IntType(min_val=0, max_val=9): the bounds are stored as min/max of the
      two arguments, so they are ordered whatever order they were given in. */
  function NewIntType(minVal: int := 0, maxVal: int := 9): (t: GeneType)
    ensures t.IntType? && t.intMin <= t.intMax
    ensures multiset{t.intMin, t.intMax} == multiset{minVal, maxVal}
  {
    if maxVal < minVal then IntType(maxVal, minVal) else IntType(minVal, maxVal)
  }

  /** FloatType(min_val=0, max_val=1), normalised the same way. */
  function NewFloatType(minVal: real := 0.0, maxVal: real := 1.0): (t: GeneType)
    ensures t.FloatType? && t.floatMin <= t.floatMax
    ensures multiset{t.floatMin, t.floatMax} == multiset{minVal, maxVal}
  {
    if maxVal < minVal then FloatType(maxVal, minVal) else FloatType(minVal, maxVal)
  }

  /** StrType(mode="all"): any other mode than the three names raises. */
  function NewStrType(mode: string := "all"): (r: Result<GeneType>)
    ensures r.Err? <==> mode !in ["all", "lowercase", "uppercase"]
    ensures r.Err? ==> r.error == InvalidStrMode
    ensures r.Ok? ==> r.value.StrType?
    ensures r.Ok? && mode == "all" ==> |Alphabet(r.value.mode)| == 52
    ensures r.Ok? && mode == "lowercase" ==>
      |Alphabet(r.value.mode)| == 26 && forall c :: c in Alphabet(r.value.mode) ==> 'a' <= c <= 'z'
    ensures r.Ok? && mode == "uppercase" ==>
      |Alphabet(r.value.mode)| == 26 && forall c :: c in Alphabet(r.value.mode) ==> 'A' <= c <= 'Z'
  {
    if mode == "lowercase" then Ok(StrType(LowercaseLetters))
    else if mode == "uppercase" then Ok(StrType(UppercaseLetters))
    else if mode == "all" then Ok(StrType(AllLetters))
    else Err(InvalidStrMode)
  }

  // ---------------------------------------------------------------------
  // Equality and validation

  /** `__eq__`: the same class and the same parameters; StrType compares its
      resolved letter lists, CostumeType its value lists in order. */
  predicate TypeEq(a: GeneType, b: GeneType) {
    match a
    case BinaryType => b.BinaryType?
    case IntType(lo, hi) => b.IntType? && lo == b.intMin && hi == b.intMax
    case FloatType(lo, hi) => b.FloatType? && lo == b.floatMin && hi == b.floatMax
    case StrType(m) => b.StrType? && StrData(m) == StrData(b.mode)
    case CostumeType(d) => b.CostumeType? && d == b.costumeData
  }

  /** True when `v` is a number with an integral value. */
  predicate IsIntegral(v: Value) {
    v.NumV? && v.x == v.x.Floor as real
  }

  /** `validate`: whether the value belongs to the domain. */
  predicate Validate(t: GeneType, v: Value) {
    match t
    case BinaryType => v in [NumV(0.0), NumV(1.0)]
    case IntType(lo, hi) => IsIntegral(v) && lo <= v.x.Floor <= hi
    case FloatType(lo, hi) => v.NumV? && lo <= v.x < hi
    case StrType(m) => v in StrData(m)
    case CostumeType(d) => v in d
  }

  /** The domains that contain at least one value. */
  predicate Inhabited(t: GeneType) {
    match t
    case BinaryType => true
    case IntType(lo, hi) => lo <= hi
    case FloatType(lo, hi) => lo < hi
    case StrType(_) => true
    case CostumeType(d) => |d| > 0
  }

  // ---------------------------------------------------------------------
  // Random values

  /** One draw of the random library: `index` stands for the result of
      randint or the position chosen by choice, `unit` for random(). */
  datatype Draw = Draw(index: int, unit: real)

  /** The draws the library call of `get_random_val` can return for `t`:
      randint(0, 1), randint(min, max), random() in [0, 1), and an index of
      the list that choice picks from. */
  predicate DrawFits(t: GeneType, d: Draw) {
    match t
    case BinaryType => 0 <= d.index <= 1
    case IntType(lo, hi) => lo <= d.index <= hi
    case FloatType(_, _) => 0.0 <= d.unit < 1.0
    case StrType(m) => 0 <= d.index < |StrData(m)|
    case CostumeType(data) => 0 <= d.index < |data|
  }

  /** Whether the library call can return at all: randint(min, max) raises on
      an empty range and choice on an empty list. */
  predicate CanDraw(t: GeneType) {
    match t
    case IntType(lo, hi) => lo <= hi
    case CostumeType(data) => |data| > 0
    case _ => true
  }

  /** The exception the library raises when it cannot draw. */
  function DrawError(t: GeneType): Error {
    if t.IntType? then EmptyRange else EmptyChoice
  }

  /** A draw the library may return, for a type it can draw from. */
  function SomeDraw(t: GeneType): (d: Draw)
    requires CanDraw(t)
    ensures DrawFits(t, d)
  {
    match t
    case IntType(lo, _) => Draw(lo, 0.0)
    case _ => Draw(0, 0.0)
  }

  /** `get_random_val` given the library's draw. Its result lies in the
      domain exactly when the domain is inhabited: the only types the library
      can draw from without producing a member are FloatTypes whose interval
      is empty. */
  function RandomVal(t: GeneType, d: Draw): (v: Value)
    requires DrawFits(t, d)
    ensures Validate(t, v) <==> Inhabited(t)
  {
    match t
    case BinaryType => NumV(d.index as real)
    case IntType(_, _) => NumV(d.index as real)
    case FloatType(lo, hi) =>
      ScaleUnitBounds(d.unit, lo, hi);
      NumV(ScaleUnit(d.unit, lo, hi))
    case StrType(m) => StrData(m)[d.index]
    case CostumeType(data) => data[d.index]
  }

  /** The product of two reals. Every product the model forms goes through
      this function, so that the solver treats it as one term and the sign
      facts below apply to it. */
  function Mul(a: real, b: real): real {
    a * b
  }

  /** `random() * (max - min) + min` */
  function ScaleUnit(r: real, lo: real, hi: real): real {
    Mul(r, hi - lo) + lo
  }

  /** A draw r in [0, 1) is mapped onto [min, max), and onto min itself when
      the bounds coincide. */
  lemma ScaleUnitBounds(r: real, lo: real, hi: real)
    requires 0.0 <= r < 1.0
    ensures lo < hi ==> lo <= ScaleUnit(r, lo, hi) < hi
    ensures lo == hi ==> ScaleUnit(r, lo, hi) == lo
  {
    if lo < hi {
      MulComplement(r, hi - lo);
      MulPositive(1.0 - r, hi - lo);
      MulNonNegative(r, hi - lo);
    } else if lo == hi {
      MulZero(r, hi - lo);
    }
  }

  lemma MulPositive(a: real, b: real)
    requires a > 0.0 && b > 0.0
    ensures Mul(a, b) > 0.0
  {
  }

  lemma MulNonNegative(a: real, b: real)
    requires a >= 0.0 && b >= 0.0
    ensures Mul(a, b) >= 0.0
  {
  }

  lemma MulZero(a: real, b: real)
    requires b == 0.0
    ensures Mul(a, b) == 0.0
  {
  }

  /** r * w + (1 - r) * w == w */
  lemma MulComplement(r: real, w: real)
    ensures Mul(r, w) + Mul(1.0 - r, w) == w
  {
  }

  // ---------------------------------------------------------------------
  // Properties of the domains

  /** BinaryType accepts exactly 0 and 1. */
  lemma BinaryAcceptsZeroAndOne(x: real)
    ensures Validate(BinaryType, NumV(x)) <==> x == 0.0 || x == 1.0
    ensures forall s :: !Validate(BinaryType, StrV(s))
  {
  }

  /** IntType accepts exactly the integers between its two arguments, both
      ends included, and rejects every non-integral number and string. */
  lemma IntTypeAcceptsClosedRange(a: int, b: int, k: int, x: real, s: string)
    ensures Validate(NewIntType(a, b), NumV(k as real)) <==> (a <= k <= b || b <= k <= a)
    ensures x != x.Floor as real ==> !Validate(NewIntType(a, b), NumV(x))
    ensures !Validate(NewIntType(a, b), StrV(s))
  {
    assert (k as real).Floor == k;
  }

  /** The argument order of IntType and FloatType does not matter. */
  lemma BoundsOrderIrrelevant(a: int, b: int, x: real, y: real)
    ensures NewIntType(a, b) == NewIntType(b, a)
    ensures NewFloatType(x, y) == NewFloatType(y, x)
  {
  }

  /** FloatType accepts the half-open interval [min, max): min is accepted,
      max is rejected; when the bounds coincide nothing is accepted. */
  lemma FloatTypeHalfOpen(a: real, b: real, v: Value)
    ensures var t := NewFloatType(a, b);
      a != b ==> Validate(t, NumV(t.floatMin)) && !Validate(t, NumV(t.floatMax))
    ensures !Validate(NewFloatType(a, a), v)
  {
  }

  /** A StrType accepts exactly the one-letter strings over its alphabet. */
  lemma {:induction false} StrTypeAcceptsLetters(m: StrMode, v: Value)
    ensures Validate(StrType(m), v) <==> v.StrV? && |v.s| == 1 && v.s[0] in Alphabet(m)
  {
    if v.StrV? && |v.s| == 1 && v.s[0] in Alphabet(m) {
      var i :| 0 <= i < |Alphabet(m)| && Alphabet(m)[i] == v.s[0];
      assert v.s == [Alphabet(m)[i]];
      assert StrData(m)[i] == v;
    }
  }

  /** A domain has a member exactly when it is inhabited. */
  lemma {:induction false} InhabitedIffSomeValue(t: GeneType)
    ensures Inhabited(t) <==> exists v :: Validate(t, v)
  {
    if Inhabited(t) {
      var v := RandomVal(t, SomeDraw(t));
      assert Validate(t, v);
    } else {
      forall v ensures !Validate(t, v) {
        if t.IntType? && IsIntegral(v) {
          assert !(t.intMin <= v.x.Floor <= t.intMax);
        }
      }
    }
  }

  /** The library can draw for every inhabited domain. */
  lemma InhabitedCanDraw(t: GeneType)
    requires Inhabited(t)
    ensures CanDraw(t)
  {
  }

  lemma {:induction false} StrDataInjective(m1: StrMode, m2: StrMode)
    requires StrData(m1) == StrData(m2)
    ensures m1 == m2
  {
    assert StrData(m1)[0] == StrV([Alphabet(m1)[0]]);
    assert StrData(m2)[0] == StrV([Alphabet(m2)[0]]);
    assert Alphabet(m1)[0] == Alphabet(m2)[0];
  }

  /** Equality of gene types coincides with structural equality of the
      model, so it is reflexive, symmetric and transitive. */
  lemma {:induction false} TypeEqIsEquality(a: GeneType, b: GeneType)
    ensures TypeEq(a, b) <==> a == b
  {
    if a.StrType? && TypeEq(a, b) {
      StrDataInjective(a.mode, b.mode);
    }
  }

  /** Gene types of different classes are never equal; any two BinaryType
      values are. */
  lemma DifferentKindsNeverEqual(a: GeneType, b: GeneType)
    ensures a.Kind() != b.Kind() ==> !TypeEq(a, b)
    ensures a.BinaryType? && b.BinaryType? ==> TypeEq(a, b)
  {
  }
}
