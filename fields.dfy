/**
 * pgcrypto/fields.py: the concrete field classes. Each class combines
 * PGPSymmetricKeyFieldMixin (and, for decimals, DecimalPGPFieldMixin) with
 * one of Django's model fields, and may override encrypt_sql and cast_type.
 * What a field object sees is decided by Python's attribute lookup along the
 * class's method resolution order, which is modelled here over the classes
 * and attributes that matter.
 */
module Fields {
  import opened Wrappers
  import opened Mixins

  /** The nine field classes of pgcrypto/fields.py. */
  datatype FieldClass =
    | EmailField | IntegerField | TextField | CharField | DateField
    | DateTimeField | DecimalField | FloatField | TimeField

  /**
   * The classes that take part in attribute lookup: the concrete field class,
   * the two mixins and their base PGPMixin, the Django field class it extends
   * (models.EmailField, models.IntegerField, ...) and Django's Field.
   */
  datatype PyClass =
    | Concrete(c: FieldClass)
    | DecimalPGPFieldMixin
    | PGPSymmetricKeyFieldMixin
    | PGPMixin
    | DjangoTypedField(c: FieldClass)
    | DjangoField

  /** The attributes the field classes define or override. */
  datatype Attr =
    | EncryptSqlAttr | DecryptSqlAttr | CastTypeAttr | GetCastSqlAttr
    | DbTypeAttr | PreSaveAttr | GetPlaceholderAttr | GetDecryptSqlAttr | GetColAttr

  /**
   * What a class body binds an attribute to: a class-level value (None where
   * PGPMixin leaves it "set in implementation class"), or a method, known by
   * the class that defines it.
   */
  datatype Binding =
    | EncryptSqlIs(encrypt: Option<EncryptSql>)
    | DecryptSqlIs(isSet: bool)
    | CastTypeIs(cast: Option<CastType>)
    | MethodOf(owner: PyClass)

  /** How far a class sits above the roots of the hierarchy. */
  function Depth(k: PyClass): nat
  {
    match k
    case Concrete(_) => 2
    case PGPSymmetricKeyFieldMixin => 1
    case DjangoTypedField(_) => 1
    case _ => 0
  }

  /**
   * The direct bases of each class, in the order the class statement lists
   * them. The hierarchy has no cycle: every base sits lower than its class.
   */
  function Bases(k: PyClass): (bs: seq<PyClass>)
    ensures forall b :: b in bs ==> Depth(b) < Depth(k)
  {
    match k
    case Concrete(DecimalField) => [DecimalPGPFieldMixin, PGPSymmetricKeyFieldMixin, DjangoTypedField(DecimalField)]
    case Concrete(c) => [PGPSymmetricKeyFieldMixin, DjangoTypedField(c)]
    case DecimalPGPFieldMixin => []
    case PGPSymmetricKeyFieldMixin => [PGPMixin]
    case PGPMixin => []
    case DjangoTypedField(_) => [DjangoField]
    case DjangoField => []
  }

  /**
   * What each class body declares, among the modelled attributes. Django's
   * Field defines db_type, pre_save and get_col; DateField, DateTimeField and
   * TimeField define their own pre_save (for auto_now).
   */
  function Declared(k: PyClass, a: Attr): (r: Option<Binding>)
    ensures r.Some? && r.value.MethodOf? ==> r.value.owner == k
    ensures k.Concrete? && r.Some? ==> a == EncryptSqlAttr || a == CastTypeAttr
  {
    match (k, a)
    case (Concrete(c), EncryptSqlAttr) =>
      if c in {IntegerField, DateField, DateTimeField, FloatField, TimeField}
      then Some(EncryptSqlIs(Some(PgpSymEncryptSqlWithNullif))) else None
    case (Concrete(c), CastTypeAttr) =>
      (match c
       case IntegerField => Some(CastTypeIs(Some(CastLiteral("INT4"))))
       case DateField => Some(CastTypeIs(Some(CastLiteral("DATE"))))
       case DateTimeField => Some(CastTypeIs(Some(CastLiteral("TIMESTAMP"))))
       case FloatField => Some(CastTypeIs(Some(CastLiteral("DOUBLE PRECISION"))))
       case TimeField => Some(CastTypeIs(Some(CastLiteral("TIME"))))
       case _ => None)
    case (Concrete(_), _) => None
    case (DecimalPGPFieldMixin, CastTypeAttr) => Some(CastTypeIs(Some(NumericCastPattern)))
    case (DecimalPGPFieldMixin, GetCastSqlAttr) => Some(MethodOf(DecimalPGPFieldMixin))
    case (DecimalPGPFieldMixin, _) => None
    case (PGPSymmetricKeyFieldMixin, EncryptSqlAttr) => Some(EncryptSqlIs(Some(PgpSymEncryptSql)))
    case (PGPSymmetricKeyFieldMixin, DecryptSqlAttr) => Some(DecryptSqlIs(true))
    case (PGPSymmetricKeyFieldMixin, CastTypeAttr) => Some(CastTypeIs(Some(CastLiteral("TEXT"))))
    case (PGPSymmetricKeyFieldMixin, PreSaveAttr) => Some(MethodOf(PGPSymmetricKeyFieldMixin))
    case (PGPSymmetricKeyFieldMixin, GetPlaceholderAttr) => Some(MethodOf(PGPSymmetricKeyFieldMixin))
    case (PGPSymmetricKeyFieldMixin, GetDecryptSqlAttr) => Some(MethodOf(PGPSymmetricKeyFieldMixin))
    case (PGPSymmetricKeyFieldMixin, _) => None
    case (PGPMixin, EncryptSqlAttr) => Some(EncryptSqlIs(None))
    case (PGPMixin, DecryptSqlAttr) => Some(DecryptSqlIs(false))
    case (PGPMixin, CastTypeAttr) => Some(CastTypeIs(None))
    case (PGPMixin, _) => Some(MethodOf(PGPMixin))
    case (DjangoTypedField(c), PreSaveAttr) =>
      if c in {DateField, DateTimeField, TimeField} then Some(MethodOf(DjangoTypedField(c))) else None
    case (DjangoTypedField(_), _) => None
    case (DjangoField, DbTypeAttr) => Some(MethodOf(DjangoField))
    case (DjangoField, PreSaveAttr) => Some(MethodOf(DjangoField))
    case (DjangoField, GetColAttr) => Some(MethodOf(DjangoField))
    case (DjangoField, _) => None
  }

  // ---------------------------------------------------------------- C3 linearisation

  /** The number of classes still to be merged. */
  function TotalLen(ls: seq<seq<PyClass>>): nat
  {
    if ls == [] then 0 else |ls[0]| + TotalLen(ls[1..])
  }

  /** h occurs in the tail of one of the lists, after its head. */
  predicate InSomeTail(ls: seq<seq<PyClass>>, h: PyClass)
  {
    exists i :: 0 <= i < |ls| && ls[i] != [] && h in ls[i][1..]
  }

  /**
   * The first list, from index j on, whose head occurs in no tail: the next
   * class the merge may take. None when every head is blocked.
   */
  function GoodHead(ls: seq<seq<PyClass>>, j: nat): (r: Option<nat>)
    requires j <= |ls|
    ensures r.Some? ==> j <= r.value < |ls| && ls[r.value] != [] && !InSomeTail(ls, ls[r.value][0])
    ensures r.None? ==> forall i :: j <= i < |ls| && ls[i] != [] ==> InSomeTail(ls, ls[i][0])
    decreases |ls| - j
  {
    if j == |ls| then None
    else if ls[j] != [] && !InSomeTail(ls, ls[j][0]) then Some(j)
    else GoodHead(ls, j + 1)
  }

  /** Removes h from the front of every list it heads. */
  function StripHead(ls: seq<seq<PyClass>>, h: PyClass): (r: seq<seq<PyClass>>)
    ensures |r| == |ls|
    ensures forall i :: 0 <= i < |ls| ==> r[i] == if ls[i] != [] && ls[i][0] == h then ls[i][1..] else ls[i]
  {
    if ls == [] then []
    else [if ls[0] != [] && ls[0][0] == h then ls[0][1..] else ls[0]] + StripHead(ls[1..], h)
  }

  /** Taking a class that heads some list leaves fewer classes to merge. */
  lemma {:induction false} StripHeadShrinks(ls: seq<seq<PyClass>>, h: PyClass, j: nat)
    requires j < |ls| && ls[j] != [] && ls[j][0] == h
    ensures TotalLen(StripHead(ls, h)) < TotalLen(ls)
    decreases |ls|
  {
    var r := StripHead(ls, h);
    assert r[1..] == StripHead(ls[1..], h);
    if j > 0 {
      StripHeadShrinks(ls[1..], h, j - 1);
    } else {
      StripHeadNeverGrows(ls[1..], h);
    }
  }

  lemma {:induction false} StripHeadNeverGrows(ls: seq<seq<PyClass>>, h: PyClass)
    ensures TotalLen(StripHead(ls, h)) <= TotalLen(ls)
    decreases |ls|
  {
    if ls != [] {
      assert StripHead(ls, h)[1..] == StripHead(ls[1..], h);
      StripHeadNeverGrows(ls[1..], h);
    }
  }

  /**
   * The C3 merge of CPython's type.mro(): take the first head that occurs
   * in no tail, remove it everywhere it heads, and repeat until every list is
   * empty; None (Python's TypeError) when every head is blocked.
   */
  function Merge(ls: seq<seq<PyClass>>): Option<seq<PyClass>>
    decreases TotalLen(ls)
  {
    if TotalLen(ls) == 0 then Some([])
    else match GoodHead(ls, 0)
      case None => None
      case Some(j) =>
        var h := ls[j][0];
        StripHeadShrinks(ls, h, j);
        (match Merge(StripHead(ls, h))
         case None => None
         case Some(rest) => Some([h] + rest))
  }

  /** The C3 linearisation of k: k, then the merge of its bases' linearisations and its bases. */
  function Linearise(k: PyClass): Option<seq<PyClass>>
    decreases Depth(k), 1, 0
  {
    match LineariseAll(Bases(k), Depth(k))
    case None => None
    case Some(ls) =>
      (match Merge(ls + [Bases(k)])
       case None => None
       case Some(m) => Some([k] + m))
  }

  /** The linearisations of a list of bases, all lower than bound. */
  function LineariseAll(bs: seq<PyClass>, bound: nat): Option<seq<seq<PyClass>>>
    requires forall b :: b in bs ==> Depth(b) < bound
    decreases bound, 0, |bs|
  {
    if bs == [] then Some([])
    else match (Linearise(bs[0]), LineariseAll(bs[1..], bound))
      case (Some(l), Some(ls)) => Some([l] + ls)
      case _ => None
  }

  // Prepending one class to a short list, for the steps below.

  lemma Prepend0<T>(h: T)
    ensures [h] + [] == [h]
  {
  }

  lemma Prepend1<T>(h: T, a: T)
    ensures [h] + [a] == [h, a]
  {
  }

  lemma Prepend2<T>(h: T, a: T, b: T)
    ensures [h] + [a, b] == [h, a, b]
  {
  }

  lemma Prepend3<T>(h: T, a: T, b: T, d: T)
    ensures [h] + [a, b, d] == [h, a, b, d]
  {
  }

  lemma Prepend4<T>(h: T, a: T, b: T, d: T, e: T)
    ensures [h] + [a, b, d, e] == [h, a, b, d, e]
  {
  }

  lemma Prepend5<T>(h: T, a: T, b: T, d: T, e: T, g: T)
    ensures [h] + [a, b, d, e, g] == [h, a, b, d, e, g]
  {
  }

  lemma {:induction false} GoodHeadFinds(ls: seq<seq<PyClass>>, k: nat, j: nat)
    requires k <= j < |ls| && ls[j] != [] && !InSomeTail(ls, ls[j][0])
    requires forall i :: k <= i < j && ls[i] != [] ==> InSomeTail(ls, ls[i][0])
    ensures GoodHead(ls, k) == Some(j)
    decreases j - k
  {
    if k < j {
      GoodHeadFinds(ls, k + 1, j);
    }
  }

  lemma {:induction false} TotalLenPositive(ls: seq<seq<PyClass>>, j: nat)
    requires j < |ls| && ls[j] != []
    ensures TotalLen(ls) > 0
    decreases |ls|
  {
    if j > 0 {
      TotalLenPositive(ls[1..], j - 1);
    }
  }

  lemma {:induction false} TotalLenZero(ls: seq<seq<PyClass>>)
    requires forall i :: 0 <= i < |ls| ==> ls[i] == []
    ensures TotalLen(ls) == 0
    decreases |ls|
  {
    if ls != [] {
      TotalLenZero(ls[1..]);
    }
  }

  /** One step of the merge: the first unblocked head j is taken. */
  lemma MergeStep(ls: seq<seq<PyClass>>, j: nat, rest: seq<PyClass>)
    requires j < |ls| && ls[j] != [] && !InSomeTail(ls, ls[j][0])
    requires forall i :: 0 <= i < j && ls[i] != [] ==> InSomeTail(ls, ls[i][0])
    requires Merge(StripHead(ls, ls[j][0])) == Some(rest)
    ensures Merge(ls) == Some([ls[j][0]] + rest)
  {
    GoodHeadFinds(ls, 0, j);
    TotalLenPositive(ls, j);
  }

  lemma MergeDone(ls: seq<seq<PyClass>>)
    requires forall i :: 0 <= i < |ls| ==> ls[i] == []
    ensures Merge(ls) == Some([])
  {
    TotalLenZero(ls);
  }

  lemma {:induction false} LineariseAllOf(bs: seq<PyClass>, bound: nat, ls: seq<seq<PyClass>>)
    requires forall b :: b in bs ==> Depth(b) < bound
    requires |ls| == |bs| && forall i :: 0 <= i < |bs| ==> Linearise(bs[i]) == Some(ls[i])
    ensures LineariseAll(bs, bound) == Some(ls)
    decreases |bs|
  {
    if bs != [] {
      LineariseAllOf(bs[1..], bound, ls[1..]);
      assert ls == [ls[0]] + ls[1..];
    }
  }

  lemma LineariseOf(k: PyClass, ls: seq<seq<PyClass>>, input: seq<seq<PyClass>>, m: seq<PyClass>)
    requires LineariseAll(Bases(k), Depth(k)) == Some(ls)
    requires input == ls + [Bases(k)]
    requires Merge(input) == Some(m)
    ensures Linearise(k) == Some([k] + m)
  {
  }

  lemma LineariseRoot(k: PyClass)
    requires Bases(k) == []
    ensures Linearise(k) == Some([k])
  {
    LineariseAllOf([], Depth(k), []);
    MergeDone([[]]);
    assert [] + [Bases(k)] == [[]];
    LineariseOf(k, [], [[]], []);
    Prepend0(k);
  }

  /** A class with one root base b: [k, b]. */
  lemma LineariseOneBase(k: PyClass, b: PyClass)
    requires Bases(k) == [b] && Bases(b) == []
    ensures Linearise(k) == Some([k, b])
  {
    LineariseRoot(b);
    LineariseAllOf([b], Depth(k), [[b]]);
    var s: seq<seq<PyClass>> := [[b], [b]];
    assert [[b]] + [Bases(k)] == s;
    MergeDone([[], []]);
    assert StripHead(s, b) == [[], []];
    MergeStep(s, 0, []);
    Prepend0(b);
    LineariseOf(k, [[b]], s, [b]);
    Prepend1(k, b);
  }

  lemma LineariseSymmetricMixin()
    ensures Linearise(PGPSymmetricKeyFieldMixin) == Some([PGPSymmetricKeyFieldMixin, PGPMixin])
  {
    LineariseOneBase(PGPSymmetricKeyFieldMixin, PGPMixin);
  }

  lemma LineariseDjangoTyped(c: FieldClass)
    ensures Linearise(DjangoTypedField(c)) == Some([DjangoTypedField(c), DjangoField])
  {
    LineariseOneBase(DjangoTypedField(c), DjangoField);
  }

  lemma MergePlainFieldHead0(c: FieldClass)
    ensures !InSomeTail([[PGPSymmetricKeyFieldMixin, PGPMixin], [DjangoTypedField(c), DjangoField], [PGPSymmetricKeyFieldMixin, DjangoTypedField(c)]], PGPSymmetricKeyFieldMixin)
    ensures StripHead([[PGPSymmetricKeyFieldMixin, PGPMixin], [DjangoTypedField(c), DjangoField], [PGPSymmetricKeyFieldMixin, DjangoTypedField(c)]], PGPSymmetricKeyFieldMixin)
      == [[PGPMixin], [DjangoTypedField(c), DjangoField], [DjangoTypedField(c)]]
  {
  }

  /** The merge for a class whose bases are the symmetric-key mixin and a Django field. */
  lemma MergePlainField(c: FieldClass)
    ensures Merge([[PGPSymmetricKeyFieldMixin, PGPMixin], [DjangoTypedField(c), DjangoField], [PGPSymmetricKeyFieldMixin, DjangoTypedField(c)]])
      == Some([PGPSymmetricKeyFieldMixin, PGPMixin, DjangoTypedField(c), DjangoField])
  {
    var ls: seq<seq<PyClass>> := [[PGPSymmetricKeyFieldMixin, PGPMixin], [DjangoTypedField(c), DjangoField], [PGPSymmetricKeyFieldMixin, DjangoTypedField(c)]];
    MergePlainFieldHead0(c);
    MergePlainFieldStep1(c);
    assert ls[0][0] == PGPSymmetricKeyFieldMixin;
    assert Merge(StripHead(ls, ls[0][0])) == Some([PGPMixin, DjangoTypedField(c), DjangoField]);
    MergeStep(ls, 0, [PGPMixin, DjangoTypedField(c), DjangoField]);
    Prepend3(PGPSymmetricKeyFieldMixin, PGPMixin, DjangoTypedField(c), DjangoField);
  }

  lemma MergePlainFieldHead1(c: FieldClass)
    ensures !InSomeTail([[PGPMixin], [DjangoTypedField(c), DjangoField], [DjangoTypedField(c)]], PGPMixin)
    ensures StripHead([[PGPMixin], [DjangoTypedField(c), DjangoField], [DjangoTypedField(c)]], PGPMixin)
      == [[], [DjangoTypedField(c), DjangoField], [DjangoTypedField(c)]]
  {
  }

  lemma MergePlainFieldStep1(c: FieldClass)
    ensures Merge([[PGPMixin], [DjangoTypedField(c), DjangoField], [DjangoTypedField(c)]])
      == Some([PGPMixin, DjangoTypedField(c), DjangoField])
  {
    var ls: seq<seq<PyClass>> := [[PGPMixin], [DjangoTypedField(c), DjangoField], [DjangoTypedField(c)]];
    MergePlainFieldHead1(c);
    MergePlainFieldStep2(c);
    assert ls[0][0] == PGPMixin;
    assert Merge(StripHead(ls, ls[0][0])) == Some([DjangoTypedField(c), DjangoField]);
    MergeStep(ls, 0, [DjangoTypedField(c), DjangoField]);
    Prepend2(PGPMixin, DjangoTypedField(c), DjangoField);
  }

  lemma MergePlainFieldHead2(c: FieldClass)
    ensures !InSomeTail([[], [DjangoTypedField(c), DjangoField], [DjangoTypedField(c)]], DjangoTypedField(c))
    ensures StripHead([[], [DjangoTypedField(c), DjangoField], [DjangoTypedField(c)]], DjangoTypedField(c))
      == [[], [DjangoField], []]
  {
  }

  lemma MergePlainFieldStep2(c: FieldClass)
    ensures Merge([[], [DjangoTypedField(c), DjangoField], [DjangoTypedField(c)]])
      == Some([DjangoTypedField(c), DjangoField])
  {
    var ls: seq<seq<PyClass>> := [[], [DjangoTypedField(c), DjangoField], [DjangoTypedField(c)]];
    MergePlainFieldHead2(c);
    MergePlainFieldStep3(c);
    assert ls[1][0] == DjangoTypedField(c);
    assert ls[0] == [];
    assert Merge(StripHead(ls, ls[1][0])) == Some([DjangoField]);
    MergeStep(ls, 1, [DjangoField]);
    Prepend1(DjangoTypedField(c), DjangoField);
  }

  lemma MergePlainFieldHead3(c: FieldClass)
    ensures !InSomeTail([[], [DjangoField], []], DjangoField)
    ensures StripHead([[], [DjangoField], []], DjangoField)
      == [[], [], []]
  {
  }

  lemma MergePlainFieldStep3(c: FieldClass)
    ensures Merge([[], [DjangoField], []])
      == Some([DjangoField])
  {
    var ls: seq<seq<PyClass>> := [[], [DjangoField], []];
    MergePlainFieldHead3(c);
    MergeDone([[], [], []]);
    assert ls[1][0] == DjangoField;
    assert ls[0] == [];
    assert Merge(StripHead(ls, ls[1][0])) == Some([]);
    MergeStep(ls, 1, []);
    Prepend0(DjangoField);
  }

  lemma MergeDecimalMixinFirstHead0(c: FieldClass)
    ensures !InSomeTail([[DecimalPGPFieldMixin], [PGPSymmetricKeyFieldMixin, PGPMixin], [DjangoTypedField(c), DjangoField], [DecimalPGPFieldMixin, PGPSymmetricKeyFieldMixin, DjangoTypedField(c)]], DecimalPGPFieldMixin)
    ensures StripHead([[DecimalPGPFieldMixin], [PGPSymmetricKeyFieldMixin, PGPMixin], [DjangoTypedField(c), DjangoField], [DecimalPGPFieldMixin, PGPSymmetricKeyFieldMixin, DjangoTypedField(c)]], DecimalPGPFieldMixin)
      == [[], [PGPSymmetricKeyFieldMixin, PGPMixin], [DjangoTypedField(c), DjangoField], [PGPSymmetricKeyFieldMixin, DjangoTypedField(c)]]
  {
  }

  /** The merge for a class whose bases begin with DecimalPGPFieldMixin. */
  lemma MergeDecimalMixinFirst(c: FieldClass)
    ensures Merge([[DecimalPGPFieldMixin], [PGPSymmetricKeyFieldMixin, PGPMixin], [DjangoTypedField(c), DjangoField], [DecimalPGPFieldMixin, PGPSymmetricKeyFieldMixin, DjangoTypedField(c)]])
      == Some([DecimalPGPFieldMixin, PGPSymmetricKeyFieldMixin, PGPMixin, DjangoTypedField(c), DjangoField])
  {
    var ls: seq<seq<PyClass>> := [[DecimalPGPFieldMixin], [PGPSymmetricKeyFieldMixin, PGPMixin], [DjangoTypedField(c), DjangoField], [DecimalPGPFieldMixin, PGPSymmetricKeyFieldMixin, DjangoTypedField(c)]];
    MergeDecimalMixinFirstHead0(c);
    MergeDecimalMixinFirstStep1(c);
    assert ls[0][0] == DecimalPGPFieldMixin;
    assert Merge(StripHead(ls, ls[0][0])) == Some([PGPSymmetricKeyFieldMixin, PGPMixin, DjangoTypedField(c), DjangoField]);
    MergeStep(ls, 0, [PGPSymmetricKeyFieldMixin, PGPMixin, DjangoTypedField(c), DjangoField]);
    Prepend4(DecimalPGPFieldMixin, PGPSymmetricKeyFieldMixin, PGPMixin, DjangoTypedField(c), DjangoField);
  }

  lemma MergeDecimalMixinFirstHead1(c: FieldClass)
    ensures !InSomeTail([[], [PGPSymmetricKeyFieldMixin, PGPMixin], [DjangoTypedField(c), DjangoField], [PGPSymmetricKeyFieldMixin, DjangoTypedField(c)]], PGPSymmetricKeyFieldMixin)
    ensures StripHead([[], [PGPSymmetricKeyFieldMixin, PGPMixin], [DjangoTypedField(c), DjangoField], [PGPSymmetricKeyFieldMixin, DjangoTypedField(c)]], PGPSymmetricKeyFieldMixin)
      == [[], [PGPMixin], [DjangoTypedField(c), DjangoField], [DjangoTypedField(c)]]
  {
  }

  lemma MergeDecimalMixinFirstStep1(c: FieldClass)
    ensures Merge([[], [PGPSymmetricKeyFieldMixin, PGPMixin], [DjangoTypedField(c), DjangoField], [PGPSymmetricKeyFieldMixin, DjangoTypedField(c)]])
      == Some([PGPSymmetricKeyFieldMixin, PGPMixin, DjangoTypedField(c), DjangoField])
  {
    var ls: seq<seq<PyClass>> := [[], [PGPSymmetricKeyFieldMixin, PGPMixin], [DjangoTypedField(c), DjangoField], [PGPSymmetricKeyFieldMixin, DjangoTypedField(c)]];
    MergeDecimalMixinFirstHead1(c);
    MergeDecimalMixinFirstStep2(c);
    assert ls[1][0] == PGPSymmetricKeyFieldMixin;
    assert ls[0] == [];
    assert Merge(StripHead(ls, ls[1][0])) == Some([PGPMixin, DjangoTypedField(c), DjangoField]);
    MergeStep(ls, 1, [PGPMixin, DjangoTypedField(c), DjangoField]);
    Prepend3(PGPSymmetricKeyFieldMixin, PGPMixin, DjangoTypedField(c), DjangoField);
  }

  lemma MergeDecimalMixinFirstHead2(c: FieldClass)
    ensures !InSomeTail([[], [PGPMixin], [DjangoTypedField(c), DjangoField], [DjangoTypedField(c)]], PGPMixin)
    ensures StripHead([[], [PGPMixin], [DjangoTypedField(c), DjangoField], [DjangoTypedField(c)]], PGPMixin)
      == [[], [], [DjangoTypedField(c), DjangoField], [DjangoTypedField(c)]]
  {
  }

  lemma MergeDecimalMixinFirstStep2(c: FieldClass)
    ensures Merge([[], [PGPMixin], [DjangoTypedField(c), DjangoField], [DjangoTypedField(c)]])
      == Some([PGPMixin, DjangoTypedField(c), DjangoField])
  {
    var ls: seq<seq<PyClass>> := [[], [PGPMixin], [DjangoTypedField(c), DjangoField], [DjangoTypedField(c)]];
    MergeDecimalMixinFirstHead2(c);
    MergeDecimalMixinFirstStep3(c);
    assert ls[1][0] == PGPMixin;
    assert ls[0] == [];
    assert Merge(StripHead(ls, ls[1][0])) == Some([DjangoTypedField(c), DjangoField]);
    MergeStep(ls, 1, [DjangoTypedField(c), DjangoField]);
    Prepend2(PGPMixin, DjangoTypedField(c), DjangoField);
  }

  lemma MergeDecimalMixinFirstHead3(c: FieldClass)
    ensures !InSomeTail([[], [], [DjangoTypedField(c), DjangoField], [DjangoTypedField(c)]], DjangoTypedField(c))
    ensures StripHead([[], [], [DjangoTypedField(c), DjangoField], [DjangoTypedField(c)]], DjangoTypedField(c))
      == [[], [], [DjangoField], []]
  {
  }

  lemma MergeDecimalMixinFirstStep3(c: FieldClass)
    ensures Merge([[], [], [DjangoTypedField(c), DjangoField], [DjangoTypedField(c)]])
      == Some([DjangoTypedField(c), DjangoField])
  {
    var ls: seq<seq<PyClass>> := [[], [], [DjangoTypedField(c), DjangoField], [DjangoTypedField(c)]];
    MergeDecimalMixinFirstHead3(c);
    MergeDecimalMixinFirstStep4(c);
    assert ls[2][0] == DjangoTypedField(c);
    assert ls[0] == [];
    assert ls[1] == [];
    assert Merge(StripHead(ls, ls[2][0])) == Some([DjangoField]);
    MergeStep(ls, 2, [DjangoField]);
    Prepend1(DjangoTypedField(c), DjangoField);
  }

  lemma MergeDecimalMixinFirstHead4(c: FieldClass)
    ensures !InSomeTail([[], [], [DjangoField], []], DjangoField)
    ensures StripHead([[], [], [DjangoField], []], DjangoField)
      == [[], [], [], []]
  {
  }

  lemma MergeDecimalMixinFirstStep4(c: FieldClass)
    ensures Merge([[], [], [DjangoField], []])
      == Some([DjangoField])
  {
    var ls: seq<seq<PyClass>> := [[], [], [DjangoField], []];
    MergeDecimalMixinFirstHead4(c);
    MergeDone([[], [], [], []]);
    assert ls[2][0] == DjangoField;
    assert ls[0] == [];
    assert ls[1] == [];
    assert Merge(StripHead(ls, ls[2][0])) == Some([]);
    MergeStep(ls, 2, []);
    Prepend0(DjangoField);
  }

  /** The linearisations of the bases of a class that lists the symmetric-key mixin and a Django field. */
  lemma PlainFieldParents(c: FieldClass, bs: seq<PyClass>)
    requires bs == [PGPSymmetricKeyFieldMixin, DjangoTypedField(c)]
    ensures LineariseAll(bs, 2) == Some([[PGPSymmetricKeyFieldMixin, PGPMixin], [DjangoTypedField(c), DjangoField]])
    ensures [[PGPSymmetricKeyFieldMixin, PGPMixin], [DjangoTypedField(c), DjangoField]] + [bs]
      == [[PGPSymmetricKeyFieldMixin, PGPMixin], [DjangoTypedField(c), DjangoField], [PGPSymmetricKeyFieldMixin, DjangoTypedField(c)]]
  {
    LineariseSymmetricMixin();
    LineariseDjangoTyped(c);
    LineariseAllOf(bs, 2, [[PGPSymmetricKeyFieldMixin, PGPMixin], [DjangoTypedField(c), DjangoField]]);
  }

  /** C3 for a class whose bases are the symmetric-key mixin and a Django field. */
  lemma LinearisePlainField(c: FieldClass)
    requires Bases(Concrete(c)) == [PGPSymmetricKeyFieldMixin, DjangoTypedField(c)]
    ensures Linearise(Concrete(c))
      == Some([Concrete(c), PGPSymmetricKeyFieldMixin, PGPMixin, DjangoTypedField(c), DjangoField])
  {
    PlainFieldParents(c, Bases(Concrete(c)));
    MergePlainField(c);
    LineariseOf(Concrete(c), [[PGPSymmetricKeyFieldMixin, PGPMixin], [DjangoTypedField(c), DjangoField]],
      [[PGPSymmetricKeyFieldMixin, PGPMixin], [DjangoTypedField(c), DjangoField], [PGPSymmetricKeyFieldMixin, DjangoTypedField(c)]],
      [PGPSymmetricKeyFieldMixin, PGPMixin, DjangoTypedField(c), DjangoField]);
    Prepend4(Concrete(c), PGPSymmetricKeyFieldMixin, PGPMixin, DjangoTypedField(c), DjangoField);
  }

  /** The linearisations of the bases of a class that lists the decimal mixin first. */
  lemma DecimalMixinFirstParents(c: FieldClass, bs: seq<PyClass>)
    requires bs == [DecimalPGPFieldMixin, PGPSymmetricKeyFieldMixin, DjangoTypedField(c)]
    ensures LineariseAll(bs, 2)
      == Some([[DecimalPGPFieldMixin], [PGPSymmetricKeyFieldMixin, PGPMixin], [DjangoTypedField(c), DjangoField]])
    ensures [[DecimalPGPFieldMixin], [PGPSymmetricKeyFieldMixin, PGPMixin], [DjangoTypedField(c), DjangoField]] + [bs]
      == [[DecimalPGPFieldMixin], [PGPSymmetricKeyFieldMixin, PGPMixin], [DjangoTypedField(c), DjangoField],
          [DecimalPGPFieldMixin, PGPSymmetricKeyFieldMixin, DjangoTypedField(c)]]
  {
    LineariseRoot(DecimalPGPFieldMixin);
    assert bs[1..] == [PGPSymmetricKeyFieldMixin, DjangoTypedField(c)];
    PlainFieldParents(c, bs[1..]);
    Prepend2([DecimalPGPFieldMixin], [PGPSymmetricKeyFieldMixin, PGPMixin], [DjangoTypedField(c), DjangoField]);
  }

  /** C3 for a class whose bases are the decimal mixin, the symmetric-key mixin and a Django field. */
  lemma LineariseDecimalMixinFirst(c: FieldClass)
    requires Bases(Concrete(c)) == [DecimalPGPFieldMixin, PGPSymmetricKeyFieldMixin, DjangoTypedField(c)]
    ensures Linearise(Concrete(c)) == Some([Concrete(c), DecimalPGPFieldMixin, PGPSymmetricKeyFieldMixin,
                                            PGPMixin, DjangoTypedField(c), DjangoField])
  {
    DecimalMixinFirstParents(c, Bases(Concrete(c)));
    MergeDecimalMixinFirst(c);
    LineariseOf(Concrete(c), [[DecimalPGPFieldMixin], [PGPSymmetricKeyFieldMixin, PGPMixin], [DjangoTypedField(c), DjangoField]],
      [[DecimalPGPFieldMixin], [PGPSymmetricKeyFieldMixin, PGPMixin], [DjangoTypedField(c), DjangoField],
       [DecimalPGPFieldMixin, PGPSymmetricKeyFieldMixin, DjangoTypedField(c)]],
      [DecimalPGPFieldMixin, PGPSymmetricKeyFieldMixin, PGPMixin, DjangoTypedField(c), DjangoField]);
    Prepend5(Concrete(c), DecimalPGPFieldMixin, PGPSymmetricKeyFieldMixin, PGPMixin, DjangoTypedField(c), DjangoField);
  }

  /** The order listed for each field class is the one C3 computes from the class statements. */
  lemma MroIsC3(c: FieldClass)
    ensures Linearise(Concrete(c)) == Some(Mro(c))
  {
    if c == DecimalField {
      LineariseDecimalMixinFirst(c);
    } else {
      LinearisePlainField(c);
    }
  }

  /**
   * The method resolution order of each field class, written out; MroIsC3
   * shows it is the one Python's C3 algorithm derives from the class statements.
   */
  function Mro(c: FieldClass): (r: seq<PyClass>)
    ensures |r| > 0 && r[0] == Concrete(c) && r[|r| - 1] == DjangoField
  {
    if c == DecimalField then
      [Concrete(c), DecimalPGPFieldMixin, PGPSymmetricKeyFieldMixin, PGPMixin, DjangoTypedField(c), DjangoField]
    else
      [Concrete(c), PGPSymmetricKeyFieldMixin, PGPMixin, DjangoTypedField(c), DjangoField]
  }

  /** Every class of the hierarchy above k, k included. */
  function Ancestors(k: PyClass): set<PyClass>
  {
    match k
    case Concrete(c) => {k, PGPSymmetricKeyFieldMixin, PGPMixin, DjangoTypedField(c), DjangoField}
                        + (if c == DecimalField then {DecimalPGPFieldMixin} else {})
    case PGPSymmetricKeyFieldMixin => {k, PGPMixin}
    case DjangoTypedField(_) => {k, DjangoField}
    case _ => {k}
  }

  /** xs occurs in ys in the same order, possibly with other classes between. */
  predicate IsSubsequence(xs: seq<PyClass>, ys: seq<PyClass>)
    decreases |ys|
  {
    xs == [] || (ys != [] && IsSubsequence(if xs[0] == ys[0] then xs[1..] else xs, ys[1..]))
  }

  /** No class occurs twice. */
  predicate Distinct(s: seq<PyClass>)
  {
    forall i, j :: 0 <= i < j < |s| ==> s[i] != s[j]
  }

  /**
   * What any linearisation of the hierarchy must satisfy (C3's output among
   * others): the class comes first, each ancestor appears exactly once and
   * nothing else appears, and every class is followed by its bases in the
   * order its class statement lists them. It does not by itself fix the
   * order; Linearise does.
   */
  ghost predicate IsLinearisation(c: FieldClass, mro: seq<PyClass>)
  {
    && |mro| > 0 && mro[0] == Concrete(c)
    && Distinct(mro)
    && (forall k :: k in mro <==> k in Ancestors(Concrete(c)))
    && (forall i :: 0 <= i < |mro| ==> IsSubsequence(Bases(mro[i]), mro[i + 1..]))
  }

  /** Each field class's order satisfies the linearisation properties. */
  lemma MroIsLinearisation(c: FieldClass)
    ensures IsLinearisation(c, Mro(c))
  {
    MroIsDistinct(c);
    MroCoversAncestors(c);
    MroKeepsBaseOrder(c);
  }

  /** C3 succeeds on every field class (no TypeError) and yields a linearisation. */
  lemma LineariseIsLinearisation(c: FieldClass)
    ensures Linearise(Concrete(c)).Some?
    ensures IsLinearisation(c, Linearise(Concrete(c)).value)
  {
    MroIsC3(c);
    MroIsLinearisation(c);
  }

  lemma MroIsDistinct(c: FieldClass)
    ensures Distinct(Mro(c))
  {
  }

  lemma MroCoversAncestors(c: FieldClass)
    ensures forall k :: k in Mro(c) <==> k in Ancestors(Concrete(c))
  {
  }

  lemma MroKeepsBaseOrder(c: FieldClass)
    ensures forall i :: 0 <= i < |Mro(c)| ==> IsSubsequence(Bases(Mro(c)[i]), Mro(c)[i + 1..])
  {
    var mro := Mro(c);
    forall i | 0 <= i < |mro|
      ensures IsSubsequence(Bases(mro[i]), mro[i + 1..])
    {
      if i == 0 {
        assert IsSubsequence([DjangoTypedField(c)], [DjangoTypedField(c), DjangoField]);
      }
    }
  }

  /** Python's attribute lookup: the binding of the first class along the order that declares the attribute. */
  function Lookup(mro: seq<PyClass>, a: Attr): Option<Binding>
  {
    if mro == [] then None
    else if Declared(mro[0], a).Some? then Declared(mro[0], a)
    else Lookup(mro[1..], a)
  }

  /**
   * Lookup finds the declaration of the earliest declaring class, and none
   * when no class declares the attribute.
   */
  lemma {:induction false} LookupFindsFirst(mro: seq<PyClass>, a: Attr)
    ensures Lookup(mro, a).None? <==> forall i :: 0 <= i < |mro| ==> Declared(mro[i], a).None?
    ensures Lookup(mro, a).Some? ==>
      exists i :: 0 <= i < |mro| && Lookup(mro, a) == Declared(mro[i], a)
        && forall j :: 0 <= j < i ==> Declared(mro[j], a).None?
  {
    if mro != [] && Declared(mro[0], a).None? {
      LookupFindsFirst(mro[1..], a);
      if Lookup(mro, a).Some? {
        var i :| 0 <= i < |mro[1..]| && Lookup(mro[1..], a) == Declared(mro[1..][i], a)
          && forall j :: 0 <= j < i ==> Declared(mro[1..][j], a).None?;
        assert Lookup(mro, a) == Declared(mro[i + 1], a);
        forall j | 0 <= j < i + 1
          ensures Declared(mro[j], a).None?
        {
          if j > 0 {
            assert mro[j] == mro[1..][j - 1];
          }
        }
      } else {
        forall i | 0 <= i < |mro|
          ensures Declared(mro[i], a).None?
        {
          if i > 0 {
            assert mro[i] == mro[1..][i - 1];
          }
        }
      }
    }
  }

  /**
   * The first class along the order that declares the attribute decides it,
   * hiding whatever any later class declares.
   */
  lemma FirstDeclarationWins(mro: seq<PyClass>, a: Attr, i: nat)
    requires i < |mro| && Declared(mro[i], a).Some?
    requires forall k :: 0 <= k < i ==> Declared(mro[k], a).None?
    ensures Lookup(mro, a) == Declared(mro[i], a)
    ensures forall j :: i < j < |mro| && Declared(mro[j], a) != Declared(mro[i], a) ==>
      Lookup(mro, a) != Declared(mro[j], a)
  {
    LookupFindsFirst(mro, a);
  }

  /** Where the two mixins and PGPMixin sit in a field class's order. */
  function PositionOf(c: FieldClass, k: PyClass): (i: nat)
    requires k in {PGPSymmetricKeyFieldMixin, PGPMixin}
    ensures i < |Mro(c)| && Mro(c)[i] == k
    ensures forall j :: 0 <= j < i ==> Mro(c)[j] in {Concrete(c), DecimalPGPFieldMixin, PGPSymmetricKeyFieldMixin}
  {
    (if c == DecimalField then 1 else 0) + (if k == PGPSymmetricKeyFieldMixin then 1 else 2)
  }

  /** The attribute as a field object of class c sees it. */
  function Resolve(c: FieldClass, a: Attr): Option<Binding>
  {
    Lookup(Mro(c), a)
  }

  /** Which get_cast_sql a method owner stands for. */
  function CastImplOf(owner: PyClass): Option<CastImpl>
  {
    match owner
    case DecimalPGPFieldMixin => Some(FormatCastType)
    case PGPMixin => Some(ReturnCastType)
    case _ => None
  }

  /**
   * The descriptor of a field class, read off the attribute lookup: its
   * encrypt template, its cast_type and its get_cast_sql. None if any of them
   * is left unset (the None of PGPMixin).
   */
  function Describe(c: FieldClass): (r: Option<FieldAttrs>)
    ensures r.Some? ==> Resolve(c, EncryptSqlAttr) == Some(EncryptSqlIs(Some(r.value.encryptSql)))
    ensures r.Some? ==> Resolve(c, CastTypeAttr) == Some(CastTypeIs(Some(r.value.castType)))
    ensures r.Some? ==>
      (Resolve(c, GetCastSqlAttr).Some? && Resolve(c, GetCastSqlAttr).value.MethodOf?
       && CastImplOf(Resolve(c, GetCastSqlAttr).value.owner) == Some(r.value.getCastSql))
  {
    match (Resolve(c, EncryptSqlAttr), Resolve(c, CastTypeAttr), Resolve(c, GetCastSqlAttr))
    case (Some(EncryptSqlIs(Some(e))), Some(CastTypeIs(Some(t))), Some(MethodOf(owner))) =>
      (match CastImplOf(owner)
       case Some(impl) => Some(FieldAttrs(e, t, impl))
       case None => None)
    case _ => None
  }

  /**
   * The descriptor table as the field classes intend it: text-like fields
   * keep TEXT and the plain template; Integer, Date, DateTime, Float and Time
   * use the NULLIF template and their own cast; Decimal keeps the plain
   * template and formats NUMERIC(max_digits, decimal_places).
   */
  function SpecifiedAttrs(c: FieldClass): FieldAttrs
  {
    match c
    case EmailField => FieldAttrs(PgpSymEncryptSql, CastLiteral("TEXT"), ReturnCastType)
    case TextField => FieldAttrs(PgpSymEncryptSql, CastLiteral("TEXT"), ReturnCastType)
    case CharField => FieldAttrs(PgpSymEncryptSql, CastLiteral("TEXT"), ReturnCastType)
    case IntegerField => FieldAttrs(PgpSymEncryptSqlWithNullif, CastLiteral("INT4"), ReturnCastType)
    case DateField => FieldAttrs(PgpSymEncryptSqlWithNullif, CastLiteral("DATE"), ReturnCastType)
    case DateTimeField => FieldAttrs(PgpSymEncryptSqlWithNullif, CastLiteral("TIMESTAMP"), ReturnCastType)
    case FloatField => FieldAttrs(PgpSymEncryptSqlWithNullif, CastLiteral("DOUBLE PRECISION"), ReturnCastType)
    case TimeField => FieldAttrs(PgpSymEncryptSqlWithNullif, CastLiteral("TIME"), ReturnCastType)
    case DecimalField => FieldAttrs(PgpSymEncryptSql, NumericCastPattern, FormatCastType)
  }

  /** Attribute lookup yields exactly the intended descriptor for every field class. */
  lemma DescribeMatchesTable(c: FieldClass)
    ensures Describe(c) == Some(SpecifiedAttrs(c))
  {
    ResolvedEncryptSql(c);
    ResolvedCastType(c);
    ResolvedGetCastSql(c);
  }

  /** encrypt_sql: the class's own override, else the symmetric-key mixin's plain template. */
  lemma ResolvedEncryptSql(c: FieldClass)
    ensures Resolve(c, EncryptSqlAttr) == Some(EncryptSqlIs(Some(SpecifiedAttrs(c).encryptSql)))
  {
    var i := if Declared(Concrete(c), EncryptSqlAttr).Some? then 0 else PositionOf(c, PGPSymmetricKeyFieldMixin);
    FirstDeclarationWins(Mro(c), EncryptSqlAttr, i);
  }

  /** cast_type: the class's own override, else the decimal mixin's pattern, else TEXT. */
  lemma ResolvedCastType(c: FieldClass)
    ensures Resolve(c, CastTypeAttr) == Some(CastTypeIs(Some(SpecifiedAttrs(c).castType)))
  {
    var i := if Declared(Concrete(c), CastTypeAttr).Some? then 0
      else if c == DecimalField then 1
      else PositionOf(c, PGPSymmetricKeyFieldMixin);
    FirstDeclarationWins(Mro(c), CastTypeAttr, i);
  }

  /** get_cast_sql: the decimal mixin's for decimals, PGPMixin's otherwise. */
  lemma ResolvedGetCastSql(c: FieldClass)
    ensures Resolve(c, GetCastSqlAttr).Some? && Resolve(c, GetCastSqlAttr).value.MethodOf?
    ensures CastImplOf(Resolve(c, GetCastSqlAttr).value.owner) == Some(SpecifiedAttrs(c).getCastSql)
  {
    var i := if c == DecimalField then 1 else PositionOf(c, PGPMixin);
    FirstDeclarationWins(Mro(c), GetCastSqlAttr, i);
  }

  /** Every field class stores bytea: db_type resolves to PGPMixin's, ahead of Django's Field. */
  lemma DbTypeIsPGPMixins(c: FieldClass)
    ensures Resolve(c, DbTypeAttr) == Some(MethodOf(PGPMixin))
  {
    FirstDeclarationWins(Mro(c), DbTypeAttr, PositionOf(c, PGPMixin));
  }

  /**
   * pre_save, get_placeholder and get_decrypt_sql resolve to the symmetric-key
   * mixin, ahead of PGPMixin's raising stubs and Django's own pre_save.
   */
  lemma SymmetricMixinMethodsWin(c: FieldClass)
    ensures Resolve(c, PreSaveAttr) == Some(MethodOf(PGPSymmetricKeyFieldMixin))
    ensures Resolve(c, GetPlaceholderAttr) == Some(MethodOf(PGPSymmetricKeyFieldMixin))
    ensures Resolve(c, GetDecryptSqlAttr) == Some(MethodOf(PGPSymmetricKeyFieldMixin))
    ensures Resolve(c, DecryptSqlAttr) == Some(DecryptSqlIs(true))
  {
    var i := PositionOf(c, PGPSymmetricKeyFieldMixin);
    FirstDeclarationWins(Mro(c), PreSaveAttr, i);
    FirstDeclarationWins(Mro(c), GetPlaceholderAttr, i);
    FirstDeclarationWins(Mro(c), GetDecryptSqlAttr, i);
    FirstDeclarationWins(Mro(c), DecryptSqlAttr, i);
  }

  /** get_col (and with it cached_col) is PGPMixin's, ahead of Django's Field.get_col. */
  lemma GetColIsPGPMixins(c: FieldClass)
    ensures Resolve(c, GetColAttr) == Some(MethodOf(PGPMixin))
  {
    FirstDeclarationWins(Mro(c), GetColAttr, PositionOf(c, PGPMixin));
  }

  /**
   * Because DecimalPGPFieldMixin is listed first, its cast_type and
   * get_cast_sql hide the mixin's TEXT and PGPMixin's get_cast_sql, while
   * encrypt_sql still comes from the symmetric-key mixin.
   */
  lemma {:induction false} DecimalMixinTakesPrecedence()
    ensures Resolve(DecimalField, CastTypeAttr) != Declared(PGPSymmetricKeyFieldMixin, CastTypeAttr)
    ensures Resolve(DecimalField, GetCastSqlAttr) != Declared(PGPMixin, GetCastSqlAttr)
    ensures Resolve(DecimalField, EncryptSqlAttr) == Declared(PGPSymmetricKeyFieldMixin, EncryptSqlAttr)
  {
    var mro := Mro(DecimalField);
    FirstDeclarationWins(mro, CastTypeAttr, 1);
    FirstDeclarationWins(mro, GetCastSqlAttr, 1);
    FirstDeclarationWins(mro, EncryptSqlAttr, 2);
  }

  /**
   * The field object of a class, with its model's table and (for decimals)
   * max_digits and decimal_places; other classes take no decimal parameters.
   */
  method NewField(c: FieldClass, templates: SqlTemplates, dbTable: string, maxDigits: Option<nat>, decimalPlaces: Option<nat>)
    returns (f: PGPSymmetricKeyField)
    ensures fresh(f) && f.Valid()
    ensures f.attrs == SpecifiedAttrs(c) && f.templates == templates && f.dbTable == dbTable
    ensures f.maxDigits == (if c == DecimalField then maxDigits else None)
    ensures f.decimalPlaces == (if c == DecimalField then decimalPlaces else None)
    ensures f.key == None && f.cachedCol == null
  {
    DescribeMatchesTable(c);
    var attrs := Describe(c).value;
    if c == DecimalField {
      f := new PGPSymmetricKeyField(attrs, templates, dbTable, maxDigits, decimalPlaces);
    } else {
      f := new PGPSymmetricKeyField(attrs, templates, dbTable, None, None);
    }
  }

  /** The cast each field class puts into the decrypt SQL. */
  lemma CastSqlOfEachClass(c: FieldClass, maxDigits: Option<nat>, decimalPlaces: Option<nat>)
    ensures var a := SpecifiedAttrs(c);
      var cast := CastSql(a.castType, a.getCastSql, maxDigits, decimalPlaces);
      && (c in {EmailField, TextField, CharField} ==> cast == "TEXT")
      && (c == IntegerField ==> cast == "INT4")
      && (c == DateField ==> cast == "DATE")
      && (c == DateTimeField ==> cast == "TIMESTAMP")
      && (c == FloatField ==> cast == "DOUBLE PRECISION")
      && (c == TimeField ==> cast == "TIME")
      && (c == DecimalField ==> ParseNumericCast(cast) == Some((maxDigits, decimalPlaces)))
  {
    if c == DecimalField {
      NumericCastRoundTrip(maxDigits, decimalPlaces);
    }
  }

  /** The test model's DecimalPGPSymmetricKeyField(max_digits=8, decimal_places=2) decrypts with NUMERIC(8, 2). */
  lemma DecimalTestModelCast()
    ensures var a := SpecifiedAttrs(DecimalField);
      CastSql(a.castType, a.getCastSql, Some(8), Some(2)) == "NUMERIC(8, 2)"
  {
    DecimalCastExample();
  }
}
