/**
  The constraint taxonomy of therme/optim/constraints.py.

  Each constraint class is a constructor of `ConstraintKind`. The file declares
  twelve classes on top of two external bases, `GenericConstraint` and
  `ReactionConstraint`; those two are kinds here too, so that the inheritance
  chain can be walked to its root. Class attributes (`prefix`) become functions
  of the kind, Python's attribute lookup along the inheritance chain becomes
  `Prefix`, and the `id`/`model` properties of gene- and enzyme-scoped
  constraints become `Id`/`ModelOf`, which read through the owning record.
*/
module Constraints {
  import opened Wrappers

  datatype ConstraintKind =
    | GenericConstraint      // external base (pytfa)
    | ReactionConstraint     // external base (pytfa)
    | CatalyticConstraint
    | ModelConstraint
    | GeneConstraint
    | EnzymeConstraint
    | MassBalance
    | TranslationConstraint
    | GrowthCoupling
    | TotalCapacity
    | ExpressionCoupling
    | RibosomeRatio
    | GrowthChoice
    | LinearizationConstraint

  /** Distance from the root `GenericConstraint` along the inheritance chain. */
  function Depth(k: ConstraintKind): nat {
    match k
    case GenericConstraint => 0
    case ReactionConstraint | ModelConstraint | GeneConstraint | EnzymeConstraint => 1
    case TotalCapacity => 3
    case _ => 2
  }

  /** The single base class each class is declared with. */
  function Parent(k: ConstraintKind): (p: Option<ConstraintKind>)
    ensures p.None? <==> k == GenericConstraint
    ensures p.Some? ==> Depth(p.value) + 1 == Depth(k)
  {
    match k
    case GenericConstraint => None
    case ReactionConstraint => Some(GenericConstraint)
    case CatalyticConstraint => Some(ReactionConstraint)
    case ModelConstraint => Some(GenericConstraint)
    case GeneConstraint => Some(GenericConstraint)
    case EnzymeConstraint => Some(GenericConstraint)
    case MassBalance => Some(EnzymeConstraint)
    case TranslationConstraint => Some(ReactionConstraint)
    case GrowthCoupling => Some(ReactionConstraint)
    case TotalCapacity => Some(CatalyticConstraint)
    case ExpressionCoupling => Some(GeneConstraint)
    case RibosomeRatio => Some(ModelConstraint)
    case GrowthChoice => Some(ModelConstraint)
    case LinearizationConstraint => Some(ModelConstraint)
  }

  /**
    `issubclass(k, a)`: `a` is `k` or lies on `k`'s inheritance chain. A
    superclass is never deeper than its subclass, and at the same depth the
    two are one class.
  */
  predicate IsA(k: ConstraintKind, a: ConstraintKind)
    ensures IsA(k, a) ==> Depth(a) <= Depth(k)
    ensures IsA(k, a) && Depth(a) == Depth(k) ==> k == a
    decreases Depth(k)
  {
    k == a || (Parent(k).Some? && IsA(Parent(k).value, a))
  }

  /** The class's `__name__`. */
  function KindName(k: ConstraintKind): string {
    match k
    case GenericConstraint => "GenericConstraint"
    case ReactionConstraint => "ReactionConstraint"
    case CatalyticConstraint => "CatalyticConstraint"
    case ModelConstraint => "ModelConstraint"
    case GeneConstraint => "GeneConstraint"
    case EnzymeConstraint => "EnzymeConstraint"
    case MassBalance => "MassBalance"
    case TranslationConstraint => "TranslationConstraint"
    case GrowthCoupling => "GrowthCoupling"
    case TotalCapacity => "TotalCapacity"
    case ExpressionCoupling => "ExpressionCoupling"
    case RibosomeRatio => "RibosomeRatio"
    case GrowthChoice => "GrowthChoice"
    case LinearizationConstraint => "LinearizationConstraint"
  }

  /**
    The `prefix` a class declares in its own body, if any: every class of the
    file except the scoped bases declares a non-empty one.
  */
  function DeclaredPrefix(k: ConstraintKind): (p: Option<string>)
    ensures p.None? <==> k in {GenericConstraint, ReactionConstraint, ModelConstraint, GeneConstraint, EnzymeConstraint}
    ensures p.Some? ==> |p.value| > 0
  {
    match k
    case CatalyticConstraint => Some("EC_")
    case MassBalance => Some("MB_")
    case TranslationConstraint => Some("TR_")
    case GrowthCoupling => Some("GC_")
    case TotalCapacity => Some("TC_")
    case ExpressionCoupling => Some("EX")
    case RibosomeRatio => Some("RR_")
    case GrowthChoice => Some("GR_")
    case LinearizationConstraint => Some("LC_")
    case _ => None
  }

  /**
    The class attribute `prefix` as Python resolves it: the nearest declaration
    on the inheritance chain; `basePrefix` stands for whatever the external
    `GenericConstraint` provides.
  */
  function Prefix(k: ConstraintKind, basePrefix: string): (p: string)
    ensures DeclaredPrefix(k).Some? ==> p == DeclaredPrefix(k).value
    ensures (forall a :: IsA(k, a) ==> DeclaredPrefix(a).None?) ==> p == basePrefix
    ensures (exists a :: IsA(k, a) && DeclaredPrefix(a).Some?) ==>
      exists a :: IsA(k, a) && DeclaredPrefix(a) == Some(p) && NothingDeclaredBetween(k, a)
    decreases Depth(k)
  {
    match DeclaredPrefix(k)
    case Some(p) => p
    case None => if Parent(k).None? then basePrefix else Prefix(Parent(k).value, basePrefix)
  }

  /** No class strictly between `k` and its superclass `a` declares a prefix. */
  predicate NothingDeclaredBetween(k: ConstraintKind, a: ConstraintKind) {
    forall c :: IsA(k, c) && IsA(c, a) && c != a ==> DeclaredPrefix(c).None?
  }

  /** The four scoped bases a constraint can be attached through. */
  datatype Scope = GenericScope | ReactionScope | ModelScope | GeneScope | EnzymeScope

  /** The scoped base nearest to `k` on its inheritance chain. */
  function ScopeOf(k: ConstraintKind): Scope
    decreases Depth(k)
  {
    match k
    case GenericConstraint => GenericScope
    case ReactionConstraint => ReactionScope
    case ModelConstraint => ModelScope
    case GeneConstraint => GeneScope
    case EnzymeConstraint => EnzymeScope
    case _ => ScopeOf(Parent(k).value)
  }

  // ---------------------------------------------------------------------------
  // Properties of the hierarchy

  lemma {:induction false} IsATransitive(a: ConstraintKind, b: ConstraintKind, c: ConstraintKind)
    requires IsA(a, b) && IsA(b, c)
    ensures IsA(a, c)
    decreases Depth(a)
  {
    if a != b {
      IsATransitive(Parent(a).value, b, c);
    }
  }

  /** Subclassing is a partial order: no two distinct classes are subclasses of each other. */
  lemma IsAAntisymmetric(a: ConstraintKind, b: ConstraintKind)
    requires IsA(a, b) && IsA(b, a)
    ensures a == b
  {
  }

  /** Every class of the file derives from `GenericConstraint`. */
  lemma {:induction false} EveryKindIsAGeneric(k: ConstraintKind)
    ensures IsA(k, GenericConstraint)
    decreases Depth(k)
  {
    if k != GenericConstraint {
      EveryKindIsAGeneric(Parent(k).value);
    }
  }

  /** The inheritance chain declared by the file. */
  lemma Hierarchy()
    ensures IsA(MassBalance, EnzymeConstraint)
    ensures IsA(ExpressionCoupling, GeneConstraint)
    ensures IsA(RibosomeRatio, ModelConstraint)
    ensures IsA(GrowthChoice, ModelConstraint)
    ensures IsA(LinearizationConstraint, ModelConstraint)
    ensures IsA(TotalCapacity, CatalyticConstraint) && IsA(CatalyticConstraint, ReactionConstraint)
    ensures IsA(TranslationConstraint, ReactionConstraint) && IsA(GrowthCoupling, ReactionConstraint)
  {
    assert Parent(MassBalance) == Some(EnzymeConstraint) && Parent(ExpressionCoupling) == Some(GeneConstraint);
    assert Parent(RibosomeRatio) == Parent(GrowthChoice) == Parent(LinearizationConstraint) == Some(ModelConstraint);
    assert Parent(TotalCapacity) == Some(CatalyticConstraint);
    assert Parent(CatalyticConstraint) == Parent(TranslationConstraint) == Parent(GrowthCoupling) == Some(ReactionConstraint);
  }

  /** The chain separates the scopes: an enzyme kind is no gene kind and a parent is not its own child. */
  lemma HierarchySeparates()
    ensures !IsA(MassBalance, GeneConstraint) && !IsA(ExpressionCoupling, EnzymeConstraint)
    ensures !IsA(CatalyticConstraint, TotalCapacity)
  {
  }

  /** The scope a kind is attached through is exactly the scoped base it derives from. */
  lemma {:induction false} ScopeOfIsA(k: ConstraintKind)
    ensures ScopeOf(k) == ReactionScope <==> IsA(k, ReactionConstraint)
    ensures ScopeOf(k) == ModelScope <==> IsA(k, ModelConstraint)
    ensures ScopeOf(k) == GeneScope <==> IsA(k, GeneConstraint)
    ensures ScopeOf(k) == EnzymeScope <==> IsA(k, EnzymeConstraint)
    ensures ScopeOf(k) == GenericScope <==> k == GenericConstraint
    decreases Depth(k)
  {
    if Depth(k) > 1 {
      ScopeOfIsA(Parent(k).value);
    }
  }

  // ---------------------------------------------------------------------------
  // Properties of the prefixes

  /**
    A class that declares a prefix has that prefix whatever the external base
    says; it is never empty, and only `ExpressionCoupling`'s ('EX') lacks the
    trailing underscore.
  */
  lemma DeclaredPrefixIsFixed(k: ConstraintKind, basePrefix: string)
    requires DeclaredPrefix(k).Some?
    ensures Prefix(k, basePrefix) == DeclaredPrefix(k).value
    ensures |Prefix(k, basePrefix)| > 0
    ensures var p := Prefix(k, basePrefix); p[|p| - 1] == '_' <==> k != ExpressionCoupling
  {
  }

  /** The classes that declare no prefix inherit the external base's own. */
  lemma {:induction false} UndeclaredPrefixIsInherited(k: ConstraintKind, basePrefix: string)
    requires k in {GenericConstraint, ReactionConstraint, ModelConstraint, GeneConstraint, EnzymeConstraint}
    ensures Prefix(k, basePrefix) == basePrefix
  {
    if k != GenericConstraint {
      assert Parent(k) == Some(GenericConstraint);
    }
  }

  /** A subclass's prefix overrides its parent's: `TotalCapacity` is a `CatalyticConstraint` but is named 'TC_'. */
  lemma TotalCapacityOverridesCatalytic(basePrefix: string)
    ensures IsA(TotalCapacity, CatalyticConstraint)
    ensures Prefix(TotalCapacity, basePrefix) == "TC_"
    ensures Prefix(CatalyticConstraint, basePrefix) == "EC_"
  {
  }

  /** Class names are distinct, so a name identifies its kind. */
  lemma KindNameInjective(a: ConstraintKind, b: ConstraintKind)
    requires KindName(a) == KindName(b)
    ensures a == b
  {
  }

  // ---------------------------------------------------------------------------
  // Constraint objects

  datatype ModelRef = ModelRef(name: string)
  datatype Gene = Gene(id: string, model: ModelRef)
  datatype Enzyme = Enzyme(id: string, model: ModelRef)

  /** A linear expression, as its coefficient for each variable name. */
  type Expr = map<string, real>

  /** The three keyword arguments this file passes on to the base (`name`, `lb`, `ub`).
    * Any other keyword, and one colliding with `model`, `expr` or `id_`, is not modelled. */
  datatype Kwargs = Kwargs(name: Option<string>, lb: Option<real>, ub: Option<real>)

  /** The arguments a constructor hands to `GenericConstraint.__init__`. */
  datatype BaseInit = BaseInit(id_: string, expr: Expr, model: ModelRef, kwargs: Kwargs)

  /** What a constraint object itself holds on to besides the base's state. */
  datatype Owner = OwnedByModel | OwnedByGene(gene: Gene) | OwnedByEnzyme(enzyme: Enzyme)

  datatype Constraint = Constraint(kind: ConstraintKind, owner: Owner, base: BaseInit)

  /**
    The `id` property: a constraint of any class derived from `GeneConstraint`
    or `EnzymeConstraint` reports its owner's id, any other the `id_` its base
    was given.
  */
  function Id(c: Constraint): (id: string)
    ensures WellScoped(c) && IsA(c.kind, GeneConstraint) ==> c.owner.OwnedByGene? && id == c.owner.gene.id
    ensures WellScoped(c) && IsA(c.kind, EnzymeConstraint) ==> c.owner.OwnedByEnzyme? && id == c.owner.enzyme.id
    ensures WellScoped(c) && IsA(c.kind, ModelConstraint) ==> id == c.base.id_
  {
    ScopeOfIsA(c.kind);
    match c.owner
    case OwnedByGene(g) => g.id
    case OwnedByEnzyme(e) => e.id
    case OwnedByModel => c.base.id_
  }

  /** The `model` property, resolved like `Id`: through the gene or enzyme when there is one. */
  function ModelOf(c: Constraint): (m: ModelRef)
    ensures WellScoped(c) && IsA(c.kind, GeneConstraint) ==> c.owner.OwnedByGene? && m == c.owner.gene.model
    ensures WellScoped(c) && IsA(c.kind, EnzymeConstraint) ==> c.owner.OwnedByEnzyme? && m == c.owner.enzyme.model
    ensures WellScoped(c) && IsA(c.kind, ModelConstraint) ==> m == c.base.model
  {
    ScopeOfIsA(c.kind);
    match c.owner
    case OwnedByGene(g) => g.model
    case OwnedByEnzyme(e) => e.model
    case OwnedByModel => c.base.model
  }

  /** The owner a constraint holds matches the scoped base its kind derives from. */
  predicate WellScoped(c: Constraint) {
    match c.owner
    case OwnedByModel => ScopeOf(c.kind) == ModelScope
    case OwnedByGene(_) => ScopeOf(c.kind) == GeneScope
    case OwnedByEnzyme(_) => ScopeOf(c.kind) == EnzymeScope
  }

  /**
    The arguments of a call `ModelConstraint(model, expr, id_, **kwargs)`:
    `None` for a required parameter the caller did not supply.
  */
  datatype ModelArgs = ModelArgs(model: Option<ModelRef>, expr: Option<Expr>, id_: Option<string>, kwargs: Kwargs)

  /** Python's binding failure: the names of the required parameters not supplied, in order. */
  datatype InitError = MissingArguments(names: seq<string>)

  function MissingModelArgs(args: ModelArgs): seq<string> {
    (if args.model.None? then ["model"] else [])
    + (if args.expr.None? then ["expr"] else [])
    + (if args.id_.None? then ["id_"] else [])
  }

  /**
    `ModelConstraint.__init__` (inherited by every model-scoped class): binds
    its three required parameters and forwards them, with the keyword
    arguments, to the base unchanged.
  */
  function NewModelConstraint(kind: ConstraintKind, args: ModelArgs): (r: Result<Constraint, InitError>)
    requires IsA(kind, ModelConstraint)
    ensures r.Success? <==> args.model.Some? && args.expr.Some? && args.id_.Some?
    ensures r.Failure? ==> |r.error.names| > 0 && r.error == MissingArguments(MissingModelArgs(args))
    ensures r.Success? ==>
      && r.value.kind == kind && WellScoped(r.value)
      && r.value.base == BaseInit(args.id_.value, args.expr.value, args.model.value, args.kwargs)
      && Id(r.value) == args.id_.value && ModelOf(r.value) == args.model.value
  {
    ScopeOfIsA(kind);
    if args.model.None? || args.expr.None? || args.id_.None? then
      Failure(MissingArguments(MissingModelArgs(args)))
    else
      Success(Constraint(kind, OwnedByModel, BaseInit(args.id_.value, args.expr.value, args.model.value, args.kwargs)))
  }

  /**
    `GeneConstraint.__init__` (inherited by `ExpressionCoupling`): keeps the gene
    and hands the gene's own id and model to the base.
  */
  function NewGeneConstraint(kind: ConstraintKind, gene: Gene, expr: Expr, kwargs: Kwargs): (c: Constraint)
    requires IsA(kind, GeneConstraint)
    ensures c.kind == kind && WellScoped(c)
    ensures Id(c) == gene.id && c.base.id_ == gene.id
    ensures ModelOf(c) == gene.model && c.base.model == gene.model
    ensures c.base.expr == expr && c.base.kwargs == kwargs
  {
    ScopeOfIsA(kind);
    Constraint(kind, OwnedByGene(gene), BaseInit(gene.id, expr, gene.model, kwargs))
  }

  /**
    `EnzymeConstraint.__init__` (inherited by `MassBalance`): keeps the enzyme
    and hands the enzyme's own id and model to the base.
  */
  function NewEnzymeConstraint(kind: ConstraintKind, enzyme: Enzyme, expr: Expr, kwargs: Kwargs): (c: Constraint)
    requires IsA(kind, EnzymeConstraint)
    ensures c.kind == kind && WellScoped(c)
    ensures Id(c) == enzyme.id && c.base.id_ == enzyme.id
    ensures ModelOf(c) == enzyme.model && c.base.model == enzyme.model
    ensures c.base.expr == expr && c.base.kwargs == kwargs
  {
    ScopeOfIsA(kind);
    Constraint(kind, OwnedByEnzyme(enzyme), BaseInit(enzyme.id, expr, enzyme.model, kwargs))
  }

  /**
    `id` and `model` are read through the owner, not stored: when the gene or
    enzyme a constraint refers to later carries another id or model, the
    constraint reports the new ones, while the arguments once handed to the
    base stay what they were.
  */
  lemma OwnerPropertiesAreDerived(c: Constraint, gene: Gene, enzyme: Enzyme)
    ensures c.owner.OwnedByGene? ==>
      var d := c.(owner := OwnedByGene(gene));
      Id(d) == gene.id && ModelOf(d) == gene.model && d.base == c.base
    ensures c.owner.OwnedByEnzyme? ==>
      var d := c.(owner := OwnedByEnzyme(enzyme));
      Id(d) == enzyme.id && ModelOf(d) == enzyme.model && d.base == c.base
  {
  }

  /** The attributes `from_constraints` reads from the constraint it clones. */
  datatype ConstraintView = ConstraintView(id: string, name: string, expr: Expr, lb: Option<real>, ub: Option<real>, model: ModelRef)

  /**
    `LinearizationConstraint.from_constraints` as written: it passes `name`,
    `expr`, `model`, `ub` and `lb`, but not the `id_` that the inherited
    `ModelConstraint.__init__` requires.
  */
  function FromConstraintsAsWritten(cons: ConstraintView, model: ModelRef): (r: Result<Constraint, InitError>)
    ensures r.Failure? && r.error.names == ["id_"]
  {
    assert IsA(LinearizationConstraint, ModelConstraint);
    assert MissingModelArgs(ModelArgs(Some(model), Some(cons.expr), None, Kwargs(Some(cons.name), cons.lb, cons.ub))) == ["id_"];
    NewModelConstraint(LinearizationConstraint,
      ModelArgs(Some(model), Some(cons.expr), None, Kwargs(Some(cons.name), cons.lb, cons.ub)))
  }

  /** The discrepancy: on every input the call as written fails where the corrected one succeeds. */
  lemma FromConstraintsAsWrittenAlwaysFails(cons: ConstraintView, model: ModelRef)
    ensures FromConstraintsAsWritten(cons, model) == Failure(MissingArguments(["id_"]))
    ensures FromConstraints(cons, model).Success?
  {
  }

  /**
    `from_constraints` with `id_=cons.id` supplied: a `LinearizationConstraint`
    of the target model with the source's name, expression and bounds.
  */
  function FromConstraints(cons: ConstraintView, model: ModelRef): (r: Result<Constraint, InitError>)
    ensures r.Success?
    ensures r.value.kind == LinearizationConstraint && WellScoped(r.value)
    ensures r.value.base.kwargs == Kwargs(Some(cons.name), cons.lb, cons.ub)
    ensures r.value.base.expr == cons.expr
    ensures ModelOf(r.value) == model && Id(r.value) == cons.id
    ensures forall b: string :: Prefix(r.value.kind, b) == "LC_"
  {
    assert IsA(LinearizationConstraint, ModelConstraint);
    NewModelConstraint(LinearizationConstraint,
      ModelArgs(Some(model), Some(cons.expr), Some(cons.id), Kwargs(Some(cons.name), cons.lb, cons.ub)))
  }

  /** The clone's model is the target model, whatever model the source constraint belonged to. */
  lemma FromConstraintsIgnoresSourceModel(cons: ConstraintView, model: ModelRef, other: ModelRef)
    ensures FromConstraints(cons.(model := other), model) == FromConstraints(cons, model)
  {
  }
}
