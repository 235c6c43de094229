/**
  The optimisation utilities of etfl/optim/utils.py, over an abstract model.

  The solver is hidden: a model is its variables (name, class name, bounds),
  its linear constraints (name, class name, bounds, coefficient of each
  variable), its last solution (`solution.raw`, a value per variable name),
  the biomass reaction's bounds and flux, and its growth bins. Variables and
  constraints are sequences because the framework's registries keep their
  insertion order. Calls into the framework (`get_all_subclasses`,
  `add_constraint`, `add_variable`, `remove_constraint`, `remove_variable`,
  `copy`) are parameters, returned requests, or plain updates of that state.
*/
module OptimUtils {
  import opened Wrappers

  // ===========================================================================
  // Subclass dictionaries

  /** A Python class: its `__name__` and the module that defines it. */
  datatype Class = Class(name: string, moduleName: string)

  /** `get_all_subclasses` (pytfa): every transitive subclass of a class, in the order it lists them. */
  type SubclassOracle = Class -> seq<Class>

  /** The dict comprehension `{x.__name__: x for x in xs}`, one entry per class in order. */
  function NameIndex(xs: seq<Class>): (r: map<string, Class>)
    ensures xs != [] ==> xs[|xs| - 1].name in r && r[xs[|xs| - 1].name] == xs[|xs| - 1]
  {
    if xs == [] then map[] else NameIndex(xs[..|xs| - 1])[xs[|xs| - 1].name := xs[|xs| - 1]]
  }

  /** The keys are exactly the names of `xs`, each under a class of `xs` that carries it. */
  lemma {:induction false} NameIndexDomain(xs: seq<Class>)
    ensures forall x :: x in xs ==> x.name in NameIndex(xs)
    ensures forall n :: n in NameIndex(xs) ==> NameIndex(xs)[n] in xs && NameIndex(xs)[n].name == n
  {
    if xs != [] {
      var init, last := xs[..|xs| - 1], xs[|xs| - 1];
      NameIndexDomain(init);
      assert xs == init + [last];
    }
  }

  /** No class after position `i` shares its name. */
  predicate LastWithName(xs: seq<Class>, i: int)
    requires 0 <= i < |xs|
  {
    forall j :: i < j < |xs| ==> xs[j].name != xs[i].name
  }

  /** Of two classes sharing a name, the later one stays: each name maps to the last class of `xs` carrying it. */
  lemma {:induction false} NameIndexLastWins(xs: seq<Class>)
    ensures forall i :: 0 <= i < |xs| && LastWithName(xs, i) ==>
      xs[i].name in NameIndex(xs) && NameIndex(xs)[xs[i].name] == xs[i]
  {
    if xs != [] {
      var init, last := xs[..|xs| - 1], xs[|xs| - 1];
      NameIndexLastWins(init);
      forall i | 0 <= i < |xs| && LastWithName(xs, i)
        ensures xs[i].name in NameIndex(xs) && NameIndex(xs)[xs[i].name] == xs[i]
      {
        if i < |init| {
          assert xs[i] == init[i] && xs[i].name != last.name;
          assert LastWithName(init, i);
        }
      }
    }
  }

  /**
    `make_subclasses_dict(cls)`: every subclass under its name, and `cls` itself
    under its own name, which no subclass can displace.
  */
  function MakeSubclassesDict(cls: Class, subclasses: seq<Class>): (d: map<string, Class>)
    ensures cls.name in d && d[cls.name] == cls
    ensures forall n :: n in d ==> d[n].name == n && (d[n] == cls || d[n] in subclasses)
    ensures forall i :: 0 <= i < |subclasses| ==> subclasses[i].name in d
    ensures forall i :: 0 <= i < |subclasses| && subclasses[i].name != cls.name && LastWithName(subclasses, i) ==>
      d[subclasses[i].name] == subclasses[i]
  {
    NameIndexDomain(subclasses);
    NameIndexLastWins(subclasses);
    NameIndex(subclasses)[cls.name := cls]
  }

  /** `SubclassIndexer`: a dictionary cache that `__getitem__` no longer consults. */
  class SubclassIndexer {
    var cache: map<Class, map<string, Class>>

    constructor ()
      ensures cache == map[]
    {
      cache := map[];
    }

    /** `__getitem__`: recomputes the dictionary on every call and leaves the cache alone. */
    method Get(classtype: Class, allSubclasses: SubclassOracle) returns (d: map<string, Class>)
      ensures d == MakeSubclassesDict(classtype, allSubclasses(classtype))
      ensures classtype.name in d && d[classtype.name] == classtype
    {
      d := MakeSubclassesDict(classtype, allSubclasses(classtype));
    }

    /** `purge`: empties the cache. */
    method Purge()
      modifies this
      ensures cache == map[]
    {
      cache := map[];
    }

    /** The loop of `refresh`: recomputes the dictionary of every class in the cache. */
    method RecomputeEntries(allSubclasses: SubclassOracle)
      modifies this
      ensures cache.Keys == old(cache.Keys)
      ensures forall c :: c in cache ==> cache[c] == MakeSubclassesDict(c, allSubclasses(c))
    {
      var todo := cache.Keys;
      while todo != {}
        invariant todo <= cache.Keys && cache.Keys == old(cache.Keys)
        invariant forall c :: c in cache && c !in todo ==> cache[c] == MakeSubclassesDict(c, allSubclasses(c))
        decreases todo
      {
        var c :| c in todo;
        cache := cache[c := MakeSubclassesDict(c, allSubclasses(c))];
        todo := todo - {c};
      }
    }

    /** `refresh`: purges first, so the loop that follows finds nothing to recompute. */
    method Refresh(allSubclasses: SubclassOracle)
      modifies this
      ensures cache == map[]
    {
      Purge();
      RecomputeEntries(allSubclasses);
    }
  }

  // ===========================================================================
  // Rebuilding variables and constraints from a class name

  /** The five families `rebuild_variable` and `rebuild_constraint` recognise. */
  datatype Family = ReactionFamily | MetaboliteFamily | EnzymeFamily | GeneFamily | ModelFamily

  /** Position of a family in the order the `if`/`elif` chains test them. */
  function Rank(f: Family): nat {
    match f
    case ReactionFamily => 0
    case MetaboliteFamily => 1
    case EnzymeFamily => 2
    case GeneFamily => 3
    case ModelFamily => 4
  }

  /** The base class of each family. */
  datatype FamilyBases = FamilyBases(reaction: Class, metabolite: Class, enzyme: Class, gene: Class, model: Class) {
    function Base(f: Family): Class {
      match f
      case ReactionFamily => reaction
      case MetaboliteFamily => metabolite
      case EnzymeFamily => enzyme
      case GeneFamily => gene
      case ModelFamily => model
    }
  }

  const CONSTRAINT_BASES := FamilyBases(
    Class("ReactionConstraint", "pytfa.optim.constraints"),
    Class("MetaboliteConstraint", "pytfa.optim.constraints"),
    Class("EnzymeConstraint", "etfl.optim.constraints"),
    Class("GeneConstraint", "etfl.optim.constraints"),
    Class("ModelConstraint", "etfl.optim.constraints"))

  const VARIABLE_BASES := FamilyBases(
    Class("ReactionVariable", "pytfa.optim.variables"),
    Class("MetaboliteVariable", "pytfa.optim.variables"),
    Class("EnzymeVariable", "etfl.optim.variables"),
    Class("GeneVariable", "etfl.optim.variables"),
    Class("ModelVariable", "etfl.optim.variables"))

  /** `subix[<family base>]`. */
  function FamilyDict(bases: FamilyBases, allSubclasses: SubclassOracle, f: Family): (d: map<string, Class>)
    ensures bases.Base(f).name in d && d[bases.Base(f).name] == bases.Base(f)
    ensures forall c :: c in allSubclasses(bases.Base(f)) ==> c.name in d
    ensures forall n :: n in d ==> d[n].name == n
  {
    MakeSubclassesDict(bases.Base(f), allSubclasses(bases.Base(f)))
  }

  /**
    The `if`/`elif` chain: the first family, in the order Reaction, Metabolite,
    Enzyme, Gene, Model, whose subclass dictionary holds `classname`.
  */
  function Dispatch(bases: FamilyBases, allSubclasses: SubclassOracle, classname: string): (r: Option<Family>)
    ensures r.Some? ==> classname in FamilyDict(bases, allSubclasses, r.value)
  {
    if classname in FamilyDict(bases, allSubclasses, ReactionFamily) then Some(ReactionFamily)
    else if classname in FamilyDict(bases, allSubclasses, MetaboliteFamily) then Some(MetaboliteFamily)
    else if classname in FamilyDict(bases, allSubclasses, EnzymeFamily) then Some(EnzymeFamily)
    else if classname in FamilyDict(bases, allSubclasses, GeneFamily) then Some(GeneFamily)
    else if classname in FamilyDict(bases, allSubclasses, ModelFamily) then Some(ModelFamily)
    else None
  }

  /** The chosen family is the first in the order whose dictionary holds the name; there is none exactly when no family holds it. */
  lemma DispatchIsFirstMatch(bases: FamilyBases, allSubclasses: SubclassOracle, classname: string)
    ensures var r := Dispatch(bases, allSubclasses, classname);
      r.Some? ==> forall f :: Rank(f) < Rank(r.value) ==> classname !in FamilyDict(bases, allSubclasses, f)
    ensures Dispatch(bases, allSubclasses, classname).None? <==> forall f :: classname !in FamilyDict(bases, allSubclasses, f)
  {
    var r := Dispatch(bases, allSubclasses, classname);
    forall f | r.Some? && Rank(f) < Rank(r.value) ensures classname !in FamilyDict(bases, allSubclasses, f) {
      match f
      case ReactionFamily =>
      case MetaboliteFamily =>
      case EnzymeFamily =>
      case GeneFamily =>
      case ModelFamily =>
    }
    if r.None? {
      forall f ensures classname !in FamilyDict(bases, allSubclasses, f) {
        match f
        case ReactionFamily =>
        case MetaboliteFamily =>
        case EnzymeFamily =>
        case GeneFamily =>
        case ModelFamily =>
      }
    }
  }

  /** The ids of the model's reactions, metabolites, enzymes and genes. */
  datatype Hooks = Hooks(reactions: set<string>, metabolites: set<string>, enzymes: set<string>, genes: set<string>)

  function Collection(hooks: Hooks, f: Family): set<string>
    requires f != ModelFamily
  {
    match f
    case ReactionFamily => hooks.reactions
    case MetaboliteFamily => hooks.metabolites
    case EnzymeFamily => hooks.enzymes
    case GeneFamily => hooks.genes
  }

  /** What a rebuilt variable or constraint is attached to. */
  datatype Hook = EntityHook(family: Family, id: string) | ModelHook

  datatype Error =
    | TypeError(message: string)
    | KeyError(key: string)
    | AttributeError(message: string)
    | ValueError
    | IndexError

  function NotHandled(classname: string): string {
    "Class " + classname + " serialization not handled yet"
  }

  /** `model.<collection>.get_by_id(this_id)`, or the model itself for the model family. */
  function ResolveHook(hooks: Hooks, f: Family, thisId: string): (r: Result<Hook, Error>)
    ensures f == ModelFamily ==> r == Success(ModelHook)
    ensures f != ModelFamily ==> (r.Success? <==> thisId in Collection(hooks, f))
    ensures f != ModelFamily && r.Success? ==> r.value == EntityHook(f, thisId)
    ensures r.Failure? ==> r.error == KeyError(thisId)
  {
    if f == ModelFamily then Success(ModelHook)
    else if thisId in Collection(hooks, f) then Success(EntityHook(f, thisId))
    else Failure(KeyError(thisId))
  }

  type Bound = Option<real>

  /** A linear expression, as its coefficient for each variable name. */
  type Expr = map<string, real>

  /** The arguments of the `model.add_constraint` call a rebuild ends in. */
  datatype ConstraintRequest = ConstraintRequest(
    kind: Class, hook: Hook, expr: Expr, id_: Option<string>, lb: Bound, ub: Bound, queue: bool)

  /** The arguments of the `model.add_variable` call a rebuild ends in. */
  datatype VariableRequest = VariableRequest(
    kind: Class, hook: Hook, id_: Option<string>, lb: Bound, ub: Bound, scalingFactor: real, queue: bool)

  /**
    `rebuild_constraint`: the first family holding the class name decides the
    class and the hook; only the model family passes `this_id` on as `id_`.
  */
  function RebuildConstraint(hooks: Hooks, allSubclasses: SubclassOracle, classname: string, thisId: string,
                             newExpr: Expr, lb: Bound, ub: Bound, queue: bool): (r: Result<ConstraintRequest, Error>)
    ensures r == Failure(TypeError(NotHandled(classname))) <==> Dispatch(CONSTRAINT_BASES, allSubclasses, classname).None?
    ensures r.Success? ==>
      var f := Dispatch(CONSTRAINT_BASES, allSubclasses, classname).value;
      && r.value.kind == FamilyDict(CONSTRAINT_BASES, allSubclasses, f)[classname]
      && r.value.kind.name == classname
      && r.value.expr == newExpr && r.value.lb == lb && r.value.ub == ub && r.value.queue == queue
      && (f == ModelFamily ==> r.value.hook == ModelHook && r.value.id_ == Some(thisId))
      && (f != ModelFamily ==> r.value.hook == EntityHook(f, thisId) && r.value.id_.None? && thisId in Collection(hooks, f))
    ensures r.Failure? && Dispatch(CONSTRAINT_BASES, allSubclasses, classname).Some? ==>
      var f := Dispatch(CONSTRAINT_BASES, allSubclasses, classname).value;
      f != ModelFamily && thisId !in Collection(hooks, f) && r.error == KeyError(thisId)
  {
    match Dispatch(CONSTRAINT_BASES, allSubclasses, classname)
    case None => Failure(TypeError(NotHandled(classname)))
    case Some(f) =>
      match ResolveHook(hooks, f, thisId)
      case Failure(e) => Failure(e)
      case Success(hook) =>
        var thisClass := FamilyDict(CONSTRAINT_BASES, allSubclasses, f)[classname];
        Success(ConstraintRequest(thisClass, hook, newExpr, if f == ModelFamily then Some(thisId) else None, lb, ub, queue))
  }

  /**
    `rebuild_variable`: the same dispatch over the variable families, forwarding
    the bounds and the scaling factor.
  */
  function RebuildVariable(hooks: Hooks, allSubclasses: SubclassOracle, classname: string, thisId: string,
                           lb: Bound, ub: Bound, scalingFactor: real, queue: bool): (r: Result<VariableRequest, Error>)
    ensures r == Failure(TypeError(NotHandled(classname))) <==> Dispatch(VARIABLE_BASES, allSubclasses, classname).None?
    ensures r.Success? ==>
      var f := Dispatch(VARIABLE_BASES, allSubclasses, classname).value;
      && r.value.kind == FamilyDict(VARIABLE_BASES, allSubclasses, f)[classname]
      && r.value.kind.name == classname
      && r.value.lb == lb && r.value.ub == ub && r.value.scalingFactor == scalingFactor && r.value.queue == queue
      && (f == ModelFamily ==> r.value.hook == ModelHook && r.value.id_ == Some(thisId))
      && (f != ModelFamily ==> r.value.hook == EntityHook(f, thisId) && r.value.id_.None? && thisId in Collection(hooks, f))
    ensures r.Failure? && Dispatch(VARIABLE_BASES, allSubclasses, classname).Some? ==>
      var f := Dispatch(VARIABLE_BASES, allSubclasses, classname).value;
      f != ModelFamily && thisId !in Collection(hooks, f) && r.error == KeyError(thisId)
  {
    match Dispatch(VARIABLE_BASES, allSubclasses, classname)
    case None => Failure(TypeError(NotHandled(classname)))
    case Some(f) =>
      match ResolveHook(hooks, f, thisId)
      case Failure(e) => Failure(e)
      case Success(hook) =>
        var thisClass := FamilyDict(VARIABLE_BASES, allSubclasses, f)[classname];
        Success(VariableRequest(thisClass, hook, if f == ModelFamily then Some(thisId) else None, lb, ub, scalingFactor, queue))
  }

  // ===========================================================================
  // Solutions and growth bins

  /** `solution.raw`: the value of each variable, by name. */
  type Solution = map<string, real>

  const NO_SOLUTION_MESSAGE := "If not providing a solution object, please provide a model with an embedded solution (call model.solve())"

  /** `check_solution`: a given solution wins; otherwise the model's own, if it has one. */
  function CheckSolution(modelSolution: Option<Solution>, solution: Option<Solution>): (r: Result<Solution, Error>)
    ensures solution.Some? ==> r == Success(solution.value)
    ensures solution.None? && modelSolution.Some? ==> r == Success(modelSolution.value)
    ensures r.Failure? <==> solution.None? && modelSolution.None?
    ensures r.Failure? ==> r.error == AttributeError(NO_SOLUTION_MESSAGE)
  {
    match solution
    case Some(s) => Success(s)
    case None =>
      match modelSolution
      case Some(s) => Success(s)
      case None => Failure(AttributeError(NO_SOLUTION_MESSAGE))
  }

  /** One entry `(mu_i, (mu_lb, mu_ub))` of `model.mu_bins`. */
  datatype Bin = Bin(mu: real, lb: real, ub: real)

  function Abs(x: real): real {
    if x < 0.0 then -x else x
  }

  /** `difflist.index(min(difflist))`: the first position holding the smallest value. */
  function FirstArgMin(ds: seq<real>): (i: nat)
    requires |ds| > 0
    ensures i < |ds|
    ensures forall j :: 0 <= j < |ds| ==> ds[i] <= ds[j]
    ensures forall j :: 0 <= j < i ==> ds[j] > ds[i]
  {
    if |ds| == 1 then 0
    else
      var k := FirstArgMin(ds[1..]) + 1;
      if ds[0] <= ds[k] then 0 else k
  }

  /** The growth rate the bins are compared with: the given one, else the biomass flux. */
  function GrowthRate(growthFlux: real, growthRate: Option<real>): real {
    if growthRate.Some? then growthRate.value else growthFlux
  }

  /**
    `get_active_growth_bounds`: the first bin whose `mu_i` is nearest to the
    growth rate; `min` of an empty list raises `ValueError`.
  */
  function ActiveGrowthBounds(muBins: seq<Bin>, growthFlux: real, growthRate: Option<real>): (r: Result<Bin, Error>)
    ensures r.Failure? <==> |muBins| == 0
    ensures r.Failure? ==> r.error == ValueError
    ensures r.Success? ==>
      var mu := GrowthRate(growthFlux, growthRate);
      exists i :: 0 <= i < |muBins| && muBins[i] == r.value
        && (forall j :: 0 <= j < |muBins| ==> Abs(mu - muBins[i].mu) <= Abs(mu - muBins[j].mu))
        && (forall j :: 0 <= j < i ==> Abs(mu - muBins[j].mu) > Abs(mu - muBins[i].mu))
  {
    if |muBins| == 0 then Failure(ValueError)
    else
      var mu := GrowthRate(growthFlux, growthRate);
      var diffs := seq(|muBins|, i requires 0 <= i < |muBins| => Abs(mu - muBins[i].mu));
      var i := FirstArgMin(diffs);
      assert forall j :: 0 <= j < |muBins| ==> diffs[j] == Abs(mu - muBins[j].mu);
      assert forall j :: 0 <= j < |muBins| ==> Abs(mu - muBins[i].mu) <= Abs(mu - muBins[j].mu);
      assert forall j :: 0 <= j < i ==> Abs(mu - muBins[j].mu) > Abs(mu - muBins[i].mu);
      Success(muBins[i])
  }

  /** The nearest-first bin is unique: any bin that is nearest and has no equally near bin before it is the one returned. */
  lemma ActiveGrowthBoundsIsFirstNearest(muBins: seq<Bin>, growthFlux: real, growthRate: Option<real>, i: nat)
    requires i < |muBins|
    requires var mu := GrowthRate(growthFlux, growthRate);
      && (forall j :: 0 <= j < |muBins| ==> Abs(mu - muBins[i].mu) <= Abs(mu - muBins[j].mu))
      && (forall j :: 0 <= j < i ==> Abs(mu - muBins[j].mu) > Abs(mu - muBins[i].mu))
    ensures ActiveGrowthBounds(muBins, growthFlux, growthRate) == Success(muBins[i])
  {
    var mu := GrowthRate(growthFlux, growthRate);
    var r := ActiveGrowthBounds(muBins, growthFlux, growthRate);
    var k :| 0 <= k < |muBins| && muBins[k] == r.value
      && (forall j :: 0 <= j < |muBins| ==> Abs(mu - muBins[k].mu) <= Abs(mu - muBins[j].mu))
      && (forall j :: 0 <= j < k ==> Abs(mu - muBins[j].mu) > Abs(mu - muBins[k].mu));
    assert k == i;
  }

  // ===========================================================================
  // Model state

  datatype Variable = Variable(name: string, kind: string, lb: Bound, ub: Bound)
  datatype LinConstraint = LinConstraint(name: string, kind: string, lb: Bound, ub: Bound, coeffs: map<string, real>)

  const GROWTH_ACTIVATION := "GrowthActivation"
  const BINARY_ACTIVATOR := "BinaryActivator"
  const LINEARIZATION_VARIABLE := "LinearizationVariable"
  const GROWTH_COUPLING := "GrowthCoupling"
  const GROWTH_CHOICE := "GrowthChoice"
  const LINEARIZATION_CONSTRAINT := "LinearizationConstraint"
  const SOS1_CONSTRAINT := "SOS1Constraint"
  const INTERPOLATION_CONSTRAINT := "InterpolationConstraint"

  /** The integer variables `fix_growth` and `release_growth` act on. */
  predicate IsGrowthInteger(v: Variable) {
    v.kind == GROWTH_ACTIVATION || v.kind == BINARY_ACTIVATOR
  }

  /** optlang keeps a variable's lower bound at most its upper bound. */
  predicate BoundsOrdered(v: Variable) {
    v.lb.Some? && v.ub.Some? ==> v.lb.value <= v.ub.value
  }

  /** Every variable of `vs` has ordered bounds. */
  predicate AllBoundsOrdered(vs: seq<Variable>) {
    forall i :: 0 <= i < |vs| ==> BoundsOrdered(vs[i])
  }

  predicate AllIndices(idxs: seq<nat>, n: nat) {
    forall j :: 0 <= j < |idxs| ==> idxs[j] < n
  }

  /** Positions of the variables of one class, in registry order (`get_variables_of_type`). */
  function IndicesOfKind(vs: seq<Variable>, kind: string): (r: seq<nat>)
    ensures AllIndices(r, |vs|)
    ensures forall j :: 0 <= j < |r| ==> vs[r[j]].kind == kind
    ensures forall i :: 0 <= i < |vs| && vs[i].kind == kind ==> i in r
  {
    if vs == [] then []
    else
      var init := vs[..|vs| - 1];
      var r0 := IndicesOfKind(init, kind);
      assert forall j :: 0 <= j < |r0| ==> vs[r0[j]] == init[r0[j]];
      r0 + (if vs[|vs| - 1].kind == kind then [|vs| - 1] else [])
  }

  /** `list(mu_variables) + list(interp_variables)`, as positions. */
  function ToFix(vs: seq<Variable>): (r: seq<nat>)
    ensures AllIndices(r, |vs|)
    ensures forall i :: 0 <= i < |vs| ==> (i in r <==> IsGrowthInteger(vs[i]))
  {
    var ga := IndicesOfKind(vs, GROWTH_ACTIVATION);
    var ba := IndicesOfKind(vs, BINARY_ACTIVATOR);
    assert forall i :: i in ga ==> i < |vs| && vs[i].kind == GROWTH_ACTIVATION by {
      forall i | i in ga ensures i < |vs| && vs[i].kind == GROWTH_ACTIVATION {
        var j :| 0 <= j < |ga| && ga[j] == i;
      }
    }
    assert forall i :: i in ba ==> i < |vs| && vs[i].kind == BINARY_ACTIVATOR by {
      forall i | i in ba ensures i < |vs| && vs[i].kind == BINARY_ACTIVATOR {
        var j :| 0 <= j < |ba| && ba[j] == i;
      }
    }
    ga + ba
  }

  /** `get_variables_of_type` keeps registry order: the positions it lists strictly increase. */
  lemma {:induction false} IndicesOfKindIncreasing(vs: seq<Variable>, kind: string)
    ensures forall a, b :: 0 <= a < b < |IndicesOfKind(vs, kind)| ==> IndicesOfKind(vs, kind)[a] < IndicesOfKind(vs, kind)[b]
  {
    if vs != [] {
      IndicesOfKindIncreasing(vs[..|vs| - 1], kind);
    }
  }

  /**
    The order `fix_growth` and `release_growth` visit the growth integers in:
    every growth activation before every binary activator, each class in
    registry order, and no position twice.
  */
  lemma ToFixOrder(vs: seq<Variable>)
    ensures forall a, b :: 0 <= a < b < |ToFix(vs)| && vs[ToFix(vs)[b]].kind == GROWTH_ACTIVATION ==>
      vs[ToFix(vs)[a]].kind == GROWTH_ACTIVATION
    ensures forall a, b :: 0 <= a < b < |ToFix(vs)| && vs[ToFix(vs)[a]].kind == vs[ToFix(vs)[b]].kind ==>
      ToFix(vs)[a] < ToFix(vs)[b]
    ensures forall a, b :: 0 <= a < b < |ToFix(vs)| ==> ToFix(vs)[a] != ToFix(vs)[b]
  {
    var ga := IndicesOfKind(vs, GROWTH_ACTIVATION);
    var ba := IndicesOfKind(vs, BINARY_ACTIVATOR);
    IndicesOfKindIncreasing(vs, GROWTH_ACTIVATION);
    IndicesOfKindIncreasing(vs, BINARY_ACTIVATOR);
    assert ToFix(vs) == ga + ba;
  }

  /** Python's `int()` of a float: truncation toward zero. */
  function Trunc(x: real): (n: int)
    ensures 0.0 <= x ==> n as real <= x < n as real + 1.0
    ensures x < 0.0 ==> n as real - 1.0 < x <= n as real
  {
    if x >= 0.0 then x.Floor else -((-x).Floor)
  }

  /** Assigning `variable.lb`: optlang refuses a lower bound above the upper bound. */
  function SetLb(v: Variable, x: real): (r: Result<Variable, Error>)
    ensures r.Failure? <==> v.ub.Some? && x > v.ub.value
    ensures r.Success? ==> r.value == v.(lb := Some(x))
    ensures r.Failure? ==> r.error == ValueError
  {
    if v.ub.Some? && x > v.ub.value then Failure(ValueError) else Success(v.(lb := Some(x)))
  }

  /** Assigning `variable.ub`: optlang refuses an upper bound below the lower bound. */
  function SetUb(v: Variable, x: real): (r: Result<Variable, Error>)
    ensures r.Failure? <==> v.lb.Some? && x < v.lb.value
    ensures r.Success? ==> r.value == v.(ub := Some(x))
    ensures r.Failure? ==> r.error == ValueError
  {
    if v.lb.Some? && x < v.lb.value then Failure(ValueError) else Success(v.(ub := Some(x)))
  }

  /** A variable whose both bounds are `x`. */
  function Pin(v: Variable, x: real): Variable {
    v.(lb := Some(x), ub := Some(x))
  }

  /** The `except ValueError` branch of `fix_growth`: upper bound first, then lower; its errors propagate. */
  function AssignUpperFirst(v: Variable, x: real): (r: Result<Variable, Error>)
    ensures r.Success? <==> v.lb.None? || x >= v.lb.value
    ensures r.Success? ==> r.value == Pin(v, x)
    ensures r.Failure? ==> r.error == ValueError
  {
    match SetUb(v, x)
    case Failure(e) => Failure(e)
    case Success(v1) => SetLb(v1, x)
  }

  /**
    The `try`/`except` of `fix_growth` for one variable: lower bound then upper
    bound, and on `ValueError` the other order. Whatever the old bounds, the
    variable ends pinned to `x`.
  */
  function AssignFixed(v: Variable, x: real): (r: Result<Variable, Error>)
    ensures BoundsOrdered(v) ==> r == Success(Pin(v, x))
  {
    match SetLb(v, x)
    case Success(v1) =>
      (match SetUb(v1, x)
       case Success(v2) => Success(v2)
       case Failure(_) => AssignUpperFirst(v1, x))
    case Failure(_) => AssignUpperFirst(v, x)
  }

  /** Without the `except` branch, fixing to a value above the upper bound would raise. */
  lemma LowerFirstFailsAboveUpper(v: Variable, x: real)
    requires BoundsOrdered(v) && v.ub.Some? && x > v.ub.value
    ensures SetLb(v, x).Failure?
    ensures AssignFixed(v, x) == Success(Pin(v, x))
  {
  }

  predicate HasValues(vs: seq<Variable>, sol: Solution, idxs: seq<nat>)
    requires AllIndices(idxs, |vs|)
  {
    forall j :: 0 <= j < |idxs| ==> vs[idxs[j]].name in sol
  }

  /** The variables at the given positions pinned to the truncated solution value. */
  function FixAt(vs: seq<Variable>, sol: Solution, idxs: seq<nat>): (r: seq<Variable>)
    requires AllIndices(idxs, |vs|) && HasValues(vs, sol, idxs)
    ensures |r| == |vs|
  {
    seq(|vs|, i requires 0 <= i < |vs| =>
      if i in idxs then Pin(vs[i], Trunc(sol[vs[i].name]) as real) else vs[i])
  }

  /** Position `k` of `idxs` is the first whose variable has no solution value. */
  predicate FirstMissing(vs: seq<Variable>, sol: Solution, idxs: seq<nat>, k: nat)
    requires AllIndices(idxs, |vs|)
  {
    k < |idxs| && vs[idxs[k]].name !in sol && HasValues(vs, sol, idxs[..k])
  }

  /** One more position of `idxs`: its variable pinned on top of the earlier ones. */
  lemma FixAtStep(vs: seq<Variable>, sol: Solution, idxs: seq<nat>, k: nat)
    requires AllIndices(idxs, |vs|) && k < |idxs|
    requires HasValues(vs, sol, idxs[..k]) && vs[idxs[k]].name in sol
    ensures HasValues(vs, sol, idxs[..k + 1])
    ensures FixAt(vs, sol, idxs[..k + 1])
      == FixAt(vs, sol, idxs[..k])[idxs[k] := Pin(vs[idxs[k]], Trunc(sol[vs[idxs[k]].name]) as real)]
  {
    assert idxs[..k + 1] == idxs[..k] + [idxs[k]];
  }

  /** After `fix_growth`, every growth integer is pinned to `int(value)` and every other variable is unchanged. */
  lemma FixGrowthPinsExactlyTheGrowthIntegers(vs: seq<Variable>, sol: Solution)
    requires HasValues(vs, sol, ToFix(vs))
    ensures forall i :: 0 <= i < |vs| && IsGrowthInteger(vs[i]) ==>
      var n := Trunc(sol[vs[i].name]) as real;
      FixAt(vs, sol, ToFix(vs))[i].lb == Some(n) && FixAt(vs, sol, ToFix(vs))[i].ub == Some(n)
    ensures forall i :: 0 <= i < |vs| && !IsGrowthInteger(vs[i]) ==> FixAt(vs, sol, ToFix(vs))[i] == vs[i]
    ensures forall i :: 0 <= i < |vs| ==> FixAt(vs, sol, ToFix(vs))[i].name == vs[i].name
  {
  }

  /**
    `int()` and `np.isclose` disagree just below 1: a bin value that
    `strip_memodel_from_integers` counts as active is pinned to 0 by
    `fix_growth`.
  */
  lemma FixGrowthTruncatesActiveValuesBelowOne(x: real)
    requires 1.0 - 0.00001001 <= x < 1.0
    ensures IsActive(x)
    ensures Trunc(x) == 0
  {
  }

  /** Setting the lower bound 0 cannot meet a negative upper bound. */
  predicate CanRelease(v: Variable) {
    v.ub.None? || v.ub.value >= 0.0
  }

  /** `release_growth` for one variable: lower bound 0, then upper bound 1. */
  function ReleaseOne(v: Variable): (r: Result<Variable, Error>)
    ensures r.Success? <==> CanRelease(v)
    ensures r.Success? ==> r.value == v.(lb := Some(0.0), ub := Some(1.0))
    ensures r.Failure? ==> r.error == ValueError
  {
    match SetLb(v, 0.0)
    case Failure(e) => Failure(e)
    case Success(v1) => SetUb(v1, 1.0)
  }

  function Released(v: Variable): Variable {
    v.(lb := Some(0.0), ub := Some(1.0))
  }

  /** The variables at the given positions with bounds reset to [0, 1]. */
  function ReleaseAt(vs: seq<Variable>, idxs: seq<nat>): (r: seq<Variable>)
    ensures |r| == |vs|
  {
    seq(|vs|, i requires 0 <= i < |vs| => if i in idxs then Released(vs[i]) else vs[i])
  }

  /** One more position of `idxs`: its variable released on top of the earlier ones. */
  lemma ReleaseAtStep(vs: seq<Variable>, idxs: seq<nat>, k: nat)
    requires AllIndices(idxs, |vs|) && k < |idxs|
    ensures ReleaseAt(vs, idxs[..k + 1]) == ReleaseAt(vs, idxs[..k])[idxs[k] := Released(vs[idxs[k]])]
  {
    assert idxs[..k + 1] == idxs[..k] + [idxs[k]];
  }

  /** After `release_growth`, every growth integer has the bounds [0, 1] and every other variable is unchanged. */
  lemma ReleaseGrowthResetsExactlyTheGrowthIntegers(vs: seq<Variable>)
    ensures forall i :: 0 <= i < |vs| && IsGrowthInteger(vs[i]) ==>
      ReleaseAt(vs, ToFix(vs))[i].lb == Some(0.0) && ReleaseAt(vs, ToFix(vs))[i].ub == Some(1.0)
    ensures forall i :: 0 <= i < |vs| && !IsGrowthInteger(vs[i]) ==> ReleaseAt(vs, ToFix(vs))[i] == vs[i]
    ensures forall i :: 0 <= i < |vs| ==> ReleaseAt(vs, ToFix(vs))[i].name == vs[i].name
  {
  }

  /** Position `k` of `idxs` is the first whose variable's upper bound is negative. */
  predicate FirstUnreleasable(vs: seq<Variable>, idxs: seq<nat>, k: nat)
    requires AllIndices(idxs, |vs|)
  {
    k < |idxs| && !CanRelease(vs[idxs[k]]) && forall j :: 0 <= j < k ==> CanRelease(vs[idxs[j]])
  }

  /**
    `release_growth` undoes `fix_growth` whenever the fixed values truncate to a
    non-negative integer: it cannot fail, and the result is what releasing
    the unfixed variables gives.
  */
  lemma ReleaseUndoesFix(vs: seq<Variable>, sol: Solution, idxs: seq<nat>)
    requires AllIndices(idxs, |vs|) && HasValues(vs, sol, idxs)
    requires forall j :: 0 <= j < |idxs| ==> sol[vs[idxs[j]].name] > -1.0
    ensures forall j :: 0 <= j < |idxs| ==> CanRelease(FixAt(vs, sol, idxs)[idxs[j]])
    ensures ReleaseAt(FixAt(vs, sol, idxs), idxs) == ReleaseAt(vs, idxs)
  {
    var fixed := FixAt(vs, sol, idxs);
    forall j | 0 <= j < |idxs| ensures CanRelease(fixed[idxs[j]]) {
      var x := sol[vs[idxs[j]].name];
      assert Trunc(x) >= 0;
    }
  }

  // ---------------------------------------------------------------------------
  // Stripping the integers (strip_memodel_from_integers)

  /** `get_variables_of_type`: the variables of one class. */
  function OfKind(vs: seq<Variable>, kind: string): (r: seq<Variable>)
    ensures forall v :: v in r <==> v in vs && v.kind == kind
  {
    if vs == [] then []
    else
      var init := vs[..|vs| - 1];
      assert vs == init + [vs[|vs| - 1]];
      OfKind(init, kind) + (if vs[|vs| - 1].kind == kind then [vs[|vs| - 1]] else [])
  }

  /** `OfKind` lists the variables at the positions `IndicesOfKind` gives, in that order. */
  lemma {:induction false} OfKindFollowsIndices(vs: seq<Variable>, kind: string)
    ensures |OfKind(vs, kind)| == |IndicesOfKind(vs, kind)|
    ensures forall j :: 0 <= j < |OfKind(vs, kind)| ==> OfKind(vs, kind)[j] == vs[IndicesOfKind(vs, kind)[j]]
  {
    if vs != [] {
      var init, last := vs[..|vs| - 1], vs[|vs| - 1];
      OfKindFollowsIndices(init, kind);
      var r0, i0 := OfKind(init, kind), IndicesOfKind(init, kind);
      var tail := if last.kind == kind then [last] else [];
      var itail := if last.kind == kind then [|vs| - 1] else [];
      assert OfKind(vs, kind) == r0 + tail;
      assert IndicesOfKind(vs, kind) == i0 + itail;
      forall j | 0 <= j < |OfKind(vs, kind)| ensures OfKind(vs, kind)[j] == vs[IndicesOfKind(vs, kind)[j]] {
        if j < |r0| {
          assert i0[j] < |init|;
          assert r0[j] == init[i0[j]] == vs[i0[j]];
        }
      }
    }
  }

  /** `get_constraints_of_type`: the constraints of one class. */
  function ConstraintsOfKind(cs: seq<LinConstraint>, kind: string): (r: seq<LinConstraint>)
    ensures forall c :: c in r <==> c in cs && c.kind == kind
  {
    if cs == [] then []
    else (if cs[0].kind == kind then [cs[0]] else []) + ConstraintsOfKind(cs[1..], kind)
  }

  /** The filter keeps registry order: the constraints of one class in `a + b` are those in `a`, then those in `b`. */
  lemma {:induction false} ConstraintsOfKindAppend(a: seq<LinConstraint>, b: seq<LinConstraint>, kind: string)
    ensures ConstraintsOfKind(a + b, kind) == ConstraintsOfKind(a, kind) + ConstraintsOfKind(b, kind)
  {
    if a == [] {
      assert a + b == b;
    } else {
      assert (a + b)[0] == a[0] && (a + b)[1..] == a[1..] + b;
      ConstraintsOfKindAppend(a[1..], b, kind);
    }
  }

  function Names(vs: seq<Variable>): (r: seq<string>)
    ensures forall n :: n in r <==> exists v :: v in vs && v.name == n
  {
    if vs == [] then [] else [vs[0].name] + Names(vs[1..])
  }

  function ConstraintNames(cs: seq<LinConstraint>): (r: seq<string>)
    ensures forall n :: n in r <==> exists c :: c in cs && c.name == n
  {
    if cs == [] then [] else [cs[0].name] + ConstraintNames(cs[1..])
  }

  /** `get_var_coeff`: the coefficient of a variable in a constraint (zero when absent). */
  function Coeff(c: LinConstraint, name: string): (r: real)
    ensures name in c.coeffs ==> r == c.coeffs[name]
    ensures r != 0.0 ==> name in c.coeffs
  {
    if name in c.coeffs then c.coeffs[name] else 0.0
  }

  predicate AllHaveValues(mu: seq<Variable>, sol: Solution) {
    forall v :: v in mu ==> v.name in sol
  }

  /**
    `sum([solution.raw[var.name] * get_var_coeff(var, cstr) for var in mu_variables])`;
    the comprehension raises `KeyError` at the first variable without a value.
  */
  function WeightedSum(mu: seq<Variable>, sol: Solution, c: LinConstraint): (r: Result<real, Error>)
    ensures r.Success? <==> AllHaveValues(mu, sol)
    ensures r.Failure? ==>
      exists k :: 0 <= k < |mu| && mu[k].name !in sol && r.error == KeyError(mu[k].name)
        && forall j :: 0 <= j < k ==> mu[j].name in sol
  {
    if mu == [] then Success(0.0)
    else if mu[0].name !in sol then Failure(KeyError(mu[0].name))
    else
      match WeightedSum(mu[1..], sol, c)
      case Failure(e) =>
        assert forall j :: 1 <= j < |mu| ==> mu[j] == mu[1..][j - 1];
        Failure(e)
      case Success(s) => Success(sol[mu[0].name] * Coeff(c, mu[0].name) + s)
  }

  /** The start of the `TypeError` message of `mu_bar + None`; the operand type names that follow it are not modelled. */
  const NONE_OPERAND := "unsupported operand type(s) for +"

  /**
    The biomass bounds `strip_memodel_from_integers` sets. The loop over the
    `GrowthCoupling` constraints computes `mu_bar` for each (failing, if at
    all, on the first) and keeps the last; the bounds then add the first
    constraint's bounds, and with no such constraint the indexing `[0]` raises.
  */
  function GrowthBounds(mu: seq<Variable>, gcs: seq<LinConstraint>, sol: Solution): (r: Result<(real, real), Error>)
    ensures r.Success? <==> |gcs| > 0 && AllHaveValues(mu, sol) && gcs[0].lb.Some? && gcs[0].ub.Some?
    ensures |gcs| == 0 ==> r == Failure(IndexError)
    ensures |gcs| > 0 && !AllHaveValues(mu, sol) ==> r == Failure(WeightedSum(mu, sol, gcs[0]).error)
    ensures |gcs| > 0 && AllHaveValues(mu, sol) && r.Failure? ==> r == Failure(TypeError(NONE_OPERAND))
    ensures r.Success? ==>
      var muBar := WeightedSum(mu, sol, gcs[|gcs| - 1]).value;
      r.value == (muBar + gcs[0].lb.value, muBar + gcs[0].ub.value)
  {
    if |gcs| == 0 then Failure(IndexError)
    else if WeightedSum(mu, sol, gcs[0]).Failure? then Failure(WeightedSum(mu, sol, gcs[0]).error)
    else
      var muBar := WeightedSum(mu, sol, gcs[|gcs| - 1]).value;
      if gcs[0].lb.None? || gcs[0].ub.None? then Failure(TypeError(NONE_OPERAND))
      else Success((muBar + gcs[0].lb.value, muBar + gcs[0].ub.value))
  }

  /**
    The biomass lower bound already written when setting the growth bounds fails: the
    lower bound is assigned before the upper bound, so a `GrowthCoupling`
    constraint with a lower bound and no upper bound gets its lower bound
    through, and only the upper-bound assignment raises.
  */
  function PartialGrowthLb(mu: seq<Variable>, gcs: seq<LinConstraint>, sol: Solution): (p: Option<real>)
    ensures p.Some? ==> GrowthBounds(mu, gcs, sol) == Failure(TypeError(NONE_OPERAND))
    ensures p.Some? ==>
      && |gcs| > 0 && AllHaveValues(mu, sol) && gcs[0].lb.Some?
      && p.value == WeightedSum(mu, sol, gcs[|gcs| - 1]).value + gcs[0].lb.value
    ensures GrowthBounds(mu, gcs, sol).Failure? && |gcs| > 0 && AllHaveValues(mu, sol) ==>
      (p.Some? <==> gcs[0].lb.Some?)
    ensures !AllHaveValues(mu, sol) || |gcs| == 0 ==> p.None?
  {
    if |gcs| > 0 && AllHaveValues(mu, sol) && gcs[0].lb.Some? && gcs[0].ub.None? then
      Some(WeightedSum(mu, sol, gcs[|gcs| - 1]).value + gcs[0].lb.value)
    else None
  }

  /** The `hook` a growth activation variable marks its linearization constraints and variables with. */
  function BinHook(v: Variable): (h: string)
    ensures |h| == |v.name| + 1 && h[..|v.name|] == v.name && h[|v.name|] == '_'
  {
    v.name + "_"
  }

  /** Python's `sub in s`. */
  predicate Contains(s: string, sub: string) {
    exists i | 0 <= i <= |s| - |sub| :: OccursAt(s, sub, i)
  }

  predicate OccursAt(s: string, sub: string, i: int) {
    0 <= i <= |s| - |sub| && s[i..i + |sub|] == sub
  }

  /** The default tolerances of `np.isclose`. */
  const ISCLOSE_ATOL: real := 0.00000001
  const ISCLOSE_RTOL: real := 0.00001

  /** `np.isclose(value, 1)`: within `atol + rtol * |1|` of 1, that is, in [1 - 1.001e-5, 1 + 1.001e-5]. */
  predicate IsActive(value: real)
    ensures IsActive(value) <==> 1.0 - 0.00001001 <= value <= 1.0 + 0.00001001
  {
    Abs(value - 1.0) <= ISCLOSE_ATOL + ISCLOSE_RTOL * Abs(1.0)
  }

  function ShiftBound(b: Bound, coef: real): Bound {
    if b.None? then None else Some(b.value - coef)
  }

  function Shift(c: LinConstraint, coef: real): LinConstraint {
    c.(lb := ShiftBound(c.lb, coef), ub := ShiftBound(c.ub, coef))
  }

  /** An active bin `v` shifts the linearization constraint `c` when its hook occurs in `c`'s name. */
  predicate Shifts(v: Variable, c: LinConstraint, sol: Solution)
    requires v.name in sol
  {
    IsActive(sol[v.name]) && c.kind == LINEARIZATION_CONSTRAINT && Contains(c.name, BinHook(v))
  }

  /** A constraint after the active bins of `mu`, taken in order, have shifted its bounds. */
  function ShiftedBy(c: LinConstraint, mu: seq<Variable>, sol: Solution): LinConstraint
    requires AllHaveValues(mu, sol)
  {
    if mu == [] then c
    else
      var v := mu[|mu| - 1];
      var c0 := ShiftedBy(c, mu[..|mu| - 1], sol);
      if Shifts(v, c, sol) then Shift(c0, Coeff(c, v.name)) else c0
  }

  /** Reference definition: the total coefficient of the active bins that shift `c`. */
  function ShiftAmount(c: LinConstraint, mu: seq<Variable>, sol: Solution): real
    requires AllHaveValues(mu, sol)
  {
    if mu == [] then 0.0
    else
      var v := mu[|mu| - 1];
      ShiftAmount(c, mu[..|mu| - 1], sol) + (if Shifts(v, c, sol) then Coeff(c, v.name) else 0.0)
  }

  /**
    Shifting bin by bin moves each present bound by minus the total
    coefficient of the active bins, leaves absent bounds absent, and keeps
    the name, class and coefficients.
  */
  lemma {:induction false} ShiftedByTotal(c: LinConstraint, mu: seq<Variable>, sol: Solution)
    requires AllHaveValues(mu, sol)
    ensures ShiftedBy(c, mu, sol) == Shift(c, ShiftAmount(c, mu, sol))
  {
    if mu != [] {
      ShiftedByTotal(c, mu[..|mu| - 1], sol);
    }
  }

  /** Some inactive bin of `mu` has its hook in `name`. */
  predicate InactiveHookIn(name: string, mu: seq<Variable>, sol: Solution)
    requires AllHaveValues(mu, sol)
  {
    mu != [] &&
      var v := mu[|mu| - 1];
      (InactiveHookIn(name, mu[..|mu| - 1], sol) || (!IsActive(sol[v.name]) && Contains(name, BinHook(v))))
  }

  predicate RemovedConstraint(c: LinConstraint, mu: seq<Variable>, sol: Solution)
    requires AllHaveValues(mu, sol)
  {
    || c.kind == GROWTH_CHOICE || c.kind == GROWTH_COUPLING
    || c.kind == SOS1_CONSTRAINT || c.kind == INTERPOLATION_CONSTRAINT
    || (c.kind == LINEARIZATION_CONSTRAINT && InactiveHookIn(c.name, mu, sol))
  }

  predicate RemovedVariable(v: Variable, mu: seq<Variable>, sol: Solution)
    requires AllHaveValues(mu, sol)
  {
    IsGrowthInteger(v) || (v.kind == LINEARIZATION_VARIABLE && InactiveHookIn(v.name, mu, sol))
  }

  /** `remove_constraint` of every constraint named in `names`. */
  function ConstraintsWithout(cs: seq<LinConstraint>, names: set<string>): (r: seq<LinConstraint>)
    ensures forall c :: c in r <==> c in cs && c.name !in names
  {
    if cs == [] then []
    else (if cs[0].name in names then [] else [cs[0]]) + ConstraintsWithout(cs[1..], names)
  }

  /** `remove_variable` of every variable named in `names`. */
  function VariablesWithout(vs: seq<Variable>, names: set<string>): (r: seq<Variable>)
    ensures forall v :: v in r <==> v in vs && v.name !in names
  {
    if vs == [] then []
    else (if vs[0].name in names then [] else [vs[0]]) + VariablesWithout(vs[1..], names)
  }

  function RemovedConstraintNames(cs: seq<LinConstraint>, mu: seq<Variable>, sol: Solution): set<string>
    requires AllHaveValues(mu, sol)
  {
    set c | c in cs && RemovedConstraint(c, mu, sol) :: c.name
  }

  function RemovedVariableNames(vs: seq<Variable>, mu: seq<Variable>, sol: Solution): set<string>
    requires AllHaveValues(mu, sol)
  {
    set v | v in vs && RemovedVariable(v, mu, sol) :: v.name
  }

  function ShiftedAll(cs: seq<LinConstraint>, mu: seq<Variable>, sol: Solution): (r: seq<LinConstraint>)
    requires AllHaveValues(mu, sol)
    ensures |r| == |cs|
  {
    seq(|cs|, i requires 0 <= i < |cs| => ShiftedBy(cs[i], mu, sol))
  }

  /** The constraints left after the bin loop and `remove_constraint`, before any variable is removed. */
  function KeptConstraints(cs: seq<LinConstraint>, mu: seq<Variable>, sol: Solution): seq<LinConstraint>
    requires AllHaveValues(mu, sol)
  {
    ConstraintsWithout(ShiftedAll(cs, mu, sol), RemovedConstraintNames(cs, mu, sol))
  }

  /**
    A constraint without its terms in the named variables: `remove_variable`
    takes the variable's column out of the problem, and so out of every row.
  */
  function DropTerms(c: LinConstraint, names: set<string>): (r: LinConstraint)
    ensures r.name == c.name && r.kind == c.kind && r.lb == c.lb && r.ub == c.ub
    ensures forall n :: n in r.coeffs <==> n in c.coeffs && n !in names
    ensures forall n :: n in r.coeffs ==> r.coeffs[n] == c.coeffs[n]
  {
    c.(coeffs := c.coeffs - names)
  }

  /** Every constraint of `cs` without its terms in the named variables. */
  function DropAllTerms(cs: seq<LinConstraint>, names: set<string>): seq<LinConstraint> {
    seq(|cs|, i requires 0 <= i < |cs| => DropTerms(cs[i], names))
  }

  /** The variables of the stripped model. */
  function StrippedVariables(vs: seq<Variable>, mu: seq<Variable>, sol: Solution): (r: seq<Variable>)
    requires AllHaveValues(mu, sol)
    ensures forall v :: v in r ==> v in vs && !RemovedVariable(v, mu, sol)
  {
    VariablesWithout(vs, RemovedVariableNames(vs, mu, sol))
  }

  /** The constraints of the stripped model: the kept ones, without the columns of the removed variables. */
  function StrippedConstraints(cs: seq<LinConstraint>, vs: seq<Variable>, mu: seq<Variable>, sol: Solution): seq<LinConstraint>
    requires AllHaveValues(mu, sol)
  {
    DropAllTerms(KeptConstraints(cs, mu, sol), RemovedVariableNames(vs, mu, sol))
  }

  predicate NoneRemovedNamed(vs: seq<Variable>, name: string, mu: seq<Variable>, sol: Solution)
    requires AllHaveValues(mu, sol)
  {
    forall w :: w in vs && w.name == name ==> !RemovedVariable(w, mu, sol)
  }

  /** The stripped model has no growth activation or binary activator variable left. */
  lemma StripRemovesGrowthIntegers(vs: seq<Variable>, mu: seq<Variable>, sol: Solution)
    requires AllHaveValues(mu, sol)
    ensures forall v :: v in StrippedVariables(vs, mu, sol) ==> !IsGrowthInteger(v)
    ensures forall v :: v in vs && NoneRemovedNamed(vs, v.name, mu, sol) ==> v in StrippedVariables(vs, mu, sol)
  {
  }

  /** Stripping only removes variables, so bounds that were ordered stay ordered. */
  lemma StripKeepsBoundsOrdered(vs: seq<Variable>, mu: seq<Variable>, sol: Solution)
    requires AllHaveValues(mu, sol)
    requires AllBoundsOrdered(vs)
    ensures AllBoundsOrdered(StrippedVariables(vs, mu, sol))
  {
    var r := StrippedVariables(vs, mu, sol);
    forall i | 0 <= i < |r| ensures BoundsOrdered(r[i]) {
      assert r[i] in r;
      var j :| 0 <= j < |vs| && vs[j] == r[i];
    }
  }

  /** The stripped model keeps no constraint defined only on the binaries. */
  lemma StripRemovesBinaryConstraints(cs: seq<LinConstraint>, vs: seq<Variable>, mu: seq<Variable>, sol: Solution)
    requires AllHaveValues(mu, sol)
    ensures forall c :: c in StrippedConstraints(cs, vs, mu, sol) ==>
      c.kind !in {GROWTH_CHOICE, GROWTH_COUPLING, SOS1_CONSTRAINT, INTERPOLATION_CONSTRAINT}
  {
    ShiftedMatchesOriginal(cs, mu, sol);
    var kept, stripped := KeptConstraints(cs, mu, sol), StrippedConstraints(cs, vs, mu, sol);
    forall c | c in stripped
      ensures c.kind !in {GROWTH_CHOICE, GROWTH_COUPLING, SOS1_CONSTRAINT, INTERPOLATION_CONSTRAINT}
    {
      var i :| 0 <= i < |stripped| && stripped[i] == c;
      assert kept[i] in kept;
    }
  }

  /**
    Every constraint of the stripped model is an original one that is not
    removed, with its bounds moved by the total coefficient of the active bins
    hooked to it and without its terms in the removed variables; every
    original constraint whose name is not removed is kept so; no linearization
    constraint of an inactive bin survives by name.
  */
  lemma StripShiftsKeptConstraints(cs: seq<LinConstraint>, vs: seq<Variable>, mu: seq<Variable>, sol: Solution)
    requires AllHaveValues(mu, sol)
    ensures forall d :: d in StrippedConstraints(cs, vs, mu, sol) ==>
      exists i :: 0 <= i < |cs| && !RemovedConstraint(cs[i], mu, sol) &&
        d == DropTerms(Shift(cs[i], ShiftAmount(cs[i], mu, sol)), RemovedVariableNames(vs, mu, sol))
    ensures forall i :: 0 <= i < |cs| && cs[i].name !in RemovedConstraintNames(cs, mu, sol) ==>
      DropTerms(Shift(cs[i], ShiftAmount(cs[i], mu, sol)), RemovedVariableNames(vs, mu, sol))
        in StrippedConstraints(cs, vs, mu, sol)
    ensures forall c, d ::
      (c in cs && c.kind == LINEARIZATION_CONSTRAINT && InactiveHookIn(c.name, mu, sol) && d in StrippedConstraints(cs, vs, mu, sol))
      ==> d.name != c.name
  {
    var shifted := ShiftedAll(cs, mu, sol);
    var kept, stripped := KeptConstraints(cs, mu, sol), StrippedConstraints(cs, vs, mu, sol);
    var gone := RemovedVariableNames(vs, mu, sol);
    ShiftedMatchesOriginal(cs, mu, sol);
    forall i | 0 <= i < |cs| ensures shifted[i] == Shift(cs[i], ShiftAmount(cs[i], mu, sol)) {
      ShiftedByTotal(cs[i], mu, sol);
    }
    forall d | d in stripped
      ensures exists i :: 0 <= i < |cs| && !RemovedConstraint(cs[i], mu, sol) && d == DropTerms(Shift(cs[i], ShiftAmount(cs[i], mu, sol)), gone)
    {
      var k :| 0 <= k < |stripped| && stripped[k] == d;
      assert kept[k] in kept;
      var i :| 0 <= i < |cs| && shifted[i] == kept[k];
      assert cs[i].name == d.name;
      assert cs[i].name !in RemovedConstraintNames(cs, mu, sol);
    }
    forall i | 0 <= i < |cs| && cs[i].name !in RemovedConstraintNames(cs, mu, sol)
      ensures DropTerms(Shift(cs[i], ShiftAmount(cs[i], mu, sol)), gone) in stripped
    {
      assert shifted[i] in shifted;
      var k :| 0 <= k < |kept| && kept[k] == shifted[i];
      assert stripped[k] == DropTerms(kept[k], gone);
    }
    forall c, d | c in cs && c.kind == LINEARIZATION_CONSTRAINT && InactiveHookIn(c.name, mu, sol) && d in stripped
      ensures d.name != c.name
    {
      var k :| 0 <= k < |stripped| && stripped[k] == d;
      assert kept[k] in kept;
      assert c.name in RemovedConstraintNames(cs, mu, sol);
    }
  }

  /** No constraint of the stripped model keeps a term in a variable the strip removes. */
  lemma StripDropsRemovedColumns(cs: seq<LinConstraint>, vs: seq<Variable>, mu: seq<Variable>, sol: Solution)
    requires AllHaveValues(mu, sol)
    ensures forall d, v :: d in StrippedConstraints(cs, vs, mu, sol) && v in vs && v !in StrippedVariables(vs, mu, sol) ==>
      v.name !in d.coeffs
  {
    var kept, stripped := KeptConstraints(cs, mu, sol), StrippedConstraints(cs, vs, mu, sol);
    forall d, v | d in stripped && v in vs && v !in StrippedVariables(vs, mu, sol)
      ensures v.name !in d.coeffs
    {
      var k :| 0 <= k < |stripped| && stripped[k] == d;
      assert v.name in RemovedVariableNames(vs, mu, sol);
    }
  }

  /** Shifting keeps every name and class, so removal decisions are the same before and after. */
  lemma ShiftedMatchesOriginal(cs: seq<LinConstraint>, mu: seq<Variable>, sol: Solution)
    requires AllHaveValues(mu, sol)
    ensures forall i :: 0 <= i < |cs| ==>
      ShiftedAll(cs, mu, sol)[i].name == cs[i].name && ShiftedAll(cs, mu, sol)[i].kind == cs[i].kind
    ensures forall c :: c in ShiftedAll(cs, mu, sol) ==> exists i :: 0 <= i < |cs| && ShiftedAll(cs, mu, sol)[i] == c
  {
    forall i | 0 <= i < |cs| ensures ShiftedAll(cs, mu, sol)[i].name == cs[i].name && ShiftedAll(cs, mu, sol)[i].kind == cs[i].kind {
      ShiftedByTotal(cs[i], mu, sol);
    }
  }

  lemma AllHaveValuesPrefix(mu: seq<Variable>, sol: Solution, j: nat)
    requires AllHaveValues(mu, sol) && j <= |mu|
    ensures AllHaveValues(mu[..j], sol)
  {
    forall v | v in mu[..j] ensures v.name in sol {
      var k :| 0 <= k < j && mu[..j][k] == v;
      assert mu[k] == v;
    }
  }

  /** One more bin shifts a constraint once more exactly when it is active and its hook is in the name. */
  lemma ShiftedByStep(c: LinConstraint, mu: seq<Variable>, j: nat, sol: Solution)
    requires AllHaveValues(mu, sol) && j < |mu|
    ensures AllHaveValues(mu[..j], sol) && AllHaveValues(mu[..j + 1], sol)
    ensures ShiftedBy(c, mu[..j + 1], sol) ==
      if Shifts(mu[j], c, sol) then Shift(ShiftedBy(c, mu[..j], sol), Coeff(c, mu[j].name)) else ShiftedBy(c, mu[..j], sol)
  {
    AllHaveValuesPrefix(mu, sol, j);
    AllHaveValuesPrefix(mu, sol, j + 1);
    assert mu[..j + 1][..j] == mu[..j];
  }

  /** One more bin adds its hook to the removal test exactly when it is inactive. */
  lemma InactiveHookInStep(name: string, mu: seq<Variable>, j: nat, sol: Solution)
    requires AllHaveValues(mu, sol) && j < |mu|
    ensures AllHaveValues(mu[..j], sol) && AllHaveValues(mu[..j + 1], sol)
    ensures InactiveHookIn(name, mu[..j + 1], sol) <==>
      InactiveHookIn(name, mu[..j], sol) || (!IsActive(sol[mu[j].name]) && Contains(name, BinHook(mu[j])))
  {
    AllHaveValuesPrefix(mu, sol, j);
    AllHaveValuesPrefix(mu, sol, j + 1);
    assert mu[..j + 1][..j] == mu[..j];
  }

  function ConstraintsContaining(cs: seq<LinConstraint>, hook: string): (r: seq<LinConstraint>)
    ensures forall c :: c in r <==> c in cs && Contains(c.name, hook)
  {
    if cs == [] then []
    else (if Contains(cs[0].name, hook) then [cs[0]] else []) + ConstraintsContaining(cs[1..], hook)
  }

  function VariablesContaining(vs: seq<Variable>, hook: string): (r: seq<Variable>)
    ensures forall v :: v in r <==> v in vs && Contains(v.name, hook)
  {
    if vs == [] then []
    else (if Contains(vs[0].name, hook) then [vs[0]] else []) + VariablesContaining(vs[1..], hook)
  }

  /** Names of the linearization constraints an inactive bin of `mu` marks for removal. */
  function InactiveLinConstraintNames(cs: seq<LinConstraint>, mu: seq<Variable>, sol: Solution): set<string>
    requires AllHaveValues(mu, sol)
  {
    set c | c in cs && c.kind == LINEARIZATION_CONSTRAINT && InactiveHookIn(c.name, mu, sol) :: c.name
  }

  /** Names of the linearization variables an inactive bin of `mu` marks for removal. */
  function InactiveLinVariableNames(vs: seq<Variable>, mu: seq<Variable>, sol: Solution): set<string>
    requires AllHaveValues(mu, sol)
  {
    set v | v in vs && v.kind == LINEARIZATION_VARIABLE && InactiveHookIn(v.name, mu, sol) :: v.name
  }

  function SeqSet(xs: seq<string>): (r: set<string>)
    ensures forall n :: n in r <==> n in xs
  {
    set n | n in xs
  }

  /** Removing by no name keeps every constraint. */
  lemma {:induction false} ConstraintsWithoutNothing(cs: seq<LinConstraint>)
    ensures ConstraintsWithout(cs, {}) == cs
  {
    if cs != [] {
      ConstraintsWithoutNothing(cs[1..]);
    }
  }

  /** Removing by no name keeps every variable. */
  lemma {:induction false} VariablesWithoutNothing(vs: seq<Variable>)
    ensures VariablesWithout(vs, {}) == vs
  {
    if vs != [] {
      VariablesWithoutNothing(vs[1..]);
    }
  }

  /** Removing by one set of names and then another is removing by their union. */
  lemma {:induction false} ConstraintsWithoutTwice(cs: seq<LinConstraint>, a: set<string>, b: set<string>)
    ensures ConstraintsWithout(ConstraintsWithout(cs, a), b) == ConstraintsWithout(cs, a + b)
  {
    if cs != [] {
      ConstraintsWithoutTwice(cs[1..], a, b);
      var once := ConstraintsWithout(cs, a);
      if cs[0].name in a {
        assert once == ConstraintsWithout(cs[1..], a);
        assert ConstraintsWithout(cs, a + b) == ConstraintsWithout(cs[1..], a + b);
      } else {
        assert once == [cs[0]] + ConstraintsWithout(cs[1..], a);
        assert once[0] == cs[0] && once[1..] == ConstraintsWithout(cs[1..], a);
        assert ConstraintsWithout(once, b)
          == (if cs[0].name in b then [] else [cs[0]]) + ConstraintsWithout(once[1..], b);
      }
    }
  }

  /** The names of a prefix one longer: one name more. */
  lemma SeqSetStep(names: seq<string>, r: nat)
    requires r < |names|
    ensures SeqSet(names[..r + 1]) == SeqSet(names[..r]) + {names[r]}
  {
    assert names[..r + 1] == names[..r] + [names[r]];
  }

  /** One more `remove_constraint` of the loop in `RemoveConstraints`. */
  lemma RemoveConstraintStep(cs: seq<LinConstraint>, names: seq<string>, r: nat)
    requires r < |names|
    ensures ConstraintsWithout(ConstraintsWithout(cs, SeqSet(names[..r])), {names[r]})
      == ConstraintsWithout(cs, SeqSet(names[..r + 1]))
  {
    ConstraintsWithoutTwice(cs, SeqSet(names[..r]), {names[r]});
    SeqSetStep(names, r);
  }

  /** One more `remove_variable` of the loop in `RemoveVariables`. */
  lemma RemoveVariableStep(vs: seq<Variable>, cs: seq<LinConstraint>, names: seq<string>, r: nat)
    requires r < |names|
    ensures VariablesWithout(VariablesWithout(vs, SeqSet(names[..r])), {names[r]})
      == VariablesWithout(vs, SeqSet(names[..r + 1]))
    ensures DropAllTerms(DropAllTerms(cs, SeqSet(names[..r])), {names[r]})
      == DropAllTerms(cs, SeqSet(names[..r + 1]))
  {
    VariablesWithoutTwice(vs, SeqSet(names[..r]), {names[r]});
    DropAllTermsTwice(cs, SeqSet(names[..r]), {names[r]});
    SeqSetStep(names, r);
  }

  /** Dropping no column keeps every constraint. */
  lemma DropAllTermsNothing(cs: seq<LinConstraint>)
    ensures DropAllTerms(cs, {}) == cs
  {
    forall i | 0 <= i < |cs| ensures DropAllTerms(cs, {})[i] == cs[i] {
      assert cs[i].coeffs - {} == cs[i].coeffs;
    }
  }

  /** Dropping the columns of one set of names and then another is dropping those of their union. */
  lemma DropAllTermsTwice(cs: seq<LinConstraint>, a: set<string>, b: set<string>)
    ensures DropAllTerms(DropAllTerms(cs, a), b) == DropAllTerms(cs, a + b)
  {
    forall i | 0 <= i < |cs| ensures DropAllTerms(DropAllTerms(cs, a), b)[i] == DropAllTerms(cs, a + b)[i] {
      assert cs[i].coeffs - a - b == cs[i].coeffs - (a + b);
    }
  }

  /** Removing by one set of names and then another is removing by their union. */
  lemma {:induction false} VariablesWithoutTwice(vs: seq<Variable>, a: set<string>, b: set<string>)
    ensures VariablesWithout(VariablesWithout(vs, a), b) == VariablesWithout(vs, a + b)
  {
    if vs != [] {
      VariablesWithoutTwice(vs[1..], a, b);
      var once := VariablesWithout(vs, a);
      if vs[0].name in a {
        assert once == VariablesWithout(vs[1..], a);
        assert VariablesWithout(vs, a + b) == VariablesWithout(vs[1..], a + b);
      } else {
        assert once == [vs[0]] + VariablesWithout(vs[1..], a);
        assert once[0] == vs[0] && once[1..] == VariablesWithout(vs[1..], a);
        assert VariablesWithout(once, b)
          == (if vs[0].name in b then [] else [vs[0]]) + VariablesWithout(once[1..], b);
      }
    }
  }

  /** What `ShiftHooked` does for the active bin `mu[j]` is the next step of `ShiftedBy`. */
  lemma ShiftHookedStep(cs0: seq<LinConstraint>, before: seq<LinConstraint>, after: seq<LinConstraint>,
                        mu: seq<Variable>, j: nat, sol: Solution)
    requires AllHaveValues(mu, sol) && j < |mu| && IsActive(sol[mu[j].name])
    requires AllHaveValues(mu[..j], sol)
    requires before == ShiftedAll(cs0, mu[..j], sol) && |after| == |before|
    requires forall m :: 0 <= m < |after| ==>
      after[m] == if before[m].kind == LINEARIZATION_CONSTRAINT && Contains(before[m].name, BinHook(mu[j]))
        then Shift(before[m], Coeff(before[m], mu[j].name)) else before[m]
    ensures AllHaveValues(mu[..j + 1], sol)
    ensures after == ShiftedAll(cs0, mu[..j + 1], sol)
  {
    AllHaveValuesPrefix(mu, sol, j + 1);
    forall m | 0 <= m < |cs0| ensures after[m] == ShiftedBy(cs0[m], mu[..j + 1], sol) {
      ShiftedByStep(cs0[m], mu, j, sol);
      ShiftedByTotal(cs0[m], mu[..j], sol);
    }
  }

  /** An inactive bin leaves every constraint as it was. */
  lemma ShiftInactiveStep(cs0: seq<LinConstraint>, mu: seq<Variable>, j: nat, sol: Solution)
    requires AllHaveValues(mu, sol) && j < |mu| && !IsActive(sol[mu[j].name])
    ensures AllHaveValues(mu[..j], sol) && AllHaveValues(mu[..j + 1], sol)
    ensures ShiftedAll(cs0, mu[..j + 1], sol) == ShiftedAll(cs0, mu[..j], sol)
  {
    AllHaveValuesPrefix(mu, sol, j);
    AllHaveValuesPrefix(mu, sol, j + 1);
    forall m | 0 <= m < |cs0| ensures ShiftedBy(cs0[m], mu[..j + 1], sol) == ShiftedBy(cs0[m], mu[..j], sol) {
      ShiftedByStep(cs0[m], mu, j, sol);
    }
  }

  /** One more inactive bin adds the names of the linearization constraints holding its hook. */
  lemma InactiveLinConstraintNamesStep(cs: seq<LinConstraint>, linCons: seq<LinConstraint>, mu: seq<Variable>, j: nat,
                                       sol: Solution, prev: seq<string>)
    requires AllHaveValues(mu, sol) && j < |mu|
    requires linCons == ConstraintsOfKind(cs, LINEARIZATION_CONSTRAINT)
    requires AllHaveValues(mu[..j], sol) && SeqSet(prev) == InactiveLinConstraintNames(cs, mu[..j], sol)
    ensures AllHaveValues(mu[..j + 1], sol)
    ensures IsActive(sol[mu[j].name]) ==> SeqSet(prev) == InactiveLinConstraintNames(cs, mu[..j + 1], sol)
    ensures !IsActive(sol[mu[j].name]) ==>
      SeqSet(prev + ConstraintNames(ConstraintsContaining(linCons, BinHook(mu[j])))) == InactiveLinConstraintNames(cs, mu[..j + 1], sol)
  {
    AllHaveValuesPrefix(mu, sol, j + 1);
    forall c | c in cs { InactiveHookInStep(c.name, mu, j, sol); }
  }

  /** One more inactive bin adds the names of the linearization variables holding its hook. */
  lemma InactiveLinVariableNamesStep(vs: seq<Variable>, linVars: seq<Variable>, mu: seq<Variable>, j: nat,
                                     sol: Solution, prev: seq<string>)
    requires AllHaveValues(mu, sol) && j < |mu|
    requires linVars == OfKind(vs, LINEARIZATION_VARIABLE)
    requires AllHaveValues(mu[..j], sol) && SeqSet(prev) == InactiveLinVariableNames(vs, mu[..j], sol)
    ensures AllHaveValues(mu[..j + 1], sol)
    ensures IsActive(sol[mu[j].name]) ==> SeqSet(prev) == InactiveLinVariableNames(vs, mu[..j + 1], sol)
    ensures !IsActive(sol[mu[j].name]) ==>
      SeqSet(prev + Names(VariablesContaining(linVars, BinHook(mu[j])))) == InactiveLinVariableNames(vs, mu[..j + 1], sol)
  {
    AllHaveValuesPrefix(mu, sol, j + 1);
    forall v | v in vs { InactiveHookInStep(v.name, mu, j, sol); }
  }

  /** The names of the constraints of one class are the same before and after shifting. */
  lemma KindNamesOfShifted(cs: seq<LinConstraint>, mu: seq<Variable>, sol: Solution, kind: string)
    requires AllHaveValues(mu, sol)
    ensures SeqSet(ConstraintNames(ConstraintsOfKind(ShiftedAll(cs, mu, sol), kind))) == KindNames(cs, kind)
  {
    var shifted := ShiftedAll(cs, mu, sol);
    ShiftedMatchesOriginal(cs, mu, sol);
    forall n ensures n in ConstraintNames(ConstraintsOfKind(shifted, kind)) <==> exists c :: c in cs && c.kind == kind && c.name == n {
      if n in ConstraintNames(ConstraintsOfKind(shifted, kind)) {
        var c :| c in ConstraintsOfKind(shifted, kind) && c.name == n;
        var i :| 0 <= i < |cs| && shifted[i] == c;
        assert cs[i] in cs && cs[i].kind == kind && cs[i].name == n;
      }
      if exists c :: c in cs && c.kind == kind && c.name == n {
        var c :| c in cs && c.kind == kind && c.name == n;
        var i :| 0 <= i < |cs| && cs[i] == c;
        assert shifted[i] in ConstraintsOfKind(shifted, kind);
      }
    }
  }

  /** The constraints defined only on the binaries, queued after those of the inactive bins. */
  function BinaryOnlyConstraintNames(cs: seq<LinConstraint>): (r: seq<string>)
    ensures forall n :: n in r <==>
      (exists c :: c in cs && c.name == n && c.kind in {GROWTH_CHOICE, GROWTH_COUPLING, SOS1_CONSTRAINT, INTERPOLATION_CONSTRAINT})
  {
    ConstraintNames(ConstraintsOfKind(cs, GROWTH_CHOICE))
      + ConstraintNames(ConstraintsOfKind(cs, GROWTH_COUPLING))
      + ConstraintNames(ConstraintsOfKind(cs, SOS1_CONSTRAINT))
      + ConstraintNames(ConstraintsOfKind(cs, INTERPOLATION_CONSTRAINT))
  }

  function KindNames(cs: seq<LinConstraint>, kind: string): set<string> {
    set c | c in cs && c.kind == kind :: c.name
  }

  lemma SeqSetAppend(a: seq<string>, b: seq<string>)
    ensures SeqSet(a + b) == SeqSet(a) + SeqSet(b)
  {
  }

  /** Removal has two grounds: an inactive bin's hook, or a class that only the binaries use. */
  lemma RemovedConstraintNamesByGround(cs: seq<LinConstraint>, mu: seq<Variable>, sol: Solution)
    requires AllHaveValues(mu, sol)
    ensures RemovedConstraintNames(cs, mu, sol) ==
      InactiveLinConstraintNames(cs, mu, sol) + KindNames(cs, GROWTH_CHOICE) + KindNames(cs, GROWTH_COUPLING)
        + KindNames(cs, SOS1_CONSTRAINT) + KindNames(cs, INTERPOLATION_CONSTRAINT)
  {
  }

  lemma BinaryOnlyNamesOfShifted(cs: seq<LinConstraint>, mu: seq<Variable>, sol: Solution)
    requires AllHaveValues(mu, sol)
    ensures SeqSet(BinaryOnlyConstraintNames(ShiftedAll(cs, mu, sol))) ==
      KindNames(cs, GROWTH_CHOICE) + KindNames(cs, GROWTH_COUPLING) + KindNames(cs, SOS1_CONSTRAINT) + KindNames(cs, INTERPOLATION_CONSTRAINT)
  {
    var shifted := ShiftedAll(cs, mu, sol);
    var choice := ConstraintNames(ConstraintsOfKind(shifted, GROWTH_CHOICE));
    var coupling := ConstraintNames(ConstraintsOfKind(shifted, GROWTH_COUPLING));
    var sos := ConstraintNames(ConstraintsOfKind(shifted, SOS1_CONSTRAINT));
    var interp := ConstraintNames(ConstraintsOfKind(shifted, INTERPOLATION_CONSTRAINT));
    KindNamesOfShifted(cs, mu, sol, GROWTH_CHOICE);
    KindNamesOfShifted(cs, mu, sol, GROWTH_COUPLING);
    KindNamesOfShifted(cs, mu, sol, SOS1_CONSTRAINT);
    KindNamesOfShifted(cs, mu, sol, INTERPOLATION_CONSTRAINT);
    SeqSetAppend(choice, coupling);
    SeqSetAppend(choice + coupling, sos);
    SeqSetAppend(choice + coupling + sos, interp);
  }

  /**
    The names `strip_memodel_from_integers` queues for constraint removal: the
    linearization constraints of inactive bins, then every `GrowthChoice`,
    `GrowthCoupling`, `SOS1Constraint` and `InterpolationConstraint`.
  */
  lemma RemovedConstraintNamesSplit(cs: seq<LinConstraint>, mu: seq<Variable>, sol: Solution, queued: seq<string>)
    requires AllHaveValues(mu, sol)
    requires SeqSet(queued) == InactiveLinConstraintNames(cs, mu, sol)
    ensures SeqSet(queued + BinaryOnlyConstraintNames(ShiftedAll(cs, mu, sol))) == RemovedConstraintNames(cs, mu, sol)
  {
    BinaryOnlyNamesOfShifted(cs, mu, sol);
    SeqSetAppend(queued, BinaryOnlyConstraintNames(ShiftedAll(cs, mu, sol)));
    RemovedConstraintNamesByGround(cs, mu, sol);
  }

  /**
    The names `strip_memodel_from_integers` queues for variable removal: the
    linearization variables of inactive bins, then every growth activation
    and binary activator variable.
  */
  lemma RemovedVariableNamesSplit(vs: seq<Variable>, sol: Solution, queued: seq<string>)
    requires AllHaveValues(OfKind(vs, GROWTH_ACTIVATION), sol)
    requires SeqSet(queued) == InactiveLinVariableNames(vs, OfKind(vs, GROWTH_ACTIVATION), sol)
    ensures SeqSet(queued + Names(OfKind(vs, GROWTH_ACTIVATION)) + Names(OfKind(vs, BINARY_ACTIVATOR)))
      == RemovedVariableNames(vs, OfKind(vs, GROWTH_ACTIVATION), sol)
  {
    var mu, ba := OfKind(vs, GROWTH_ACTIVATION), OfKind(vs, BINARY_ACTIVATOR);
    var all := queued + Names(mu) + Names(ba);
    var removed := RemovedVariableNames(vs, mu, sol);
    forall n | n in removed ensures n in all {
      var v :| v in vs && RemovedVariable(v, mu, sol) && v.name == n;
      if v.kind == GROWTH_ACTIVATION {
        assert n in Names(mu);
      } else if v.kind == BINARY_ACTIVATOR {
        assert n in Names(ba);
      } else {
        assert n in InactiveLinVariableNames(vs, mu, sol);
      }
    }
    forall n | n in all ensures n in removed {
      if n in Names(mu) {
        var v :| v in mu && v.name == n;
        assert RemovedVariable(v, mu, sol);
      } else if n in Names(ba) {
        var v :| v in ba && v.name == n;
        assert RemovedVariable(v, mu, sol);
      } else {
        assert n in InactiveLinVariableNames(vs, mu, sol);
      }
    }
    assert SeqSet(all) == removed;
  }

  /** The slice of an ETFL model that the utilities read and write. */
  class Model {
    var variables: seq<Variable>
    var constraints: seq<LinConstraint>
    var solution: Option<Solution>
    /** The growth reaction's bounds and its flux at the last solution. */
    var growthLb: real
    var growthUb: real
    var growthFlux: real
    var muBins: seq<Bin>

    /** optlang keeps every variable's lower bound at most its upper bound. */
    predicate Valid()
      reads this
    {
      AllBoundsOrdered(variables)
    }

    constructor (variables: seq<Variable>, constraints: seq<LinConstraint>, solution: Option<Solution>,
                 growthLb: real, growthUb: real, growthFlux: real, muBins: seq<Bin>)
      ensures this.variables == variables && this.constraints == constraints && this.solution == solution
      ensures this.growthLb == growthLb && this.growthUb == growthUb && this.growthFlux == growthFlux
      ensures this.muBins == muBins
      ensures Valid() <==> forall i :: 0 <= i < |variables| ==> BoundsOrdered(variables[i])
    {
      this.variables := variables;
      this.constraints := constraints;
      this.solution := solution;
      this.growthLb := growthLb;
      this.growthUb := growthUb;
      this.growthFlux := growthFlux;
      this.muBins := muBins;
    }

    /** `model.copy()`: a new model with the same state. */
    constructor Copy(m: Model)
      ensures variables == m.variables && constraints == m.constraints && solution == m.solution
      ensures growthLb == m.growthLb && growthUb == m.growthUb && growthFlux == m.growthFlux
      ensures muBins == m.muBins
    {
      variables := m.variables;
      constraints := m.constraints;
      solution := m.solution;
      growthLb := m.growthLb;
      growthUb := m.growthUb;
      growthFlux := m.growthFlux;
      muBins := m.muBins;
    }

    /**
      `fix_growth`: pins every growth activation and binary activator
      variable, in order, to `int` of its solution value. A variable without
      a value raises `KeyError` and leaves the earlier ones pinned.
    */
    method FixGrowth(solution: Option<Solution>) returns (err: Option<Error>)
      requires Valid()
      modifies this`variables
      ensures Valid()
      ensures var checked := CheckSolution(this.solution, solution);
        checked.Failure? ==> err == Some(checked.error) && variables == old(variables)
      ensures var checked := CheckSolution(this.solution, solution);
        checked.Success? ==>
          var vs, sol, idxs := old(variables), checked.value, ToFix(old(variables));
          && (err.None? <==> HasValues(vs, sol, idxs))
          && (err.None? ==> variables == FixAt(vs, sol, idxs))
          && (err.Some? ==>
                exists k: nat :: FirstMissing(vs, sol, idxs, k) && err == Some(KeyError(vs[idxs[k]].name))
                  && variables == FixAt(vs, sol, idxs[..k]))
    {
      var checked := CheckSolution(this.solution, solution);
      if checked.Failure? {
        return Some(checked.error);
      }
      err := FixWith(checked.value);
    }

    /** The loop of `fix_growth` over the positions of `ToFix`, once the solution is known. */
    method FixWith(sol: Solution) returns (err: Option<Error>)
      requires Valid()
      modifies this`variables
      ensures Valid()
      ensures var vs, idxs := old(variables), ToFix(old(variables));
        && (err.None? <==> HasValues(vs, sol, idxs))
        && (err.None? ==> variables == FixAt(vs, sol, idxs))
        && (err.Some? ==>
              exists k: nat :: FirstMissing(vs, sol, idxs, k) && err == Some(KeyError(vs[idxs[k]].name))
                && variables == FixAt(vs, sol, idxs[..k]))
    {
      var idxs := ToFix(variables);
      ghost var vs := variables;
      var k := 0;
      while k < |idxs|
        invariant 0 <= k <= |idxs|
        invariant HasValues(vs, sol, idxs[..k])
        invariant variables == FixAt(vs, sol, idxs[..k])
        invariant Valid()
      {
        var i := idxs[k];
        var v := variables[i];
        assert v.name == vs[i].name;
        if v.name !in sol {
          assert FirstMissing(vs, sol, idxs, k);
          return Some(KeyError(v.name));
        }
        var t := Trunc(sol[v.name]) as real;
        assert BoundsOrdered(v);
        var r := AssignFixed(v, t);
        FixAtStep(vs, sol, idxs, k);
        variables := variables[i := r.value];
        k := k + 1;
      }
      assert idxs[..k] == idxs;
      return None;
    }

    /**
      `release_growth`: resets every growth activation and binary activator
      variable, in order, to the bounds [0, 1]. Setting the lower bound 0
      above a negative upper bound raises `ValueError`.
    */
    method ReleaseGrowth() returns (err: Option<Error>)
      requires Valid()
      modifies this`variables
      ensures Valid()
      ensures var vs, idxs := old(variables), ToFix(old(variables));
        && (err.None? <==> forall j :: 0 <= j < |idxs| ==> CanRelease(vs[idxs[j]]))
        && (err.None? ==> variables == ReleaseAt(vs, idxs))
        && (err.Some? ==>
              err == Some(ValueError) && exists k: nat :: FirstUnreleasable(vs, idxs, k) && variables == ReleaseAt(vs, idxs[..k]))
    {
      var idxs := ToFix(variables);
      ghost var vs := variables;
      var k := 0;
      while k < |idxs|
        invariant 0 <= k <= |idxs|
        invariant forall j :: 0 <= j < k ==> CanRelease(vs[idxs[j]])
        invariant variables == ReleaseAt(vs, idxs[..k])
        invariant Valid()
      {
        var i := idxs[k];
        assert CanRelease(variables[i]) == CanRelease(vs[i]);
        var r := ReleaseOne(variables[i]);
        if r.Failure? {
          assert FirstUnreleasable(vs, idxs, k);
          return Some(r.error);
        }
        ReleaseAtStep(vs, idxs, k);
        variables := variables[i := r.value];
        k := k + 1;
      }
      assert idxs[..k] == idxs;
      return None;
    }

    /** The inner loop of an active bin: shifts the linearization constraints whose name holds the bin's hook. */
    method ShiftHooked(ga: Variable)
      modifies this`constraints
      ensures |constraints| == |old(constraints)|
      ensures forall m :: 0 <= m < |constraints| ==>
        var c := old(constraints)[m];
        constraints[m] == if c.kind == LINEARIZATION_CONSTRAINT && Contains(c.name, BinHook(ga)) then Shift(c, Coeff(c, ga.name)) else c
    {
      var m := 0;
      while m < |constraints|
        invariant 0 <= m <= |constraints| && |constraints| == |old(constraints)|
        invariant forall p :: 0 <= p < m ==>
          var c := old(constraints)[p];
          constraints[p] == if c.kind == LINEARIZATION_CONSTRAINT && Contains(c.name, BinHook(ga)) then Shift(c, Coeff(c, ga.name)) else c
        invariant forall p :: m <= p < |constraints| ==> constraints[p] == old(constraints)[p]
      {
        var c := constraints[m];
        if c.kind == LINEARIZATION_CONSTRAINT && Contains(c.name, BinHook(ga)) {
          constraints := constraints[m := Shift(c, Coeff(c, ga.name))];
        }
        m := m + 1;
      }
    }

    /**
      The loop over the growth activation variables: an active bin shifts
      its linearization constraints, an inactive one marks its linearization
      constraints and variables for removal.
    */
    method ShiftAndCollect(mu: seq<Variable>, sol: Solution) returns (consRemove: seq<string>, varsRemove: seq<string>)
      requires AllHaveValues(mu, sol)
      modifies this`constraints
      ensures constraints == ShiftedAll(old(constraints), mu, sol)
      ensures SeqSet(consRemove) == InactiveLinConstraintNames(old(constraints), mu, sol)
      ensures SeqSet(varsRemove) == InactiveLinVariableNames(variables, mu, sol)
    {
      ghost var cs0 := constraints;
      var linCons := ConstraintsOfKind(constraints, LINEARIZATION_CONSTRAINT);
      var linVars := OfKind(variables, LINEARIZATION_VARIABLE);
      consRemove := [];
      varsRemove := [];
      var j := 0;
      AllHaveValuesPrefix(mu, sol, 0);
      while j < |mu|
        invariant 0 <= j <= |mu|
        invariant AllHaveValues(mu[..j], sol)
        invariant constraints == ShiftedAll(cs0, mu[..j], sol)
        invariant SeqSet(consRemove) == InactiveLinConstraintNames(cs0, mu[..j], sol)
        invariant SeqSet(varsRemove) == InactiveLinVariableNames(variables, mu[..j], sol)
      {
        var ga := mu[j];
        var hook := BinHook(ga);
        InactiveLinConstraintNamesStep(cs0, linCons, mu, j, sol, consRemove);
        InactiveLinVariableNamesStep(variables, linVars, mu, j, sol, varsRemove);
        if IsActive(sol[ga.name]) {
          ghost var before := constraints;
          ShiftHooked(ga);
          ShiftHookedStep(cs0, before, constraints, mu, j, sol);
        } else {
          consRemove := consRemove + ConstraintNames(ConstraintsContaining(linCons, hook));
          varsRemove := varsRemove + Names(VariablesContaining(linVars, hook));
          ShiftInactiveStep(cs0, mu, j, sol);
        }
        j := j + 1;
      }
      assert mu[..j] == mu;
    }

    /**
      The loop computing `mu_bar` over the `GrowthCoupling` constraints, the
      indexing `[0]` that needs at least one of them, and the two sums with
      that constraint's bounds.
    */
    static method BiomassBounds(mu: seq<Variable>, gcs: seq<LinConstraint>, sol: Solution) returns (r: Result<(real, real), Error>)
      ensures r == GrowthBounds(mu, gcs, sol)
    {
      var muBar := 0.0;
      var g := 0;
      while g < |gcs|
        invariant 0 <= g <= |gcs|
        invariant g > 0 ==> AllHaveValues(mu, sol) && WeightedSum(mu, sol, gcs[g - 1]) == Success(muBar)
      {
        var s := WeightedSum(mu, sol, gcs[g]);
        if s.Failure? {
          return Failure(s.error);
        }
        muBar := s.value;
        g := g + 1;
      }
      if |gcs| == 0 {
        return Failure(IndexError);
      }
      var gc := gcs[0];
      if gc.lb.None? || gc.ub.None? {
        return Failure(TypeError(NONE_OPERAND));
      }
      return Success((muBar + gc.lb.value, muBar + gc.ub.value));
    }

    /** `remove_constraint` of each queued name in turn. */
    method RemoveConstraints(names: seq<string>)
      modifies this`constraints
      ensures constraints == ConstraintsWithout(old(constraints), SeqSet(names))
    {
      var r := 0;
      ConstraintsWithoutNothing(constraints);
      assert SeqSet(names[..0]) == {};
      while r < |names|
        invariant 0 <= r <= |names|
        invariant constraints == ConstraintsWithout(old(constraints), SeqSet(names[..r]))
      {
        RemoveConstraintStep(old(constraints), names, r);
        constraints := ConstraintsWithout(constraints, {names[r]});
        r := r + 1;
      }
      assert names[..r] == names;
    }

    /** `remove_variable` of each queued name in turn: the variable goes, and so does its column in every constraint. */
    method RemoveVariables(names: seq<string>)
      modifies this`variables, this`constraints
      ensures variables == VariablesWithout(old(variables), SeqSet(names))
      ensures constraints == DropAllTerms(old(constraints), SeqSet(names))
    {
      var r := 0;
      VariablesWithoutNothing(variables);
      DropAllTermsNothing(constraints);
      assert SeqSet(names[..0]) == {};
      while r < |names|
        invariant 0 <= r <= |names|
        invariant variables == VariablesWithout(old(variables), SeqSet(names[..r]))
        invariant constraints == DropAllTerms(old(constraints), SeqSet(names[..r]))
      {
        RemoveVariableStep(old(variables), old(constraints), names, r);
        variables := VariablesWithout(variables, {names[r]});
        constraints := DropAllTerms(constraints, {names[r]});
        r := r + 1;
      }
      assert names[..r] == names;
    }

    /**
      The part of `strip_memodel_from_integers` after the growth bounds that
      concerns constraints: the loop over the bins, then the removal of the
      queued constraints. Returns the linearization variables queued by the loop.
    */
    method StripConstraints(mu: seq<Variable>, sol: Solution) returns (varsRemove: seq<string>)
      requires AllHaveValues(mu, sol)
      modifies this`constraints
      ensures constraints == KeptConstraints(old(constraints), mu, sol)
      ensures SeqSet(varsRemove) == InactiveLinVariableNames(variables, mu, sol)
    {
      ghost var cs0 := constraints;
      var consRemove;
      consRemove, varsRemove := ShiftAndCollect(mu, sol);
      RemovedConstraintNamesSplit(cs0, mu, sol, consRemove);
      consRemove := consRemove + BinaryOnlyConstraintNames(constraints);
      RemoveConstraints(consRemove);
    }

    /** The removal of the queued linearization variables and of every growth integer. */
    method StripVariables(mu: seq<Variable>, interp: seq<Variable>, sol: Solution, varsRemove: seq<string>)
      requires mu == OfKind(variables, GROWTH_ACTIVATION) && interp == OfKind(variables, BINARY_ACTIVATOR)
      requires AllHaveValues(mu, sol)
      requires SeqSet(varsRemove) == InactiveLinVariableNames(variables, mu, sol)
      modifies this`variables, this`constraints
      ensures variables == StrippedVariables(old(variables), mu, sol)
      ensures constraints == DropAllTerms(old(constraints), RemovedVariableNames(old(variables), mu, sol))
    {
      RemovedVariableNamesSplit(variables, sol, varsRemove);
      RemoveVariables(varsRemove + Names(mu) + Names(interp));
    }

    /** The part of `strip_memodel_from_integers` after the growth bounds. */
    method StripBinaries(mu: seq<Variable>, interp: seq<Variable>, sol: Solution)
      requires mu == OfKind(variables, GROWTH_ACTIVATION) && interp == OfKind(variables, BINARY_ACTIVATOR)
      requires AllHaveValues(mu, sol)
      modifies this`constraints, this`variables
      ensures variables == StrippedVariables(old(variables), mu, sol)
      ensures constraints == StrippedConstraints(old(constraints), old(variables), mu, sol)
    {
      var varsRemove := StripConstraints(mu, sol);
      StripVariables(mu, interp, sol, varsRemove);
    }

    /**
      The in-place part of `strip_memodel_from_integers`, applied to the copy:
      the growth bounds from the solution, then the stripped constraints and
      variables. A failed bound leaves the variables, the constraints and the
      upper bound as they were; the lower bound keeps the value written before
      the failing upper-bound assignment, if there was one.
    */
    method StripFrom(sol: Solution) returns (err: Option<Error>)
      modifies this`growthLb, this`growthUb, this`constraints, this`variables
      ensures var mu := OfKind(old(variables), GROWTH_ACTIVATION);
        var g := GrowthBounds(mu, ConstraintsOfKind(old(constraints), GROWTH_COUPLING), sol);
        && (g.Failure? ==>
              && err == Some(g.error)
              && variables == old(variables) && constraints == old(constraints) && growthUb == old(growthUb)
              && var p := PartialGrowthLb(mu, ConstraintsOfKind(old(constraints), GROWTH_COUPLING), sol);
                 growthLb == if p.Some? then p.value else old(growthLb))
        && (g.Success? ==>
              && err.None?
              && variables == StrippedVariables(old(variables), mu, sol)
              && constraints == StrippedConstraints(old(constraints), old(variables), mu, sol)
              && growthLb == g.value.0 && growthUb == g.value.1)
      ensures err.None? && old(Valid()) ==> Valid()
    {
      var mu := OfKind(variables, GROWTH_ACTIVATION);
      var interp := OfKind(variables, BINARY_ACTIVATOR);
      var gcs := ConstraintsOfKind(constraints, GROWTH_COUPLING);
      var bounds := BiomassBounds(mu, gcs, sol);
      if bounds.Failure? {
        var p := PartialGrowthLb(mu, gcs, sol);
        if p.Some? {
          growthLb := p.value;
        }
        return Some(bounds.error);
      }
      growthLb, growthUb := bounds.value.0, bounds.value.1;
      if Valid() {
        StripKeepsBoundsOrdered(variables, mu, sol);
      }
      StripBinaries(mu, interp, sol);
      return None;
    }

    /**
      `strip_memodel_from_integers`: on a copy of the model, fixes the growth
      bounds from the solution, shifts the linearization constraints of the
      active bins, removes those of the inactive bins and every constraint
      and variable that only the binaries use. The model itself is untouched.
    */
    method StripIntegers(solution: Option<Solution>) returns (res: Result<Model, Error>)
      ensures var checked := CheckSolution(this.solution, solution);
        checked.Failure? ==> res == Failure(checked.error)
      ensures var checked := CheckSolution(this.solution, solution);
        checked.Success? ==>
          var sol, mu := checked.value, OfKind(variables, GROWTH_ACTIVATION);
          var g := GrowthBounds(mu, ConstraintsOfKind(constraints, GROWTH_COUPLING), sol);
          && (g.Failure? ==> res == Failure(g.error))
          && (g.Success? ==>
                && res.Success? && fresh(res.value)
                && res.value.variables == StrippedVariables(variables, mu, sol)
                && res.value.constraints == StrippedConstraints(constraints, variables, mu, sol)
                && res.value.growthLb == g.value.0 && res.value.growthUb == g.value.1
                && res.value.growthFlux == growthFlux && res.value.muBins == muBins)
      ensures res.Success? && Valid() ==> res.value.Valid()
    {
      var checked := CheckSolution(this.solution, solution);
      if checked.Failure? {
        return Failure(checked.error);
      }
      var sol := checked.value;
      var copy := new Model.Copy(this);
      var err := copy.StripFrom(sol);
      if err.Some? {
        return Failure(err.value);
      }
      return Success(copy);
    }
  }
}
