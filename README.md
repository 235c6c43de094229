# Constraint taxonomy and optimisation utilities of ETFL

This project models two parts of the ETFL / thermome code base in Dafny and
proves properties of both.

- **The constraint taxonomy** (`constraints.dfy`, module `Constraints`). It
  models `therme/optim/constraints.py`:
  - the class hierarchy, as the datatype `ConstraintKind` with a `Parent` function;
  - each class's `prefix`, resolved along the inheritance chain the way
    Python's attribute lookup resolves it;
  - the `id` / `model` properties. Gene- and enzyme-scoped constraints read
    these through the owning record and do not store them;
  - the three constructors, and `LinearizationConstraint.from_constraints`.
  The file subclasses two bases, `GenericConstraint` and
  `ReactionConstraint`, that it neither defines nor imports. They are kinds
  here too, so that the inheritance chain
  has a root. The constructor arguments that reach `GenericConstraint` appear
  as a `BaseInit` record.
- **The optimisation utilities** (`optim_utils.dfy`, module `OptimUtils`). It
  models `etfl/optim/utils.py` over an abstract model state. That state holds:
  - the variables (name, class name, bounds) and the linear constraints
    (name, class name, bounds, coefficient per variable), both kept as
    sequences in registry order;
  - the last solution (a value per variable name);
  - the biomass reaction's bounds and flux;
  - the growth bins.
  What is modelled:
  - `make_subclasses_dict` and `SubclassIndexer`;
  - the first-match family dispatch of `rebuild_variable` / `rebuild_constraint`;
  - `check_solution`;
  - `get_active_growth_bounds`;
  - `fix_growth` / `release_growth`, as methods of the class `Model` that
    update its `variables` field in place;
  - `strip_memodel_from_integers`, as a method that builds a copy, then
    shifts and removes in loops.
- `wrappers.dfy` (module `Wrappers`) holds `Option` and `Result`. Python's
  exceptions become datatypes: `OptimUtils.Error` for the utilities and
  `Constraints.InitError` (`MissingArguments`) for the constructors. An operation that
  computes a value and can raise returns a `Result`, with the exception as
  `Failure(e)`. `fix_growth` and `release_growth` only update the model, so
  their methods return an `Option<Error>`: `None` when nothing was raised,
  `Some(e)` for the exception.

Parameters and results stand in for the outside world:
- `get_all_subclasses` from pytfa is a function parameter (`SubclassOracle`).
- The model's reaction, metabolite, enzyme and gene collections are sets of
  ids (`Hooks`).
- `add_variable` / `add_constraint` become the request records that a
  rebuild returns.
- `get_var_coeff` reads a coefficient from the constraint's coefficient map.

Python's own semantics are written out:
- `int()` truncates toward zero (`Trunc`).
- `np.isclose(v, 1)` with its default tolerances is `|v - 1| <= 1e-8 + 1e-5`.
- `min` followed by `index` picks the first minimum (`FirstArgMin`).
- A dict comprehension keeps the last value for a repeated key.
- optlang raises a `ValueError` when a variable's lower bound would go above
  its upper bound, or the reverse (`SetLb`, `SetUb`). This check decides
  which branch of `fix_growth`'s `try`/`except` runs.

Three behaviours follow from the code as written:
- `SubclassIndexer.refresh` purges the cache and then loops over the cache it
  has just emptied, so it behaves like `purge` (`Refresh`).
- `__getitem__` never fills the cache.
- `fix_growth` truncates a value such as `0.999995` to `0`, yet
  `strip_memodel_from_integers` counts the same value as an active bin
  (`FixGrowthTruncatesActiveValuesBelowOne`). The intent of the code does not
  say which of the two readings is meant, so this is stated as a property and
  not as a finding.

## Model

| member | source | states |
|---|---|---|
| Constraints.Parent | therme/optim/constraints.py:14-152 | Only the root `GenericConstraint` has no base class; every other class's base sits exactly one level closer to the root. |
| Constraints.IsA | therme/optim/constraints.py:14-152 | `issubclass` along the declared chain: a superclass is never deeper than its subclass, and at equal depth the two are the same class. |
| Constraints.IsATransitive | therme/optim/constraints.py:14-152 | Subclassing along the declared chain is transitive. |
| Constraints.IsAAntisymmetric | therme/optim/constraints.py:14-152 | No two distinct classes are subclasses of each other. |
| Constraints.EveryKindIsAGeneric | therme/optim/constraints.py:14-152 | Every class derives from `GenericConstraint`. |
| Constraints.Hierarchy | therme/optim/constraints.py:14-138 | `MassBalance` is an `EnzymeConstraint`; `ExpressionCoupling` is a `GeneConstraint`; `RibosomeRatio`, `GrowthChoice` and `LinearizationConstraint` are `ModelConstraint`s; `TotalCapacity` is a `CatalyticConstraint`, which is a `ReactionConstraint`; `TranslationConstraint` and `GrowthCoupling` are `ReactionConstraint`s. |
| Constraints.HierarchySeparates | therme/optim/constraints.py:59-118 | The chains are not crossed: `MassBalance` is no `GeneConstraint`, `ExpressionCoupling` is no `EnzymeConstraint`, and `CatalyticConstraint` is not a `TotalCapacity`. |
| Constraints.ScopeOfIsA | therme/optim/constraints.py:22-82 | A class is attached through the reaction, model, gene or enzyme base exactly when it derives from that base. |
| Constraints.DeclaredPrefix | therme/optim/constraints.py:14-152 | Exactly the external bases and the three scoped bases (`ModelConstraint`, `GeneConstraint`, `EnzymeConstraint`) declare no `prefix`; every declared prefix is non-empty. |
| Constraints.Prefix | therme/optim/constraints.py:14-152 | The `prefix` attribute lookup: a class's own declaration wins. With no declaration on the chain, the external base's prefix is used. Otherwise the prefix is that of a superclass that declares one, with no declaring class between the two (the nearest one). |
| Constraints.DeclaredPrefixIsFixed | therme/optim/constraints.py:14-152 | A class that declares a prefix has that prefix, whatever the external base provides. The prefix is non-empty, and only `ExpressionCoupling`'s ('EX') lacks the trailing underscore. |
| Constraints.UndeclaredPrefixIsInherited | therme/optim/constraints.py:22-82 | The scoped bases, which declare no prefix, inherit the external base's prefix. |
| Constraints.TotalCapacityOverridesCatalytic | therme/optim/constraints.py:107-113 | `TotalCapacity` is a `CatalyticConstraint`, but its prefix is 'TC_' where its parent's is 'EC_'. |
| Constraints.KindNameInjective | therme/optim/constraints.py:14-152 | Distinct classes have distinct `__name__`s. |
| Constraints.NewModelConstraint | therme/optim/constraints.py:27-32 | Succeeds exactly when `model`, `expr` and `id_` are all supplied, and otherwise reports the missing ones. On success it forwards all three, with the keyword arguments, to the base unchanged; `id` and `model` read back as given. |
| Constraints.NewGeneConstraint | therme/optim/constraints.py:40-56 | The constraint's `id` and the `id_` handed to the base are both the gene's id. Its `model` and the base's model are both the gene's model. `expr` and the keyword arguments are forwarded. |
| Constraints.NewEnzymeConstraint | therme/optim/constraints.py:64-80 | The same as `NewGeneConstraint`, for the enzyme's id and model. |
| Constraints.Id | therme/optim/constraints.py:22-80 | For a well-scoped constraint, `id` is the owning gene's id under `GeneConstraint`, the owning enzyme's id under `EnzymeConstraint`, and the `id_` given to the base under `ModelConstraint`. |
| Constraints.ModelOf | therme/optim/constraints.py:22-80 | The same for `model`: the gene's model, the enzyme's model, or the model given to the base. |
| Constraints.OwnerPropertiesAreDerived | therme/optim/constraints.py:50-56 | `id` and `model` are read through the owner: after the owner changes, the constraint reports the owner's new id and model, while the arguments once given to the base stay as they were. |
| Constraints.FromConstraintsAsWritten | therme/optim/constraints.py:142-150 | The call as written fails, and the one argument it reports missing is `id_`. |
| Constraints.FromConstraintsAsWrittenAlwaysFails | therme/optim/constraints.py:142-150 | On every input the call as written fails to bind `ModelConstraint.__init__`'s `id_` parameter, where the corrected call succeeds. |
| Constraints.FromConstraints | therme/optim/constraints.py:142-150 | With `id_` supplied, the clone is a `LinearizationConstraint` (prefix 'LC_') of the target model. It has the source constraint's id, name, expression and bounds. |
| Constraints.FromConstraintsIgnoresSourceModel | therme/optim/constraints.py:142-150 | The clone does not depend on the model the source constraint belonged to. |
| OptimUtils.NameIndexDomain | etfl/optim/utils.py:35 | The dict comprehension's keys are exactly the names of the list, and each key maps to a class of the list carrying that name. |
| OptimUtils.NameIndexLastWins | etfl/optim/utils.py:35 | Of several classes sharing a name, the dictionary keeps the last one. |
| OptimUtils.NameIndex | etfl/optim/utils.py:35 | The dict comprehension `{x.__name__: x for x in xs}`, built entry by entry in list order; the last class of the list always ends under its own name. |
| OptimUtils.MakeSubclassesDict | etfl/optim/utils.py:27-37 | `cls.__name__` maps to `cls`. Every key is its value's name, and every value is `cls` or one of its subclasses. Every subclass name is a key, and a name other than `cls`'s maps to the last subclass carrying it. |
| OptimUtils.SubclassIndexer.constructor | etfl/optim/utils.py:40-41 | The cache starts empty. |
| OptimUtils.SubclassIndexer.Get | etfl/optim/utils.py:43-49 | Returns the subclass dictionary of the class, which maps the class's own name to the class itself; the cache is left as it was. |
| OptimUtils.SubclassIndexer.Purge | etfl/optim/utils.py:51-52 | The cache is empty afterwards. |
| OptimUtils.SubclassIndexer.RecomputeEntries | etfl/optim/utils.py:56-57 | The cache keeps its classes, and each class's entry becomes that class's subclass dictionary. |
| OptimUtils.SubclassIndexer.Refresh | etfl/optim/utils.py:54-57 | Purging before the loop leaves the cache empty. |
| OptimUtils.Dispatch | etfl/optim/utils.py:188-242 | A chosen family's subclass dictionary holds the class name. |
| OptimUtils.FamilyDict | etfl/optim/utils.py:188-230 | `subix[<family base>]`: the base under its own name, every subclass `get_all_subclasses` lists under its name, and every key maps to a class carrying that name. |
| OptimUtils.DispatchIsFirstMatch | etfl/optim/utils.py:263-309 | No family tested before the chosen one (order: Reaction, Metabolite, Enzyme, Gene, Model) holds the name. No family is chosen exactly when none holds it. |
| OptimUtils.ResolveHook | etfl/optim/utils.py:263-306 | The model family hooks the model itself. Any other family hooks the entity with `this_id`, or raises `KeyError(this_id)` when its collection has no such id. |
| OptimUtils.RebuildVariable | etfl/optim/utils.py:173-244 | It raises `TypeError('Class … serialization not handled yet')` exactly when no family holds the name. On success the class is the family dictionary's entry for the name. The bounds, scaling factor and queue flag pass through. Only the model family passes `this_id` as `id_`, with the model as hook; the other families hook the entity with that id. Any other failure is the `KeyError` of a missing id. |
| OptimUtils.RebuildConstraint | etfl/optim/utils.py:247-311 | The same as `RebuildVariable`, over the constraint families, with the new expression passed through. |
| OptimUtils.CheckSolution | etfl/optim/utils.py:370-385 | A given solution is returned unchanged. Without one, the model's solution is returned. With neither, it raises `AttributeError` with the source's message. |
| OptimUtils.FirstArgMin | etfl/optim/utils.py:464-466 | Returns a position holding the smallest value, such that every earlier value is strictly larger. |
| OptimUtils.ActiveGrowthBounds | etfl/optim/utils.py:451-470 | It raises `ValueError` exactly when there are no bins. Otherwise it returns a bin whose `mu_i` is nearest to the growth rate (the given one, else the biomass flux), with every earlier bin strictly farther away. |
| OptimUtils.ActiveGrowthBoundsIsFirstNearest | etfl/optim/utils.py:459-470 | That bin is unique: any nearest bin with no equally near bin before it is the one returned. |
| OptimUtils.IndicesOfKind | etfl/optim/utils.py:341-342 | Lists exactly the positions of the variables of the given class. |
| OptimUtils.IndicesOfKindIncreasing | etfl/optim/utils.py:341-342 | The positions come in registry order, strictly increasing. |
| OptimUtils.ToFix | etfl/optim/utils.py:341-344 | The positions `fix_growth` and `release_growth` visit are exactly those of the growth activation and binary activator variables. |
| OptimUtils.ToFixOrder | etfl/optim/utils.py:341-344 | Every growth activation position comes before every binary activator position. The positions of one class are in registry order, and no position is visited twice. |
| OptimUtils.OfKind | etfl/optim/utils.py:533-534 | `get_variables_of_type` holds exactly the model's variables of that class. |
| OptimUtils.OfKindFollowsIndices | etfl/optim/utils.py:533-534 | Its j-th variable is the one at the j-th position from `IndicesOfKind`, so it lists them in registry order. |
| OptimUtils.ConstraintsOfKind | etfl/optim/utils.py:536-546 | `get_constraints_of_type` holds exactly the model's constraints of that class. |
| OptimUtils.ConstraintsOfKindAppend | etfl/optim/utils.py:536-546 | The constraints of one class keep registry order: those of `a + b` are those of `a` followed by those of `b`. |
| OptimUtils.Trunc | etfl/optim/utils.py:358 | `int()` rounds toward zero: the result is within one of the value, on the zero side. |
| OptimUtils.SetLb | etfl/optim/utils.py:358 | Setting a lower bound raises `ValueError` exactly when it would exceed the upper bound; otherwise only the lower bound changes. |
| OptimUtils.SetUb | etfl/optim/utils.py:359 | Setting an upper bound raises `ValueError` exactly when it would fall below the lower bound; otherwise only the upper bound changes. |
| OptimUtils.AssignFixed | etfl/optim/utils.py:357-363 | With the `try`/`except` order swap, a variable with ordered bounds ends with both bounds equal to the value, whatever its old bounds were. |
| OptimUtils.AssignUpperFirst | etfl/optim/utils.py:361-363 | The `except` branch, upper bound then lower: it raises `ValueError` exactly when the value is below the lower bound, and otherwise pins the variable to the value. |
| OptimUtils.LowerFirstFailsAboveUpper | etfl/optim/utils.py:357-363 | Fixing above the upper bound makes the first assignment raise, and the `except` branch still pins the variable. |
| OptimUtils.FixGrowthPinsExactlyTheGrowthIntegers | etfl/optim/utils.py:341-363 | After fixing, each growth integer has `lb == ub == int(value)`. Every other variable is unchanged, and all names are kept. |
| OptimUtils.FixGrowthTruncatesActiveValuesBelowOne | etfl/optim/utils.py:358 | A value just below 1 counts as an active bin, yet `int()` pins it to 0. |
| OptimUtils.ReleaseOne | etfl/optim/utils.py:407-408 | Resetting one variable to [0, 1] raises `ValueError` exactly when it cannot be released (`CanRelease`: its upper bound is negative); otherwise only the two bounds change. |
| OptimUtils.ReleaseGrowthResetsExactlyTheGrowthIntegers | etfl/optim/utils.py:397-408 | After releasing, each growth integer has the bounds [0, 1]. Every other variable is unchanged. |
| OptimUtils.ReleaseUndoesFix | etfl/optim/utils.py:388-408 | When every fixed value truncates to a non-negative integer, releasing cannot fail. Releasing after fixing then gives what releasing alone gives. |
| OptimUtils.FixAtStep | etfl/optim/utils.py:355-363 | One more iteration pins one more variable on top of those already pinned. |
| OptimUtils.ReleaseAtStep | etfl/optim/utils.py:402-408 | One more iteration releases one more variable on top of those already released. |
| OptimUtils.Model.constructor | etfl/optim/utils.py:533-547 | An abstract stand-in for the model state these lines read (the variable and constraint registries, the growth reaction's bounds and flux, the solution, the bins). The model holds exactly the given state, and satisfies `Valid` exactly when every given variable has ordered bounds. |
| OptimUtils.Model.Copy | etfl/optim/utils.py:527 | `model.copy()` gives a new model with the same variables, constraints, solution, biomass bounds, flux and bins. |
| OptimUtils.Model.FixWith | etfl/optim/utils.py:341-363 | The loop of `fix_growth` over the growth integers: it succeeds exactly when each has a value, and the variables are then those pinned by `FixAt`. Otherwise it raises `KeyError` for the first variable without a value, with only the earlier ones pinned. Bounds stay ordered. |
| OptimUtils.Model.FixGrowth | etfl/optim/utils.py:327-363 | A `check_solution` failure propagates and changes nothing. Otherwise it succeeds exactly when every growth integer has a value, and the new variables are those pinned by `FixAt`. If not, it raises `KeyError` for the first variable without a value, and only the variables before it are pinned. Bounds stay ordered. |
| OptimUtils.Model.ReleaseGrowth | etfl/optim/utils.py:388-412 | It succeeds exactly when no growth integer has a negative upper bound, and then the variables are those reset by `ReleaseAt`. Otherwise it raises `ValueError` at the first such variable, and only the variables before it are reset. Bounds stay ordered. |
| OptimUtils.WeightedSum | etfl/optim/utils.py:537-538 | `mu_bar` is computed exactly when every growth activation variable has a value; otherwise it is the `KeyError` of the first one without. |
| OptimUtils.GrowthBounds | etfl/optim/utils.py:536-543 | The biomass bounds are set exactly when there is a `GrowthCoupling` constraint, every value is present and that constraint has both bounds. Otherwise: `IndexError` with no such constraint; the `KeyError` of the first sum; or the `TypeError` of adding `None`. The bounds are `mu_bar` (from the last constraint) plus the first constraint's bounds. |
| OptimUtils.PartialGrowthLb | etfl/optim/utils.py:540-543 | When the bounds fail, a lower bound has already been written exactly when the constraint has a lower bound (and so the `TypeError` comes from the missing upper bound); it is `mu_bar` plus that lower bound. A `KeyError` or `IndexError` writes nothing. |
| OptimUtils.Model.BiomassBounds | etfl/optim/utils.py:536-543 | The loop and the checks compute exactly `GrowthBounds`. |
| OptimUtils.IsActive | etfl/optim/utils.py:548 | `np.isclose(value, 1)` with the default tolerances holds exactly for the values within 1.001e-5 of 1. |
| OptimUtils.BinHook | etfl/optim/utils.py:550 | The hook is the growth activation variable's name followed by one `_`. |
| OptimUtils.ConstraintsContaining | etfl/optim/utils.py:552-553 | The constraints whose name contains the hook, and only those (also the list at 562-563). |
| OptimUtils.VariablesContaining | etfl/optim/utils.py:564-565 | The variables whose name contains the hook, and only those. |
| OptimUtils.BinaryOnlyConstraintNames | etfl/optim/utils.py:568-571 | The names queued for the four binary-only classes are exactly those of the `GrowthChoice`, `GrowthCoupling`, `SOS1Constraint` and `InterpolationConstraint` constraints. |
| OptimUtils.Coeff | etfl/optim/utils.py:503-505 | The coefficient recorded for the variable, and zero when the constraint has no term for it. A non-zero coefficient means the term exists. |
| OptimUtils.ShiftedByTotal | etfl/optim/utils.py:549-559 | Shifting bin by bin moves each present bound by minus the total coefficient of the active bins hooked by name. It leaves absent bounds absent and everything else unchanged. |
| OptimUtils.DropTerms | etfl/optim/utils.py:579-580 | `remove_variable` takes the column out of a row: the constraint keeps its name, class and bounds, and exactly its terms in the variables not removed, with their coefficients. |
| OptimUtils.Model.ShiftHooked | etfl/optim/utils.py:552-559 | Each linearization constraint whose name holds the bin's hook has its present bounds shifted by minus the bin's coefficient. Every other constraint is unchanged. |
| OptimUtils.Model.ShiftAndCollect | etfl/optim/utils.py:546-565 | After the loop over the bins, every constraint is shifted by the active bins. The queued names are exactly the linearization constraints and variables hooked to an inactive bin. |
| OptimUtils.Model.RemoveConstraints | etfl/optim/utils.py:573-574 | Removes exactly the constraints whose names are queued, keeping the order of the rest. |
| OptimUtils.Model.RemoveVariables | etfl/optim/utils.py:579-580 | Removes exactly the variables whose names are queued, keeping the order of the rest, and takes each removed variable's term out of every constraint (`DropTerms`). |
| OptimUtils.Model.StripConstraints | etfl/optim/utils.py:546-574 | The constraints become `KeptConstraints`: shifted by the active bins, without the queued ones. The queued variable names are those hooked to an inactive bin. |
| OptimUtils.Model.StripVariables | etfl/optim/utils.py:577-580 | The variables become `StrippedVariables`, and every constraint loses its terms in the removed variables. |
| OptimUtils.Model.StripBinaries | etfl/optim/utils.py:546-580 | The constraints and variables become `StrippedConstraints` and `StrippedVariables`. |
| OptimUtils.Model.StripFrom | etfl/optim/utils.py:533-580 | Applied to the copy: a failed biomass bound propagates and leaves the variables, constraints and upper bound as they were; the lower bound keeps the value `PartialGrowthLb` says was written before the upper-bound assignment raised. Otherwise the growth bounds are set and the constraints and variables become `StrippedConstraints` and `StrippedVariables`; bounds stay ordered. |
| OptimUtils.Model.StripIntegers | etfl/optim/utils.py:507-582 | A `check_solution` or biomass bound failure propagates. Otherwise a fresh copy is returned with the stripped variables and constraints, the computed biomass bounds and the bins and flux unchanged; the original model is not modified. A model with ordered bounds yields a copy with ordered bounds. |
| OptimUtils.StripKeepsBoundsOrdered | etfl/optim/utils.py:577-580 | Stripping only drops variables, so ordered bounds stay ordered. |
| OptimUtils.StripRemovesGrowthIntegers | etfl/optim/utils.py:577-580 | No growth activation or binary activator variable survives stripping. Every variable whose name no removed variable shares is kept. |
| OptimUtils.StrippedVariables | etfl/optim/utils.py:577-580 | The reference definition of the stripped variables: the originals whose names are not removed. No variable it keeps is one the strip removes. |
| OptimUtils.StrippedConstraints | etfl/optim/utils.py:546-580 | The reference definition of the stripped constraints: the shifted originals not removed, without the removed variables' columns. Its properties are `StripShiftsKeptConstraints`, `StripDropsRemovedColumns` and `StripRemovesBinaryConstraints`. |
| OptimUtils.StripRemovesBinaryConstraints | etfl/optim/utils.py:567-574 | No `GrowthChoice`, `GrowthCoupling`, `SOS1Constraint` or `InterpolationConstraint` survives stripping. |
| OptimUtils.StripShiftsKeptConstraints | etfl/optim/utils.py:549-580 | Each surviving constraint is an original, not removed, shifted by its active bins' total coefficient and without its terms in the removed variables. Every original whose name is not removed survives so. No linearization constraint of an inactive bin survives. |
| OptimUtils.StripDropsRemovedColumns | etfl/optim/utils.py:577-580 | No surviving constraint has a term in a variable the strip removes: an active bin's linearization constraint, shifted by the bin's coefficient, no longer carries that bin's term. |
| OptimUtils.RemovedConstraintNamesSplit | etfl/optim/utils.py:561-571 | The names queued by the bin loop, together with the binary-only classes, are exactly the constraints to remove. |
| OptimUtils.RemovedVariableNamesSplit | etfl/optim/utils.py:564-578 | The names queued by the bin loop, together with the growth integers, are exactly the variables to remove. |

## Left out

- `fix_integers`, `_gurobi_fix_integers` and `_generic_fix_integers`: the
  symbolic substitution (`expr.subs`) and solver-specific rebuilding are
  calls into sympy, optlang and Gurobi whose behaviour is not visible here.
- Gurobi hints (`VarHintVal` / `VarHintPri`), `is_gurobi`,
  `apply_warm_start`, `release_warm_start` and `get_binding_constraints`:
  these are reads and writes of solver internals.
- `safe_optim`: it only catches, logs and returns NaN around the solver call.
- `get_var_coeff`: coefficients are given data (`Coeff`), not derived from
  symbolic expressions.
- Logging, `print` and the solver update / optimize calls.
- `get_all_subclasses` and the pytfa base classes: these are external. The
  subclass list is a function parameter, and `GenericConstraint.__init__`
  appears only as the `BaseInit` record it receives.
- `model.copy`, `add_variable`, `add_constraint`, `remove_variable` and
  `remove_constraint` internals. A copy is a new `Model` with the same state;
  an add is a returned request record; removing a constraint filters it out
  by name, and removing a variable filters it out by name and drops its
  column from every constraint.
- Model.RemoveConstraints: removes by name. Removing the same constraint twice
  (two inactive bins whose hooks both occur in one name) does not raise here,
  while the framework's behaviour on a second removal is not modelled.
- Model.RemoveVariables: removes by name. The same applies to queueing one
  variable twice.
- Model.ShiftAndCollect: does not model optlang's bound check on constraints.
  The lower bound is assigned before the upper bound. With a negative
  coefficient, the new lower bound can exceed the old upper bound, and optlang
  would raise `ValueError` there. Here the shift always succeeds.
- Model.StripIntegers: does not model cobra's check when the biomass bounds
  are set (a lower bound above the upper bound).
- The `TypeError` of `mu_bar + None` keeps only the head of Python's message
  (`NONE_OPERAND`). The operand type names that follow it depend on what
  `solution.raw` and `get_var_coeff` return, which neither file fixes.
- `GenericConstraint` and `ReactionConstraint` are unbound in
  `therme/optim/constraints.py` as written: it has no import statement, so
  loading the module raises `NameError` at line 14. The model assumes both
  names are bound to pytfa's classes, as `etfl/optim/utils.py:14` binds
  `ReactionConstraint` from `pytfa.optim.constraints`.
- Keyword arguments other than `name`, `lb` and `ub` (`Constraints.Kwargs`),
  and the `TypeError` Python raises when a keyword collides with `model`,
  `expr` or `id_`, are not modelled.
- Constraints.UndeclaredPrefixIsInherited: assumes that pytfa's
  `ReactionConstraint` declares no `prefix` of its own and so shares
  `GenericConstraint`'s (`basePrefix`). pytfa's class bodies are not part of
  this model; if `ReactionConstraint` declared one, it and its undeclared
  subclasses would carry that prefix instead.
- Floating point: values are exact reals, so rounding in the sums and
  differences is not modelled.
- The cache of `SubclassIndexer` is keyed by class values. Python class
  identity is not distinguished from equality of name and module.

## Findings

| source | as written | input that shows it | evidently intended | confidence | as-written member | corrected member |
|---|---|---|---|---|---|---|
| therme/optim/constraints.py:142-150 | `from_constraints` calls `LinearizationConstraint(name=…, expr=…, model=…, ub=…, lb=…)` without `id_`, but the inherited `ModelConstraint.__init__` requires `id_` | any constraint `cons` and model `m`: `from_constraints(cons, m)` raises `TypeError` for the missing `id_` | the clone carries the source constraint's id (`id_=cons.id`) | not executed | Constraints.FromConstraintsAsWritten (with Constraints.FromConstraintsAsWrittenAlwaysFails) | Constraints.FromConstraints |
