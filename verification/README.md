# Bi-fidelity active-learning experiment configuration

This project models the experiment records of a multi-fidelity batch
active-learning package: the `BiFidelityDataset` record (two sampling
functions, their optional ground-truth probability functions, a name and a
per-query cost at low and high fidelity) and the `ALExperimentConfig`
record, whose construction validates the list of per-round cost budgets.

Construction of a configuration:

- rejects an empty `cost_constraints` list with a `ValueError` carrying the
  message "cost_constraints list cannot be empty.", and produces no config;
- otherwise always succeeds, and logs the warning "cost_constraints are not
  monotonically increasing. ..." once when some budget is strictly larger than
  the next one, and nothing otherwise;
- changes no field: every field keeps the value passed, and the optional
  ones take their declared defaults (`domain_bounds = [(0,1),(0,1)]`,
  `N_test = 1000`, `train_lr = 0.01`, `train_epochs = 500`,
  `random_seed = None`, `N_reps = 5`).

Files:

- `options.dfy` — module `Options`: the `Option` type used for
  `Optional[...]` fields and for keyword arguments a caller may leave unset.
- `budgets.dfy` — module `Budgets`: the short-circuiting adjacent-pair scan
  that the validation's `any(...)` performs, the count of decreasing pairs,
  and the proof that "no adjacent pair decreases" is the same as "the list is
  sorted in non-decreasing order".
- `util_classes.dfy` — module `UtilClasses`: the two records, the defaults,
  `Validate` (the post-construction check), `Construct` (the generated
  initialiser followed by the check) and the properties relating them.

Modelling choices:

- Budgets are `real`: the check only compares them.
- The warning is not I/O here: `Validate` returns the list of lines it would
  log (empty, or the one not-monotonic message), and `Construct` returns it
  beside the config.
- Keyword arguments are an `Overrides` record of `Option`s, where `None`
  means "not passed". `random_seed` is itself optional, so an explicit
  `random_seed=None` is `Some(None)`.
- The warning says the budgets are "not monotonically increasing", but the
  check (src/active_learning/util_classes.py:71) warns only when a budget is
  strictly greater than the next one, so equal neighbours are silent. The
  model follows the code.

## Model

| member | source | states |
|---|---|---|
| `Budgets.FirstDecrease` | src/active_learning/util_classes.py:71 | the scan returns an index whose budget is strictly above the next and before which no adjacent pair decreases, or nothing when no adjacent pair from the start index decreases |
| `Budgets.FirstDecreaseFindsAny` | src/active_learning/util_classes.py:71 | the scan from index 0 finds a decrease if and only if some adjacent pair strictly decreases |
| `Budgets.DecreasingPairsPositiveIff` | src/active_learning/util_classes.py:71 | the number of strictly decreasing adjacent pairs is positive exactly when some adjacent pair decreases |
| `Budgets.NoAdjacentDecreaseIffNonDecreasing` | src/active_learning/util_classes.py:71-73 | no adjacent pair decreases if and only if every budget is at most every later budget, which is what the warning text claims to check |
| `UtilClasses.Validate` | src/active_learning/util_classes.py:68-73 | empty budgets give a ValueError with the source's message and nothing else does; a non-empty list logs at most one line, always the not-monotonic message, and logs it exactly when some adjacent pair strictly decreases |
| `UtilClasses.Construct` | src/active_learning/util_classes.py:56-73 | construction fails exactly for empty budgets; on success the config satisfies the non-empty invariant, every field is the value passed or its declared default, and the warnings are those of the check |
| `UtilClasses.OverridesOf` | src/active_learning/util_classes.py:56-73 | passing every optional field explicitly with a valid config's own values, together with its required fields, constructs exactly that config, with the warnings its budgets call for |
| `UtilClasses.ConstructRoundTrip` | src/active_learning/util_classes.py:56-73 | constructing from a valid config's own field values succeeds and returns that same config, so validation modifies nothing |
| `UtilClasses.EmptyBudgetsAlwaysFail` | src/active_learning/util_classes.py:69-70 | with an empty budget list construction fails with the ValueError whatever the other arguments are |
| `UtilClasses.NonEmptyBudgetsAlwaysConstruct` | src/active_learning/util_classes.py:71-73 | any non-empty budget list constructs successfully; the monotonicity check never fails |
| `UtilClasses.WarnsIffNotSorted` | src/active_learning/util_classes.py:71-73 | a non-empty list logs the warning if and only if it is not sorted in non-decreasing order, and logs nothing if and only if it is |
| `UtilClasses.AtMostOneWarning` | src/active_learning/util_classes.py:71-73 | the number of warnings is the number of decreasing adjacent pairs capped at one, so many decreases still log one line |
| `UtilClasses.EqualBudgetsNeverWarn` | src/active_learning/util_classes.py:71 | a list of any positive length whose budgets are all equal logs no warning, since the comparison is strict |
| `UtilClasses.SingleBudgetNeverWarns` | src/active_learning/util_classes.py:71 | a one-budget list logs no warning, since there is no adjacent pair |
| `UtilClasses.DriverBudgetsWarningFree` | src/active_learning/main_single.py:45 | the driver's five budgets of 100 pass the check without a warning |
| `UtilClasses.DefaultsWhenUnset` | src/active_learning/util_classes.py:61-66 | a call passing only the five required arguments gets domain bounds [(0,1),(0,1)], 1000 test points, learning rate 0.01, 500 epochs, no seed and 5 repeats |
| `UtilClasses.DipWarnsOnce` | src/active_learning/util_classes.py:71-73 | the budgets [100, 50, 200] construct with exactly one warning |

## Left out

- `BiFidelityModel` (src/active_learning/util_classes.py:11-38): an abstract interface with no behaviour of its own, over tensor and Gaussian-process code.
- `BiFidelityDataset` behaviour: its samplers and ground-truth functions are foreign callables, modelled only as total functions over `real` sequences; their stochasticity is not modelled, and no property of the costs is assumed because none is checked.
- Python's dynamic typing: a `cost_constraints` value that is not a list (`None`, a NumPy array) and ill-typed fields are not modelled; the model takes a sequence of reals.
- Floating-point NaN and infinite budgets: budgets are exact reals. `inf` and `-inf` have no `real` counterpart; they compare as extended reals, so the warning decision for lists holding them is the same, but the model cannot state it.
- Mutability of the configuration: the source record is a plain, non-frozen dataclass that keeps the caller's `cost_constraints` list by reference, so the non-empty check holds only when the config is built. A later assignment of an empty list, or clearing the caller's list, goes unchecked. The model's config is an immutable value, and `ValidConfig` states the invariant only for configs `Construct` returns.
- Logging as I/O: the warning is returned as a line of text.
- The single-run driver (src/active_learning/main_single.py): logging setup, toy problems and averaging of samples. Its configuration call also passes a `model_args` keyword that the configuration does not declare, so that call is not modelled; only its budget list is.
- The experiment runner, the acquisition strategies and the model classes the driver imports are not part of this model: their source is not among the modelled files.
- The default `domain_bounds` list is built fresh for each config by a factory; immutable sequences make that sharing question moot.
