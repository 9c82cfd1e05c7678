/** The experiment records of the bi-fidelity active-learning package: the
    dataset record and the experiment configuration, whose construction
    rejects an empty list of cost budgets and logs one warning when the
    budgets decrease somewhere. */
module UtilClasses {

  import opened Options
  import opened Budgets

  /** A low-fidelity or high-fidelity sampling function: normalised
      coordinates (one row per point) to one outcome per point. */
  type Sampler = seq<seq<real>> -> seq<real>

  /** A ground-truth probability function, used only for evaluation. */
  type Probability = seq<seq<real>> -> seq<real>

  /** A bi-fidelity toy dataset: its two samplers, their optional ground
      truths, a name and the cost of one query at each fidelity. No field is
      checked; in particular the costs may be any value. */
  datatype BiFidelityDataset = BiFidelityDataset(
    sample_LF: Sampler,
    sample_HF: Sampler,
    true_p_LF: Option<Probability>,
    true_p_HF: Option<Probability>,
    name: string,
    c_LF: real,
    c_HF: real)

  /** The settings of one batch active-learning experiment, one field per
      declared attribute, in declaration order. */
  datatype ALExperimentConfig = ALExperimentConfig(
    N_L_init: int,
    N_H_init: int,
    cost_constraints: seq<real>,
    N_cand_LF: int,
    N_cand_HF: int,
    domain_bounds: seq<(real, real)>,
    N_test: int,
    train_lr: real,
    train_epochs: int,
    random_seed: Option<int>,
    N_reps: int)

  /** Defaults of the attributes a caller may leave out. */
  const DefaultDomainBounds: seq<(real, real)> := [(0.0, 1.0), (0.0, 1.0)]
  const DefaultNTest: int := 1000
  const DefaultTrainLr: real := 0.01
  const DefaultTrainEpochs: int := 500
  const DefaultRandomSeed: Option<int> := None
  const DefaultNReps: int := 5

  /** The keyword arguments a caller may omit; `None` means "not passed".
      `random_seed` is itself optional, so passing `None` explicitly is
      `Some(None)`. */
  datatype Overrides = Overrides(
    domain_bounds: Option<seq<(real, real)>>,
    N_test: Option<int>,
    train_lr: Option<real>,
    train_epochs: Option<int>,
    random_seed: Option<Option<int>>,
    N_reps: Option<int>)

  /** A call that passes only the five required arguments. */
  const NoOverrides: Overrides := Overrides(None, None, None, None, None, None)

  /** The error raised when construction fails. */
  datatype ConfigError = ValueError(message: string)

  const EmptyCostConstraintsMessage: string := "cost_constraints list cannot be empty."
  const NotMonotonicMessage: string :=
    "cost_constraints are not monotonically increasing. This might lead to unexpected behavior."

  datatype Result<+T> = Ok(value: T) | Err(error: ConfigError)

  /** A successfully constructed configuration and the warning lines logged
      while constructing it. */
  datatype Constructed = Constructed(config: ALExperimentConfig, warnings: seq<string>)

  /** The configuration invariant that construction establishes. It is checked
      only when the configuration is built. */
  ghost predicate ValidConfig(c: ALExperimentConfig) {
    |c.cost_constraints| > 0
  }

  /** The post-construction check on the budgets: an empty list is an error;
      otherwise the result is the list of warnings logged, which holds the
      not-monotonic message once if some adjacent pair strictly decreases and
      is empty otherwise. */
  function Validate(costs: seq<real>): (r: Result<seq<string>>)
    ensures r.Err? <==> |costs| == 0
    ensures r.Err? ==> r.error == ValueError(EmptyCostConstraintsMessage)
    ensures r.Ok? ==> |r.value| <= 1
    ensures r.Ok? ==> forall m :: m in r.value ==> m == NotMonotonicMessage
    ensures r.Ok? ==> (|r.value| == 1 <==> HasAdjacentDecrease(costs))
  {
    if |costs| == 0 then Err(ValueError(EmptyCostConstraintsMessage))
    else
      FirstDecreaseFindsAny(costs);
      if FirstDecrease(costs, 0).Some? then Ok([NotMonotonicMessage]) else Ok([])
  }

  /** Builds the configuration from the required arguments and the keyword
      arguments actually passed, then runs the check on the budgets. On
      success every field holds the value supplied for it, or its default
      when none was supplied, and the warnings are those of the check. */
  function Construct(
    N_L_init: int, N_H_init: int, cost_constraints: seq<real>,
    N_cand_LF: int, N_cand_HF: int, given: Overrides): (r: Result<Constructed>)
    ensures r.Err? <==> |cost_constraints| == 0
    ensures r.Err? ==> r.error == ValueError(EmptyCostConstraintsMessage)
    ensures r.Ok? ==> ValidConfig(r.value.config)
    ensures r.Ok? ==> Validate(cost_constraints) == Ok(r.value.warnings)
    ensures r.Ok? ==>
      var c := r.value.config;
      && c.N_L_init == N_L_init && c.N_H_init == N_H_init
      && c.cost_constraints == cost_constraints
      && c.N_cand_LF == N_cand_LF && c.N_cand_HF == N_cand_HF
      && (given.domain_bounds.Some? ==> c.domain_bounds == given.domain_bounds.value)
      && (given.domain_bounds.None? ==> c.domain_bounds == DefaultDomainBounds)
      && (given.N_test.Some? ==> c.N_test == given.N_test.value)
      && (given.N_test.None? ==> c.N_test == DefaultNTest)
      && (given.train_lr.Some? ==> c.train_lr == given.train_lr.value)
      && (given.train_lr.None? ==> c.train_lr == DefaultTrainLr)
      && (given.train_epochs.Some? ==> c.train_epochs == given.train_epochs.value)
      && (given.train_epochs.None? ==> c.train_epochs == DefaultTrainEpochs)
      && (given.random_seed.Some? ==> c.random_seed == given.random_seed.value)
      && (given.random_seed.None? ==> c.random_seed == DefaultRandomSeed)
      && (given.N_reps.Some? ==> c.N_reps == given.N_reps.value)
      && (given.N_reps.None? ==> c.N_reps == DefaultNReps)
  {
    var config := ALExperimentConfig(
      N_L_init, N_H_init, cost_constraints, N_cand_LF, N_cand_HF,
      given.domain_bounds.GetOr(DefaultDomainBounds),
      given.N_test.GetOr(DefaultNTest),
      given.train_lr.GetOr(DefaultTrainLr),
      given.train_epochs.GetOr(DefaultTrainEpochs),
      given.random_seed.GetOr(DefaultRandomSeed),
      given.N_reps.GetOr(DefaultNReps));
    match Validate(cost_constraints)
    case Err(e) => Err(e)
    case Ok(warnings) => Ok(Constructed(config, warnings))
  }

  /** Every keyword argument passed explicitly, with the config's own values:
      for a valid configuration, constructing with these arguments and the
      config's required fields reproduces the configuration, with the
      warnings its budgets call for. */
  function OverridesOf(c: ALExperimentConfig): (o: Overrides)
    ensures ValidConfig(c) ==>
      Construct(c.N_L_init, c.N_H_init, c.cost_constraints, c.N_cand_LF,
                c.N_cand_HF, o) == Ok(Constructed(c, Validate(c.cost_constraints).value))
  {
    Overrides(Some(c.domain_bounds), Some(c.N_test), Some(c.train_lr),
              Some(c.train_epochs), Some(c.random_seed), Some(c.N_reps))
  }

  /** Constructing from a valid configuration's own field values gives back
      that configuration unchanged: the check modifies nothing. */
  lemma ConstructRoundTrip(c: ALExperimentConfig)
    requires ValidConfig(c)
    ensures Construct(c.N_L_init, c.N_H_init, c.cost_constraints, c.N_cand_LF,
                      c.N_cand_HF, OverridesOf(c)).Ok?
    ensures Construct(c.N_L_init, c.N_H_init, c.cost_constraints, c.N_cand_LF,
                      c.N_cand_HF, OverridesOf(c)).value.config == c
  {
  }

  /** The empty list fails whatever else is passed, and produces no config. */
  lemma EmptyBudgetsAlwaysFail(N_L_init: int, N_H_init: int, N_cand_LF: int,
                               N_cand_HF: int, given: Overrides)
    ensures Construct(N_L_init, N_H_init, [], N_cand_LF, N_cand_HF, given)
            == Err(ValueError(EmptyCostConstraintsMessage))
  {
  }

  /** A non-empty list always constructs; the monotonicity check never fails. */
  lemma NonEmptyBudgetsAlwaysConstruct(N_L_init: int, N_H_init: int,
                                       costs: seq<real>, N_cand_LF: int,
                                       N_cand_HF: int, given: Overrides)
    requires |costs| > 0
    ensures Construct(N_L_init, N_H_init, costs, N_cand_LF, N_cand_HF, given).Ok?
  {
  }

  /** For a non-empty list, a warning is logged exactly when the list is not
      sorted in non-decreasing order, which is what the warning's text says. */
  lemma WarnsIffNotSorted(costs: seq<real>)
    requires |costs| > 0
    ensures Validate(costs).Ok?
    ensures Validate(costs).value == [NotMonotonicMessage] <==> !NonDecreasing(costs)
    ensures Validate(costs).value == [] <==> NonDecreasing(costs)
  {
    NoAdjacentDecreaseIffNonDecreasing(costs);
  }

  /** However many adjacent pairs decrease, at most one warning is logged:
      the number of warnings is the count of decreasing pairs capped at one. */
  lemma {:induction false} AtMostOneWarning(costs: seq<real>)
    requires |costs| > 0
    ensures Validate(costs).Ok?
    ensures |Validate(costs).value| == if DecreasingPairs(costs) > 0 then 1 else 0
    ensures |Validate(costs).value| <= DecreasingPairs(costs)
  {
    DecreasingPairsPositiveIff(costs);
  }

  /** Equal consecutive budgets never warn, since the comparison is strict. */
  lemma EqualBudgetsNeverWarn(budget: real, rounds: nat)
    requires rounds > 0
    ensures Validate(seq(rounds, _ => budget)) == Ok([])
  {
  }

  /** A single budget never warns: there is no adjacent pair to compare. */
  lemma SingleBudgetNeverWarns(budget: real)
    ensures Validate([budget]) == Ok([])
  {
  }

  /** The budget list of the single-run driver, five rounds of 100 each,
      passes the check without a warning. */
  lemma DriverBudgetsWarningFree()
    ensures Validate([100.0, 100.0, 100.0, 100.0, 100.0]) == Ok([])
  {
  }

  /** A call passing only the required arguments gets the declared defaults. */
  lemma DefaultsWhenUnset(N_L_init: int, N_H_init: int, costs: seq<real>,
                          N_cand_LF: int, N_cand_HF: int)
    requires |costs| > 0
    ensures Construct(N_L_init, N_H_init, costs, N_cand_LF, N_cand_HF, NoOverrides).Ok?
    ensures
      var c := Construct(N_L_init, N_H_init, costs, N_cand_LF, N_cand_HF, NoOverrides).value.config;
      && c.domain_bounds == [(0.0, 1.0), (0.0, 1.0)]
      && c.N_test == 1000 && c.train_lr == 0.01 && c.train_epochs == 500
      && c.random_seed == None && c.N_reps == 5
  {
  }

  /** A list that dips once and recovers constructs with exactly one warning. */
  lemma DipWarnsOnce()
    ensures Validate([100.0, 50.0, 200.0]) == Ok([NotMonotonicMessage])
  {
  }
}
