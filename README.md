# Casino: a 10-armed bandit testbed, modelled in Dafny

The program plays a casino of ten slot machines ("bandits", or arms). Each
arm has a hidden true win probability. A strategy picks one arm per round,
and a Bernoulli trial is run on that arm. The arm's running counters and its
estimate `wins / plays` are then updated. Every round reports two things:
the estimates from before the trial and the cumulative regret after it.
Regret is the true probability of the best arm times the total plays, minus
the total wins.

The model has four modules, one per concern of `src/main.rs`:

- `Arms` (`arms.dfy`) holds the arm record `Bandit`, its creation
  (`Bandit::new`) and the trial step. It also defines the totals over an arm
  set and the invariant every arm keeps: no more wins than plays, and an
  estimate of 0.5 before the first play and `wins / plays` after it.
- `Selection` (`selection.dfy`) holds the comparators, `Iterator::max_by` as
  an index-returning function `MaxBy`, every `pick_*` selector, the
  `Strategy` enum and the per-round dispatch `Select`.
- `Accounting` (`accounting.dfy`) holds `Casino::regret`.
- `Simulation` (`simulation.dfy`) holds the casino itself and the run:
  - the arm construction of `run_casino_with_params`;
  - the pure round function `Round`, the run `Run` and the report `Trace`;
  - the class `Casino`, whose `Play` method updates an array of arms in
    place, one round per loop iteration. It is proved to leave exactly
    `Run(...)` in the array and to return exactly `Trace(...)`.

Randomness is an explicit input. Each round consumes one `Draws` record:

- the explore-or-exploit draw;
- the uniform arm index in [0, 10);
- one posterior sample per arm, for Thompson sampling;
- the trial's roll.

The exponential function used by epsilon-decay is a parameter `expE`.
Probabilities are exact `real`s. The counters are natural numbers, since
they start at 0 and are only ever incremented.

**Tie-breaking.** Rust's `Iterator::max_by` returns the last of several
equal maxima. So the oracle, greedy exploitation and Thompson sampling all
play the highest-indexed arm among ties. The adversarial strategy
(`TedCruz`, which is `max_by` with the comparator reversed) plays the
highest-indexed arm among ties for the lowest true probability (`MaxBy`,
`MaxByIsLastMax`).

**Number of rounds.** The number of rounds is `num_plays` when it is
positive and 0 otherwise, since `for _ in 0..num_plays` over an `i64` runs
no round for `num_plays <= 0` (`RoundCount`).

## Model

| member | source | states |
|---|---|---|
| `Arms.NewBandit` | src/main.rs:45-52 | A fresh arm has 0 plays and 0 wins, estimate 0.5, the given true probability, and satisfies the arm invariant. |
| `Arms.Trial` | src/main.rs:113-121 | A trial adds exactly one play. It adds one win iff the roll is at most the true probability, and otherwise leaves the wins alone. It keeps the true probability and sets the estimate to wins/plays. It preserves 0 ≤ wins ≤ plays, the estimate then lies in [0, 1], and the arm invariant is kept. |
| `Arms.Estimate` | src/main.rs:121 | wins/plays times plays is wins, and wins/plays is a probability when wins ≤ plays. |
| `Arms.TotalPlays` | src/main.rs:135 | The plays summed over all arms, as the fold of `regret` and of `pick_bandit_epsilon_decay` (line 201) compute them. Its properties are `TotalsUpdate`, `TotalsOfUnplayed`, `TotalWinsAtMostTotalPlays` and `RunTotalPlays`. |
| `Arms.TotalWins` | src/main.rs:138 | The wins summed over all arms, as the fold of `regret` computes them. Its properties are `TotalsUpdate`, `TotalsOfUnplayed` and `TotalWinsAtMostTotalPlays`. |
| `Arms.TotalsUpdate` | src/main.rs:135-138 | Replacing one arm changes the summed plays and the summed wins by exactly that arm's difference. |
| `Arms.TotalsOfUnplayed` | src/main.rs:135-138 | An arm set with no plays and no wins sums to 0 plays and 0 wins. |
| `Arms.TotalWinsAtMostTotalPlays` | src/main.rs:135-138 | When no arm has more wins than plays, the total wins do not exceed the total plays. |
| `Selection.CompareReal` | src/main.rs:256 | The three-way comparison is Less, Greater or Equal exactly when a < b, a > b or a = b. |
| `Selection.CompareByProbReal` | src/main.rs:161-169 | Arms compare by true probability, each of the three outcomes in both directions. |
| `Selection.CompareByProbEst` | src/main.rs:171-179 | Arms compare by estimated probability, each of the three outcomes in both directions. |
| `Selection.ReversedComparesNegated` | src/main.rs:207-214 | The reversed comparator compares the negated true probabilities, so `max_by` with it finds a minimum. |
| `Selection.MaxBy` | src/main.rs:182-185 | `max_by` over a non-empty sequence returns one of its indices. |
| `Selection.MaxByIsLastMax` | src/main.rs:181-186 | With a comparator that compares a real key, `max_by` returns an index of maximal key, and every later index has a strictly smaller key (the last maximum). |
| `Selection.LastMaxIsUnique` | src/main.rs:181-186 | The last maximum is unique, so the tie-break determines the choice. |
| `Selection.PickOracle` | src/main.rs:181-186 | The oracle returns an arm of maximal true probability, and every later arm has a strictly lower one. |
| `Selection.PickTedCruz` | src/main.rs:207-214 | The adversarial strategy returns an arm of minimal true probability, and every later arm has a strictly higher one. |
| `Selection.PickGreedy` | src/main.rs:233-236 | Exploitation returns an arm of maximal estimate, and every later arm has a strictly lower estimate. |
| `Selection.PickFirst` | src/main.rs:188-190 | The constant strategy always returns arm 0. |
| `Selection.PickNaiveRandom` | src/main.rs:262-268 | The naive strategy returns the drawn index in [0, 10). |
| `Selection.PickEpsilonGreedy` | src/main.rs:216-240 | It returns the drawn index when the draw ≤ ε, and otherwise the last arm of maximal estimate. |
| `Selection.EpsilonGreedyExtremes` | src/main.rs:222-237 | With a draw in [0, 1), ε ≥ 1 always explores and ε < 0 always exploits. |
| `Selection.DecayedEpsilon` | src/main.rs:201-202 | The decayed rate `epsilon_mod` = ε₀·e^(−α·t), with the exponential as a parameter. Its properties are `DecayedEpsilonAtStart` and `DecayedEpsilonDecreases`. |
| `Selection.DecayedEpsilonAtStart` | src/main.rs:201-202 | With α = 0 or t = 0, the decayed rate ε₀·e^(−α·t) equals ε₀. |
| `Selection.DecayedEpsilonDecreases` | src/main.rs:198-202 | For ε₀ > 0 and α > 0, the decayed rate strictly decreases as the total plays grow. |
| `Selection.PickEpsilonDecay` | src/main.rs:192-205 | Epsilon-greedy with the rate ε₀·e^(−α·t), where t is the sum of plays over all arms. It explores iff the draw ≤ that rate, and otherwise takes the last arm of maximal estimate. |
| `Selection.EpsilonDecayAtStart` | src/main.rs:198-204 | With α = 0 or no plays so far, epsilon-decay chooses exactly as epsilon-greedy with ε₀. |
| `Selection.ThompsonPosterior` | src/main.rs:249-252 | The Beta parameters are (wins + 1, losses + 1). The first is ≥ 1, the second is ≥ 1 iff wins ≤ plays, and they sum to plays + 2. |
| `Selection.BetaDefined` | src/main.rs:252 | `Beta::new(a, b)` succeeds, so `unwrap` does not panic, exactly when both shape parameters are positive. `PosteriorsDefined` shows this holds for every arm with wins ≤ plays. |
| `Selection.PosteriorsDefined` | src/main.rs:252 | When no arm has more wins than plays, every arm's `Beta::new` succeeds. |
| `Selection.PickThompson` | src/main.rs:242-260 | Thompson sampling returns the arm with the largest sampled θ, and every later arm's θ is strictly smaller. It is callable only when every posterior is defined. |
| `Selection.FixedChoice` | src/main.rs:181-214 | The oracle, constant and adversarial choices: the last arm of highest true probability, arm 0, and the last arm of lowest true probability. |
| `Selection.FixedChoiceOnProbReal` | src/main.rs:181-214 | The oracle, constant and adversarial choices depend only on the true probabilities. |
| `Selection.Select` | src/main.rs:99-111 | The dispatch always returns an arm index, and the one each strategy's rule calls for. Oracle: the last best arm. TedCruz: the last worst arm. Thompson: the last largest θ. Epsilon-greedy and epsilon-decay: the drawn index iff the draw ≤ ε (or the decayed rate), otherwise the last arm of highest estimate. ConstantFirst: arm 0. NaiveRandom: the drawn index. |
| `Accounting.IdealProbReal` | src/main.rs:128-134 | The ideal arm's true probability is that of every arm of maximal true probability, so it does not depend on the tie-break. |
| `Accounting.IdealProbRealIsMaximum` | src/main.rs:128-134 | Every non-empty arm set has an ideal arm, and the ideal probability is at least every arm's true probability. |
| `Accounting.Regret` | src/main.rs:127-141 | Regret is (maximal true probability) × (total plays) − (total wins), whichever ideal arm is used. |
| `Accounting.RegretOfUnplayed` | src/main.rs:127-141 | Regret is 0 when no arm has been played. |
| `Accounting.RegretBounds` | src/main.rs:127-141 | With wins ≤ plays on every arm, the regret lies between (best − 1) × total plays and best × total plays. |
| `Accounting.RegretStep` | src/main.rs:127-141 | One more play of any arm, with 0 or 1 more wins, adds the maximal true probability to the regret and takes away the win. |
| `Accounting.SameIdeal` | src/main.rs:128-134 | Arm sets with the same true probabilities have the same ideal probability. |
| `Simulation.RoundRecord` | src/main.rs:92-123 | A round's record holds every arm's estimate from before the round, in arm order, and the regret of the arm set after the round. |
| `Simulation.Estimates` | src/main.rs:92-97 | The snapshot lists every arm's estimate, in arm order. |
| `Simulation.NewArms` | src/main.rs:270-276 | One fresh arm per given probability, in order: counters 0, estimate 0.5, the given true probability. |
| `Simulation.RoundCount` | src/main.rs:91 | The number of iterations of `for _ in 0..num_plays`: `num_plays` when positive, otherwise 0. `Casino.Play` returns that many records. |
| `Simulation.Round` | src/main.rs:99-121 | A round keeps 10 arms and every true probability. It adds exactly one play to the total, and it preserves 0 ≤ wins ≤ plays and the arm invariant on every arm. |
| `Simulation.RoundChangesOnlySelected` | src/main.rs:99-121 | In a round the selected arm becomes its trial: one more play, one more win iff the roll ≤ its true probability and none otherwise, and the estimate wins/plays. Every other arm is unchanged. |
| `Simulation.Run` | src/main.rs:91-124 | The rounds played in sequence keep 10 arms and 0 ≤ wins ≤ plays. |
| `Simulation.Trace` | src/main.rs:91-124 | The report has one record per round. |
| `Simulation.NextRound` | src/main.rs:91-124 | Playing n + 1 rounds is playing n rounds and then round n, and it reports that round's snapshot and regret as one more record. |
| `Simulation.RunTotalPlays` | src/main.rs:91-124 | A run adds exactly one play per round to the total. |
| `Simulation.RunKeepsProbReal` | src/main.rs:99-121 | No true probability ever changes. |
| `Simulation.RunKeepsConsistent` | src/main.rs:113-121 | Every arm keeps wins ≤ plays and an estimate of wins/plays (0.5 before the first play) over a whole run. |
| `Simulation.RunWithFixedChoice` | src/main.rs:99-124 | Under the oracle, constant or adversarial strategy, a run plays the same arm every round. That arm gets all the plays, and every other arm is untouched. |
| `Simulation.ConstantFirstFromFresh` | src/main.rs:188-190 | From fresh arms, ConstantFirst gives arm 0 every round and every other arm 0 plays. |
| `Simulation.FreshRun` | src/main.rs:270-281 | From fresh arms, under every strategy, the total plays equal the number of rounds and every arm keeps its invariant. |
| `Simulation.RoundRegret` | src/main.rs:123 | Each round's reported regret is the previous regret plus the best true probability minus that round's win (1 or 0). |
| `Simulation.Casino.constructor` | src/main.rs:73-79 | The casino takes over the number of plays, the strategy and the given arms. |
| `Simulation.Casino.PlayArm` | src/main.rs:113-121 | The selected array slot becomes its trial, no other slot changes, and the casino invariant is kept. |
| `Simulation.Casino.PlayRound` | src/main.rs:99-121 | One round on the array leaves exactly the pure round `Round` of the old arms, and keeps the casino invariant. |
| `Simulation.Casino.Play` | src/main.rs:81-125 | The loop runs `RoundCount(numPlays)` rounds. It updates the array in place to exactly the run of those rounds, and returns exactly that run's report. |
| `Simulation.RunCasinoWithParams` | src/main.rs:270-281 | Building fresh arms and playing them yields the report of the run from fresh arms, with one record per round. |

## Left out

- `main` (src/main.rs:283-337) is left out. It parses the command line and panics on bad arguments; the model takes the probabilities, the number of plays and the strategy as parameters.
- Report formatting and output are left out: every `Display` impl, the CSV header, the `{:.5}` snapshot strings and `println!`. `Play` returns the records (estimates and regret) instead of printing them.
- `rand::thread_rng`, `gen`, `gen_range` and `rand_distr::Beta::sample` are left out. Each round's values arrive as a `Draws` record instead.
  - The model does not capture the distribution of the draws.
  - It does not capture the order in which the generator is consumed; a strategy ignores the draws it does not use.
  - The Beta distribution itself is not modelled; only the condition under which `Beta::new` succeeds is.
- `consts::E.powf` is left out. The exponential is the parameter `expE`, and the lemmas about decay state the properties of it that they use.
- IEEE `f64` behaviour is not modelled: rounding, NaN, `-0.0` under `total_cmp`, and the `i64` to `f64` casts. Probabilities and estimates are exact reals.
- `i64` overflow of the counters is not modelled. The counters are natural numbers; from fresh arms they cannot exceed the number of rounds, which is itself an `i64`.
- `Simulation.Casino.Play` aliasing: the Rust code mutates the arm through a `&mut Bandit` into the array. The model writes the updated arm back into its array slot, which has the same effect.
