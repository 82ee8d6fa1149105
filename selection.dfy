/** The strategy selectors: each decides which arm to play next, given the
    arm set and the round's random draws, and returns the arm's index. */
module Selection {
  import opened Arms

  /** Three-way comparison result (`std::cmp::Ordering`). */
  datatype Ordering = Less | Equal | Greater

  /** Comparison of two probabilities by `<` and `>`, `Equal` otherwise.
      On probabilities (no NaN) `f64::total_cmp` gives the same answer. */
  function CompareReal(a: real, b: real): (r: Ordering)
    ensures r == Less <==> a < b
    ensures r == Greater <==> a > b
    ensures r == Equal <==> a == b
  {
    if a < b then Less else if a > b then Greater else Equal
  }

  /** Orders arms by their true probability (`compare_bandits_by_p_real`). */
  function CompareByProbReal(a: Bandit, b: Bandit): (r: Ordering)
    ensures r == Less <==> a.probReal < b.probReal
    ensures r == Greater <==> a.probReal > b.probReal
    ensures r == Equal <==> a.probReal == b.probReal
  {
    CompareReal(a.probReal, b.probReal)
  }

  /** Orders arms by their estimated probability (`compare_bandits_by_p_est`). */
  function CompareByProbEst(a: Bandit, b: Bandit): (r: Ordering)
    ensures r == Less <==> a.probEst < b.probEst
    ensures r == Greater <==> a.probEst > b.probEst
    ensures r == Equal <==> a.probEst == b.probEst
  {
    CompareReal(a.probEst, b.probEst)
  }

  /** The reversed comparator is the comparison of the negated true
      probabilities, which is what turns `max_by` into a search for the minimum. */
  lemma ReversedComparesNegated()
    ensures forall a: Bandit, b: Bandit :: CompareByProbReal(b, a) == CompareReal(-a.probReal, -b.probReal)
  {
  }

  /** Index of the element `Iterator::max_by` returns: a left fold that keeps
      the best element so far only while it compares `Greater` than the next
      one, so that among several maxima the last one wins. */
  function MaxBy<T>(xs: seq<T>, cmp: (T, T) -> Ordering): (k: nat)
    requires |xs| > 0
    ensures k < |xs|
    decreases |xs|
  {
    if |xs| == 1 then 0
    else
      var best := MaxBy(xs[..|xs| - 1], cmp);
      if cmp(xs[best], xs[|xs| - 1]) == Greater then best else |xs| - 1
  }

  /** `k` is the last index at which `key` is maximal over `xs`. */
  ghost predicate IsLastMax<T>(xs: seq<T>, key: T -> real, k: int) {
    0 <= k < |xs| &&
    (forall j :: 0 <= j < |xs| ==> key(xs[j]) <= key(xs[k])) &&
    (forall j :: k < j < |xs| ==> key(xs[j]) < key(xs[k]))
  }

  /** Arm i has the highest true probability, and every later arm a strictly lower one. */
  ghost predicate LastBest(bandits: seq<Bandit>, i: int) {
    IsLastMax(bandits, (b: Bandit) => b.probReal, i)
  }

  /** Arm i has the lowest true probability, and every later arm a strictly higher one. */
  ghost predicate LastWorst(bandits: seq<Bandit>, i: int) {
    IsLastMax(bandits, (b: Bandit) => -b.probReal, i)
  }

  /** Arm i has the highest estimate, and every later arm a strictly lower one. */
  ghost predicate LastBestEstimate(bandits: seq<Bandit>, i: int) {
    IsLastMax(bandits, (b: Bandit) => b.probEst, i)
  }

  /** Sample i is the largest, and every later sample strictly smaller. */
  ghost predicate LastLargest(xs: seq<real>, i: int) {
    IsLastMax(xs, (x: real) => x, i)
  }

  /** A comparator that compares by a real key makes `MaxBy` return the last
      maximum of that key. */
  lemma {:induction false} MaxByIsLastMax<T>(xs: seq<T>, cmp: (T, T) -> Ordering, key: T -> real)
    requires |xs| > 0
    requires forall a, b :: cmp(a, b) == CompareReal(key(a), key(b))
    ensures IsLastMax(xs, key, MaxBy(xs, cmp))
  {
    if |xs| > 1 {
      var init := xs[..|xs| - 1];
      MaxByIsLastMax(init, cmp, key);
      assert forall j :: 0 <= j < |init| ==> init[j] == xs[j];
    }
  }

  /** There is only one last maximum: the tie-break decides every choice. */
  lemma LastMaxIsUnique<T>(xs: seq<T>, key: T -> real, k1: int, k2: int)
    requires IsLastMax(xs, key, k1) && IsLastMax(xs, key, k2)
    ensures k1 == k2
  {
    assert key(xs[k1]) == key(xs[k2]);
  }

  /** The oracle plays an arm of highest true probability, the last such arm
      on a tie (`pick_bandit_oracle`). */
  function PickOracle(bandits: seq<Bandit>): (i: nat)
    requires |bandits| > 0
    ensures i < |bandits|
    ensures LastBest(bandits, i)
  {
    MaxByIsLastMax(bandits, CompareByProbReal, (b: Bandit) => b.probReal);
    MaxBy(bandits, CompareByProbReal)
  }

  /** The adversarial strategy runs `max_by` with the comparator reversed and
      so plays an arm of lowest true probability, the last such arm on a tie
      (`pick_bandit_with_ted_cruz_sampling`). */
  function PickTedCruz(bandits: seq<Bandit>): (i: nat)
    requires |bandits| > 0
    ensures i < |bandits|
    ensures LastWorst(bandits, i)
  {
    var reversed := (a: Bandit, b: Bandit) => CompareByProbReal(b, a);
    ReversedComparesNegated();
    MaxByIsLastMax(bandits, reversed, (b: Bandit) => -b.probReal);
    MaxBy(bandits, reversed)
  }

  /** The exploiting choice of the epsilon strategies: an arm of highest
      estimated probability, the last such arm on a tie. */
  function PickGreedy(bandits: seq<Bandit>): (i: nat)
    requires |bandits| > 0
    ensures i < |bandits|
    ensures LastBestEstimate(bandits, i)
  {
    MaxByIsLastMax(bandits, CompareByProbEst, (b: Bandit) => b.probEst);
    MaxBy(bandits, CompareByProbEst)
  }

  /** The constant strategy always plays the first arm (`pick_first_bandit_always`). */
  function PickFirst(bandits: seq<Bandit>): (i: nat)
    requires |bandits| > 0
    ensures i < |bandits| && i == 0
  {
    0
  }

  /** The naive strategy plays the arm at the uniformly drawn index, whatever
      the arms' state (`pick_bandit_naive_random`). */
  function PickNaiveRandom(bandits: seq<Bandit>, index: nat): (i: nat)
    requires |bandits| == NUM_BANDITS && index < NUM_BANDITS
    ensures i < |bandits| && i == index
  {
    index
  }

  /** Epsilon-greedy (`pick_bandit_epsilon_greedy`): explores, playing the arm
      at the drawn index, when the uniform draw does not exceed epsilon, and
      otherwise exploits, playing the last arm of highest estimate. */
  function PickEpsilonGreedy(bandits: seq<Bandit>, epsilon: real, draw: real, index: nat): (i: nat)
    requires |bandits| == NUM_BANDITS && index < NUM_BANDITS
    ensures i < |bandits|
    ensures draw <= epsilon ==> i == index
    ensures draw > epsilon ==> LastBestEstimate(bandits, i)
  {
    if draw <= epsilon then index else PickGreedy(bandits)
  }

  /** With draws in [0, 1), an epsilon of at least 1 always explores and a
      negative epsilon never does. */
  lemma EpsilonGreedyExtremes(bandits: seq<Bandit>, epsilon: real, draw: real, index: nat)
    requires |bandits| == NUM_BANDITS && index < NUM_BANDITS
    requires 0.0 <= draw < 1.0
    ensures epsilon >= 1.0 ==> PickEpsilonGreedy(bandits, epsilon, draw, index) == index
    ensures epsilon < 0.0 ==> PickEpsilonGreedy(bandits, epsilon, draw, index) == PickGreedy(bandits)
  {
  }

  /** The exploration rate of epsilon-decay after `t` plays in total:
      epsilon0 * e^(-alpha * t). `expE` is the exponential function x |-> e^x. */
  function DecayedEpsilon(epsilon0: real, alpha: real, t: nat, expE: real -> real): real
  {
    epsilon0 * expE(-1.0 * alpha * t as real)
  }

  /** Without elapsed plays, or without decay, the rate is epsilon0 itself. */
  lemma DecayedEpsilonAtStart(epsilon0: real, alpha: real, t: nat, expE: real -> real)
    requires expE(0.0) == 1.0
    requires alpha == 0.0 || t == 0
    ensures DecayedEpsilon(epsilon0, alpha, t, expE) == epsilon0
  {
    assert -1.0 * alpha * t as real == 0.0;
  }

  /** With a positive decay constant and a strictly increasing exponential,
      more plays give a strictly smaller positive rate. */
  lemma DecayedEpsilonDecreases(epsilon0: real, alpha: real, t1: nat, t2: nat, expE: real -> real)
    requires forall x, y :: x < y ==> expE(x) < expE(y)
    requires epsilon0 > 0.0 && alpha > 0.0 && t1 < t2
    ensures DecayedEpsilon(epsilon0, alpha, t2, expE) < DecayedEpsilon(epsilon0, alpha, t1, expE)
  {
    var x1, x2 := -1.0 * alpha * t1 as real, -1.0 * alpha * t2 as real;
    assert x2 - x1 == alpha * (t1 as real - t2 as real);
    assert x2 < x1;
    assert expE(x2) < expE(x1);
  }

  /** Epsilon-decay (`pick_bandit_epsilon_decay`): epsilon-greedy with the
      rate decayed by the total number of plays over all arms. */
  function PickEpsilonDecay(bandits: seq<Bandit>, epsilon0: real, alpha: real, draw: real, index: nat,
                            expE: real -> real): (i: nat)
    requires |bandits| == NUM_BANDITS && index < NUM_BANDITS
    ensures i < |bandits|
    ensures draw <= DecayedEpsilon(epsilon0, alpha, TotalPlays(bandits), expE) ==> i == index
    ensures draw > DecayedEpsilon(epsilon0, alpha, TotalPlays(bandits), expE) ==> LastBestEstimate(bandits, i)
  {
    var t := TotalPlays(bandits);
    PickEpsilonGreedy(bandits, DecayedEpsilon(epsilon0, alpha, t, expE), draw, index)
  }

  /** Before any play, or with alpha = 0, epsilon-decay chooses exactly as
      epsilon-greedy with epsilon0. */
  lemma EpsilonDecayAtStart(bandits: seq<Bandit>, epsilon0: real, alpha: real, draw: real, index: nat,
                            expE: real -> real)
    requires |bandits| == NUM_BANDITS && index < NUM_BANDITS
    requires expE(0.0) == 1.0
    requires alpha == 0.0 || TotalPlays(bandits) == 0
    ensures PickEpsilonDecay(bandits, epsilon0, alpha, draw, index, expE)
         == PickEpsilonGreedy(bandits, epsilon0, draw, index)
  {
    DecayedEpsilonAtStart(epsilon0, alpha, TotalPlays(bandits), expE);
  }

  /** Parameters of the Beta posterior of an arm under a uniform prior:
      (wins + 1, losses + 1). */
  function ThompsonPosterior(b: Bandit): (params: (real, real))
    ensures params.0 >= 1.0
    ensures params.1 >= 1.0 <==> b.wins <= b.plays
    ensures params.0 + params.1 == b.plays as real + 2.0
    ensures params == (b.wins as real + 1.0, b.plays as real - b.wins as real + 1.0)
  {
    var wins := b.wins as real;
    var losses := b.plays as real - wins;
    (wins + 1.0, losses + 1.0)
  }

  /** `Beta::new(a, b)` succeeds exactly when both shape parameters are positive. */
  predicate BetaDefined(params: (real, real)) {
    params.0 > 0.0 && params.1 > 0.0
  }

  /** Thompson sampling (`pick_bandit_thompson`): `thetas[j]` is the sample
      drawn from arm j's posterior; the arm with the largest sample is played,
      the last one on a tie. The posterior must exist for every arm. */
  function PickThompson(bandits: seq<Bandit>, thetas: seq<real>): (i: nat)
    requires |bandits| > 0 && |thetas| == |bandits|
    requires forall j :: 0 <= j < |bandits| ==> BetaDefined(ThompsonPosterior(bandits[j]))
    ensures i < |bandits|
    ensures LastLargest(thetas, i)
  {
    MaxByIsLastMax(thetas, CompareReal, (x: real) => x);
    MaxBy(thetas, CompareReal)
  }

  /** Every arm's posterior is defined as long as no arm has more wins than plays. */
  lemma PosteriorsDefined(bandits: seq<Bandit>)
    requires CountersOk(bandits)
    ensures forall j :: 0 <= j < |bandits| ==> BetaDefined(ThompsonPosterior(bandits[j]))
  {
  }

  /** The strategies (`Strategy`), each with its own parameters. */
  datatype Strategy =
    | Oracle
    | EpsilonGreedy(epsilon: real)
    | EpsilonDecay(epsilon0: real, alpha: real)
    | Thompson
    | NaiveRandom
    | ConstantFirst
    | TedCruz

  /** The random draws one round consumes: the explore-or-exploit draw in
      [0, 1), the uniform arm index in [0, NUM_BANDITS), one posterior sample
      per arm, and the trial's roll in [0, 1). A strategy ignores the draws
      it does not use. */
  datatype Draws = Draws(explore: real, index: nat, thetas: seq<real>, roll: real)

  /** The draws have the shape the random source guarantees. */
  predicate DrawsFit(d: Draws) {
    d.index < NUM_BANDITS && |d.thetas| == NUM_BANDITS
  }

  /** The strategies whose choice depends on the true probabilities alone. */
  predicate IsFixedChoice(s: Strategy) {
    s.Oracle? || s.ConstantFirst? || s.TedCruz?
  }

  /** The arm a fixed-choice strategy plays: the last arm of highest true
      probability, arm 0, or the last arm of lowest true probability. */
  function FixedChoice(s: Strategy, bandits: seq<Bandit>): (i: nat)
    requires IsFixedChoice(s) && |bandits| > 0
    ensures i < |bandits|
    ensures s.Oracle? ==> LastBest(bandits, i)
    ensures s.ConstantFirst? ==> i == 0
    ensures s.TedCruz? ==> LastWorst(bandits, i)
  {
    match s
    case Oracle => PickOracle(bandits)
    case ConstantFirst => PickFirst(bandits)
    case TedCruz => PickTedCruz(bandits)
  }

  /** Sets with the same true probabilities get the same fixed choice. */
  lemma FixedChoiceOnProbReal(s: Strategy, xs: seq<Bandit>, ys: seq<Bandit>)
    requires IsFixedChoice(s) && |xs| == |ys| > 0
    requires forall j :: 0 <= j < |xs| ==> xs[j].probReal == ys[j].probReal
    ensures FixedChoice(s, xs) == FixedChoice(s, ys)
  {
    var key := (b: Bandit) => b.probReal;
    var negKey := (b: Bandit) => -b.probReal;
    match s
    case Oracle =>
      assert IsLastMax(xs, key, FixedChoice(s, xs)) && IsLastMax(xs, key, FixedChoice(s, ys));
      LastMaxIsUnique(xs, key, FixedChoice(s, xs), FixedChoice(s, ys));
    case ConstantFirst =>
    case TedCruz =>
      assert IsLastMax(xs, negKey, FixedChoice(s, xs)) && IsLastMax(xs, negKey, FixedChoice(s, ys));
      LastMaxIsUnique(xs, negKey, FixedChoice(s, xs), FixedChoice(s, ys));
  }

  /** The dispatch of `Casino::play` on the strategy: always an index of the
      arm set, and the arm each strategy's own rule calls for, ties going to
      the last candidate. */
  function Select(s: Strategy, bandits: seq<Bandit>, d: Draws, expE: real -> real): (i: nat)
    requires |bandits| == NUM_BANDITS && DrawsFit(d)
    requires s.Thompson? ==> CountersOk(bandits)
    ensures i < |bandits|
    ensures s.Oracle? ==> LastBest(bandits, i)
    ensures s.TedCruz? ==> LastWorst(bandits, i)
    ensures s.EpsilonGreedy? ==>
      (d.explore <= s.epsilon ==> i == d.index) &&
      (d.explore > s.epsilon ==> LastBestEstimate(bandits, i))
    ensures s.EpsilonDecay? ==>
      (d.explore <= DecayedEpsilon(s.epsilon0, s.alpha, TotalPlays(bandits), expE) ==> i == d.index) &&
      (d.explore > DecayedEpsilon(s.epsilon0, s.alpha, TotalPlays(bandits), expE) ==> LastBestEstimate(bandits, i))
    ensures s.Thompson? ==> LastLargest(d.thetas, i)
    ensures s.ConstantFirst? ==> i == 0
    ensures s.NaiveRandom? ==> i == d.index
    ensures IsFixedChoice(s) ==> i == FixedChoice(s, bandits)
  {
    match s
    case Oracle => FixedChoice(s, bandits)
    case EpsilonGreedy(e) => PickEpsilonGreedy(bandits, e, d.explore, d.index)
    case EpsilonDecay(e, a) => PickEpsilonDecay(bandits, e, a, d.explore, d.index, expE)
    case Thompson => PosteriorsDefined(bandits); PickThompson(bandits, d.thetas)
    case NaiveRandom => PickNaiveRandom(bandits, d.index)
    case ConstantFirst => FixedChoice(s, bandits)
    case TedCruz => FixedChoice(s, bandits)
  }
}
