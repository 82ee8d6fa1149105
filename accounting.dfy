/** Regret accounting: the reward foregone by not always playing the best arm,
    recomputed from the whole arm set each time it is asked for. */
module Accounting {
  import opened Arms
  import opened Selection

  /** Arm k has the highest true probability of the set. */
  ghost predicate IsIdeal(bandits: seq<Bandit>, k: int) {
    0 <= k < |bandits| && forall j :: 0 <= j < |bandits| ==> bandits[j].probReal <= bandits[k].probReal
  }

  /** True probability of the ideal arm, found by the same `max_by` as the
      oracle. It is the highest true probability of the set, so it is the
      same whichever of several ideal arms the tie-break picks. */
  function IdealProbReal(bandits: seq<Bandit>): (p: real)
    requires |bandits| > 0
    ensures forall k :: IsIdeal(bandits, k) ==> p == bandits[k].probReal
  {
    var ideal := MaxBy(bandits, CompareByProbReal);
    MaxByIsLastMax(bandits, CompareByProbReal, (b: Bandit) => b.probReal);
    assert IsIdeal(bandits, ideal);
    bandits[ideal].probReal
  }

  /** Every non-empty arm set has an ideal arm, and the ideal probability is
      the highest true probability of the set. */
  lemma IdealProbRealIsMaximum(bandits: seq<Bandit>)
    requires |bandits| > 0
    ensures exists k :: IsIdeal(bandits, k)
    ensures forall j :: 0 <= j < |bandits| ==> bandits[j].probReal <= IdealProbReal(bandits)
  {
    var k := PickOracle(bandits);
    assert IsIdeal(bandits, k);
  }

  /** Product of a probability and a number of plays. A function of its own so
      that proofs can replace its arguments by equal ones without reasoning
      about products. */
  function Times(p: real, n: real): real {
    p * n
  }

  /** Cumulative regret (`Casino::regret`): the ideal arm's true probability
      times the total plays, minus the total wins. Any arm of highest true
      probability gives the same regret, so the tie-break does not matter. */
  function Regret(bandits: seq<Bandit>): (r: real)
    requires |bandits| > 0
    ensures forall k :: IsIdeal(bandits, k) ==>
      r == Times(bandits[k].probReal, TotalPlays(bandits) as real) - TotalWins(bandits) as real
  {
    Times(IdealProbReal(bandits), TotalPlays(bandits) as real) - TotalWins(bandits) as real
  }

  /** Before any play the regret is 0. */
  lemma RegretOfUnplayed(bandits: seq<Bandit>)
    requires |bandits| > 0
    requires forall j :: 0 <= j < |bandits| ==> bandits[j].plays == 0 && bandits[j].wins == 0
    ensures Regret(bandits) == 0.0
  {
    TotalsOfUnplayed(bandits);
  }

  /** With no more wins than plays on any arm, the regret lies between
      (best - 1) * plays, when every play was won, and best * plays, when none was. */
  lemma RegretBounds(bandits: seq<Bandit>)
    requires |bandits| > 0 && CountersOk(bandits)
    ensures var best, plays := IdealProbReal(bandits), TotalPlays(bandits) as real;
      Times(best, plays) - plays <= Regret(bandits) <= Times(best, plays)
  {
    TotalWinsAtMostTotalPlays(bandits);
  }

  /** Playing arm i once more, winning `won` times (0 or 1), adds the highest
      true probability to the regret and takes away the reward won: each
      round adds the ideal arm's expected reward minus what was actually won. */
  lemma RegretStep(bandits: seq<Bandit>, i: nat, b: Bandit, won: nat)
    requires i < |bandits|
    requires b.probReal == bandits[i].probReal
    requires b.plays == bandits[i].plays + 1 && b.wins == bandits[i].wins + won
    ensures Regret(bandits[i := b]) == Regret(bandits) + IdealProbReal(bandits) - won as real
  {
    var after := bandits[i := b];
    TotalsUpdate(bandits, i, b);
    var best := IdealProbReal(bandits);
    var p, w := TotalPlays(bandits) as real, TotalWins(bandits) as real;
    SameIdeal(bandits, after);
    RegretIs(bandits, best, p, w);
    RegretIs(after, best, p + 1.0, w + won as real);
    RegretArithmetic(Regret(bandits), Regret(after), best, p, w, won as real);
  }

  /** Arm sets with the same true probabilities have the same ideal probability. */
  lemma SameIdeal(xs: seq<Bandit>, ys: seq<Bandit>)
    requires |xs| == |ys| > 0
    requires forall j :: 0 <= j < |xs| ==> xs[j].probReal == ys[j].probReal
    ensures IdealProbReal(xs) == IdealProbReal(ys)
  {
    var k := PickOracle(xs);
    assert IsIdeal(xs, k);
    assert IsIdeal(ys, k);
  }

  /** Regret from the ideal probability and the totals. */
  lemma RegretIs(bandits: seq<Bandit>, best: real, plays: real, wins: real)
    requires |bandits| > 0
    requires IdealProbReal(bandits) == best
    requires TotalPlays(bandits) as real == plays && TotalWins(bandits) as real == wins
    ensures Regret(bandits) == Times(best, plays) - wins
  {
  }

  /** The regret identity of one round, as arithmetic. */
  lemma RegretArithmetic(before: real, after: real, best: real, plays: real, wins: real, won: real)
    requires before == Times(best, plays) - wins
    requires after == Times(best, plays + 1.0) - (wins + won)
    ensures after == before + best - won
  {
    assert best * (plays + 1.0) == best * plays + best;
  }
}
