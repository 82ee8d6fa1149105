/** The arms of the testbed: one slot machine ("bandit") with its counters,
    its hidden true win probability and its running estimate. */
module Arms {

  /** Number of arms in a casino (`NUM_BANDITS`). */
  const NUM_BANDITS: nat := 10

  /** One arm. The counters are created at 0 and only ever incremented,
      so they are natural numbers. `probReal` is the ground truth, fixed at
      creation; `probEst` is the running estimate of it. */
  datatype Bandit = Bandit(plays: nat, wins: nat, probReal: real, probEst: real)

  /** The state every arm keeps: no more wins than plays, and the estimate is
      the prior 0.5 before the first play and wins/plays after it. */
  ghost predicate Consistent(b: Bandit) {
    b.wins <= b.plays &&
    b.probEst == if b.plays == 0 then 0.5 else Estimate(b.wins, b.plays)
  }

  /** Every arm of the set is consistent. */
  ghost predicate AllConsistent(bs: seq<Bandit>) {
    forall j :: 0 <= j < |bs| ==> Consistent(bs[j])
  }

  /** No arm of the set has more wins than plays. */
  predicate CountersOk(bs: seq<Bandit>) {
    forall j :: 0 <= j < |bs| ==> bs[j].wins <= bs[j].plays
  }

  /** A freshly built arm (`Bandit::new`): no plays, no wins, the prior 0.5
      as its estimate, and the given true probability. */
  function NewBandit(probReal: real): (b: Bandit)
    ensures b.plays == 0 && b.wins == 0 && b.probEst == 0.5
    ensures b.probReal == probReal
    ensures Consistent(b)
  {
    Bandit(0, 0, probReal, 0.5)
  }

  /** One Bernoulli trial on an arm, given the uniform roll in [0, 1): the
      arm is played once more, wins once more exactly when the roll does not
      exceed its true probability, and its estimate becomes wins/plays. */
  function Trial(b: Bandit, roll: real): (r: Bandit)
    ensures r.plays == b.plays + 1
    ensures r.wins == b.wins + 1 <==> roll <= b.probReal
    ensures r.wins == b.wins || r.wins == b.wins + 1
    ensures r.probReal == b.probReal
    ensures r.probEst == Estimate(r.wins, r.plays)
    ensures b.wins <= b.plays ==> r.wins <= r.plays && 0.0 <= r.probEst <= 1.0
    ensures Consistent(b) ==> Consistent(r)
  {
    var played := b.(plays := b.plays + 1);
    var scored := if roll <= played.probReal then played.(wins := played.wins + 1) else played;
    scored.(probEst := Estimate(scored.wins, scored.plays))
  }

  /** The estimate wins/plays of a played arm (`wins as f64 / plays as f64`):
      a probability when there are no more wins than plays. */
  function Estimate(wins: nat, plays: nat): (p: real)
    requires plays > 0
    ensures wins <= plays ==> 0.0 <= p <= 1.0
    ensures p * plays as real == wins as real
  {
    assert wins as real / plays as real <= plays as real / plays as real || wins > plays;
    wins as real / plays as real
  }

  /** Total number of plays over the arm set (a left fold, as `iter().fold`). */
  function TotalPlays(bs: seq<Bandit>): nat
  {
    if bs == [] then 0 else TotalPlays(bs[..|bs| - 1]) + bs[|bs| - 1].plays
  }

  /** Total number of wins over the arm set. */
  function TotalWins(bs: seq<Bandit>): nat
  {
    if bs == [] then 0 else TotalWins(bs[..|bs| - 1]) + bs[|bs| - 1].wins
  }

  /** Replacing one arm changes the totals by exactly that arm's difference. */
  lemma {:induction false} TotalsUpdate(bs: seq<Bandit>, i: nat, b: Bandit)
    requires i < |bs|
    ensures TotalPlays(bs[i := b]) == TotalPlays(bs) - bs[i].plays + b.plays
    ensures TotalWins(bs[i := b]) == TotalWins(bs) - bs[i].wins + b.wins
  {
    var n := |bs| - 1;
    if i == n {
      assert bs[i := b][..n] == bs[..n];
    } else {
      assert bs[i := b][..n] == bs[..n][i := b];
      TotalsUpdate(bs[..n], i, b);
    }
  }

  /** An arm set in which nothing has been played has no plays and no wins in total. */
  lemma {:induction false} TotalsOfUnplayed(bs: seq<Bandit>)
    requires forall j :: 0 <= j < |bs| ==> bs[j].plays == 0 && bs[j].wins == 0
    ensures TotalPlays(bs) == 0 && TotalWins(bs) == 0
  {
    if bs != [] {
      TotalsOfUnplayed(bs[..|bs| - 1]);
    }
  }

  /** With no more wins than plays on every arm, the total wins do not exceed the total plays. */
  lemma {:induction false} TotalWinsAtMostTotalPlays(bs: seq<Bandit>)
    requires CountersOk(bs)
    ensures TotalWins(bs) <= TotalPlays(bs)
  {
    if bs != [] {
      TotalWinsAtMostTotalPlays(bs[..|bs| - 1]);
    }
  }
}
