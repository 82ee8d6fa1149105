/** The simulation engine: the casino owns the arm set and the strategy and
    plays the configured number of rounds, each one selecting an arm, running
    a trial on it and reporting the estimates and the regret. */
module Simulation {
  import opened Arms
  import opened Selection
  import opened Accounting

  /** What one round reports: the estimates before the trial and the regret after it. */
  datatype Record = Record(snapshot: seq<real>, regret: real)

  /** The record of a round that took the arm set from `before` to `after`. */
  function RoundRecord(before: seq<Bandit>, after: seq<Bandit>): (rec: Record)
    requires |after| > 0
    ensures |rec.snapshot| == |before|
    ensures forall j :: 0 <= j < |before| ==> rec.snapshot[j] == before[j].probEst
    ensures rec.regret == Regret(after)
  {
    Record(Estimates(before), Regret(after))
  }

  /** The estimated probabilities of the arms, in arm order. */
  function Estimates(bandits: seq<Bandit>): (es: seq<real>)
    ensures |es| == |bandits|
    ensures forall j :: 0 <= j < |bandits| ==> es[j] == bandits[j].probEst
  {
    seq(|bandits|, j requires 0 <= j < |bandits| => bandits[j].probEst)
  }

  /** The arm set built from the true probabilities, one fresh arm per
      probability, in order (the arm construction of `run_casino_with_params`). */
  function NewArms(probs: seq<real>): (bandits: seq<Bandit>)
    ensures |bandits| == |probs|
    ensures forall j :: 0 <= j < |probs| ==>
      bandits[j].plays == 0 && bandits[j].wins == 0 &&
      bandits[j].probEst == 0.5 && bandits[j].probReal == probs[j]
  {
    if probs == [] then [] else [NewBandit(probs[0])] + NewArms(probs[1..])
  }

  /** Number of rounds `for _ in 0..num_plays` runs. */
  function RoundCount(numPlays: int): nat {
    if numPlays > 0 then numPlays else 0
  }

  /** Every round's draws have the shape the random source guarantees. */
  predicate AllDrawsFit(ds: seq<Draws>) {
    forall k :: 0 <= k < |ds| ==> DrawsFit(ds[k])
  }

  /** One round of `Casino::play`: select an arm, then run a trial on it with
      the round's roll. Only the selected arm changes; the true probabilities
      and the counters' consistency carry over, and the total plays grow by one. */
  function Round(bandits: seq<Bandit>, s: Strategy, d: Draws, expE: real -> real): (r: seq<Bandit>)
    requires |bandits| == NUM_BANDITS && DrawsFit(d)
    requires s.Thompson? ==> CountersOk(bandits)
    ensures |r| == NUM_BANDITS
    ensures forall j :: 0 <= j < |r| ==> r[j].probReal == bandits[j].probReal
    ensures TotalPlays(r) == TotalPlays(bandits) + 1
    ensures CountersOk(bandits) ==> CountersOk(r)
    ensures AllConsistent(bandits) ==> AllConsistent(r)
  {
    var i := Select(s, bandits, d, expE);
    var b := Trial(bandits[i], d.roll);
    TotalsUpdate(bandits, i, b);
    bandits[i := b]
  }

  /** A round replaces the selected arm by its trial and leaves every other arm as it was. */
  lemma RoundChangesOnlySelected(bandits: seq<Bandit>, s: Strategy, d: Draws, expE: real -> real)
    requires |bandits| == NUM_BANDITS && DrawsFit(d)
    requires s.Thompson? ==> CountersOk(bandits)
    ensures var i := Select(s, bandits, d, expE);
      var r := Round(bandits, s, d, expE);
      r[i] == Trial(bandits[i], d.roll) &&
      (forall j :: 0 <= j < |bandits| && j != i ==> r[j] == bandits[j])
  {
  }

  /** The arm set after playing one round per element of `ds`, in order. */
  function Run(bandits: seq<Bandit>, s: Strategy, ds: seq<Draws>, expE: real -> real): (r: seq<Bandit>)
    requires |bandits| == NUM_BANDITS && AllDrawsFit(ds)
    requires s.Thompson? ==> CountersOk(bandits)
    ensures |r| == NUM_BANDITS
    ensures CountersOk(bandits) ==> CountersOk(r)
    decreases |ds|
  {
    if ds == [] then bandits
    else
      var before := Run(bandits, s, ds[..|ds| - 1], expE);
      Round(before, s, ds[|ds| - 1], expE)
  }

  /** Playing the first n + 1 rounds is playing the first n and then round n,
      and reports one more record. */
  lemma NextRound(bandits: seq<Bandit>, s: Strategy, ds: seq<Draws>, n: nat, expE: real -> real)
    requires |bandits| == NUM_BANDITS && AllDrawsFit(ds) && n < |ds|
    requires s.Thompson? ==> CountersOk(bandits)
    ensures Run(bandits, s, ds[..n + 1], expE) == Round(Run(bandits, s, ds[..n], expE), s, ds[n], expE)
    ensures Trace(bandits, s, ds[..n + 1], expE)
         == Trace(bandits, s, ds[..n], expE)
            + [RoundRecord(Run(bandits, s, ds[..n], expE), Run(bandits, s, ds[..n + 1], expE))]
  {
    assert ds[..n + 1][..n] == ds[..n];
  }

  /** What `Casino::play` reports, one record per round: the estimates before
      the round and the regret after it. */
  function Trace(bandits: seq<Bandit>, s: Strategy, ds: seq<Draws>, expE: real -> real): (rs: seq<Record>)
    requires |bandits| == NUM_BANDITS && AllDrawsFit(ds)
    requires s.Thompson? ==> CountersOk(bandits)
    ensures |rs| == |ds|
    decreases |ds|
  {
    if ds == [] then []
    else
      var n := |ds| - 1;
      Trace(bandits, s, ds[..n], expE)
        + [RoundRecord(Run(bandits, s, ds[..n], expE), Run(bandits, s, ds, expE))]
  }

  /** Each round adds one play to the total, so a run adds one per round. */
  lemma {:induction false} RunTotalPlays(bandits: seq<Bandit>, s: Strategy, ds: seq<Draws>, expE: real -> real)
    requires |bandits| == NUM_BANDITS && AllDrawsFit(ds)
    requires s.Thompson? ==> CountersOk(bandits)
    ensures TotalPlays(Run(bandits, s, ds, expE)) == TotalPlays(bandits) + |ds|
    decreases |ds|
  {
    if ds != [] {
      RunTotalPlays(bandits, s, ds[..|ds| - 1], expE);
    }
  }

  /** No round ever changes an arm's true probability. */
  lemma {:induction false} RunKeepsProbReal(bandits: seq<Bandit>, s: Strategy, ds: seq<Draws>, expE: real -> real)
    requires |bandits| == NUM_BANDITS && AllDrawsFit(ds)
    requires s.Thompson? ==> CountersOk(bandits)
    ensures forall j :: 0 <= j < NUM_BANDITS ==> Run(bandits, s, ds, expE)[j].probReal == bandits[j].probReal
    decreases |ds|
  {
    if ds != [] {
      RunKeepsProbReal(bandits, s, ds[..|ds| - 1], expE);
    }
  }

  /** Every arm stays consistent: no more wins than plays, and the estimate is
      the prior before the first play and wins/plays after it. */
  lemma {:induction false} RunKeepsConsistent(bandits: seq<Bandit>, s: Strategy, ds: seq<Draws>, expE: real -> real)
    requires |bandits| == NUM_BANDITS && AllDrawsFit(ds)
    requires s.Thompson? ==> CountersOk(bandits)
    requires AllConsistent(bandits)
    ensures AllConsistent(Run(bandits, s, ds, expE))
    decreases |ds|
  {
    if ds != [] {
      RunKeepsConsistent(bandits, s, ds[..|ds| - 1], expE);
    }
  }

  /** Under the oracle, the constant strategy or the adversarial one, every
      round plays the same arm: it gets all the plays of the run and every
      other arm is left as it was. */
  lemma {:induction false} RunWithFixedChoice(bandits: seq<Bandit>, s: Strategy, ds: seq<Draws>, expE: real -> real)
    requires |bandits| == NUM_BANDITS && AllDrawsFit(ds) && IsFixedChoice(s)
    ensures var k := FixedChoice(s, bandits);
      var r := Run(bandits, s, ds, expE);
      r[k].plays == bandits[k].plays + |ds| &&
      (forall j :: 0 <= j < NUM_BANDITS && j != k ==> r[j] == bandits[j])
    decreases |ds|
  {
    if ds != [] {
      var prefix := ds[..|ds| - 1];
      RunWithFixedChoice(bandits, s, prefix, expE);
      var before := Run(bandits, s, prefix, expE);
      RunKeepsProbReal(bandits, s, prefix, expE);
      FixedChoiceOnProbReal(s, before, bandits);
    }
  }

  /** From fresh arms, the constant strategy gives all the rounds to arm 0 and none to any other arm. */
  lemma ConstantFirstFromFresh(probs: seq<real>, ds: seq<Draws>, expE: real -> real)
    requires |probs| == NUM_BANDITS && AllDrawsFit(ds)
    ensures Run(NewArms(probs), ConstantFirst, ds, expE)[0].plays == |ds|
    ensures forall j :: 1 <= j < NUM_BANDITS ==> Run(NewArms(probs), ConstantFirst, ds, expE)[j].plays == 0
  {
    var arms := NewArms(probs);
    var r := Run(arms, ConstantFirst, ds, expE);
    RunWithFixedChoice(arms, ConstantFirst, ds, expE);
    assert r[0].plays == arms[0].plays + |ds| && arms[0].plays == 0;
    forall j | 1 <= j < NUM_BANDITS
      ensures r[j].plays == 0
    {
      assert r[j] == arms[j];
    }
  }

  /** From fresh arms, the plays over all arms add up to the number of rounds,
      whatever the strategy, and every arm is consistent. */
  lemma FreshRun(probs: seq<real>, s: Strategy, ds: seq<Draws>, expE: real -> real)
    requires |probs| == NUM_BANDITS && AllDrawsFit(ds)
    ensures CountersOk(NewArms(probs))
    ensures TotalPlays(Run(NewArms(probs), s, ds, expE)) == |ds|
    ensures AllConsistent(Run(NewArms(probs), s, ds, expE))
  {
    var arms := NewArms(probs);
    TotalsOfUnplayed(arms);
    RunTotalPlays(arms, s, ds, expE);
    RunKeepsConsistent(arms, s, ds, expE);
  }

  /** Each round adds the ideal arm's true probability to the regret and takes
      away the round's win, if any (`RegretOfUnplayed` gives the starting value 0). */
  lemma RoundRegret(bandits: seq<Bandit>, s: Strategy, d: Draws, expE: real -> real)
    requires |bandits| == NUM_BANDITS && DrawsFit(d)
    requires s.Thompson? ==> CountersOk(bandits)
    ensures var i := Select(s, bandits, d, expE);
      Regret(Round(bandits, s, d, expE))
        == Regret(bandits) + IdealProbReal(bandits) - (if d.roll <= bandits[i].probReal then 1.0 else 0.0)
  {
    var i := Select(s, bandits, d, expE);
    var won: nat := if d.roll <= bandits[i].probReal then 1 else 0;
    RegretStep(bandits, i, Trial(bandits[i], d.roll), won);
  }

  /** The casino (`Casino`): the number of rounds to play, the strategy and
      the fixed-size array of arms, which `Play` updates in place. */
  class Casino {
    const numPlays: int
    const strategy: Strategy
    const bandits: array<Bandit>

    /** The array holds one arm per slot, and Thompson sampling finds every
        arm's posterior defined. */
    ghost predicate Valid()
      reads this, bandits
    {
      bandits.Length == NUM_BANDITS &&
      (strategy.Thompson? ==> CountersOk(bandits[..]))
    }

    /** `Casino::new`: takes over the given arms. */
    constructor (numPlays: int, strategy: Strategy, arms: seq<Bandit>)
      requires |arms| == NUM_BANDITS
      requires strategy.Thompson? ==> CountersOk(arms)
      ensures Valid() && fresh(bandits)
      ensures this.numPlays == numPlays && this.strategy == strategy && bandits[..] == arms
    {
      this.numPlays := numPlays;
      this.strategy := strategy;
      this.bandits := new Bandit[|arms|](j requires 0 <= j < |arms| => arms[j]);
    }

    /** The trial step of `Casino::play` on the selected arm, in place: one
        more play, one more win when the roll does not exceed the arm's true
        probability, and the estimate set to wins/plays. No other arm changes. */
    method PlayArm(i: nat, roll: real)
      requires Valid() && i < bandits.Length
      modifies bandits
      ensures Valid()
      ensures bandits[..] == old(bandits[..])[i := Trial(old(bandits[i]), roll)]
    {
      var bandit := bandits[i];
      bandit := bandit.(plays := bandit.plays + 1);
      if roll <= bandit.probReal {
        bandit := bandit.(wins := bandit.wins + 1);
      }
      bandit := bandit.(probEst := Estimate(bandit.wins, bandit.plays));
      bandits[i] := bandit;
    }

    /** One round of `Casino::play` on the array: select an arm by the
        strategy and the round's draws, then play it in place. */
    method PlayRound(d: Draws, expE: real -> real)
      requires Valid() && DrawsFit(d)
      modifies bandits
      ensures Valid()
      ensures bandits[..] == Round(old(bandits[..]), strategy, d, expE)
    {
      var i := Select(strategy, bandits[..], d, expE);
      PlayArm(i, d.roll);
    }

    /** `Casino::play`: runs exactly `RoundCount(numPlays)` rounds, one per
        element of `draws`. Each round snapshots the estimates, selects an arm,
        plays it once (a win when the roll does not exceed its true
        probability), sets its estimate to wins/plays and records the regret. */
    method Play(draws: seq<Draws>, expE: real -> real) returns (records: seq<Record>)
      requires Valid()
      requires |draws| == RoundCount(numPlays) && AllDrawsFit(draws)
      modifies bandits
      ensures Valid()
      ensures bandits[..] == Run(old(bandits[..]), strategy, draws, expE)
      ensures records == Trace(old(bandits[..]), strategy, draws, expE)
      ensures |records| == RoundCount(numPlays)
    {
      ghost var initial := bandits[..];
      records := [];
      var n := 0;
      assert draws[..n] == [];
      while n < numPlays
        invariant 0 <= n <= |draws|
        invariant bandits[..] == Run(initial, strategy, draws[..n], expE)
        invariant records == Trace(initial, strategy, draws[..n], expE)
        invariant Valid()
      {
        var before := bandits[..];
        PlayRound(draws[n], expE);
        assert bandits[..] == Run(initial, strategy, draws[..n + 1], expE) by {
          NextRound(initial, strategy, draws, n, expE);
        }
        records := records + [RoundRecord(before, bandits[..])];
        assert records == Trace(initial, strategy, draws[..n + 1], expE) by {
          NextRound(initial, strategy, draws, n, expE);
        }
        n := n + 1;
      }
      assert draws[..n] == draws;
    }
  }

  /** `run_casino_with_params`: builds one fresh arm per true probability,
      sets up the casino and plays it; the result is the reported trace. */
  method RunCasinoWithParams(numPlays: int, probs: seq<real>, strategy: Strategy,
                             draws: seq<Draws>, expE: real -> real) returns (records: seq<Record>)
    requires |probs| == NUM_BANDITS
    requires |draws| == RoundCount(numPlays) && AllDrawsFit(draws)
    ensures records == Trace(NewArms(probs), strategy, draws, expE)
    ensures |records| == RoundCount(numPlays)
  {
    var arms := NewArms(probs);
    assert CountersOk(arms);
    var casino := new Casino(numPlays, strategy, arms);
    records := casino.Play(draws, expE);
  }
}
