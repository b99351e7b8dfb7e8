/** The random source of the scheduler: any value in range may be drawn. */
module Randomness {

  class Rng {
    ghost var log: seq<real>  // everything drawn so far

    constructor ()
      ensures log == []
    {
      log := [];
    }

    method Float64() returns (r: real)
      modifies this
      ensures 0.0 <= r < 1.0 && log == old(log) + [r]
    {
      r :| 0.0 <= r < 1.0;
      log := log + [r];
    }

    method NormFloat64() returns (r: real)
      modifies this
      ensures log == old(log) + [r]
    {
      r :| true;
      log := log + [r];
    }

    method Intn(n: int) returns (k: nat)
      requires n > 0
      modifies this
      ensures k < n && log == old(log) + [k as real]
    {
      k :| 0 <= k < n;
      log := log + [k as real];
    }
  }

  ghost predicate UnitDraws(draws: seq<real>) { forall i :: 0 <= i < |draws| ==> 0.0 <= draws[i] < 1.0 }

  /** The draws of several rounds, one after the other. */
  ghost function Flat(rounds: seq<seq<real>>): seq<real> {
    if rounds == [] then [] else Flat(rounds[..|rounds| - 1]) + rounds[|rounds| - 1]
  }

  lemma FlatStep(rounds: seq<seq<real>>, round: seq<real>)
    ensures Flat(rounds + [round]) == Flat(rounds) + round
  {
    assert (rounds + [round])[..|rounds|] == rounds;
  }
}
