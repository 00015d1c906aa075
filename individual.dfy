/** Individuals made of homologies (sets of alternate copies of one
    chromosome), gamete production, and breeding of two individuals. */
module Individuals {
  import opened Errors
  import opened Randomness
  import opened Chromosomes

  /** The value of an individual's genotype: one homology per chromosome
      number, each a sequence of chromosome values. */
  type Genotype = seq<seq<Strand>>

  ghost predicate GenotypeValid(g: Genotype) {
    forall k, j :: 0 <= k < |g| && 0 <= j < |g[k]| ==> g[k][j].Valid()
  }

  /** The number of copies per homology, read off the first homology only. */
  function PloidyOf<T>(homologies: seq<seq<T>>): (r: Result<nat>)
    ensures r.Failure? <==> |homologies| == 0 || |homologies[0]| == 0
    ensures r.Failure? ==> r.error == NoGenotypeData
    ensures r.Success? ==> r.value == |homologies[0]| && r.value >= 1
  {
    if |homologies| == 0 || |homologies[0]| == 0 then Failure(NoGenotypeData)
    else Success(|homologies[0]|)
  }

  /** The number of homologies. */
  function ChromosomeNumberOf<T>(homologies: seq<seq<T>>): (r: Result<nat>)
    ensures r.Failure? <==> |homologies| == 0
    ensures r.Failure? ==> r.error == NoGenotypeData
    ensures r.Success? ==> r.value == |homologies| && r.value >= 1
    ensures PloidyOf(homologies).Success? ==> r.Success?
  {
    if |homologies| == 0 then Failure(NoGenotypeData) else Success(|homologies|)
  }

  /** Ploidy looks at the first homology only: the sizes of the others do not
      change it. */
  lemma PloidyIgnoresLaterHomologies<T>(homologies: seq<seq<T>>, others: seq<seq<T>>)
    requires |homologies| > 0
    ensures PloidyOf(homologies) == PloidyOf([homologies[0]] + others)
  {
  }

  /** What gamete production indexes without checking: the homology `k` and
      its first two copies, once the ploidy check has passed. */
  predicate GameteIndexable<T>(homologies: seq<seq<T>>, k: nat) {
    PloidyOf(homologies) == Success(2) ==> k < |homologies| && |homologies[k]| >= 2
  }

  /** The first two copies of a homology share one map instance. */
  ghost predicate PairShareMap(homology: seq<Strand>) {
    |homology| >= 2 && homology[0].geneticMap == homology[1].geneticMap
  }

  /** A gamete value drawn from homology `homology`: over the map of its first
      copy, and every allele taken from the first or the second copy. */
  ghost predicate GameteOf(gamete: Strand, homology: seq<Strand>) {
    && |homology| >= 2
    && homology[0].Valid() && homology[1].Valid()
    && PairShareMap(homology)
    && gamete.Valid()
    && gamete.geneticMap == homology[0].geneticMap
    && |gamete.loci| == |homology[0].loci|
    && forall i :: 0 <= i < |gamete.loci| ==>
         gamete.loci[i] == homology[0].loci[i] || gamete.loci[i] == homology[1].loci[i]
  }

  /** Gamete production: the ploidy must be known and equal to two; then the
      two copies of homology `k` are recombined. */
  function GameteSpec(g: Genotype, k: nat, outcomes: nat -> bool, drawn: nat): (r: (Result<Strand>, nat))
    requires GenotypeValid(g) && GameteIndexable(g, k)
    ensures r.0.Success? <==> PloidyOf(g) == Success(2) && g[k][0].geneticMap == g[k][1].geneticMap
    ensures r.0.Failure? ==> r.1 == drawn
  {
    match PloidyOf(g)
    case Failure(e) => (Failure(Chained(PloidyForGamete, e)), drawn)
    case Success(ploidy) =>
      if ploidy != 2 then (Failure(UnsupportedPloidy), drawn)
      else RecombineSpec(g[k][0], g[k][1], outcomes, drawn)
  }

  /** Gamete production succeeds exactly for a diploid genotype whose
      homology `k` has its two copies over one map instance; the gamete is then
      a gamete of that homology and len() draws have been made. The failures,
      in the order they are checked, draw nothing. */
  lemma GameteOutcome(g: Genotype, k: nat, outcomes: nat -> bool, drawn: nat)
    requires GenotypeValid(g) && GameteIndexable(g, k)
    ensures var (r, after) := GameteSpec(g, k, outcomes, drawn);
            r.Success? <==> PloidyOf(g) == Success(2) && PairShareMap(g[k])
    ensures var (r, after) := GameteSpec(g, k, outcomes, drawn);
            r.Success? ==> GameteOf(r.value, g[k]) && after == drawn + |g[k][0].loci|
    ensures var (r, after) := GameteSpec(g, k, outcomes, drawn);
            r.Failure? ==>
              && after == drawn
              && r.error == if PloidyOf(g).Failure? then Chained(PloidyForGamete, NoGenotypeData)
                            else if PloidyOf(g).value != 2 then UnsupportedPloidy
                            else IncompatibleMaps
  {
    if PloidyOf(g) == Success(2) {
      RecombineOutcome(g[k][0], g[k][1], outcomes, drawn);
    }
  }

  /** A gamete of a homology whose two copies are equal is that copy. */
  lemma GameteOfIdenticalCopies(gamete: Strand, copy: Strand)
    requires GameteOf(gamete, [copy, copy])
    ensures gamete == copy
  {
    assert gamete.loci == copy.loci;
  }

  /** What breeding indexes without checking, once both parents are known to
      be diploid: the mother has a homology for every chromosome number of the
      father, and every homology has at least two copies. */
  predicate BreedIndexable<T>(father: seq<seq<T>>, mother: seq<seq<T>>) {
    PloidyOf(father) == Success(2) && PloidyOf(mother) == Success(2) ==>
      && |father| <= |mother|
      && forall k :: 0 <= k < |father| ==> |father[k]| >= 2 && |mother[k]| >= 2
  }

  /** The requirements shared by one breeding round and the breeding loop:
      value invariants, ploidies known and equal, and the indexing that the
      source does unchecked. */
  ghost predicate BreedReady(father: Genotype, mother: Genotype) {
    && GenotypeValid(father) && GenotypeValid(mother)
    && PloidyOf(father).Success? && PloidyOf(mother) == PloidyOf(father)
    && BreedIndexable(father, mother)
  }

  /** One round of breeding: the father's gamete of homology `k`, then the
      mother's, each failure re-raised with the parent and chromosome number. */
  function HomologySpec(father: Genotype, mother: Genotype, k: nat, outcomes: nat -> bool, drawn: nat): (r: (Result<seq<Strand>>, nat))
    requires BreedReady(father, mother) && k < |father|
    ensures r.0.Success? ==> |r.0.value| == 2
    ensures r.0.Failure? ==> GameteFailureAt(r.0.error, k)
  {
    var (fromFather, afterFather) := GameteSpec(father, k, outcomes, drawn);
    if fromFather.Failure? then (Failure(Chained(FatherGamete(k), fromFather.error)), afterFather)
    else
      var (fromMother, afterMother) := GameteSpec(mother, k, outcomes, afterFather);
      if fromMother.Failure? then (Failure(Chained(MotherGamete(k), fromMother.error)), afterMother)
      else (Success([fromFather.value, fromMother.value]), afterMother)
  }

  /** The outcome of one round: it succeeds exactly when the parents are
      diploid and both homology pairs `k` share a map; then it holds a gamete of
      each parent's homology `k`; otherwise it fails with RoundError: the
      parent that failed, named the mother only when the father's gamete
      succeeded, and the cause of that gamete's failure. */
  lemma HomologyOutcome(father: Genotype, mother: Genotype, k: nat, outcomes: nat -> bool, drawn: nat)
    requires BreedReady(father, mother) && k < |father|
    ensures var (h, _) := HomologySpec(father, mother, k, outcomes, drawn);
            h.Success? <==> PloidyOf(father) == Success(2) && PairShareMap(father[k]) && PairShareMap(mother[k])
    ensures var (h, _) := HomologySpec(father, mother, k, outcomes, drawn);
            h.Success? ==> |h.value| == 2 && GameteOf(h.value[0], father[k]) && GameteOf(h.value[1], mother[k])
    ensures var (h, _) := HomologySpec(father, mother, k, outcomes, drawn);
            h.Failure? ==> h.error.Chained? && (h.error.context == FatherGamete(k) || h.error.context == MotherGamete(k))
    ensures var (h, _) := HomologySpec(father, mother, k, outcomes, drawn);
            h.Failure? ==>
              (h.error.context == FatherGamete(k) <==> !(PloidyOf(father) == Success(2) && PairShareMap(father[k])))
    ensures var (h, _) := HomologySpec(father, mother, k, outcomes, drawn);
            h.Failure? ==> h.error == RoundError(father, mother, k)
  {
    var (fromFather, afterFather) := GameteSpec(father, k, outcomes, drawn);
    GameteOutcome(father, k, outcomes, drawn);
    if fromFather.Success? {
      GameteOutcome(mother, k, outcomes, afterFather);
    }
  }

  /** Success of round `k`, as its two gamete productions decide it. */
  ghost predicate RoundSucceeds(father: Genotype, mother: Genotype, k: nat) {
    && k < |father| && k < |mother|
    && PloidyOf(father) == Success(2) && PairShareMap(father[k]) && PairShareMap(mother[k])
  }

  /** A homology built by round `k`: a gamete of the father's homology `k`,
      then a gamete of the mother's. */
  ghost predicate HomologyOf(homology: seq<Strand>, father: Genotype, mother: Genotype, k: nat) {
    && |homology| == 2 && k < |father| && k < |mother|
    && GameteOf(homology[0], father[k]) && GameteOf(homology[1], mother[k])
  }

  /** A failure of round `k`: a gamete failure re-raised with the parent it
      came from and the chromosome number. */
  predicate GameteFailureAt(e: Error, k: nat) {
    e.Chained? && (e.context == FatherGamete(k) || e.context == MotherGamete(k))
  }

  /** The error of a failed round `k`: the father's gamete fails first unless
      he is diploid and his pair `k` shares a map, and otherwise the mother's;
      the cause is UnsupportedPloidy for parents that are not diploid and
      IncompatibleMaps for a pair over two maps. */
  ghost function RoundError(father: Genotype, mother: Genotype, k: nat): (e: Error)
    requires k < |father| && PloidyOf(father).Success?
    ensures GameteFailureAt(e, k)
    ensures e.Chained? && (e.cause == UnsupportedPloidy <==> PloidyOf(father) != Success(2))
  {
    var cause := if PloidyOf(father).value != 2 then UnsupportedPloidy else IncompatibleMaps;
    if PloidyOf(father) == Success(2) && PairShareMap(father[k]) then Chained(MotherGamete(k), cause)
    else Chained(FatherGamete(k), cause)
  }

  /** Round `j` is the first of the rounds from `k` on that fails. */
  ghost predicate FirstFailingRound(father: Genotype, mother: Genotype, k: nat, j: nat) {
    && k <= j < |father|
    && !RoundSucceeds(father, mother, j)
    && forall i :: k <= i < j ==> RoundSucceeds(father, mother, i)
  }

  /** The rounds of breeding as one function of the chromosome number and the
      draw counter. The loop calls it only below the father's chromosome
      number and only once BreedReady holds; elsewhere it is a placeholder. */
  ghost function Round(father: Genotype, mother: Genotype, outcomes: nat -> bool): (nat, nat) -> (Result<seq<Strand>>, nat)
  {
    (k: nat, drawn: nat) =>
      if BreedReady(father, mother) && k < |father| then HomologySpec(father, mother, k, outcomes, drawn)
      else (Failure(NoGenotypeData), drawn)
  }

  /** Every round below the father's chromosome number obeys HomologyOutcome:
      it succeeds exactly when RoundSucceeds, then builds HomologyOf, and
      otherwise fails with RoundError. */
  lemma RoundsOutcome(father: Genotype, mother: Genotype, outcomes: nat -> bool)
    requires BreedReady(father, mother)
    ensures forall k: nat, drawn: nat :: k < |father| ==>
              (Round(father, mother, outcomes)(k, drawn).0.Success? <==> RoundSucceeds(father, mother, k))
    ensures forall k: nat, drawn: nat :: k < |father| && Round(father, mother, outcomes)(k, drawn).0.Success? ==>
              HomologyOf(Round(father, mother, outcomes)(k, drawn).0.value, father, mother, k)
    ensures forall k: nat, drawn: nat :: k < |father| && Round(father, mother, outcomes)(k, drawn).0.Failure? ==>
              GameteFailureAt(Round(father, mother, outcomes)(k, drawn).0.error, k)
    ensures forall k: nat, drawn: nat :: k < |father| && Round(father, mother, outcomes)(k, drawn).0.Failure? ==>
              Round(father, mother, outcomes)(k, drawn).0.error == RoundError(father, mother, k)
  {
    forall k: nat, drawn: nat | k < |father|
      ensures var (h, _) := Round(father, mother, outcomes)(k, drawn);
              && (h.Success? <==> RoundSucceeds(father, mother, k))
              && (h.Success? ==> HomologyOf(h.value, father, mother, k))
              && (h.Failure? ==> GameteFailureAt(h.error, k))
              && (h.Failure? ==> h.error == RoundError(father, mother, k))
    {
      HomologyOutcome(father, mother, k, outcomes, drawn);
    }
  }

  /** The breeding loop over the rounds k, k+1, ..., n-1, appending each
      round's homology to `built`; the first failing round ends it. */
  ghost function RunRounds(round: (nat, nat) -> (Result<seq<Strand>>, nat), n: nat, k: nat, built: Genotype, drawn: nat): (r: (Result<Genotype>, nat))
    ensures r.0.Success? ==> |r.0.value| == |built| + (if k <= n then n - k else 0)
    decreases n - k
  {
    if k >= n then (Success(built), drawn)
    else
      var (homology, after) := round(k, drawn);
      if homology.Failure? then (Failure(homology.error), after)
      else RunRounds(round, n, k + 1, built + [homology.value], after)
  }

  /** One unfolding of the loop: a successful round appends its homology
      and continues with the next chromosome number; a failed one ends it. */
  lemma RunRoundsStep(round: (nat, nat) -> (Result<seq<Strand>>, nat), n: nat, k: nat, built: Genotype, drawn: nat)
    requires k < n
    ensures var (homology, after) := round(k, drawn);
            RunRounds(round, n, k, built, drawn)
            == if homology.Success? then RunRounds(round, n, k + 1, built + [homology.value], after)
               else (Failure(homology.error), after)
  {
    var (homology, after) := round(k, drawn);
    assert RunRounds(round, n, k, built, drawn)
           == if homology.Success? then RunRounds(round, n, k + 1, built + [homology.value], after)
              else (Failure(homology.error), after);
  }

  /** RunRoundsStep for the rounds of breeding. */
  lemma RoundStep(father: Genotype, mother: Genotype, outcomes: nat -> bool, k: nat, built: Genotype, drawn: nat)
    requires BreedReady(father, mother) && k < |father|
    ensures var (homology, after) := HomologySpec(father, mother, k, outcomes, drawn);
            RunRounds(Round(father, mother, outcomes), |father|, k, built, drawn)
            == if homology.Success? then RunRounds(Round(father, mother, outcomes), |father|, k + 1, built + [homology.value], after)
               else (Failure(homology.error), after)
  {
    RunRoundsStep(Round(father, mother, outcomes), |father|, k, built, drawn);
    assert Round(father, mother, outcomes)(k, drawn) == HomologySpec(father, mother, k, outcomes, drawn);
  }

  /** A failure of the loop is the failure of the first failing round it
      ran, with that round's error. */
  lemma {:induction false} RunRoundsFailure(round: (nat, nat) -> (Result<seq<Strand>>, nat), father: Genotype, mother: Genotype, k: nat, built: Genotype, drawn: nat)
    requires PloidyOf(father).Success?
    requires forall j: nat, d: nat :: k <= j < |father| ==> (round(j, d).0.Success? <==> RoundSucceeds(father, mother, j))
    requires forall j: nat, d: nat :: k <= j < |father| && round(j, d).0.Failure? ==> round(j, d).0.error == RoundError(father, mother, j)
    ensures var r := RunRounds(round, |father|, k, built, drawn);
            r.0.Failure? ==> exists j :: FirstFailingRound(father, mother, k, j) && r.0.error == RoundError(father, mother, j)
    decreases |father| - k
  {
    if k < |father| {
      RunRoundsStep(round, |father|, k, built, drawn);
      var (homology, after) := round(k, drawn);
      if homology.Success? {
        RunRoundsFailure(round, father, mother, k + 1, built + [homology.value], after);
        var r := RunRounds(round, |father|, k + 1, built + [homology.value], after);
        if r.0.Failure? {
          var j: nat :| FirstFailingRound(father, mother, k + 1, j) && r.0.error == RoundError(father, mother, j);
          assert FirstFailingRound(father, mother, k, j);
        }
      } else {
        assert FirstFailingRound(father, mother, k, k);
      }
    }
  }

  /** The loop succeeds exactly when every remaining round would. */
  lemma {:induction false} RunRoundsSucceedsIff(round: (nat, nat) -> (Result<seq<Strand>>, nat), father: Genotype, mother: Genotype, k: nat, built: Genotype, drawn: nat)
    requires k <= |father|
    requires forall j: nat, d: nat :: k <= j < |father| ==> (round(j, d).0.Success? <==> RoundSucceeds(father, mother, j))
    ensures RunRounds(round, |father|, k, built, drawn).0.Success? <==>
              forall j :: k <= j < |father| ==> RoundSucceeds(father, mother, j)
    decreases |father| - k
  {
    if k < |father| {
      RunRoundsStep(round, |father|, k, built, drawn);
      var (homology, after) := round(k, drawn);
      if homology.Success? {
        RunRoundsSucceedsIff(round, father, mother, k + 1, built + [homology.value], after);
        assert RoundSucceeds(father, mother, k);
      } else {
        assert !RoundSucceeds(father, mother, k);
      }
    }
  }

  /** On success the loop keeps the homologies built so far and appends the
      homology of every remaining round, in order. */
  lemma {:induction false} RunRoundsShape(round: (nat, nat) -> (Result<seq<Strand>>, nat), father: Genotype, mother: Genotype, k: nat, built: Genotype, drawn: nat)
    requires k <= |father|
    requires forall j: nat, d: nat :: k <= j < |father| && round(j, d).0.Success? ==> HomologyOf(round(j, d).0.value, father, mother, j)
    ensures var r := RunRounds(round, |father|, k, built, drawn);
            r.0.Success? ==>
              && |r.0.value| == |built| + |father| - k
              && r.0.value[..|built|] == built
              && forall j :: |built| <= j < |r.0.value| ==> HomologyOf(r.0.value[j], father, mother, j - |built| + k)
    decreases |father| - k
  {
    if k < |father| {
      RunRoundsStep(round, |father|, k, built, drawn);
      var (homology, after) := round(k, drawn);
      if homology.Success? {
        var built' := built + [homology.value];
        RunRoundsShape(round, father, mother, k + 1, built', after);
        var r := RunRounds(round, |father|, k + 1, built', after);
        if r.0.Success? {
          var child := r.0.value;
          assert child[..|built|] == child[..|built'|][..|built|];
          forall j | |built| <= j < |child|
            ensures HomologyOf(child[j], father, mother, j - |built| + k)
          {
            if j == |built| {
              assert child[j] == built'[|built|];
            } else {
              assert j - |built'| + (k + 1) == j - |built| + k;
            }
          }
        }
      }
    }
  }

  /** Breeding: the father's ploidy, the mother's ploidy, equal ploidies and a
      ploidy of at most two are checked in this order, then one round runs per
      chromosome number of the father. */
  ghost function BreedSpec(father: Genotype, mother: Genotype, outcomes: nat -> bool, drawn: nat): (r: (Result<Genotype>, nat))
    requires GenotypeValid(father) && GenotypeValid(mother)
    requires BreedIndexable(father, mother)
    ensures r.0.Success? ==> |r.0.value| == |father|
    ensures !(PloidyOf(father).Success? && PloidyOf(father) == PloidyOf(mother) && PloidyOf(father).value <= 2) ==>
              r.0.Failure? && r.1 == drawn
  {
    match PloidyOf(father)
    case Failure(e) => (Failure(Chained(FatherPloidy, e)), drawn)
    case Success(fatherPloidy) =>
      match PloidyOf(mother)
      case Failure(e) => (Failure(Chained(MotherPloidy, e)), drawn)
      case Success(motherPloidy) =>
        if fatherPloidy != motherPloidy then (Failure(PloidyMismatch(fatherPloidy, motherPloidy)), drawn)
        else if fatherPloidy > 2 then (Failure(UnsupportedPloidy), drawn)
        else RunRounds(Round(father, mother, outcomes), |father|, 0, [], drawn)
  }

  /** The order of breeding's error checks, and the failure each one reports;
      none of these failures draws from the random source, and a failure
      after them is a gamete failure at one of the father's chromosome
      numbers. */
  lemma BreedErrorOrder(father: Genotype, mother: Genotype, outcomes: nat -> bool, drawn: nat)
    requires GenotypeValid(father) && GenotypeValid(mother)
    requires BreedIndexable(father, mother)
    ensures var r := BreedSpec(father, mother, outcomes, drawn);
            r.0 == Failure(Chained(FatherPloidy, NoGenotypeData)) <==> PloidyOf(father).Failure?
    ensures var r := BreedSpec(father, mother, outcomes, drawn);
            r.0 == Failure(Chained(MotherPloidy, NoGenotypeData)) <==>
              PloidyOf(father).Success? && PloidyOf(mother).Failure?
    ensures var r := BreedSpec(father, mother, outcomes, drawn);
            (r.0.Failure? && r.0.error.PloidyMismatch?) <==>
              PloidyOf(father).Success? && PloidyOf(mother).Success? && PloidyOf(father) != PloidyOf(mother)
    ensures var r := BreedSpec(father, mother, outcomes, drawn);
            r.0.Failure? && r.0.error.PloidyMismatch? ==>
              r.0.error == PloidyMismatch(PloidyOf(father).value, PloidyOf(mother).value)
    ensures var r := BreedSpec(father, mother, outcomes, drawn);
            r.0 == Failure(UnsupportedPloidy) <==>
              PloidyOf(father).Success? && PloidyOf(father) == PloidyOf(mother) && PloidyOf(father).value > 2
    ensures var r := BreedSpec(father, mother, outcomes, drawn);
            !(PloidyOf(father).Success? && PloidyOf(father) == PloidyOf(mother) && PloidyOf(father).value <= 2) ==>
              r.0.Failure? && r.1 == drawn
    ensures var r := BreedSpec(father, mother, outcomes, drawn);
            PloidyOf(father).Success? && PloidyOf(father) == PloidyOf(mother) && PloidyOf(father).value <= 2 && r.0.Failure? ==>
              exists j :: FirstFailingRound(father, mother, 0, j) && r.0.error == RoundError(father, mother, j)
  {
    if PloidyOf(father).Success? && PloidyOf(father) == PloidyOf(mother) && PloidyOf(father).value <= 2 {
      RoundsOutcome(father, mother, outcomes);
      RunRoundsFailure(Round(father, mother, outcomes), father, mother, 0, [], drawn);
    }
  }

  /** Diploid parents with a homology pair over two maps fail to breed with
      IncompatibleMaps, raised by the gamete of the first such pair. */
  lemma BreedMapMismatch(father: Genotype, mother: Genotype, outcomes: nat -> bool, drawn: nat, k: nat)
    requires GenotypeValid(father) && GenotypeValid(mother)
    requires BreedIndexable(father, mother)
    requires PloidyOf(father) == Success(2) && PloidyOf(mother) == Success(2)
    requires k < |father| && !(PairShareMap(father[k]) && PairShareMap(mother[k]))
    ensures var r := BreedSpec(father, mother, outcomes, drawn);
            && r.0.Failure? && r.0.error.Chained? && r.0.error.cause == IncompatibleMaps
            && (r.0.error.context.FatherGamete? || r.0.error.context.MotherGamete?)
            && r.0.error.context.index <= k
            && !(PairShareMap(father[r.0.error.context.index]) && PairShareMap(mother[r.0.error.context.index]))
            && forall i :: 0 <= i < r.0.error.context.index ==> PairShareMap(father[i]) && PairShareMap(mother[i])
  {
    BreedSucceedsIff(father, mother, outcomes, drawn);
    BreedErrorOrder(father, mother, outcomes, drawn);
    var r := BreedSpec(father, mother, outcomes, drawn);
    var j: nat :| FirstFailingRound(father, mother, 0, j) && r.0.error == RoundError(father, mother, j);
    assert r.0.error.context.index == j;
    forall i | 0 <= i < j
      ensures PairShareMap(father[i]) && PairShareMap(mother[i])
    {
      assert RoundSucceeds(father, mother, i);
    }
  }

  /** Breeding succeeds exactly when both parents are diploid and, in each
      parent, the two copies of every homology share one map instance. */
  lemma BreedSucceedsIff(father: Genotype, mother: Genotype, outcomes: nat -> bool, drawn: nat)
    requires GenotypeValid(father) && GenotypeValid(mother)
    requires BreedIndexable(father, mother)
    ensures BreedSpec(father, mother, outcomes, drawn).0.Success? <==>
              && PloidyOf(father) == Success(2)
              && PloidyOf(mother) == Success(2)
              && forall k :: 0 <= k < |father| ==> PairShareMap(father[k]) && PairShareMap(mother[k])
  {
    if PloidyOf(father).Success? && PloidyOf(father) == PloidyOf(mother) && PloidyOf(father).value <= 2 {
      RoundsOutcome(father, mother, outcomes);
      RunRoundsSucceedsIff(Round(father, mother, outcomes), father, mother, 0, [], drawn);
      if PloidyOf(father) != Success(2) {
        assert !RoundSucceeds(father, mother, 0);
      } else {
        forall k | 0 <= k < |father|
          ensures RoundSucceeds(father, mother, k) <==> PairShareMap(father[k]) && PairShareMap(mother[k])
        {
        }
      }
    }
  }

  /** A successful breeding gives a diploid child with the father's number of
      chromosomes, whose homology k is a gamete of the father's homology k
      followed by a gamete of the mother's homology k. */
  lemma BreedChild(father: Genotype, mother: Genotype, outcomes: nat -> bool, drawn: nat)
    requires GenotypeValid(father) && GenotypeValid(mother)
    requires BreedIndexable(father, mother)
    requires BreedSpec(father, mother, outcomes, drawn).0.Success?
    ensures var child := BreedSpec(father, mother, outcomes, drawn).0.value;
            && ChromosomeNumberOf(child) == ChromosomeNumberOf(father)
            && PloidyOf(child) == Success(2)
            && forall k :: 0 <= k < |child| ==> HomologyOf(child[k], father, mother, k)
  {
    assert PloidyOf(father).Success? && PloidyOf(father) == PloidyOf(mother) && PloidyOf(father).value <= 2;
    RoundsOutcome(father, mother, outcomes);
    RunRoundsShape(Round(father, mother, outcomes), father, mother, 0, [], drawn);
    var child := BreedSpec(father, mother, outcomes, drawn).0.value;
    assert HomologyOf(child[0], father, mother, 0);
  }

  /** Haploid parents pass the ploidy checks of breeding but always fail, on
      the father's gamete for the first chromosome, without drawing anything. */
  lemma HaploidParentsNeverBreed(father: Genotype, mother: Genotype, outcomes: nat -> bool, drawn: nat)
    requires GenotypeValid(father) && GenotypeValid(mother)
    requires PloidyOf(father) == Success(1) && PloidyOf(mother) == Success(1)
    ensures BreedSpec(father, mother, outcomes, drawn) == (Failure(Chained(FatherGamete(0), UnsupportedPloidy)), drawn)
  {
    assert BreedReady(father, mother);
    assert Round(father, mother, outcomes)(0, drawn) == HomologySpec(father, mother, 0, outcomes, drawn);
  }

  // ---------------------------------------------------------------------------
  // The individual object
  // ---------------------------------------------------------------------------

  /** The values of the chromosomes of one homology. */
  ghost function StrandsOf(homology: seq<Chromosome>): (s: seq<Strand>)
    reads homology
    ensures |s| == |homology|
    ensures forall j :: 0 <= j < |s| ==> s[j] == homology[j].Value()
  {
    seq(|homology|, j requires 0 <= j < |homology| reads homology => homology[j].Value())
  }

  /** Two nested sequences with the same lengths at both levels: the
      homologies of an individual and their values. */
  predicate SameShape<T, U>(a: seq<seq<T>>, b: seq<seq<U>>) {
    |a| == |b| && forall k :: 0 <= k < |a| ==> |a[k]| == |b[k]|
  }

  /** The ploidy, the chromosome number and gamete indexing depend on the
      shape only. */
  lemma SameShapeChecks<T, U>(a: seq<seq<T>>, b: seq<seq<U>>, k: nat)
    requires SameShape(a, b)
    ensures PloidyOf(a) == PloidyOf(b)
    ensures ChromosomeNumberOf(a) == ChromosomeNumberOf(b)
    ensures GameteIndexable(a, k) == GameteIndexable(b, k)
  {
  }

  lemma SameShapeBreedIndexable<T, U>(father: seq<seq<T>>, mother: seq<seq<T>>, father': seq<seq<U>>, mother': seq<seq<U>>)
    requires SameShape(father, father') && SameShape(mother, mother')
    ensures BreedIndexable(father, mother) == BreedIndexable(father', mother')
  {
    SameShapeChecks(father, father', 0);
    SameShapeChecks(mother, mother', 0);
  }

  class Individual {
    /** A unique identifier, supplied by the caller's identifier generator. */
    const id: string
    var homologies: seq<seq<Chromosome>>
    /** The chromosomes the homologies hold. */
    ghost var Repr: set<Chromosome>
    /** The values of the homologies' chromosomes. */
    ghost var genotype: Genotype

    /** An individual with no genotype data. */
    constructor (id: string)
      ensures this.id == id && homologies == [] && Repr == {} && genotype == []
      ensures Valid()
    {
      this.id := id;
      homologies := [];
      Repr := {};
      genotype := [];
    }

    /** Every chromosome is in Repr, and `genotype` holds its value, which
        keeps the length invariant. */
    ghost predicate Valid()
      reads this, Repr
    {
      && SameShape(homologies, genotype)
      && GenotypeValid(genotype)
      && forall k, j :: 0 <= k < |homologies| && 0 <= j < |homologies[k]| ==>
           homologies[k][j] in Repr && homologies[k][j].Value() == genotype[k][j]
    }

    /** The ploidy of the object is the ploidy of its genotype value. */
    function Ploidy(): (r: Result<nat>)
      reads this, Repr
      ensures r.Failure? <==> |homologies| == 0 || |homologies[0]| == 0
      ensures r.Success? ==> r.value == |homologies[0]|
      ensures Valid() ==> r == PloidyOf(genotype)
    {
      PloidyOf(homologies)
    }

    /** The chromosome number of the object is that of its genotype value. */
    function ChromosomeNumber(): (r: Result<nat>)
      reads this, Repr
      ensures r.Failure? <==> |homologies| == 0
      ensures r.Success? ==> r.value == |homologies|
      ensures Valid() ==> r == ChromosomeNumberOf(genotype)
    {
      ChromosomeNumberOf(homologies)
    }

    /** Appends a homology (the source pushes onto the public field). */
    method PushHomology(homology: seq<Chromosome>)
      requires Valid()
      requires forall j :: 0 <= j < |homology| ==> homology[j].Valid()
      modifies this
      ensures Valid()
      ensures homologies == old(homologies) + [homology]
      ensures Repr == old(Repr) + set j | 0 <= j < |homology| :: homology[j]
      ensures genotype == old(genotype) + [StrandsOf(homology)]
    {
      homologies := homologies + [homology];
      Repr := Repr + set j | 0 <= j < |homology| :: homology[j];
      genotype := genotype + [StrandsOf(homology)];
    }

    /** Produces a gamete from homology `k`: needs ploidy two, then recombines
        the homology's two copies. */
    method GetGamete(k: nat, rng: Rng) returns (r: Result<Chromosome>)
      requires Valid() && GameteIndexable(genotype, k)
      modifies rng
      ensures r.Success? ==> fresh(r.value) && r.value.Valid()
      ensures var (gamete, drawn) := GameteSpec(genotype, k, rng.outcomes, old(rng.drawn));
              Realizes(r, gamete) && rng.drawn == drawn
    {
      SameShapeChecks(homologies, genotype, k);
      var ploidy := Ploidy();
      if ploidy.Failure? {
        return Failure(Chained(PloidyForGamete, ploidy.error));
      }
      if ploidy.value != 2 {
        return Failure(UnsupportedPloidy);
      }
      r := Recombine(homologies[k][0], homologies[k][1], rng);
    }
  }

  /** `r` holds an individual whose genotype is `s`'s value, or the same error. */
  ghost predicate RealizesIndividual(r: Result<Individual>, s: Result<Genotype>)
    reads if r.Success? then {r.value} + r.value.Repr else {}
  {
    match r
    case Success(child) => child.Valid() && s == Success(child.genotype)
    case Failure(e) => s == Failure(e)
  }

  /** One round of the breeding loop: the father's gamete of homology `k`,
      then the mother's, as a new two-copy homology. */
  method NewHomology(father: Individual, mother: Individual, k: nat, rng: Rng) returns (r: Result<seq<Chromosome>>)
    requires father.Valid() && mother.Valid()
    requires BreedReady(father.genotype, mother.genotype) && k < |father.genotype|
    modifies rng
    ensures r.Success? ==> |r.value| == 2
    ensures r.Success? ==> forall j :: 0 <= j < |r.value| ==> fresh(r.value[j]) && r.value[j].Valid()
    ensures var (homology, drawn) := HomologySpec(father.genotype, mother.genotype, k, rng.outcomes, old(rng.drawn));
            && rng.drawn == drawn
            && match r
               case Success(chromosomes) => homology == Success(StrandsOf(chromosomes))
               case Failure(e) => homology == Failure(e)
  {
    var fromFather := father.GetGamete(k, rng);
    if fromFather.Failure? {
      return Failure(Chained(FatherGamete(k), fromFather.error));
    }
    var fromMother := mother.GetGamete(k, rng);
    if fromMother.Failure? {
      return Failure(Chained(MotherGamete(k), fromMother.error));
    }
    r := Success([fromFather.value, fromMother.value]);
    assert StrandsOf(r.value) == [fromFather.value.Value(), fromMother.value.Value()];
  }

  /** One pass of breeding's loop body: a new homology from both parents,
      pushed onto the child. */
  method BreedRound(father: Individual, mother: Individual, k: nat, child: Individual, rng: Rng) returns (err: Option<Error>)
    requires father.Valid() && mother.Valid()
    requires BreedReady(father.genotype, mother.genotype) && k < |father.genotype|
    requires child.Valid() && child != father && child != mother
    modifies rng, child
    ensures child.Valid() && fresh(child.Repr - old(child.Repr))
    ensures err.Some? ==> child.homologies == old(child.homologies) && child.genotype == old(child.genotype)
    ensures err.None? ==> |child.homologies| == |old(child.homologies)| + 1 && child.homologies[..|old(child.homologies)|] == old(child.homologies)
    ensures var (homology, drawn) := HomologySpec(father.genotype, mother.genotype, k, rng.outcomes, old(rng.drawn));
            && rng.drawn == drawn
            && match homology
               case Success(pair) => err.None? && child.genotype == old(child.genotype) + [pair]
               case Failure(e) => err == Some(e)
  {
    var homology := NewHomology(father, mother, k, rng);
    if homology.Failure? {
      return Some(homology.error);
    }
    child.PushHomology(homology.value);
    return None;
  }

  /** Breeding's loop over the father's chromosome numbers, building a new
      individual with identifier `childId`. */
  method BreedAll(father: Individual, mother: Individual, childId: string, rng: Rng) returns (r: Result<Individual>)
    requires father.Valid() && mother.Valid()
    requires BreedReady(father.genotype, mother.genotype)
    modifies rng
    ensures r.Success? ==> fresh(r.value) && fresh(r.value.Repr) && r.value.id == childId
    ensures var (child, drawn) := RunRounds(Round(father.genotype, mother.genotype, rng.outcomes), |father.genotype|, 0, [], old(rng.drawn));
            RealizesIndividual(r, child) && rng.drawn == drawn
  {
    var child := new Individual(childId);
    var count := father.ChromosomeNumber().value;
    ghost var F, M := father.genotype, mother.genotype;
    ghost var round := Round(F, M, rng.outcomes);
    ghost var target := RunRounds(round, |F|, 0, [], rng.drawn);
    for k := 0 to count
      invariant fresh(child) && child.id == childId
      invariant child.Valid() && fresh(child.Repr)
      invariant RunRounds(round, |F|, k, child.genotype, rng.drawn) == target
    {
      RoundStep(F, M, rng.outcomes, k, child.genotype, rng.drawn);
      var err := BreedRound(father, mother, k, child, rng);
      if err.Some? {
        return Failure(err.value);
      }
    }
    return Success(child);
  }

  /** Breeds a child from two individuals: the ploidy checks, then one
      homology per chromosome number as [father gamete, mother gamete]; the
      first failure aborts. */
  method Breed(father: Individual, mother: Individual, childId: string, rng: Rng) returns (r: Result<Individual>)
    requires father.Valid() && mother.Valid()
    requires BreedIndexable(father.homologies, mother.homologies)
    modifies rng
    ensures r.Success? ==> fresh(r.value) && fresh(r.value.Repr) && r.value.id == childId
    ensures var (child, drawn) := BreedSpec(father.genotype, mother.genotype, rng.outcomes, old(rng.drawn));
            RealizesIndividual(r, child) && rng.drawn == drawn
  {
    ghost var F, M := father.genotype, mother.genotype;
    SameShapeChecks(father.homologies, F, 0);
    SameShapeChecks(mother.homologies, M, 0);
    SameShapeBreedIndexable(father.homologies, mother.homologies, F, M);
    var fatherPloidy := father.Ploidy();
    if fatherPloidy.Failure? {
      return Failure(Chained(FatherPloidy, fatherPloidy.error));
    }
    var motherPloidy := mother.Ploidy();
    if motherPloidy.Failure? {
      return Failure(Chained(MotherPloidy, motherPloidy.error));
    }
    if fatherPloidy.value != motherPloidy.value {
      return Failure(PloidyMismatch(fatherPloidy.value, motherPloidy.value));
    }
    if fatherPloidy.value > 2 {
      return Failure(UnsupportedPloidy);
    }
    assert BreedReady(F, M);
    r := BreedAll(father, mother, childId, rng);
  }
}
