/** Chromosomes bound to a shared genetic map, and the crossover walk that
    recombines two of them into a gamete. */
module Chromosomes {
  import opened Errors
  import opened Randomness

  /** An allele value: a 32-bit signed integer. */
  newtype Locus = x: int | -0x8000_0000 <= x < 0x8000_0000

  /** The inter-locus crossover probabilities of one chromosome layout. Maps
      are compared by identity: two maps with equal distances are different
      maps. The distances are never computed with; only their number matters. */
  class GeneticMap {
    const distances: seq<real>

    constructor (distances: seq<real>)
      ensures this.distances == distances
    {
      this.distances := distances;
    }
  }

  /** The value of a chromosome: the map it is bound to and its alleles. */
  datatype Strand = Strand(geneticMap: GeneticMap, loci: seq<Locus>) {
    /** One allele per locus: one more locus than the map has gaps. */
    ghost predicate Valid() {
      |loci| == |geneticMap.distances| + 1
    }
  }

  // ---------------------------------------------------------------------------
  // The crossover walk, as functions on allele sequences
  // ---------------------------------------------------------------------------

  /** The number of crossovers among the first i gaps. */
  function Crossings(gaps: seq<bool>, i: nat): (n: nat)
    requires i <= |gaps|
    ensures n <= i
  {
    if i == 0 then 0 else Crossings(gaps, i - 1) + (if gaps[i - 1] then 1 else 0)
  }

  predicate Odd(n: nat) {
    n % 2 == 1
  }

  /** Whether locus i of a gamete is copied from the father: the initial
      strand, flipped once for every crossover before locus i. */
  predicate FromFather(fatherFirst: bool, gaps: seq<bool>, i: nat)
    requires i <= |gaps|
  {
    fatherFirst != Odd(Crossings(gaps, i))
  }

  /** Passing one gap keeps the strand unless a crossover happens there. */
  lemma FromFatherStep(fatherFirst: bool, gaps: seq<bool>, i: nat)
    requires i < |gaps|
    ensures FromFather(fatherFirst, gaps, i + 1) == (FromFather(fatherFirst, gaps, i) != gaps[i])
  {
  }

  /** The walk over the loci: copy the allele of the current strand, then, if
      the draw for the following gap says so, swap the current and the other
      strand. */
  function Walk(current: seq<Locus>, other: seq<Locus>, gaps: seq<bool>): (child: seq<Locus>)
    requires |current| == |other| == |gaps| + 1
    ensures |child| == |current|
    ensures child[0] == current[0]
    decreases |gaps|
  {
    if gaps == [] then [current[0]]
    else if gaps[0] then [current[0]] + Walk(other[1..], current[1..], gaps[1..])
    else [current[0]] + Walk(current[1..], other[1..], gaps[1..])
  }

  /** The alleles of a gamete, given the initial strand and the gap draws. */
  function Recombined(father: seq<Locus>, mother: seq<Locus>, fatherFirst: bool, gaps: seq<bool>): (child: seq<Locus>)
    requires |father| == |mother| == |gaps| + 1
    ensures |child| == |father|
    ensures child[0] == if fatherFirst then father[0] else mother[0]
  {
    if fatherFirst then Walk(father, mother, gaps) else Walk(mother, father, gaps)
  }

  lemma {:induction false} CrossingsOfTail(gaps: seq<bool>, i: nat)
    requires 0 < i <= |gaps|
    ensures Crossings(gaps, i) == (if gaps[0] then 1 else 0) + Crossings(gaps[1..], i - 1)
  {
    if i > 1 {
      CrossingsOfTail(gaps, i - 1);
    }
  }

  /** Locus i of a walk comes from the strand it started on exactly when an
      even number of crossovers lies before i. */
  lemma {:induction false} WalkStrand(current: seq<Locus>, other: seq<Locus>, gaps: seq<bool>, i: nat)
    requires |current| == |other| == |gaps| + 1
    requires i < |current|
    ensures Walk(current, other, gaps)[i] == if Odd(Crossings(gaps, i)) then other[i] else current[i]
    decreases i
  {
    if i > 0 {
      CrossingsOfTail(gaps, i);
      if gaps[0] {
        WalkStrand(other[1..], current[1..], gaps[1..], i - 1);
      } else {
        WalkStrand(current[1..], other[1..], gaps[1..], i - 1);
      }
    }
  }

  /** Strand selection: locus i of the gamete is the father's allele when the
      initial strand XOR the parity of the earlier crossovers picks the father,
      and the mother's allele otherwise. */
  lemma RecombinedStrand(father: seq<Locus>, mother: seq<Locus>, fatherFirst: bool, gaps: seq<bool>, i: nat)
    requires |father| == |mother| == |gaps| + 1
    requires i < |father|
    ensures Recombined(father, mother, fatherFirst, gaps)[i]
            == if FromFather(fatherFirst, gaps, i) then father[i] else mother[i]
  {
    if fatherFirst {
      WalkStrand(father, mother, gaps, i);
    } else {
      WalkStrand(mother, father, gaps, i);
    }
  }

  /** The gamete is the sequence that follows the strand rule locus by locus. */
  lemma RecombinedByStrandRule(father: seq<Locus>, mother: seq<Locus>, fatherFirst: bool, gaps: seq<bool>, child: seq<Locus>)
    requires |father| == |mother| == |child| == |gaps| + 1
    requires forall i :: 0 <= i < |child| ==>
               child[i] == if FromFather(fatherFirst, gaps, i) then father[i] else mother[i]
    ensures Recombined(father, mother, fatherFirst, gaps) == child
  {
    forall i | 0 <= i < |child|
      ensures Recombined(father, mother, fatherFirst, gaps)[i] == child[i]
    {
      RecombinedStrand(father, mother, fatherFirst, gaps, i);
    }
  }

  /** Every allele of the gamete is the father's or the mother's allele at
      that locus. */
  lemma RecombinedFromParents(father: seq<Locus>, mother: seq<Locus>, fatherFirst: bool, gaps: seq<bool>)
    requires |father| == |mother| == |gaps| + 1
    ensures |Recombined(father, mother, fatherFirst, gaps)| == |father|
    ensures forall i :: 0 <= i < |father| ==>
              Recombined(father, mother, fatherFirst, gaps)[i] == father[i] ||
              Recombined(father, mother, fatherFirst, gaps)[i] == mother[i]
  {
    forall i | 0 <= i < |father|
      ensures Recombined(father, mother, fatherFirst, gaps)[i] == father[i] ||
              Recombined(father, mother, fatherFirst, gaps)[i] == mother[i]
    {
      RecombinedStrand(father, mother, fatherFirst, gaps, i);
    }
  }

  /** Block-wise inheritance: between two loci with no crossover in between,
      every locus comes from the same parent. */
  lemma {:induction false} SameStrandWithoutCrossover(fatherFirst: bool, gaps: seq<bool>, i: nat, j: nat)
    requires i <= j <= |gaps|
    requires forall k :: i <= k < j ==> !gaps[k]
    ensures FromFather(fatherFirst, gaps, i) == FromFather(fatherFirst, gaps, j)
    ensures Crossings(gaps, i) == Crossings(gaps, j)
  {
    if i < j {
      SameStrandWithoutCrossover(fatherFirst, gaps, i, j - 1);
    }
  }

  /** With no crossover at all, the gamete is the initially chosen parent. */
  lemma NoCrossoverCopiesFirstStrand(father: seq<Locus>, mother: seq<Locus>, fatherFirst: bool, gaps: seq<bool>)
    requires |father| == |mother| == |gaps| + 1
    requires forall k :: 0 <= k < |gaps| ==> !gaps[k]
    ensures Recombined(father, mother, fatherFirst, gaps) == if fatherFirst then father else mother
  {
    var child := Recombined(father, mother, fatherFirst, gaps);
    forall i | 0 <= i < |child|
      ensures child[i] == (if fatherFirst then father else mother)[i]
    {
      RecombinedStrand(father, mother, fatherFirst, gaps, i);
      SameStrandWithoutCrossover(fatherFirst, gaps, 0, i);
    }
  }

  lemma {:induction false} CrossingsWhenAllCross(gaps: seq<bool>, i: nat)
    requires i <= |gaps|
    requires forall k :: 0 <= k < |gaps| ==> gaps[k]
    ensures Crossings(gaps, i) == i
  {
    if i > 0 {
      CrossingsWhenAllCross(gaps, i - 1);
    }
  }

  /** With a crossover at every gap, the parents alternate locus by locus,
      starting with the initially chosen one. */
  lemma CrossoverEverywhereAlternates(father: seq<Locus>, mother: seq<Locus>, fatherFirst: bool, gaps: seq<bool>, i: nat)
    requires |father| == |mother| == |gaps| + 1
    requires forall k :: 0 <= k < |gaps| ==> gaps[k]
    requires i < |father|
    ensures Recombined(father, mother, fatherFirst, gaps)[i]
            == if fatherFirst == (i % 2 == 0) then father[i] else mother[i]
  {
    RecombinedStrand(father, mother, fatherFirst, gaps, i);
    CrossingsWhenAllCross(gaps, i);
  }

  // ---------------------------------------------------------------------------
  // Recombination of two chromosome values
  // ---------------------------------------------------------------------------

  /** Recombination of two chromosome values, drawing from the stream
      `outcomes` starting at draw number `drawn`: the map check first, then one
      draw for the initial strand and one draw per gap. The second component is
      the number of draws made so far afterwards. */
  function RecombineSpec(father: Strand, mother: Strand, outcomes: nat -> bool, drawn: nat): (r: (Result<Strand>, nat))
    requires father.Valid() && mother.Valid()
    ensures r.0.Failure? <==> father.geneticMap != mother.geneticMap
    ensures r.0.Success? ==> r.0.value.geneticMap == father.geneticMap && r.1 == drawn + |father.loci|
    ensures r.0.Failure? ==> r.1 == drawn
  {
    if father.geneticMap != mother.geneticMap then
      (Failure(IncompatibleMaps), drawn)
    else
      var gaps := Draws(outcomes, drawn + 1, |father.geneticMap.distances|);
      var loci := Recombined(father.loci, mother.loci, outcomes(drawn), gaps);
      (Success(Strand(father.geneticMap, loci)), drawn + 1 + |gaps|)
  }

  /** Recombination fails exactly on two different map instances, without
      drawing; otherwise the gamete lies over the father's map, keeps the
      length invariant, takes every allele from the father or the mother, and
      len() draws have been made. */
  lemma RecombineOutcome(father: Strand, mother: Strand, outcomes: nat -> bool, drawn: nat)
    requires father.Valid() && mother.Valid()
    ensures var (r, after) := RecombineSpec(father, mother, outcomes, drawn);
            r.Failure? <==> father.geneticMap != mother.geneticMap
    ensures var (r, after) := RecombineSpec(father, mother, outcomes, drawn);
            r.Failure? ==> r.error == IncompatibleMaps && after == drawn
    ensures var (r, after) := RecombineSpec(father, mother, outcomes, drawn);
            r.Success? ==>
              && r.value.geneticMap == father.geneticMap
              && r.value.Valid()
              && after == drawn + |father.loci|
              && forall i :: 0 <= i < |father.loci| ==>
                   r.value.loci[i] == father.loci[i] || r.value.loci[i] == mother.loci[i]
  {
    if father.geneticMap == mother.geneticMap {
      var gaps := Draws(outcomes, drawn + 1, |father.geneticMap.distances|);
      RecombinedFromParents(father.loci, mother.loci, outcomes(drawn), gaps);
    }
  }

  /** Only the initial draw and the len()-1 gap draws are consulted: two
      streams that agree on them give the same gamete. */
  lemma RecombineReadsOnlyItsDraws(father: Strand, mother: Strand, outcomes: nat -> bool, outcomes': nat -> bool, drawn: nat)
    requires father.Valid() && mother.Valid()
    requires forall n :: drawn <= n < drawn + |father.loci| ==> outcomes(n) == outcomes'(n)
    ensures RecombineSpec(father, mother, outcomes, drawn) == RecombineSpec(father, mother, outcomes', drawn)
  {
    var L := |father.geneticMap.distances|;
    assert Draws(outcomes, drawn + 1, L) == Draws(outcomes', drawn + 1, L);
  }

  /** The child's locus i is the father's allele exactly under the strand
      rule: the first draw picks the father XOR an odd number of the earlier
      gap draws were crossovers. */
  lemma RecombineStrandSelection(father: Strand, mother: Strand, outcomes: nat -> bool, drawn: nat, i: nat)
    requires father.Valid() && mother.Valid() && father.geneticMap == mother.geneticMap
    requires i < |father.loci|
    ensures var gaps := Draws(outcomes, drawn + 1, |father.geneticMap.distances|);
            RecombineSpec(father, mother, outcomes, drawn).0.value.loci[i]
            == if FromFather(outcomes(drawn), gaps, i) then father.loci[i] else mother.loci[i]
  {
    RecombinedStrand(father.loci, mother.loci, outcomes(drawn), Draws(outcomes, drawn + 1, |father.geneticMap.distances|), i);
  }

  /** The length check of set_loci as the source writes it:
      `map.len() != loci.len() - 1` in unsigned arithmetic. None stands for the
      overflow of `0 - 1`, a panic in a debug build. */
  function SourceLengthGuard(mapLen: nat, lociLen: nat): (rejects: Option<bool>)
    ensures rejects.None? <==> lociLen == 0
    ensures lociLen > 0 ==> rejects == Some(lociLen != mapLen + 1)
  {
    if lociLen == 0 then None else Some(mapLen != lociLen - 1)
  }

  // ---------------------------------------------------------------------------
  // The chromosome object
  // ---------------------------------------------------------------------------

  class Chromosome {
    const geneticMap: GeneticMap
    var loci: seq<Locus>

    ghost function Value(): Strand
      reads this
    {
      Strand(geneticMap, loci)
    }

    /** The length invariant: loci.len() == map.len() + 1. */
    ghost predicate Valid()
      reads this
    {
      Value().Valid()
    }

    /** A chromosome over `map` whose alleles are all zero. */
    constructor (geneticMap: GeneticMap)
      ensures this.geneticMap == geneticMap && Valid()
      ensures loci == seq(|geneticMap.distances| + 1, _ => 0)
    {
      this.geneticMap := geneticMap;
      loci := seq(|geneticMap.distances| + 1, _ => 0);
    }

    /** The number of loci, derived from the map. */
    function Len(): (n: nat)
      reads this
      ensures n >= 1
      ensures Valid() ==> n == |loci|
    {
      |geneticMap.distances| + 1
    }

    /** True when the map has no gaps, that is when there is a single locus. */
    function IsEmpty(): (empty: bool)
      reads this
      ensures empty <==> Len() == 1
      ensures Valid() ==> (empty <==> |loci| == 1)
    {
      |geneticMap.distances| == 0
    }

    /** Read access to one locus; out of range is a bounds violation. */
    function At(i: nat): (allele: Locus)
      reads this
      requires i < |loci|
      ensures allele == Value().loci[i]
    {
      loci[i]
    }

    /** Write access to one locus; out of range is a bounds violation. */
    method SetAt(i: nat, allele: Locus)
      requires Valid() && i < Len()
      modifies this
      ensures Valid()
      ensures loci == old(loci)[i := allele]
    {
      loci := loci[i := allele];
    }

    /** Replaces the loci when their number fits the map, and reports a
        length mismatch, changing nothing, otherwise. */
    method SetLoci(newLoci: seq<Locus>) returns (err: Option<Error>)
      requires Valid()
      modifies this
      ensures Valid()
      ensures err.None? <==> |newLoci| == Len()
      ensures err.None? ==> loci == newLoci
      ensures err.Some? ==> err.value == LengthMismatch(|newLoci|, Len()) && loci == old(loci)
    {
      if |newLoci| != |geneticMap.distances| + 1 {
        return Some(LengthMismatch(|newLoci|, |geneticMap.distances| + 1));
      }
      loci := newLoci;
      return None;
    }

    /** A copy bound to the same map instance. */
    method Clone() returns (copy: Chromosome)
      ensures fresh(copy)
      ensures copy.Value() == Value()
    {
      copy := new Chromosome(geneticMap);
      copy.loci := loci;
    }
  }

  /** `r` holds a chromosome whose value is `s`'s value, or the same error. */
  ghost predicate Realizes(r: Result<Chromosome>, s: Result<Strand>)
    reads if r.Success? then {r.value} else {}
  {
    match r
    case Success(c) => s == Success(c.Value())
    case Failure(e) => s == Failure(e)
  }

  /** Recombines two chromosomes over the same map instance into a new one,
      walking the loci left to right and swapping the strand to copy from at
      every gap whose draw is a crossover. */
  method Recombine(father: Chromosome, mother: Chromosome, rng: Rng) returns (r: Result<Chromosome>)
    requires father.Valid() && mother.Valid()
    modifies rng
    ensures r.Success? ==> fresh(r.value) && r.value.Valid()
    ensures var (child, drawn) := RecombineSpec(father.Value(), mother.Value(), rng.outcomes, old(rng.drawn));
            Realizes(r, child) && rng.drawn == drawn
  {
    if father.geneticMap != mother.geneticMap {
      return Failure(IncompatibleMaps);
    }
    var child := new Chromosome(father.geneticMap);
    ghost var first := rng.outcomes(rng.drawn);
    ghost var gaps := Draws(rng.outcomes, rng.drawn + 1, |father.geneticMap.distances|);
    var chooseFrom, other := father, mother;
    var fatherFirst := rng.Next();
    if !fatherFirst {
      chooseFrom, other := mother, father;
    }
    ghost var onFather := fatherFirst;
    for i := 0 to child.Len()
      invariant child.Valid() && child.geneticMap == father.geneticMap
      invariant rng.drawn == old(rng.drawn) + 1 + (if i < child.Len() then i else i - 1)
      invariant i < child.Len() ==> onFather == FromFather(first, gaps, i)
      invariant chooseFrom == (if onFather then father else mother)
      invariant other == (if onFather then mother else father)
      invariant forall j :: 0 <= j < i ==>
                  child.loci[j] == if FromFather(first, gaps, j) then father.loci[j] else mother.loci[j]
    {
      child.SetAt(i, chooseFrom.At(i));
      if i < child.Len() - 1 {
        var crossover := rng.Next();
        FromFatherStep(first, gaps, i);
        if crossover {
          chooseFrom, other := other, chooseFrom;
          onFather := !onFather;
        }
      }
    }
    RecombinedByStrandRule(father.loci, mother.loci, first, gaps, child.loci);
    return Success(child);
  }
}
