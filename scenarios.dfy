/** The unit tests of the chromosome and individual modules, as methods (and
    one lemma for the child the breeding test expects) whose contracts state
    what each test asserts; those that draw hold for every stream of draws. */
module Scenarios {
  import opened Errors
  import opened Randomness
  import opened Chromosomes
  import opened Individuals

  /** Three loci do not fit a three-gap map; four do. */
  method UnequalChromosomeError() returns (fatherErr: Option<Error>, motherErr: Option<Error>)
    ensures fatherErr == Some(LengthMismatch(3, 4))
    ensures motherErr.None?
  {
    var geneticMap := new GeneticMap([0.5, 0.1, 0.05]);
    var father := new Chromosome(geneticMap);
    fatherErr := father.SetLoci([1, 1, 1]);
    var mother := new Chromosome(geneticMap);
    motherErr := mother.SetLoci([1, 0, 1, 1]);
  }

  /** Two maps with equal distances are still different maps, so the
      chromosomes cannot be recombined, and nothing is drawn. */
  method DifferentMapsRecombine(outcomes: nat -> bool) returns (r: Result<Chromosome>, drawn: nat)
    ensures r == Failure(IncompatibleMaps)
    ensures drawn == 0
  {
    var fatherMap := new GeneticMap([0.5, 0.1, 0.05]);
    var motherMap := new GeneticMap([0.5, 0.1, 0.05]);
    var father := new Chromosome(fatherMap);
    var fatherErr := father.SetLoci([1, 1, 1, 0]);
    var mother := new Chromosome(motherMap);
    var motherErr := mother.SetLoci([1, 0, 1, 1]);
    var rng := new Rng(outcomes);
    r := Recombine(father, mother, rng);
    RecombineOutcome(father.Value(), mother.Value(), outcomes, 0);
    drawn := rng.drawn;
  }

  /** Recombination over one shared map succeeds, whatever is drawn, after
      four draws; the loci where both parents carry 1 are 1 in the gamete. */
  method CanWorkAtAll(outcomes: nat -> bool) returns (r: Result<Chromosome>, drawn: nat)
    ensures r.Success? && r.value.geneticMap.distances == [0.5, 0.1, 0.05]
    ensures r.Success? ==> |r.value.loci| == 4 && r.value.loci[0] == 1 && r.value.loci[2] == 1
    ensures drawn == 4
  {
    var geneticMap := new GeneticMap([0.5, 0.1, 0.05]);
    var father := new Chromosome(geneticMap);
    var fatherErr := father.SetLoci([1, 1, 1, 0]);
    var mother := new Chromosome(geneticMap);
    var motherErr := mother.SetLoci([1, 0, 1, 1]);
    var rng := new Rng(outcomes);
    r := Recombine(father, mother, rng);
    RecombineOutcome(father.Value(), mother.Value(), outcomes, 0);
    drawn := rng.drawn;
  }

  /** A diploid individual with one homology: a chromosome over `geneticMap` with
      alleles `loci`, and its clone. */
  method DiploidWithOneHomology(id: string, geneticMap: GeneticMap, loci: seq<Locus>) returns (ind: Individual)
    requires |geneticMap.distances| == 1 && |loci| == 2
    ensures fresh(ind) && ind.Valid()
    ensures |ind.homologies| == 1 && |ind.homologies[0]| == 2
    ensures ind.genotype == [[Strand(geneticMap, loci), Strand(geneticMap, loci)]]
  {
    var chromosome := new Chromosome(geneticMap);
    var err := chromosome.SetLoci(loci);
    var copy := chromosome.Clone();
    ind := new Individual(id);
    ind.PushHomology([chromosome, copy]);
    assert StrandsOf([chromosome, copy]) == [chromosome.Value(), copy.Value()];
  }

  /** Parents whose two copies of homology 0 are equal pass that chromosome
      on unchanged: the child of the test's parents is known exactly. */
  lemma CanWorkChild(geneticMap: GeneticMap, outcomes: nat -> bool, drawn: nat)
    requires |geneticMap.distances| == 1
    ensures var father := [[Strand(geneticMap, [0, 0]), Strand(geneticMap, [0, 0])]];
            var mother := [[Strand(geneticMap, [1, 1]), Strand(geneticMap, [1, 1])]];
            BreedSpec(father, mother, outcomes, drawn).0
            == Success([[Strand(geneticMap, [0, 0]), Strand(geneticMap, [1, 1])]])
  {
    var father := [[Strand(geneticMap, [0, 0]), Strand(geneticMap, [0, 0])]];
    var mother := [[Strand(geneticMap, [1, 1]), Strand(geneticMap, [1, 1])]];
    BreedSucceedsIff(father, mother, outcomes, drawn);
    BreedChild(father, mother, outcomes, drawn);
    var child := BreedSpec(father, mother, outcomes, drawn).0.value;
    assert HomologyOf(child[0], father, mother, 0);
    GameteOfIdenticalCopies(child[0][0], father[0][0]);
    GameteOfIdenticalCopies(child[0][1], mother[0][0]);
    assert child == [[father[0][0], mother[0][0]]];
  }

  /** Breeding two diploid individuals over one shared map succeeds, whatever
      is drawn; since each parent carries one allele only, the child's
      homology is the father's alleles followed by the mother's. */
  method CanWork(fatherId: string, motherId: string, childId: string, outcomes: nat -> bool) returns (r: Result<Individual>)
    ensures r.Success? && r.value.id == childId
    ensures r.Success? ==>
              && |r.value.homologies| == 1 && |r.value.homologies[0]| == 2
              && r.value.homologies[0][0].loci == [0, 0]
              && r.value.homologies[0][1].loci == [1, 1]
  {
    var geneticMap := new GeneticMap([0.5]);
    var mother := DiploidWithOneHomology(motherId, geneticMap, [1, 1]);
    var father := DiploidWithOneHomology(fatherId, geneticMap, [0, 0]);
    var rng := new Rng(outcomes);
    CanWorkChild(geneticMap, outcomes, 0);
    r := Breed(father, mother, childId, rng);
    assert r.value.homologies[0][0].Value() == r.value.genotype[0][0];
    assert r.value.homologies[0][1].Value() == r.value.genotype[0][1];
  }
}
