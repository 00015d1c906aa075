# genedrop core in Dafny

A model of the recombination engine and the diploid breeding layer of
genedrop, a gene-drop simulator.

- A **chromosome** is a vector of 32-bit alleles bound to a shared
  **genetic map**. The map is a vector of inter-locus crossover probabilities.
- A chromosome keeps the length invariant `loci.len() == map.len() + 1`.
- **recombine** walks the loci from left to right and copies each allele
  from a current parent. At every gap it swaps the current parent when the
  draw for that gap falls below the map value. It refuses parents whose maps
  are different *instances*, even when their distances are equal.
- An **individual** holds homologies. A homology is a vector of alternate
  copies of one chromosome.
- **ploidy** and **chromosome number** are queries that can fail.
- **get_gamete** recombines the two copies of one homology of a diploid.
- **breed** checks, in this order: the father's ploidy, the mother's ploidy,
  that the ploidies are equal, and that the ploidy is at most two. It then
  builds the child one homology per chromosome number, as
  `[father gamete, mother gamete]`. The first failure aborts.

Files:

- `errors.dfy` (module `Errors`): the error kinds, with the context they
  are re-raised in, plus `Option` and `Result`.
- `random.dfy` (module `Randomness`): the random source. `Rng` holds an
  injected stream of draw outcomes and a counter of the draws made. Draw
  `n` says whether the n-th uniform sample fell below its threshold: 0.5 for
  the initial strand, the map value for a gap.
- `chromosome.dfy` (module `Chromosomes`):
  - `GeneticMap` is a class, so maps compare by identity.
  - `Chromosome` is a class with the map and a `loci` field. Its value is
    `Strand(map, loci)`.
  - The crossover walk is stated as functions on allele sequences: `Walk`,
    `Recombined`, and the strand rule `FromFather`.
  - `RecombineSpec` is recombination as a function of the draw stream and
    the draw counter.
  - The method `Recombine` is the source's loop. It is proved equal to
    `RecombineSpec`.
  - `At` is read indexing (`Index`) and `SetAt` is write indexing (`IndexMut`).
- `individual.dfy` (module `Individuals`):
  - `PloidyOf` and `ChromosomeNumberOf` are the queries.
  - `GameteSpec` and `HomologySpec` are gamete production and one breeding
    round on genotype values.
  - `RunRounds` is the breeding loop over any round function. `Round`
    supplies the actual round; `BreedSpec` is the whole of breeding.
  - The class `Individual` has a ghost `genotype` field: the values of its
    chromosomes, kept by `Valid()`.
  - The methods `GetGamete`, `NewHomology`, `BreedRound`, `BreedAll` and
    `Breed` are the source's imperative code. Each is proved to realize the
    matching function.
- `scenarios.dfy` (module `Scenarios`): the unit tests of both source files,
  as methods (with one lemma, `CanWorkChild`, for the child the breeding test
  expects) whose contracts state what each test asserts; those that draw
  hold for every stream of draws.

## Model

| member | source | states |
|---|---|---|
| Chromosomes.Chromosome.constructor | src/chromosome.rs:22-27 | the chromosome is bound to the given map and has map.len()+1 loci, all zero |
| Chromosomes.Chromosome.SetLoci | src/chromosome.rs:30-42 | succeeds exactly when the new vector has len() elements, and the loci then become that vector; otherwise it reports LengthMismatch(given, map.len()+1) and leaves the loci unchanged; the length invariant is kept (empty vectors included) |
| Chromosomes.SourceLengthGuard | src/chromosome.rs:31 | the guard as written: it overflows exactly for an empty vector, and otherwise rejects exactly the lengths other than map.len()+1 |
| Chromosomes.Chromosome.Len | src/chromosome.rs:45-47 | len() is at least one and equals the number of loci under the invariant |
| Chromosomes.Chromosome.IsEmpty | src/chromosome.rs:49-51 | is_empty() holds exactly when len() is one (the map has no gaps), not when there are no loci |
| Chromosomes.Chromosome.At | src/chromosome.rs:54-60 | reading locus i gives the allele at i of the chromosome's value |
| Chromosomes.Chromosome.SetAt | src/chromosome.rs:62-65 | writing locus i < len() changes that locus only, and keeps the map and the length invariant |
| Chromosomes.Chromosome.Clone | src/chromosome.rs:13 | the derived clone is a new chromosome with the same map instance and the same alleles |
| Chromosomes.Crossings | src/chromosome.rs:117-119 | the number of crossovers among the first i gaps is at most i |
| Chromosomes.Recombined | src/chromosome.rs:102-120 | the gamete's alleles: one per locus, the first taken from the parent chosen first |
| Chromosomes.Walk | src/chromosome.rs:114-120 | the walk yields one allele per locus, and the first is the current strand's |
| Chromosomes.WalkStrand | src/chromosome.rs:114-120 | locus i of the walk is the other strand's allele exactly when an odd number of crossovers come before i |
| Chromosomes.FromFatherStep | src/chromosome.rs:117-119 | passing gap i changes the parent copied from exactly when that gap's draw is a crossover |
| Chromosomes.RecombinedStrand | src/chromosome.rs:106-120 | child[i] is the father's allele exactly when (the first copy is the father's) XOR (an odd number of crossovers come before i), and the mother's otherwise |
| Chromosomes.RecombinedByStrandRule | src/chromosome.rs:106-120 | the gamete is the one sequence that follows the strand rule at every locus |
| Chromosomes.RecombinedFromParents | src/chromosome.rs:114-120 | the gamete has the parents' length, and each allele is the father's or the mother's allele at that locus |
| Chromosomes.SameStrandWithoutCrossover | src/chromosome.rs:114-120 | between two loci with no crossover in between, every locus comes from the same parent |
| Chromosomes.NoCrossoverCopiesFirstStrand | src/chromosome.rs:106-120 | with no crossover at all, the gamete equals the parent chosen first |
| Chromosomes.CrossoverEverywhereAlternates | src/chromosome.rs:106-120 | with a crossover at every gap, the parents alternate locus by locus, starting with the one chosen first |
| Chromosomes.RecombineSpec | src/chromosome.rs:89-123 | recombination fails exactly for two different map instances, drawing nothing; on success the gamete lies over the father's map and len() draws have been made |
| Chromosomes.RecombineOutcome | src/chromosome.rs:89-123 | recombination fails exactly for two different map instances, with IncompatibleMaps and no draw; otherwise the gamete lies over the father's map, keeps the length invariant, takes every allele from a parent, and uses one draw for the initial strand plus len()-1 gap draws |
| Chromosomes.RecombineReadsOnlyItsDraws | src/chromosome.rs:106-117 | only the len() draws starting at the current one are consulted: streams that agree on them give the same gamete |
| Chromosomes.RecombineStrandSelection | src/chromosome.rs:106-120 | the strand rule for locus i, stated on the drawn stream: the first draw, then the gap draws |
| Chromosomes.Recombine | src/chromosome.rs:89-123 | the loop builds a new chromosome that is exactly RecombineSpec's, draw for draw, and changes nothing but the random source (both parents are left untouched) |
| Randomness.Rng.Next | src/chromosome.rs:106 | a draw reports the next outcome of the stream and advances the counter by one |
| Individuals.Individual.constructor | src/individual.rs:19-24 | a new individual has the given identifier and no homologies |
| Individuals.PloidyOf | src/individual.rs:26-32 | ploidy fails with NoGenotypeData exactly when there are no homologies or the first is empty; otherwise it is the size of the first homology |
| Individuals.PloidyIgnoresLaterHomologies | src/individual.rs:26-32 | the sizes of homologies after the first do not affect the ploidy |
| Individuals.Individual.Ploidy | src/individual.rs:26-32 | the object's ploidy fails exactly when there are no homologies or the first is empty, is otherwise the first homology's size, and equals the ploidy of its genotype value |
| Individuals.ChromosomeNumberOf | src/individual.rs:34-41 | the chromosome number fails exactly when there are no homologies, and otherwise is their number; it is known whenever the ploidy is |
| Individuals.Individual.ChromosomeNumber | src/individual.rs:34-41 | the object's chromosome number fails exactly when there are no homologies, is otherwise their number, and equals that of its genotype value |
| Individuals.GameteSpec | src/individual.rs:43-56 | gamete production succeeds exactly for a diploid genotype whose homology k has its two copies over one map instance; a failure draws nothing |
| Individuals.GameteOutcome | src/individual.rs:43-56 | gamete production succeeds exactly for a diploid genotype whose homology k has two copies over one map instance; the gamete then comes from those two copies and len() draws are made; the failures (chained ploidy error, unsupported ploidy, incompatible maps, in that order) draw nothing |
| Individuals.GameteOfIdenticalCopies | src/individual.rs:52-55 | a gamete of a homology whose two copies are equal is that copy |
| Individuals.Individual.GetGamete | src/individual.rs:43-56 | the method returns a new chromosome exactly as gamete production on the genotype values does, error for error and draw for draw |
| Individuals.HomologySpec | src/individual.rs:86-103 | a round yields a two-copy homology, or a gamete failure chained with the father or the mother and the chromosome number k |
| Individuals.HomologyOutcome | src/individual.rs:86-103 | one round succeeds exactly when the parents are diploid and both homology pairs k share a map; it then holds a gamete of the father's homology k followed by one of the mother's; a failure is chained with the parent and k, names the mother only when the father's gamete succeeded, and is exactly RoundError |
| Individuals.RoundError | src/individual.rs:86-103 | the error of a failed round k is a gamete failure chained with k, whose cause is UnsupportedPloidy exactly when the father is not diploid and IncompatibleMaps otherwise; by its definition it names the mother only when the father is diploid and his pair k shares a map |
| Individuals.RoundsOutcome | src/individual.rs:85-105 | every round the loop runs succeeds exactly when RoundSucceeds, then builds a HomologyOf both parents' homology k, and otherwise fails with RoundError |
| Individuals.RunRounds | src/individual.rs:85-106 | a successful loop adds exactly one homology per remaining chromosome number |
| Individuals.RunRoundsFailure | src/individual.rs:85-106 | when every round succeeds exactly as RoundSucceeds says and fails with RoundError, a failed loop reports RoundError of the first failing round: every earlier round succeeds |
| Individuals.RunRoundsSucceedsIff | src/individual.rs:85-106 | the loop succeeds exactly when every remaining round succeeds |
| Individuals.RunRoundsShape | src/individual.rs:85-108 | on success the loop keeps the homologies built so far, then appends the homology of each remaining round in order |
| Individuals.BreedSpec | src/individual.rs:59-109 | a successful breeding has one homology per chromosome number of the father; unless both ploidies are known, equal and at most two, it fails without drawing |
| Individuals.BreedErrorOrder | src/individual.rs:59-108 | breeding reports, in order: the father's ploidy error, the mother's ploidy error, PloidyMismatch(father, mother), and UnsupportedPloidy above two; none of these draws; any later failure is RoundError of the first chromosome number whose round fails, all earlier rounds succeeding |
| Individuals.BreedMapMismatch | src/individual.rs:83-108 | diploid parents with a homology pair over two maps fail with a gamete error chained with IncompatibleMaps, at the first chromosome number whose pairs do not both share a map, which is at most the given one |
| Individuals.BreedSucceedsIff | src/individual.rs:59-109 | breeding succeeds exactly when both parents are diploid and, in each parent, the two copies of every homology share one map instance |
| Individuals.BreedChild | src/individual.rs:83-108 | a successful child has the father's chromosome number and ploidy two, and its homology k is a gamete of the father's homology k followed by a gamete of the mother's |
| Individuals.HaploidParentsNeverBreed | src/individual.rs:76-78 | haploid parents pass the ploidy checks but always fail on the father's gamete for chromosome 0, with UnsupportedPloidy and no draw |
| Individuals.SameShapeChecks | src/individual.rs:26-41 | ploidy, chromosome number and gamete indexing depend only on the homologies' sizes, so the chromosome objects and their values agree on them |
| Individuals.Individual.PushHomology | src/individual.rs:105 | pushing a homology appends it to the homologies, and its chromosomes' values to the genotype |
| Individuals.NewHomology | src/individual.rs:86-103 | one round builds two new chromosomes, the father's gamete then the mother's, exactly as HomologySpec does, error for error and draw for draw |
| Individuals.BreedRound | src/individual.rs:86-105 | one pass of the loop body pushes exactly the round's homology onto the child, keeping the homologies before it; on the round's error it returns that error and leaves the child's homologies and genotype as they were |
| Individuals.BreedAll | src/individual.rs:83-108 | the loop over the father's chromosome numbers builds a new individual whose genotype is exactly RunRounds', or returns its first error |
| Individuals.Breed | src/individual.rs:59-109 | breeding returns a new individual with the given identifier whose genotype is exactly BreedSpec's, or BreedSpec's error, with the same number of draws |
| Scenarios.UnequalChromosomeError | src/chromosome.rs:132-143 | three loci are rejected on a three-gap map with LengthMismatch(3, 4), and four loci are accepted |
| Scenarios.DifferentMapsRecombine | src/chromosome.rs:147-162 | two maps with equal distances are different maps: recombination fails with IncompatibleMaps and nothing is drawn, for every draw stream |
| Scenarios.CanWorkAtAll | src/chromosome.rs:166-180 | recombination over one shared map succeeds for every draw stream, after four draws; loci 0 and 2, where both parents carry 1, are 1 |
| Scenarios.CanWorkChild | src/individual.rs:117-141 | the test's genotypes breed, for every draw stream, exactly the child [[father's [0, 0], mother's [1, 1]]] |
| Scenarios.CanWork | src/individual.rs:117-141 | two diploid parents over one shared map breed successfully for every draw stream, and the child's homology is the father's alleles [0, 0] followed by the mother's [1, 1] |

## Left out

- The random number generator and `random::<f64>()` are not modelled. The
  comparisons `draw < 0.5` and `draw < map[i]` are floating point; the model
  replaces them by the injected stream `Rng.outcomes` of their results.
  Which probabilities the stream follows is not modelled, and the map
  values (`real`) are never computed with.
- `Uuid::new_v4`, the identifier generator, is a foreign call. The
  identifier is a parameter of `Individual`'s constructor and of `Breed`.
- The `error_chain` macros and the message strings are not modelled. Each
  failure is an `Error` kind. `chain_err` becomes `Chained(context, cause)`.
- Rust lifetimes and the `readonly` attribute are not modelled. In the model,
  `loci` is an ordinary field, which the methods change only through
  `SetLoci` and `SetAt`, apart from `Clone` filling in its fresh copy.
- `src/main.rs` (a demo against an older interface) and
  `benches/large-chromosome.rs` (a benchmark) state no behaviour of the core.
  `src/lib.rs` only declares the modules and the error types.
- Chromosomes.Chromosome.At: indexing out of range panics in the source. The
  model makes `i < |loci|` a precondition instead of modelling the panic.
- Individuals.Individual.GetGamete: indexing homology `k` and its copies 0
  and 1 panics in the source when out of range. The model requires
  `GameteIndexable` instead: `k` in range and two copies, once the ploidy is
  two.
- Individuals.Breed: the indexing of the loop panics in the source when the
  mother has fewer homologies than the father, or a homology has fewer than
  two copies. The model makes this a precondition, `BreedIndexable`,
  required whenever both parents are diploid. It is stronger than the panics
  alone: it also excludes diploid inputs where an earlier round fails
  before the bad index is reached. For example, a father
  `[[c(A), c(B)], [c(A), c(A)]]` and a mother `[[c(A), c(A)]]` (where `c(X)`
  is a chromosome over map X) make the source return the father's
  IncompatibleMaps error for chromosome 0, and the model cannot call `Breed`
  on them. The model does not describe those panics or those early
  failures.
- Individuals.Round: outside the father's chromosome numbers, the round
  function returns a placeholder failure. The loop never calls it there.

## Findings

| source | as written | input that shows it | evidently intended | confidence | as-written member | corrected member |
|---|---|---|---|---|---|---|
| src/chromosome.rs:31 | `self.map.len() != loci.len() - 1` computes `loci.len() - 1` in unsigned arithmetic | `set_loci(vec![])` on any chromosome: `0 - 1` overflows, which panics in a debug build (a release build wraps and happens to reject the vector) | an empty vector is a length mismatch like any other wrong length, reported as an error | not executed | Chromosomes.SourceLengthGuard | Chromosomes.Chromosome.SetLoci |
