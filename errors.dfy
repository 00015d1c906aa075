/** Failure values of the breeding core. The source reports errors as chained
    messages; here each failure is a kind, and the chaining is kept as the
    context in which a cause was re-raised. */
module Errors {

  /** Where a failure was re-raised with extra context. */
  datatype Context =
    | PloidyForGamete          // ploidy could not be determined while producing a gamete
    | FatherPloidy             // ploidy of the father could not be determined
    | MotherPloidy             // ploidy of the mother could not be determined
    | FatherGamete(index: nat) // the father's gamete for this chromosome number failed
    | MotherGamete(index: nat) // the mother's gamete for this chromosome number failed

  datatype Error =
    | LengthMismatch(given: nat, expected: nat)
    | IncompatibleMaps
    | NoGenotypeData
    | PloidyMismatch(father: nat, mother: nat)
    | UnsupportedPloidy
    | Chained(context: Context, cause: Error)

  datatype Option<+T> = None | Some(value: T)

  datatype Result<+T> = Success(value: T) | Failure(error: Error)
}
