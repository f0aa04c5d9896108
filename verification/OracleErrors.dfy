/** The error codes of the oracle program. */
module OracleErrors {
  datatype Error =
    | WrongDailyRoot
    | StatProofMismatch
    | StatNotInFixture
    | MerkleRootMismatch
    | ArithmeticOverflow
    | TooManyStats
    | MissingStat
    | DuplicateStatCoverage
    | IncompleteStatCoverage
    | MissingDistancePredicate
}
