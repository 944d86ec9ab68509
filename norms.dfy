/** The norms a case can be checked against, each with its maximum mass. */
module Norms {

  /** The three options of the norm field. The chain of string comparisons in
      the application ends in an "should not occur" branch; with a closed type
      that branch cannot be reached. */
  datatype Norm = A | B | C

  const NormAMax: real := 500.0
  const NormBMax: real := 750.0
  const NormCMax: real := 1000.0

  /** The maximum mass a case may have under norm `n`. */
  function MaxMass(n: Norm): (m: real)
    ensures m > 0.0
    ensures m == NormAMax || m == NormBMax || m == NormCMax
  {
    match n
    case A => NormAMax
    case B => NormBMax
    case C => NormCMax
  }

  /** The norms are strictly ordered by strictness: A allows the least mass, C the most,
      so no two norms share a threshold. */
  lemma MaxMassOrdered()
    ensures MaxMass(A) < MaxMass(B) < MaxMass(C)
  {
  }
}
