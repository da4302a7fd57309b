/**
 * Reals extended with +infinity: the initial value of every "best value seen so far"
 * tracker (`np.inf`), and a value the caller's opaque loss function may return.
 */
module Extended {

  datatype ExtReal = Finite(v: real) | PosInf

  /** Strict `<` on extended reals: nothing is below a finite value but smaller reals,
      every real is below +inf, and +inf is below nothing. */
  predicate Less(a: ExtReal, b: ExtReal) {
    match a
    case PosInf => false
    case Finite(x) => b.PosInf? || x < b.v
  }

  /** `<=` on extended reals. */
  predicate AtMost(a: ExtReal, b: ExtReal) {
    a == b || Less(a, b)
  }

  lemma LessIsTotalOrder(a: ExtReal, b: ExtReal, c: ExtReal)
    ensures !Less(a, a)
    ensures Less(a, b) ==> !Less(b, a)
    ensures !Less(a, b) ==> AtMost(b, a)
    ensures Less(a, b) && Less(b, c) ==> Less(a, c)
    ensures AtMost(a, b) && AtMost(b, c) ==> AtMost(a, c)
  {
  }
}
