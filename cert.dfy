/** cert.go: deciding whether a certificate is still good enough. Times
    are nanoseconds since the epoch and durations nanoseconds; the clock
    reading is a parameter. */
module Cert {
  import opened Types

  /** The CertificateChecker interface: the time-based checker of cert.go,
      or a checker that always answers the same (as a test double does). */
  datatype Checker =
    | TimeExpirationChecker(bestBefore: int)
    | FixedChecker(valid: bool, err: Option<Error>)

  /** IsValid at clock reading `now`. The time checker calls a certificate
      invalid before its NotBefore, or when it expires before now plus the
      look-ahead; Before and After are strict, so both boundaries count as
      valid. Its error is always nil. */
  function IsValid(checker: Checker, cert: Certificate, now: int): (r: (bool, Option<Error>))
    ensures checker.TimeExpirationChecker? ==> r.1.None?
    ensures checker.TimeExpirationChecker? && now < cert.notBefore ==> !r.0
    ensures checker.TimeExpirationChecker? && now + checker.bestBefore > cert.notAfter ==> !r.0
    ensures checker.TimeExpirationChecker? && cert.notBefore <= now && now + checker.bestBefore <= cert.notAfter ==> r.0
    ensures checker.FixedChecker? ==> r == (checker.valid, checker.err)
  {
    match checker
    case TimeExpirationChecker(bestBefore) =>
      if now < cert.notBefore then (false, None)
      else if now + bestBefore > cert.notAfter then (false, None)
      else (true, None)
    case FixedChecker(valid, err) => (valid, err)
  }

  /** A longer look-ahead only makes the checker stricter: valid under d2
      means valid under any d1 <= d2. */
  lemma LookAheadMonotone(d1: int, d2: int, cert: Certificate, now: int)
    requires 0 <= d1 <= d2
    requires IsValid(TimeExpirationChecker(d2), cert, now).0
    ensures IsValid(TimeExpirationChecker(d1), cert, now).0
  {
  }

  /** Both edges of the window are inside it. */
  lemma BoundariesAreValid(cert: Certificate, d: int)
    requires cert.notBefore + d <= cert.notAfter
    ensures IsValid(TimeExpirationChecker(d), cert, cert.notBefore).0
    ensures IsValid(TimeExpirationChecker(d), cert, cert.notAfter - d).0
  {
  }
}
