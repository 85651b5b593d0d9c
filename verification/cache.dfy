/** The sentinel errors of package `cache` (errors.go) and TTL validation
    (ttl.go). */
module Cache {
  import opened Results
  import opened GoTypes
  import opened GcErrors

  const ErrNoCache: Error := Text("gocache: no cache implementation available")
  const ErrKeyNotFound: Error := Text("gocache: key not found")
  const ErrPatternMatchingNotSupported: Error := Text("gocache: pattern matching not supported")
  const ErrInvalidTTL: Error := Text("gocache: invalid TTL")

  /** `ValidateTTL`: a time-to-live is acceptable unless it is negative. */
  function ValidateTTL(ttl: Duration): (r: Status<Error>)
    ensures r.Fail? <==> ttl < 0
    ensures r.Fail? ==> r.error == ErrInvalidTTL
  {
    if ttl < 0 then Fail(ErrInvalidTTL) else Ok
  }

  /** The table of ttl_test.go: ten seconds and zero pass, minus one second fails. */
  lemma ValidateTTLExamples()
    ensures ValidateTTL(10 * Second) == Ok
    ensures ValidateTTL(0) == Ok
    ensures ValidateTTL(-1 * Second) == Fail(ErrInvalidTTL)
  {
  }
}
