/** The sweep configuration of the in-memory driver (ramcache/options.go). */
module RamCacheOptions {
  import opened GoTypes

  /** The interval `revise` falls back to. */
  const DefaultCleanupInterval: Duration := 5 * Minute

  /** `Options`: how often expired entries are looked for. */
  datatype Options = Options(cleanupInterval: Duration) {

    /** `revise`: a non-positive interval falls back to five minutes; a
        positive one is kept. The revised interval is always positive. */
    function Revise(): (r: Options)
      ensures r.cleanupInterval > 0
      ensures cleanupInterval > 0 ==> r == this
      ensures cleanupInterval <= 0 ==> r.cleanupInterval == 5 * Minute
    {
      if cleanupInterval <= 0 then Options(DefaultCleanupInterval) else this
    }
  }

  /** Revising twice is revising once. */
  lemma ReviseIsIdempotent(o: Options)
    ensures o.Revise().Revise() == o.Revise()
  {
  }
}
