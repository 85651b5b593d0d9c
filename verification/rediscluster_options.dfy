/** The driver-independent configuration of the Redis Cluster cache (rediscluster/options.go). */
module RedisClusterOptions {
  import opened GoTypes

  /** `DefaultCountLimit`: the SCAN count hint used when none is given. */
  const DefaultCountLimit: int64 := 10

  /** `Config`: the SCAN count hint. */
  datatype Config = Config(countLimit: int64) {

    /** `revise`: a non-positive count limit falls back to the default; a
        positive one is kept. The revised limit is at least one. */
    function Revise(): (r: Config)
      ensures r.countLimit >= 1
      ensures countLimit > 0 ==> r == this
      ensures countLimit <= 0 ==> r.countLimit == DefaultCountLimit
    {
      if countLimit <= 0 then Config(DefaultCountLimit) else this
    }
  }

  /** Revising twice is revising once. */
  lemma ReviseIsIdempotent(c: Config)
    ensures c.Revise().Revise() == c.Revise()
  {
  }
}
