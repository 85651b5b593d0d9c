/** The scheme/type registry behind `OpenCache` (urls.go): a two-level table
    from URL scheme and key type to a URL opener. Parsing the URL string and
    naming the key type (`getTypeKey`) happen outside: the parsed URL and the
    type key are inputs. The registry lock is left out. */
module Urls {
  import opened Results
  import opened GcErrors

  /** A parsed URL: the scheme selects the opener, the rest is the opener's. */
  datatype Url = Url(scheme: string, rest: string)

  /** `urlMux`: scheme, then type key, to opener. The nil table of a fresh
      mux reads like an empty one. */
  datatype UrlMux<O> = UrlMux(schemes: map<string, map<string, O>>)

  /** What registering leaves behind, and whether it panicked. */
  datatype Registration<O> = Registration(mux: UrlMux<O>, panic: Option<Error>)

  /** `defaultURLMux` before anything registers. */
  function EmptyMux<O>(): (m: UrlMux<O>)
    ensures forall s, t :: Lookup(m, s, t) == None
    ensures m.schemes == map[]
  {
    UrlMux(map[])
  }

  /** The opener under `scheme` and `typeKey`, if any. */
  function Lookup<O>(mux: UrlMux<O>, scheme: string, typeKey: string): Option<O>
  {
    if scheme in mux.schemes && typeKey in mux.schemes[scheme]
    then Some(mux.schemes[scheme][typeKey])
    else None
  }

  /** `RegisterCache`: records `opener` under `scheme` and `typeKey`, making
      the scheme's inner table first if needed, and touches no other entry.
      Registering a pair twice panics, and the table stays as it was. */
  function RegisterCache<O>(mux: UrlMux<O>, scheme: string, typeKey: string, opener: O): (r: Registration<O>)
    ensures r.panic.Some? <==> Lookup(mux, scheme, typeKey).Some?
    ensures r.panic.Some? ==> r.mux == mux
    ensures r.panic.Some? ==>
      r.panic.value == New(Text("scheme and type already registered: " + scheme + " - " + typeKey))
    ensures r.panic.None? ==> Lookup(r.mux, scheme, typeKey) == Some(opener)
    ensures r.panic.None? ==> forall s, t :: s != scheme || t != typeKey ==> Lookup(r.mux, s, t) == Lookup(mux, s, t)
    ensures r.panic.None? ==> r.mux.schemes.Keys == mux.schemes.Keys + {scheme}
    ensures r.panic.None? ==> forall s :: s in mux.schemes && s != scheme ==> r.mux.schemes[s] == mux.schemes[s]
    ensures r.panic.None? && scheme in mux.schemes ==>
      r.mux.schemes[scheme].Keys == mux.schemes[scheme].Keys + {typeKey}
    ensures r.panic.None? && scheme !in mux.schemes ==> r.mux.schemes[scheme].Keys == {typeKey}
  {
    var inner := if scheme in mux.schemes then mux.schemes[scheme] else map[];
    if typeKey in inner then
      Registration(mux, Some(New(Text("scheme and type already registered: " + scheme + " - " + typeKey))))
    else
      Registration(UrlMux(mux.schemes[scheme := inner[typeKey := opener]]), None)
  }

  /** `OpenGenericCache`: a URL that did not parse, a scheme nobody
      registered, and a key type nobody registered for that scheme each fail
      with their own error; otherwise the call is handed to the registered
      opener (`dispatch` stands for its `OpenCacheURL`), whose result, error
      included, is returned as is. */
  function OpenGenericCache<O, C>(mux: UrlMux<O>, parsed: Result<Url, Error>, typeKey: string,
                                  dispatch: (O, Url) -> Result<C, Error>): (r: Result<C, Error>)
    ensures parsed.Failure? ==> r == Failure(parsed.error)
    ensures parsed.Success? && parsed.value.scheme !in mux.schemes ==>
      r == Failure(New(Text("no registered opener for scheme: " + parsed.value.scheme)))
    ensures parsed.Success? && parsed.value.scheme in mux.schemes && Lookup(mux, parsed.value.scheme, typeKey).None? ==>
      r == Failure(New(Text("no registered opener for type: " + typeKey)))
    ensures parsed.Success? && Lookup(mux, parsed.value.scheme, typeKey).Some? ==>
      r == dispatch(Lookup(mux, parsed.value.scheme, typeKey).value, parsed.value)
  {
    match parsed
    case Failure(e) => Failure(e)
    case Success(u) =>
      if u.scheme !in mux.schemes then
        Failure(New(Text("no registered opener for scheme: " + u.scheme)))
      else if typeKey !in mux.schemes[u.scheme] then
        Failure(New(Text("no registered opener for type: " + typeKey)))
      else
        dispatch(mux.schemes[u.scheme][typeKey], u)
  }

  /** Once registered, an opener is what `OpenGenericCache` calls for its
      scheme and key type. */
  lemma RegisterThenOpen<O, C>(mux: UrlMux<O>, scheme: string, typeKey: string, opener: O,
                               u: Url, dispatch: (O, Url) -> Result<C, Error>)
    requires Lookup(mux, scheme, typeKey).None? && u.scheme == scheme
    ensures OpenGenericCache(RegisterCache(mux, scheme, typeKey, opener).mux, Success(u), typeKey, dispatch)
      == dispatch(opener, u)
  {
  }

  /** The sequence of urls_test.go: one scheme with two key types registers
      twice, a repeated pair panics, and a key type nobody registered for a
      known scheme fails with the type error. */
  lemma RegistrationScenario<O, C>(a: O, b: O, u: Url, dispatch: (O, Url) -> Result<C, Error>)
    requires u.scheme == "new"
    ensures var r1 := RegisterCache(EmptyMux(), "new", "string", a);
      var r2 := RegisterCache(r1.mux, "new", "keymod.Key", b);
      var r3 := RegisterCache(r2.mux, "new", "string", a);
      && r1.panic.None? && r2.panic.None? && r3.panic.Some?
      && OpenGenericCache(r2.mux, Success(u), "string", dispatch) == dispatch(a, u)
      && OpenGenericCache(r1.mux, Success(u), "keymod.Key", dispatch)
         == Failure(New(Text("no registered opener for type: " + "keymod.Key")))
  {
    var r1 := RegisterCache(EmptyMux(), "new", "string", a);
    assert "string" != "keymod.Key" by { assert "string"[0] != "keymod.Key"[0]; }
    assert Lookup(r1.mux, "new", "keymod.Key").None?;
    var r2 := RegisterCache(r1.mux, "new", "keymod.Key", b);
    assert Lookup(r2.mux, "new", "string") == Some(a);
  }
}
