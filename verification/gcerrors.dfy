/** Go error values as the library builds them, and the scheme-tagged
    `gcerrors.Error` wrapper (internal/gcerrors/errors.go). */
module GcErrors {
  import opened Results
  import opened Strings

  /** An `error` value. `Text` is `errors.New(text)`; `Wrapped` is
      `fmt.Errorf("<prefix>: %w", cause)`; `Gc` is a `*gcerrors.Error`. */
  datatype Error =
    | Text(text: string)
    | Wrapped(prefix: string, cause: Error)
    | Gc(scheme: string, cause: Error)

  /** `err.Error()`. A `gcerrors.Error` is labelled with the library name and,
      when it has one, the driver scheme; every wrapper keeps its cause's
      message as its tail. */
  function Message(e: Error): (r: string)
    ensures e.Gc? ==> "gocache" <= r
    ensures !e.Text? ==> EndsWith(r, Message(e.cause))
  {
    match e
    case Text(t) => t
    case Wrapped(p, c) => p + ": " + Message(c)
    case Gc(s, c) =>
      if s == "" then "gocache: " + Message(c)
      else "gocache/" + s + ": " + Message(c)
  }

  /** `errors.Unwrap(err)`. */
  function Unwrap(e: Error): Option<Error>
  {
    match e
    case Text(_) => None
    case Wrapped(_, c) => Some(c)
    case Gc(_, c) => Some(c)
  }

  /** `errors.Is(err, target)`: `target` occurs on the unwrap chain of `err`.
      Sentinels are compared by value here (Go compares them by identity). */
  predicate Is(e: Error, target: Error)
  {
    e == target || (!e.Text? && Is(e.cause, target))
  }

  /** `gcerrors.NewWithScheme(scheme, err)`. */
  function NewWithScheme(scheme: string, err: Error): (r: Error)
    ensures Unwrap(r) == Some(err)
    ensures forall target :: Is(err, target) ==> Is(r, target)
    ensures scheme == "" ==> Message(r) == "gocache: " + Message(err)
    ensures scheme != "" ==> Message(r) == "gocache/" + scheme + ": " + Message(err)
  {
    Gc(scheme, err)
  }

  /** `gcerrors.New(err)`: a wrapper without a scheme. */
  function New(err: Error): (r: Error)
    ensures Message(r) == Message(NewWithScheme("", err))
    ensures Unwrap(r) == Some(err)
    ensures "gocache: " <= Message(r)
  {
    Gc("", err)
  }

  /** Where the parts of a scheme-less message sit. */
  lemma PlainMessageLayout(c: Error)
    ensures var m := Message(Gc("", c));
      |m| == 9 + |Message(c)| && m[7] == ':' && m[9..] == Message(c)
  {
    var m := Message(Gc("", c));
    assert m == "gocache: " + Message(c);
  }

  /** Where the parts of a scheme-tagged message sit. */
  lemma SchemedMessageLayout(s: string, c: Error)
    requires s != ""
    ensures var m := Message(Gc(s, c));
      && |m| == 10 + |s| + |Message(c)| && m[7] == '/'
      && m[8..8 + |s|] == s && m[8 + |s|] == ':' && m[10 + |s|..] == Message(c)
  {
    var m := Message(Gc(s, c));
    var head := "gocache/" + s;
    assert m == head + (": " + Message(c));
    assert m[..8 + |s|] == head;
    assert head[8..] == s;
  }

  /** A message with a scheme and one without never coincide: the eighth
      character is `/` in the one and `:` in the other. */
  lemma SchemedNeverLooksPlain(s: string, c: Error, d: Error)
    requires s != ""
    ensures Message(Gc(s, c)) != Message(Gc("", d))
  {
    SchemedMessageLayout(s, c);
    PlainMessageLayout(d);
  }

  /** Two colon-free schemes behind equal messages have equal lengths: the
      first colon after the eighth character ends the scheme. */
  lemma SchemeLengthsAgree(s1: string, c1: Error, s2: string, c2: Error)
    requires s1 != "" && s2 != "" && ':' !in s1 && ':' !in s2
    requires Message(Gc(s1, c1)) == Message(Gc(s2, c2))
    ensures |s1| == |s2|
  {
    SchemedMessageLayout(s1, c1);
    SchemedMessageLayout(s2, c2);
    if |s1| < |s2| {
      assert false;
    } else if |s2| < |s1| {
      assert false;
    }
  }

  /** The message of a scheme-tagged error can be decoded: when schemes carry
      no colon, equal messages mean equal schemes and equal inner messages. */
  lemma MessageDeterminesSchemeAndCause(s1: string, c1: Error, s2: string, c2: Error)
    requires ':' !in s1 && ':' !in s2
    requires Message(Gc(s1, c1)) == Message(Gc(s2, c2))
    ensures s1 == s2
    ensures Message(c1) == Message(c2)
  {
    if s1 == "" && s2 == "" {
      PlainMessageLayout(c1);
      PlainMessageLayout(c2);
    } else if s1 == "" {
      SchemedNeverLooksPlain(s2, c2, c1);
    } else if s2 == "" {
      SchemedNeverLooksPlain(s1, c1, c2);
    } else {
      SchemeLengthsAgree(s1, c1, s2, c2);
      SchemedMessageLayout(s1, c1);
      SchemedMessageLayout(s2, c2);
    }
  }
}
