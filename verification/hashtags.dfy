/** The hash-tag rule of the Redis Cluster specification ("Hash tags" in its
    key distribution model), which the key modifiers exist to serve: when a
    key holds a `{`, a later `}`, and at least one character between the first
    `{` and the first `}` after it, only that text is hashed, so keys with the
    same tag land in the same slot. This is the reference the modifiers are
    checked against. */
module HashTags {
  import opened Results

  predicate HasBrace(s: string)
  {
    '{' in s || '}' in s
  }

  /** The index of the first `c` in `s` at or after `from`. */
  function IndexFrom(s: string, c: char, from: nat): (r: Option<nat>)
    requires from <= |s|
    ensures r.Some? ==> from <= r.value < |s| && s[r.value] == c
    ensures r.Some? ==> forall i :: from <= i < r.value ==> s[i] != c
    ensures r.None? ==> forall i :: from <= i < |s| ==> s[i] != c
    decreases |s| - from
  {
    if from == |s| then None
    else if s[from] == c then Some(from)
    else IndexFrom(s, c, from + 1)
  }

  /** The hash tag Redis Cluster reads from `key`, if any. */
  function HashTagOf(key: string): Option<string>
  {
    match IndexFrom(key, '{', 0)
    case None => None
    case Some(lo) =>
      match IndexFrom(key, '}', lo + 1)
      case None => None
      case Some(hi) => if hi == lo + 1 then None else Some(key[lo + 1..hi])
  }

  /** A key that starts with `{tag}` has hash tag `tag`, whatever follows,
      provided the tag is non-empty and brace-free. */
  lemma LeadingTag(tag: string, rest: string)
    requires tag != "" && !HasBrace(tag)
    ensures HashTagOf("{" + tag + "}" + rest) == Some(tag)
  {
    var key := "{" + tag + "}" + rest;
    assert key[0] == '{';
    assert IndexFrom(key, '{', 0) == Some(0);
    assert key[|tag| + 1] == '}';
    assert forall i :: 1 <= i < |tag| + 1 ==> key[i] == tag[i - 1];
    assert IndexFrom(key, '}', 1) == Some(|tag| + 1);
    assert key[1..|tag| + 1] == tag;
  }

  /** A key that begins with the empty tag `{}` has no hash tag when the rest
      of it is brace-free: Redis Cluster hashes the whole key. */
  lemma EmptyLeadingTag(rest: string)
    requires !HasBrace(rest)
    ensures HashTagOf("{}" + rest) == None
  {
    var key := "{}" + rest;
    assert IndexFrom(key, '{', 0) == Some(0);
    assert IndexFrom(key, '}', 1) == Some(1);
  }

  /** A key whose first `{` opens a trailing `{tag}` has hash tag `tag`. */
  lemma TrailingTag(head: string, tag: string)
    requires tag != "" && !HasBrace(tag) && '{' !in head
    ensures HashTagOf(head + "{" + tag + "}") == Some(tag)
  {
    var key := head + "{" + tag + "}";
    var lo := |head|;
    assert key[lo] == '{';
    assert forall i :: 0 <= i < lo ==> key[i] == head[i];
    assert IndexFrom(key, '{', 0) == Some(lo);
    assert key[lo + 1 + |tag|] == '}';
    assert forall i :: lo + 1 <= i < lo + 1 + |tag| ==> key[i] == tag[i - lo - 1];
    assert IndexFrom(key, '}', lo + 1) == Some(lo + 1 + |tag|);
    assert key[lo + 1..lo + 1 + |tag|] == tag;
  }
}
