/** How the two key-modifier packages relate to each other and to the Redis
    Cluster hash-tag rule. */
module KeyModTags {
  import opened Results
  import opened HashTags
  import KeyMod
  import opened PkgKeyMod

  /** For a brace-free tag, `Key.TagPrefix` and `HashTagModifier` build the
      same key; for a tag with a brace they differ, because only
      `HashTagModifier` guards against braces. */
  lemma TagPrefixVersusHashTagModifier(key: string, tag: string)
    ensures !HasBrace(tag) ==> Key(key).TagPrefix(tag).text == KeyMod.HashTagModifier(tag)(key)
    ensures HasBrace(tag) ==> Key(key).TagPrefix(tag).text != KeyMod.HashTagModifier(tag)(key)
  {
  }

  /** `TagPrefix` with a non-empty, brace-free tag fixes the hash tag. */
  lemma TagPrefixSetsHashTag(k: Key, tag: string)
    requires tag != "" && !HasBrace(tag)
    ensures HashTagOf(k.TagPrefix(tag).text) == Some(tag)
  {
    assert k.TagPrefix(tag).text == "{" + tag + "}" + k.text;
    LeadingTag(tag, k.text);
  }

  /** `TagSuffix` fixes the hash tag only for keys without a `{`; in a key
      that has one, the earlier brace decides. */
  lemma TagSuffixSetsHashTag(k: Key, tag: string)
    requires tag != "" && !HasBrace(tag) && '{' !in k.text
    ensures HashTagOf(k.TagSuffix(tag).text) == Some(tag)
  {
    assert k.TagSuffix(tag).text == k.text + "{" + tag + "}";
    TrailingTag(k.text, tag);
  }

  /** The earlier brace wins: `{a}x` suffixed with tag `b` keeps hash tag `a`. */
  lemma TagSuffixAfterBracedKey()
    ensures HashTagOf(Key("{a}x").TagSuffix("b").text) == Some("a")
  {
    var key := Key("{a}x").TagSuffix("b").text;
    assert key == "{" + "a" + "}" + "x{b}";
    LeadingTag("a", "x{b}");
  }
}
