/** The `Key` string type of package `pkg/keymod` (pkg/keymod/keymod.go) and
    its builders. Unlike `keymod.HashTagModifier`, the tag builders have no
    brace guard. */
module PkgKeyMod {
  import opened Strings

  /** `Key`: a key of a distributed cache. */
  datatype Key = Key(text: string) {

    /** `k.String()`: the text back, so that `Key(k.String()) == k`. */
    function String(): (r: string)
      ensures Key(r) == this
    {
      text
    }

    /** `k.Prefix(t)`: `t` in front of the key. */
    function Prefix(t: string): (r: Key)
      ensures t <= r.text && EndsWith(r.text, text)
      ensures |r.text| == |t| + |text|
    {
      Key(t + text)
    }

    /** `k.Suffix(t)`: `t` after the key. */
    function Suffix(t: string): (r: Key)
      ensures text <= r.text && EndsWith(r.text, t)
      ensures |r.text| == |text| + |t|
    {
      Key(text + t)
    }

    /** `k.TagPrefix(t)`: `{t}` in front of the key. */
    function TagPrefix(t: string): (r: Key)
      ensures "{" + t + "}" <= r.text && EndsWith(r.text, text)
      ensures |r.text| == |t| + 2 + |text|
    {
      Prefix("{" + t + "}")
    }

    /** `k.TagSuffix(t)`: `{t}` after the key. */
    function TagSuffix(t: string): (r: Key)
      ensures text <= r.text && EndsWith(r.text, "{" + t + "}")
      ensures |r.text| == |text| + |t| + 2
    {
      Suffix("{" + t + "}")
    }
  }

  /** The empty prefix and the empty suffix change nothing. */
  lemma EmptyAffixIsIdentity(k: Key)
    ensures k.Prefix("") == k
    ensures k.Suffix("") == k
  {
    assert "" + k.text == k.text;
    assert k.text + "" == k.text;
  }

  /** Prefixing `a` and then `b` is prefixing `b + a` once; suffixes
      compose in the order given. */
  lemma AffixesCompose(k: Key, a: string, b: string)
    ensures k.Prefix(a).Prefix(b) == k.Prefix(b + a)
    ensures k.Suffix(a).Suffix(b) == k.Suffix(a + b)
  {
    assert b + (a + k.text) == (b + a) + k.text;
    assert (k.text + a) + b == k.text + (a + b);
  }

  /** A prefix and a suffix can be added in either order. */
  lemma PrefixSuffixCommute(k: Key, p: string, s: string)
    ensures k.Prefix(p).Suffix(s) == k.Suffix(s).Prefix(p)
  {
    assert (p + k.text) + s == p + (k.text + s);
  }

  /** The cases of pkg/keymod/keymod_test.go. */
  lemma KeyExamples()
    ensures Key("mykey").String() == "mykey"
    ensures Key("mykey").Prefix("prefix_") == Key("prefix_mykey")
    ensures Key("mykey").Suffix("_suffix") == Key("mykey_suffix")
    ensures Key("mykey").TagPrefix("tag") == Key("{tag}mykey")
    ensures Key("mykey").TagSuffix("tag") == Key("mykey{tag}")
  {
  }
}
