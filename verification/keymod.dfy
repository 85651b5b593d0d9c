/** Key modifiers of package `keymod` (keymod/keymod.go): functions from key
    to key, and their left-to-right composition. */
module KeyMod {
  import opened Results
  import opened HashTags
  import opened Strings

  /** `KeyModifier`: any function from key to key. */
  type KeyModifier = string -> string

  /** `HashTagModifier(hashTag)`: prefixes `{hashTag}` unless the tag holds
      a brace, in which case keys pass through. The key itself is never
      inspected. */
  function HashTagModifier(hashTag: string): (m: KeyModifier)
    ensures forall key :: EndsWith(m(key), key)
    ensures forall key :: m(key) == key <==> HasBrace(hashTag)
    ensures forall key :: !HasBrace(hashTag) ==> |m(key)| == |hashTag| + 2 + |key|
    ensures forall key :: !HasBrace(hashTag) ==> "{" + hashTag + "}" <= m(key)
  {
    key => if HasBrace(hashTag) then key else "{" + hashTag + "}" + key
  }

  /** Every key a brace-free, non-empty tag modifies carries that tag as its
      Redis Cluster hash tag, so all such keys share a slot. */
  lemma HashTagModifierSetsHashTag(hashTag: string, key: string)
    requires hashTag != "" && !HasBrace(hashTag)
    ensures HashTagOf(HashTagModifier(hashTag)(key)) == Some(hashTag)
  {
    LeadingTag(hashTag, key);
  }

  /** As written, the empty tag is let through: it yields `{}key`, which Redis
      Cluster does not read as a hash tag, so the modified key is hashed
      whole and is not co-located with other keys given the same tag. */
  lemma EmptyHashTagIsNotAHashTag()
    ensures HashTagModifier("")("profile") == "{}profile"
    ensures HashTagModifier("")("profile") != "profile"
    ensures HashTagOf(HashTagModifier("")("profile")) == None
  {
    EmptyLeadingTag("profile");
  }

  /** The guard as evidently intended: a tag is added only when the result
      really carries it as its hash tag, so the empty tag passes keys
      through as a braced tag does. */
  function CheckedHashTagModifier(hashTag: string): (m: KeyModifier)
    ensures forall key :: EndsWith(m(key), key)
    ensures forall key :: m(key) == key <==> hashTag == "" || HasBrace(hashTag)
  {
    key => if hashTag == "" || HasBrace(hashTag) then key else "{" + hashTag + "}" + key
  }

  /** With the corrected guard, every key that is modified carries the tag. */
  lemma CheckedHashTagModifierSetsHashTag(hashTag: string, key: string)
    requires CheckedHashTagModifier(hashTag)(key) != key
    ensures HashTagOf(CheckedHashTagModifier(hashTag)(key)) == Some(hashTag)
  {
    LeadingTag(hashTag, key);
  }

  /** `ModifyKey(key, modifiers...)`: the modifiers applied in order, the
      first one to the original key. */
  function ModifyKey(key: string, modifiers: seq<KeyModifier>): (r: string)
    ensures modifiers == [] ==> r == key
    ensures |modifiers| == 1 ==> r == modifiers[0](key)
    decreases |modifiers|
  {
    if modifiers == [] then key
    else ModifyKey(modifiers[0](key), modifiers[1..])
  }

  /** With no modifiers the key is unchanged. */
  lemma ModifyKeyNone(key: string)
    ensures ModifyKey(key, []) == key
  {
  }

  /** The last modifier is applied last. */
  lemma {:induction false} ModifyKeyAppend(key: string, modifiers: seq<KeyModifier>, m: KeyModifier)
    ensures ModifyKey(key, modifiers + [m]) == m(ModifyKey(key, modifiers))
    decreases |modifiers|
  {
    if modifiers == [] {
      assert [] + [m] == [m];
    } else {
      assert (modifiers + [m])[1..] == modifiers[1..] + [m];
      ModifyKeyAppend(modifiers[0](key), modifiers[1..], m);
    }
  }

  /** Applying two lists of modifiers in turn is applying their concatenation. */
  lemma {:induction false} ModifyKeyConcat(key: string, first: seq<KeyModifier>, second: seq<KeyModifier>)
    ensures ModifyKey(key, first + second) == ModifyKey(ModifyKey(key, first), second)
    decreases |first|
  {
    if first == [] {
      assert first + second == second;
    } else {
      assert (first + second)[1..] == first[1..] + second;
      ModifyKeyConcat(first[0](key), first[1..], second);
    }
  }

  /** The cases of keymod_test.go for one modifier: the key's own braces
      are not inspected, and a braced tag passes the key through. */
  lemma HashTagModifierExamples()
    ensures HashTagModifier("tag")("key") == "{tag}key"
    ensures HashTagModifier("tag")("{key}") == "{tag}{key}"
    ensures HashTagModifier("{tag}")("key") == "key"
    ensures HashTagModifier("{tag}")("{key}") == "{key}"
  {
    assert HasBrace("{tag}");
  }

  /** The cases of keymod_test.go for `ModifyKey`: no modifiers keep the key,
      and stacked tags read outermost last. */
  lemma ModifyKeyExamples()
    ensures ModifyKey("key", []) == "key"
    ensures ModifyKey("key", [HashTagModifier("tag")]) == "{tag}key"
    ensures ModifyKey("key", [HashTagModifier("tag1"), HashTagModifier("tag2")]) == "{tag2}{tag1}key"
  {
    var m1, m2 := HashTagModifier("tag1"), HashTagModifier("tag2");
    assert [m1, m2][1..] == [m2];
  }
}
