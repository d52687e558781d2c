/**
  `create_key`: a key is the caller's debugging label, a `-` separator and a
  fresh random suffix, the text form of a version-4 UUID. The suffix is a
  parameter here; the lemmas rely only on its fixed length.
 */
module Keys {

  /** `str(uuid.uuid4())` is always 36 characters: 32 hex digits and 4 hyphens. */
  const UuidTextLength: nat := 36

  /** The separator placed between the label and the suffix. */
  const Separator: char := '-'

  /** `create_key(keyname)` with the UUID text supplied as `suffix`. */
  function CreateKey(keyname: string, suffix: string): (key: string)
    ensures |key| == |keyname| + 1 + |suffix|
    ensures |key| > |keyname|
    ensures key[..|keyname|] == keyname
    ensures key[|keyname|] == Separator
    ensures key[|keyname| + 1..] == suffix
  {
    keyname + [Separator] + suffix
  }

  /** The label of a key built with a UUID suffix: everything before the separator and suffix. */
  function KeyLabel(key: string): (name: string)
    requires |key| > UuidTextLength
    ensures |name| == |key| - UuidTextLength - 1
  {
    key[..|key| - UuidTextLength - 1]
  }

  /** The suffix of a key built with a UUID suffix: its last 36 characters. */
  function KeySuffix(key: string): (suffix: string)
    requires |key| > UuidTextLength
    ensures |suffix| == UuidTextLength
  {
    key[|key| - UuidTextLength..]
  }

  /** The label and the suffix can be read back from a key. */
  lemma KeyRoundTrip(keyname: string, suffix: string)
    requires |suffix| == UuidTextLength
    ensures KeyLabel(CreateKey(keyname, suffix)) == keyname
    ensures KeySuffix(CreateKey(keyname, suffix)) == suffix
  {
  }

  /**
    Two keys are equal only when both their labels and their suffixes are:
    distinct UUIDs give distinct keys, whatever the labels.
   */
  lemma CreateKeyInjective(n1: string, s1: string, n2: string, s2: string)
    requires |s1| == UuidTextLength && |s2| == UuidTextLength
    requires CreateKey(n1, s1) == CreateKey(n2, s2)
    ensures n1 == n2 && s1 == s2
  {
  }

  /** Two keys made from the same label with different suffixes never collide. */
  lemma SameLabelDistinctKeys(keyname: string, s1: string, s2: string)
    requires s1 != s2
    ensures CreateKey(keyname, s1) != CreateKey(keyname, s2)
  {
  }
}
