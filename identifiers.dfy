/**
 * Identifier scheme of the backend: a readable prefix, an underscore and a
 * 10-character suffix drawn from the lower-case ASCII letters and the digits
 * (`_make_id`). The random draw itself is not modelled; the drawn suffix is
 * an argument.
 */
module Identifiers {
  import opened Wrappers

  /** `string.ascii_lowercase + string.digits`. */
  const Alphabet: string := "abcdefghijklmnopqrstuvwxyz0123456789"

  /** The `k` passed to `random.choices`. */
  const SuffixLength: nat := 10

  /** Prefixes used by the callers of `_make_id`. */
  const SessionPrefix: string := "sess"
  const QuestionPrefix: string := "q"

  /** A value `random.choices(Alphabet, k=10)` joined into a string can take. */
  predicate IsSuffix(s: string) {
    |s| == SuffixLength && forall i :: 0 <= i < |s| ==> s[i] in Alphabet
  }

  /** `_make_id(prefix)` once the random suffix has been drawn. */
  function MakeId(prefix: string, suffix: string): (id: string)
    requires IsSuffix(suffix)
    ensures |id| == |prefix| + 1 + SuffixLength
    ensures id[..|prefix|] == prefix && id[|prefix|] == '_'
    ensures IsSuffix(id[|prefix| + 1..])
  {
    prefix + "_" + suffix
  }

  /**
   * Reads an identifier back: the suffix when `id` has the shape `MakeId`
   * produces for `prefix`, and None otherwise.
   */
  function ParseId(prefix: string, id: string): (r: Option<string>)
    ensures r.Some? <==>
      (|id| == |prefix| + 1 + SuffixLength && id[..|prefix|] == prefix &&
       id[|prefix|] == '_' && IsSuffix(id[|prefix| + 1..]))
    ensures r.Some? ==> IsSuffix(r.value)
  {
    if |id| == |prefix| + 1 + SuffixLength && id[..|prefix|] == prefix &&
       id[|prefix|] == '_' && IsSuffix(id[|prefix| + 1..])
    then Some(id[|prefix| + 1..])
    else None
  }

  /** Parsing an identifier recovers the suffix it was made from. */
  lemma ParseMakeId(prefix: string, suffix: string)
    requires IsSuffix(suffix)
    ensures ParseId(prefix, MakeId(prefix, suffix)) == Some(suffix)
  {
    assert MakeId(prefix, suffix)[|prefix| + 1..] == suffix;
  }

  /** Every identifier that parses is the one made from its suffix. */
  lemma MakeParsedId(prefix: string, id: string)
    requires ParseId(prefix, id).Some?
    ensures MakeId(prefix, ParseId(prefix, id).value) == id
  {
    assert id == id[..|prefix|] + [id[|prefix|]] + id[|prefix| + 1..];
  }

  /**
   * Two identifiers with the same prefix are equal exactly when their drawn
   * suffixes are: distinct draws give distinct identifiers.
   */
  lemma MakeIdInjective(prefix: string, s1: string, s2: string)
    requires IsSuffix(s1) && IsSuffix(s2)
    ensures MakeId(prefix, s1) == MakeId(prefix, s2) <==> s1 == s2
  {
    if MakeId(prefix, s1) == MakeId(prefix, s2) {
      ParseMakeId(prefix, s1);
      ParseMakeId(prefix, s2);
    }
  }

  /** A session identifier is "sess_" followed by the suffix, 15 characters in all. */
  lemma SessionIdShape(suffix: string)
    requires IsSuffix(suffix)
    ensures |MakeId(SessionPrefix, suffix)| == 15
    ensures MakeId(SessionPrefix, suffix)[..5] == "sess_"
    ensures MakeId(SessionPrefix, suffix)[5..] == suffix
  {
    assert MakeId(SessionPrefix, suffix) == "sess_" + suffix;
  }
}
