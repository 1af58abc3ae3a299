/** Facts about where one piece of SQL text sits inside another. */
module Strings {

  /** `s` begins with `prefix`. */
  predicate StartsWith(s: string, prefix: string) {
    |prefix| <= |s| && s[..|prefix|] == prefix
  }

  /** `s` ends with `suffix`. */
  predicate EndsWith(s: string, suffix: string) {
    |suffix| <= |s| && s[|s| - |suffix|..] == suffix
  }

  /** `sub` occurs in `s` starting at position `i`. */
  predicate ContainsAt(s: string, sub: string, i: nat) {
    i + |sub| <= |s| && s[i..i + |sub|] == sub
  }

  /** `sub` occurs somewhere in `s`. */
  ghost predicate Contains(s: string, sub: string) {
    exists i: nat :: ContainsAt(s, sub, i)
  }

  /** The middle piece of a concatenation occurs right after the first piece. */
  lemma InfixAt(pre: string, mid: string, post: string)
    ensures ContainsAt(pre + mid + post, mid, |pre|)
  {
  }

  /** An occurrence inside the tail of a concatenation is an occurrence in the whole. */
  lemma ContainsAtShift(pre: string, s: string, sub: string, i: nat)
    requires ContainsAt(s, sub, i)
    ensures ContainsAt(pre + s, sub, |pre| + i)
  {
  }

  /** Appending text in front does not change how a string ends. */
  lemma EndsWithAfterPrefix(pre: string, s: string, suffix: string)
    requires |suffix| <= |s|
    ensures EndsWith(pre + s, suffix) <==> EndsWith(s, suffix)
  {
  }

  /** One mismatching character rules a suffix out. */
  lemma NotEndsWith(s: string, suffix: string, k: nat)
    requires k < |suffix| <= |s|
    requires s[|s| - |suffix| + k] != suffix[k]
    ensures !EndsWith(s, suffix)
  {
  }
}
