/** Suffixes of strings. */
module Strings {
  import opened Prelude

  function StripSuffix(s: string, suffix: string): Option<string> {
    if |suffix| <= |s| && s[|s| - |suffix|..] == suffix then Some(s[..|s| - |suffix|]) else None
  }

  lemma StripSuffixExact(s: string, suffix: string, name: string)
    ensures StripSuffix(s, suffix) == Some(name) <==> s == name + suffix
  {
    if StripSuffix(s, suffix).Some? {
      assert s == s[..|s| - |suffix|] + s[|s| - |suffix|..];
    }
    if s == name + suffix {
      assert s[|s| - |suffix|..] == suffix && s[..|s| - |suffix|] == name;
    }
  }

  lemma LastChar(name: string, suffix: string)
    requires suffix != []
    ensures (name + suffix)[|name + suffix| - 1] == suffix[|suffix| - 1]
  {
  }
}
