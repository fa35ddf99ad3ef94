/**
  Configuration parsing (src/utils/config.ts): the Hevy API key comes from
  the first command-line argument of the form `--hevy-api-key=KEY`,
  `--hevyApiKey=KEY` or `hevy-api-key=KEY` (prefixes matched without regard
  to letter case), and otherwise from the HEVY_API_KEY environment variable,
  and otherwise is empty.
 */
module Config {
  import opened Wrappers
  import opened Text

  datatype HevyConfig = HevyConfig(apiKey: string)

  /** The accepted argument prefixes, in the order they are tried. */
  const ApiKeyArgPrefixes: seq<string> := ["--hevy-api-key=", "--hevyApiKey=", "hevy-api-key="]

  /** The characters a regular-expression `.` does not match. */
  predicate IsLineTerminator(c: char) {
    c == '\n' || c == '\r' || c == '\U{2028}' || c == '\U{2029}'
  }

  predicate NoLineTerminator(s: string) {
    forall i :: 0 <= i < |s| ==> !IsLineTerminator(s[i])
  }

  /**
    `raw.match(/^<prefix>(.+)$/i)[1]`: the argument starts with the prefix in
    any letter case, and what follows is non-empty and on one line.
   */
  function MatchPrefix(raw: string, prefix: string): (r: Option<string>)
    ensures r.Some? <==> |raw| > |prefix| && Lower(raw[..|prefix|]) == Lower(prefix) && NoLineTerminator(raw[|prefix|..])
    ensures r.Some? ==> r.value != [] && raw == raw[..|prefix|] + r.value
  {
    if |raw| > |prefix| && Lower(raw[..|prefix|]) == Lower(prefix) && NoLineTerminator(raw[|prefix|..])
    then Some(raw[|prefix|..])
    else None
  }

  /** The value captured by the first of the prefixes that matches. */
  function MatchAny(raw: string, prefixes: seq<string>): (r: Option<string>)
    ensures r.Some? ==> r.value != []
    decreases |prefixes|
  {
    if prefixes == [] then None
    else if MatchPrefix(raw, prefixes[0]).Some? then MatchPrefix(raw, prefixes[0])
    else MatchAny(raw, prefixes[1..])
  }

  /** The key given by the first argument that matches one of the accepted forms. */
  function FirstCliKey(argv: seq<string>): (r: Option<string>)
    ensures r.Some? ==> r.value != []
    decreases |argv|
  {
    if argv == [] then None
    else if MatchAny(argv[0], ApiKeyArgPrefixes).Some? then MatchAny(argv[0], ApiKeyArgPrefixes)
    else FirstCliKey(argv[1..])
  }

  /** The key `parseConfig` settles on: a command-line key, else a non-empty HEVY_API_KEY, else "". */
  function ApiKeyOf(argv: seq<string>, env: Option<string>): (r: string)
    ensures FirstCliKey(argv).Some? ==> r == FirstCliKey(argv).value
    ensures FirstCliKey(argv).None? && r != "" ==> env == Some(r)
    ensures r == "" <==> FirstCliKey(argv).None? && (env.None? || env.value == "")
  {
    match FirstCliKey(argv)
    case Some(k) => k
    case None => if env.Some? && env.value != "" then env.value else ""
  }

  /** `parseConfig(argv, env)`; `env` is the value of HEVY_API_KEY, None when it is unset. */
  method ParseConfig(argv: seq<string>, env: Option<string>) returns (config: HevyConfig)
    ensures config.apiKey == ApiKeyOf(argv, env)
  {
    var apiKey := "";
    var i := 0;
    while i < |argv|
      invariant 0 <= i <= |argv|
      invariant apiKey == ""
      invariant FirstCliKey(argv) == FirstCliKey(argv[i..])
    {
      var raw := argv[i];
      var j := 0;
      while j < |ApiKeyArgPrefixes|
        invariant 0 <= j <= |ApiKeyArgPrefixes|
        invariant apiKey == ""
        invariant MatchAny(raw, ApiKeyArgPrefixes) == MatchAny(raw, ApiKeyArgPrefixes[j..])
      {
        var m := MatchPrefix(raw, ApiKeyArgPrefixes[j]);
        if m.Some? {
          apiKey := m.value;
          break;
        }
        assert ApiKeyArgPrefixes[j..][1..] == ApiKeyArgPrefixes[j + 1..];
        j := j + 1;
      }
      if apiKey != "" {
        assert FirstCliKey(argv) == Some(apiKey);
        break;
      }
      assert argv[i..][1..] == argv[i + 1..];
      i := i + 1;
    }
    if apiKey == "" {
      apiKey := if env.Some? then env.value else "";
    }
    config := HevyConfig(apiKey);
  }

  /** A matching argument takes precedence over the environment. */
  lemma CliKeyWins(argv: seq<string>, env: Option<string>)
    requires FirstCliKey(argv).Some?
    ensures ApiKeyOf(argv, env) == FirstCliKey(argv).value
  {
  }

  /**
    The first matching argument wins: arguments before it that match no form
    are skipped, and whatever comes after it is ignored.
   */
  lemma {:induction false} FirstMatchWins(before: seq<string>, raw: string, after: seq<string>, env: Option<string>)
    requires FirstCliKey(before).None?
    requires MatchAny(raw, ApiKeyArgPrefixes).Some?
    ensures ApiKeyOf(before + [raw] + after, env) == MatchAny(raw, ApiKeyArgPrefixes).value
    decreases |before|
  {
    if before == [] {
      assert before + [raw] + after == [raw] + after;
    } else {
      assert (before + [raw] + after)[1..] == before[1..] + [raw] + after;
      FirstMatchWins(before[1..], raw, after, env);
    }
  }

  /** Strings whose lower-case forms differ at some position differ. */
  lemma LowerDiffers(a: string, b: string, i: nat)
    requires i < |a| && i < |b| && LowerChar(a[i]) != LowerChar(b[i])
    ensures Lower(a) != Lower(b)
  {
    assert Lower(a)[i] != Lower(b)[i];
  }

  /**
    Each form is accepted with its prefix in any letter case (`p` is the
    prefix as typed), and the key is everything after the prefix.
   */
  lemma EachFormAccepted(prefix: string, p: string, key: string)
    requires prefix in ApiKeyArgPrefixes
    requires |p| == |prefix| && Lower(p) == Lower(prefix)
    requires key != [] && NoLineTerminator(key)
    ensures MatchAny(p + key, ApiKeyArgPrefixes) == Some(key)
  {
    var raw, ps := p + key, ApiKeyArgPrefixes;
    assert raw[..|p|] == p && raw[|p|..] == key;
    assert Lower(p)[0] == LowerChar(p[0]) && Lower(p)[6] == LowerChar(p[6]);
    if prefix == ps[1] {
      assert MatchPrefix(raw, ps[0]).None? by {
        if |raw| > 15 {
          assert raw[..15][6] == p[6];
          LowerDiffers(raw[..15], ps[0], 6);
        }
      }
    } else if prefix == ps[2] {
      assert MatchPrefix(raw, ps[0]).None? by {
        if |raw| > 15 {
          assert raw[..15][0] == p[0];
          LowerDiffers(raw[..15], ps[0], 0);
        }
      }
      assert MatchPrefix(raw, ps[1]).None? by {
        assert raw[..13][0] == p[0];
        LowerDiffers(raw[..13], ps[1], 0);
      }
    }
  }

  /** A form with nothing after its `=` is no match, so the key falls back to the environment. */
  lemma EmptyValueFallsBack(prefix: string, env: Option<string>)
    requires prefix in ApiKeyArgPrefixes
    ensures MatchAny(prefix, ApiKeyArgPrefixes).None?
    ensures ApiKeyOf([prefix], env) == ApiKeyOf([], env)
  {
    var ps := ApiKeyArgPrefixes;
    if prefix == ps[0] {
      assert MatchPrefix(prefix, ps[1]).None? by {
        LowerDiffers(prefix[..13], ps[1], 6);
      }
    }
    assert ps[1..][1..][1..] == [];
    assert [prefix][1..] == [];
  }

  /** With no matching argument and no (or an empty) HEVY_API_KEY, the key is the empty string. */
  lemma NoKeyIsEmpty(argv: seq<string>, env: Option<string>)
    requires FirstCliKey(argv).None?
    requires env.None? || env.value == ""
    ensures ApiKeyOf(argv, env) == ""
  {
  }
}
