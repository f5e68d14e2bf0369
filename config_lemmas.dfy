/** Properties of the environment defaulting, the flag parsing and the
    validation of src/config/config.py. */
module ConfigProperties {
  import opened Python
  import opened Config

  // ---------- _get_env ----------

  /** Stripping a stripped string changes nothing. */
  lemma StripIdempotent(s: string)
    ensures Strip(Strip(s)) == Strip(s)
  {
    var t := Strip(s);
    if t != [] {
      assert StripLeft(t) == t;
      assert StripRight(t) == t;
    }
  }

  /** A value `_get_env` reads is non-empty and has no surrounding
      whitespace, unless it is the default. */
  lemma GetEnvNormal(env: Env, name: string, default: Option<string>)
    ensures var r := GetEnv(env, name, default);
            r == default || (r.Some? && r.value != "" && !IsSpace(r.value[0]) && !IsSpace(r.value[|r.value| - 1]))
  {
  }

  /** Writing back the value `_get_env` read from the environment and
      reading it again gives the same value. */
  lemma GetEnvReread(env: Env, name: string, default: Option<string>)
    requires name in env && Strip(env[name]) != ""
    ensures var v := GetEnv(env, name, default).value;
            GetEnv(env[name := v], name, default) == Some(v)
  {
    StripIdempotent(env[name]);
  }

  // ---------- string settings ----------

  /** A setting with a non-empty literal default is never empty. */
  lemma StringSettingNonEmpty(env: Env, name: string, d: string)
    requires d != ""
    ensures StringSetting(env, name, d) != ""
  {
  }

  /** An unset or blank variable gives the literal default; any other
      value gives that value, stripped. */
  lemma StringSettingValue(env: Env, name: string, d: string)
    ensures name !in env || Strip(env[name]) == "" ==> StringSetting(env, name, d) == d
    ensures name in env && Strip(env[name]) != "" ==> StringSetting(env, name, d) == Strip(env[name])
  {
  }

  /** `agent_name` falls back to "eternal-agent". */
  lemma AgentNameFallback(env: Env)
    requires "AGENT_NAME" !in env || Strip(env["AGENT_NAME"]) == ""
    ensures FromEnv(env).agentName == DefaultAgentName
  {
  }

  // ---------- boolean flags ----------

  /** An unset or blank flag is true. */
  lemma FlagDefaultsTrue(env: Env, name: string)
    requires name !in env || Strip(env[name]) == ""
    ensures Flag(env, name)
  {
    assert Lower("true") == "true" by { assert NoUpper("true"); }
  }

  /** A set flag is true exactly when its stripped, lower-cased value is
      one of "1", "true", "yes", "y". */
  lemma FlagOfValue(env: Env, name: string)
    requires name in env && Strip(env[name]) != ""
    ensures Flag(env, name) <==> Lower(Strip(env[name])) in TrueWords
  {
  }

  /** Upper-case spellings of the words count as true. */
  lemma FlagUpperCaseYes(env: Env, name: string)
    requires name in env && env[name] == "YES"
    ensures Flag(env, name)
  {
    FlagOfPlainValue(env, name, "YES");
    assert Lower("YES") == "yes";
  }

  /** "no" switches a flag off. */
  lemma FlagNo(env: Env, name: string)
    requires name in env && env[name] == "no"
    ensures !Flag(env, name)
  {
    assert !IsSpace('n') && !IsSpace('o');
    FlagOffWord(env, name, "no");
  }

  /** "0" switches a flag off. */
  lemma FlagZero(env: Env, name: string)
    requires name in env && env[name] == "0"
    ensures !Flag(env, name)
  {
    assert !IsSpace('0');
    FlagOffWord(env, name, "0");
  }

  /** A lower-case word without surrounding whitespace that is not one of
      the true words switches a flag off. */
  lemma FlagOffWord(env: Env, name: string, v: string)
    requires name in env && env[name] == v
    requires v != [] && !IsSpace(v[0]) && !IsSpace(v[|v| - 1])
    requires NoUpper(v) && v !in TrueWords
    ensures !Flag(env, name)
  {
    FlagOfPlainValue(env, name, v);
    LowerOfLower(v);
  }

  /** The flag of a value without surrounding whitespace. */
  lemma FlagOfPlainValue(env: Env, name: string, v: string)
    requires name in env && env[name] == v
    requires v != [] && !IsSpace(v[0]) && !IsSpace(v[|v| - 1])
    ensures Flag(env, name) == (Lower(v) in TrueWords)
  {
    StripNoSpace(v);
    assert StringSetting(env, name, "true") == v;
  }

  // ---------- validate ----------

  /** A key is reported exactly when some required pair carries it with an
      empty value. */
  lemma {:induction false} MissingKeysMembers(pairs: seq<(string, string)>, k: string)
    ensures k in MissingKeys(pairs) <==> exists i :: 0 <= i < |pairs| && pairs[i].0 == k && pairs[i].1 == ""
  {
    if pairs != [] {
      var init, last := pairs[..|pairs| - 1], pairs[|pairs| - 1];
      var tail := if last.1 == "" then [last.0] else [];
      assert MissingKeys(pairs) == MissingKeys(init) + tail;
      MissingKeysMembers(init, k);
      if k in MissingKeys(pairs) {
        if k in MissingKeys(init) {
          var i :| 0 <= i < |init| && init[i].0 == k && init[i].1 == "";
          assert pairs[i] == init[i];
        } else {
          assert pairs[|pairs| - 1].0 == k && pairs[|pairs| - 1].1 == "";
        }
      }
      if exists i :: 0 <= i < |pairs| && pairs[i].0 == k && pairs[i].1 == "" {
        var i :| 0 <= i < |pairs| && pairs[i].0 == k && pairs[i].1 == "";
        if i < |init| {
          assert init[i] == pairs[i];
          assert k in MissingKeys(init);
        } else {
          assert k in tail;
        }
      }
    }
  }

  /** The keys are reported in the order of the pairs. */
  lemma {:induction false} MissingKeysConcat(a: seq<(string, string)>, b: seq<(string, string)>)
    ensures MissingKeys(a + b) == MissingKeys(a) + MissingKeys(b)
    decreases |b|
  {
    if b == [] {
      assert a + b == a;
    } else {
      var init := b[..|b| - 1];
      assert (a + b)[..|a + b| - 1] == a + init;
      assert (a + b)[|a + b| - 1] == b[|b| - 1];
      MissingKeysConcat(a, init);
    }
  }

  /** The keys of a list of pairs. */
  function Keys(pairs: seq<(string, string)>): (r: seq<string>)
    ensures |r| == |pairs|
  {
    if pairs == [] then [] else Keys(pairs[..|pairs| - 1]) + [pairs[|pairs| - 1].0]
  }

  /** When every value is empty, every key is reported. */
  lemma {:induction false} AllMissing(pairs: seq<(string, string)>)
    requires forall i :: 0 <= i < |pairs| ==> pairs[i].1 == ""
    ensures MissingKeys(pairs) == Keys(pairs)
  {
    if pairs != [] {
      var init := pairs[..|pairs| - 1];
      assert forall i :: 0 <= i < |init| ==> init[i].1 == "" by {
        forall i | 0 <= i < |init| ensures init[i].1 == "" {
          assert init[i] == pairs[i];
        }
      }
      AllMissing(init);
    }
  }

  /** An empty environment gives the literal defaults and both flags on. */
  lemma FromEmptyEnv()
    ensures FromEnv(map[]) == Settings("", "", "", DefaultAgentName, "", "", "", "", "", "",
                                       DefaultOpenaiModel, DefaultDeepgramModel, DefaultCartesiaModel,
                                       DefaultCartesiaVoiceId, "", true, true)
  {
    FlagDefaultsTrue(map[], "PREEMPTIVE_GENERATION");
    FlagDefaultsTrue(map[], "RESUME_FALSE_INTERRUPTION");
  }

  /** No key of `pairs[lo..hi]` is reported when all its values are set. */
  lemma NoneMissingIn(pairs: seq<(string, string)>, lo: int, hi: int)
    requires 0 <= lo <= hi <= |pairs|
    requires forall i :: lo <= i < hi ==> pairs[i].1 != ""
    ensures MissingKeys(pairs[lo..hi]) == []
  {
    var part := pairs[lo..hi];
    forall j | 0 <= j < |part| ensures part[j].1 != "" {
      assert part[j] == pairs[lo + j];
    }
    NoMissingKeys(part);
  }

  /** A single empty value is reported alone, so the message names just
      that key, without a separator. */
  lemma {:induction false} OneMissingKey(pairs: seq<(string, string)>, k: int)
    requires 0 <= k < |pairs| && pairs[k].1 == ""
    requires forall i :: 0 <= i < |pairs| && i != k ==> pairs[i].1 != ""
    ensures MissingKeys(pairs) == [pairs[k].0]
    ensures Join(MissingKeys(pairs), ", ") == pairs[k].0
  {
    var init := pairs[..|pairs| - 1];
    if k == |pairs| - 1 {
      NoneMissingIn(pairs, 0, |pairs| - 1);
      assert pairs[0..|pairs| - 1] == init;
    } else {
      forall i | 0 <= i < |init| && i != k ensures init[i].1 != "" {
        assert init[i] == pairs[i];
      }
      assert init[k] == pairs[k];
      OneMissingKey(init, k);
    }
  }
}
