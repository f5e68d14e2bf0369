/** Settings loaded from the environment (src/config/config.py): every
    variable is stripped and replaced by its default when blank, the two
    boolean flags accept a fixed set of words, and `Validate` names the
    required settings that are empty, in their declared order.  The
    environment is a map from variable names to values. */
module Config {
  import opened Python

  /** The process environment. */
  type Env = map<string, string>

  /** `_get_env(name, default)`: the stripped value of `name`, or `default`
      when the variable is unset or blank. */
  function GetEnv(env: Env, name: string, default: Option<string>): (r: Option<string>)
    ensures name !in env || Strip(env[name]) == "" ==> r == default
    ensures name in env && Strip(env[name]) != "" ==> r == Some(Strip(env[name]))
  {
    if name !in env then default
    else
      var v := Strip(env[name]);
      if v != "" then Some(v) else default
  }

  /** Python `x or fallback` on an optional string. */
  function OrElse(x: Option<string>, fallback: string): string {
    if x.Some? && x.value != "" then x.value else fallback
  }

  /** `_get_env(name, d) or d`: a string setting with a literal default. */
  function StringSetting(env: Env, name: string, d: string): (r: string)
    ensures r == d || (name in env && r == Strip(env[name]) && r != "")
  {
    OrElse(GetEnv(env, name, Some(d)), d)
  }

  /** The words a boolean flag accepts as true, after lower-casing. */
  const TrueWords: seq<string> := ["1", "true", "yes", "y"]

  /** `(_get_env(name, "true") or "true").lower() in ("1", "true", "yes", "y")`. */
  function Flag(env: Env, name: string): bool {
    Lower(StringSetting(env, name, "true")) in TrueWords
  }

  const DefaultAgentName := "eternal-agent"
  const DefaultOpenaiModel := "gpt-4.1-mini"
  const DefaultDeepgramModel := "flux-general-en"
  const DefaultCartesiaModel := "sonic-3"
  const DefaultCartesiaVoiceId := "794f9389-aac1-45b6-b726-9d9369183238"

  /** The frozen `Settings` dataclass, without its two float tunings. */
  datatype Settings = Settings(
    livekitUrl: string,
    livekitApiKey: string,
    livekitApiSecret: string,
    agentName: string,
    deepgramApiKey: string,
    openaiApiKey: string,
    cartesiaApiKey: string,
    beyApiKey: string,
    supabaseUrl: string,
    supabaseServiceRoleKey: string,
    openaiModel: string,
    deepgramModel: string,
    cartesiaModel: string,
    cartesiaVoiceId: string,
    beyAvatarId: string,
    preemptiveGeneration: bool,
    resumeFalseInterruption: bool)

  /** `Settings.from_env()`. */
  function FromEnv(env: Env): (r: Settings)
    ensures r.agentName != "" && r.openaiModel != "" && r.deepgramModel != ""
    ensures r.cartesiaModel != "" && r.cartesiaVoiceId != ""
  {
    Settings(
      livekitUrl := StringSetting(env, "LIVEKIT_URL", ""),
      livekitApiKey := StringSetting(env, "LIVEKIT_API_KEY", ""),
      livekitApiSecret := StringSetting(env, "LIVEKIT_API_SECRET", ""),
      agentName := StringSetting(env, "AGENT_NAME", DefaultAgentName),
      deepgramApiKey := StringSetting(env, "DEEPGRAM_API_KEY", ""),
      openaiApiKey := StringSetting(env, "OPENAI_API_KEY", ""),
      cartesiaApiKey := StringSetting(env, "CARTESIA_API_KEY", ""),
      beyApiKey := StringSetting(env, "BEY_API_KEY", ""),
      supabaseUrl := StringSetting(env, "SUPABASE_URL", ""),
      supabaseServiceRoleKey := StringSetting(env, "SUPABASE_SERVICE_ROLE_KEY", ""),
      openaiModel := StringSetting(env, "OPENAI_MODEL", DefaultOpenaiModel),
      deepgramModel := StringSetting(env, "DEEPGRAM_MODEL", DefaultDeepgramModel),
      cartesiaModel := StringSetting(env, "CARTESIA_MODEL", DefaultCartesiaModel),
      cartesiaVoiceId := StringSetting(env, "CARTESIA_VOICE_ID", DefaultCartesiaVoiceId),
      beyAvatarId := StringSetting(env, "BEY_AVATAR_ID", ""),
      preemptiveGeneration := Flag(env, "PREEMPTIVE_GENERATION"),
      resumeFalseInterruption := Flag(env, "RESUME_FALSE_INTERRUPTION"))
  }

  // ---------- validate ----------

  /** The ten required settings with the variable that names each, in the
      order `validate` checks them. */
  function RequiredPairs(s: Settings): seq<(string, string)> {
    [("LIVEKIT_URL", s.livekitUrl),
     ("LIVEKIT_API_KEY", s.livekitApiKey),
     ("LIVEKIT_API_SECRET", s.livekitApiSecret),
     ("DEEPGRAM_API_KEY", s.deepgramApiKey),
     ("OPENAI_API_KEY", s.openaiApiKey),
     ("CARTESIA_API_KEY", s.cartesiaApiKey),
     ("BEY_API_KEY", s.beyApiKey),
     ("BEY_AVATAR_ID", s.beyAvatarId),
     ("SUPABASE_URL", s.supabaseUrl),
     ("SUPABASE_SERVICE_ROLE_KEY", s.supabaseServiceRoleKey)]
  }

  /** The keys whose value is empty, in order. */
  function MissingKeys(pairs: seq<(string, string)>): (r: seq<string>)
    ensures |r| <= |pairs|
  {
    if pairs == [] then []
    else
      var last := pairs[|pairs| - 1];
      MissingKeys(pairs[..|pairs| - 1]) + (if last.1 == "" then [last.0] else [])
  }

  /** No key is missing exactly when every value is non-empty. */
  lemma {:induction false} NoMissingKeys(pairs: seq<(string, string)>)
    ensures MissingKeys(pairs) == [] <==> forall i :: 0 <= i < |pairs| ==> pairs[i].1 != ""
  {
    if pairs != [] {
      var init := pairs[..|pairs| - 1];
      NoMissingKeys(init);
      if forall i :: 0 <= i < |pairs| ==> pairs[i].1 != "" {
        assert forall i :: 0 <= i < |init| ==> init[i].1 != "" by {
          forall i | 0 <= i < |init| ensures init[i].1 != "" {
            assert init[i] == pairs[i];
          }
        }
      } else {
        if pairs[|pairs| - 1].1 != "" {
          var k :| 0 <= k < |pairs| && pairs[k].1 == "";
          assert init[k] == pairs[k];
        }
      }
    }
  }

  /** `sep.join(xs)`. */
  function Join(xs: seq<string>, sep: string): string {
    if xs == [] then ""
    else if |xs| == 1 then xs[0]
    else Join(xs[..|xs| - 1], sep) + sep + xs[|xs| - 1]
  }

  const MissingPrefix := "Missing required environment variables: "

  /** What `validate()` does: return, or raise ValueError with a message. */
  datatype Validation = Passed | Raised(message: string)

  /** `settings.validate()`. */
  method Validate(s: Settings) returns (r: Validation)
    ensures r.Passed? <==> forall i :: 0 <= i < |RequiredPairs(s)| ==> RequiredPairs(s)[i].1 != ""
    ensures r.Raised? ==> r.message == MissingPrefix + Join(MissingKeys(RequiredPairs(s)), ", ")
  {
    var pairs := RequiredPairs(s);
    var missing: seq<string> := [];
    for i := 0 to |pairs|
      invariant missing == MissingKeys(pairs[..i])
    {
      assert pairs[..i + 1][..i] == pairs[..i];
      var (key, val) := pairs[i];
      if val == "" {
        missing := missing + [key];
      }
    }
    assert pairs[..|pairs|] == pairs;
    NoMissingKeys(pairs);
    if missing != [] {
      return Raised(MissingPrefix + Join(missing, ", "));
    }
    return Passed;
  }
}
