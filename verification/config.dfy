/**
 * Loading the service configuration from the environment (config/config.go).
 * The environment is a map from variable names to values; a variable that is
 * set to the empty string is present in the map.
 */
module Configuration {
  import opened Results
  import opened ProviderFactory

  type Env = map<string, string>

  /** A parser of decimal floating-point text, such as strconv.ParseFloat. */
  type FloatParser = string -> Result<real>

  datatype Config = Config(
    Port: string,
    JWTSecret: string,
    DatabaseURL: string,
    Provider: ProviderType,
    Model: string,
    Temperature: real,
    MaxTokens: int)

  /** The value of a variable that is set, even to the empty string; otherwise the fallback. */
  function GetEnv(env: Env, key: string, fallback: string): string
  {
    if key in env then env[key] else fallback
  }

  // ----- strconv.Atoi on a 64-bit platform -----

  const MinInt64: int := -0x8000_0000_0000_0000
  const MaxInt64: int := 0x7fff_ffff_ffff_ffff

  predicate IsDigit(c: char) { '0' <= c <= '9' }

  predicate AllDigits(s: string)
  {
    forall i :: 0 <= i < |s| ==> IsDigit(s[i])
  }

  /** The value of a run of decimal digits, most significant first. */
  function DigitsValue(s: string): nat
    requires AllDigits(s)
  {
    if |s| == 0 then 0 else DigitsValue(s[..|s| - 1]) * 10 + (s[|s| - 1] as int - '0' as int)
  }

  /** s without its sign, when it starts with '+' or '-'. */
  function Unsigned(s: string): string
  {
    if |s| > 0 && (s[0] == '+' || s[0] == '-') then s[1..] else s
  }

  /** The value of a signed run of digits. */
  function SignedValue(s: string): int
    requires AllDigits(Unsigned(s))
  {
    var n: int := DigitsValue(Unsigned(s));
    if |s| > 0 && s[0] == '-' then -n else n
  }

  /**
   * The integer spelled by s: an optional sign, then at least one decimal digit,
   * and nothing else; an error for any other text, and for a value that does not
   * fit in 64 bits.
   */
  function Atoi(s: string): (r: Result<int>)
    ensures r.Ok? ==> MinInt64 <= r.value <= MaxInt64
    ensures r.Ok? <==>
      (|Unsigned(s)| > 0 && AllDigits(Unsigned(s)) && MinInt64 <= SignedValue(s) <= MaxInt64)
    ensures r.Ok? ==> r.value == SignedValue(s)
  {
    var digits := Unsigned(s);
    if |digits| == 0 || !AllDigits(digits) then
      Err("strconv.Atoi: parsing \"" + s + "\": invalid syntax")
    else
      var v := SignedValue(s);
      if v < MinInt64 || v > MaxInt64 then Err("strconv.Atoi: parsing \"" + s + "\": value out of range")
      else Ok(v)
  }

  function DigitChar(d: nat): char
    requires d < 10
  {
    ('0' as int + d) as char
  }

  /** The decimal spelling of n, without leading zeros. */
  function NatToString(n: nat): string
  {
    if n < 10 then [DigitChar(n)] else NatToString(n / 10) + [DigitChar(n % 10)]
  }

  /** The decimal spelling of n, with a '-' when it is negative (strconv.Itoa). */
  function Itoa(n: int): string
  {
    if n < 0 then "-" + NatToString(-n) else NatToString(n)
  }

  /** The spelling of n is a non-empty run of digits whose value is n. */
  lemma {:induction false} NatToStringValue(n: nat)
    ensures |NatToString(n)| > 0 && AllDigits(NatToString(n))
    ensures DigitsValue(NatToString(n)) == n
    ensures NatToString(n)[0] != '-' && NatToString(n)[0] != '+'
  {
    var s := NatToString(n);
    if n >= 10 {
      NatToStringValue(n / 10);
      assert s[..|s| - 1] == NatToString(n / 10);
      assert s[0] == NatToString(n / 10)[0];
    }
  }

  /** Reading back a 64-bit integer's spelling gives the integer. */
  lemma AtoiItoa(n: int)
    requires MinInt64 <= n <= MaxInt64
    ensures Atoi(Itoa(n)) == Ok(n)
  {
    var s := Itoa(n);
    if n < 0 {
      NatToStringValue(-n);
      assert s == "-" + NatToString(-n);
      assert s[0] == '-' && Unsigned(s) == NatToString(-n);
      assert SignedValue(s) == n;
    } else {
      NatToStringValue(n);
      assert s == NatToString(n);
      assert Unsigned(s) == s;
      assert SignedValue(s) == n;
    }
  }

  /** Text holding a character that is neither a digit nor a leading sign is rejected. */
  lemma AtoiRejectsNonDigit(s: string, i: int)
    requires 0 <= i < |s| && !IsDigit(s[i])
    requires i > 0 || (s[0] != '+' && s[0] != '-')
    ensures Atoi(s).Err?
  {
    if |s| > 0 && (s[0] == '+' || s[0] == '-') {
      assert Unsigned(s)[i - 1] == s[i];
    }
  }

  // ----- typed variables -----

  /** An integer variable: the fallback when unset or empty, otherwise its parsed value or the parse error. */
  function GetEnvAsInt(env: Env, key: string, fallback: int): Result<int>
  {
    var valueStr := GetEnv(env, key, "");
    if valueStr == "" then Ok(fallback) else Atoi(valueStr)
  }

  /** A floating-point variable: the fallback when unset or empty, otherwise its parsed value or the parse error. */
  function GetEnvAsFloat64(env: Env, key: string, fallback: real, parseFloat: FloatParser): Result<real>
  {
    var valueStr := GetEnv(env, key, "");
    if valueStr == "" then Ok(fallback) else parseFloat(valueStr)
  }

  /** A missing or empty variable takes the fallback; a set one is parsed, and its error is passed on. */
  lemma GetEnvAsIntSpec(env: Env, key: string, fallback: int)
    ensures (key !in env || env[key] == "") ==> GetEnvAsInt(env, key, fallback) == Ok(fallback)
    ensures key in env && env[key] != "" ==> GetEnvAsInt(env, key, fallback) == Atoi(env[key])
  {
  }

  /** A variable holding the spelling of a 64-bit integer reads as that integer. */
  lemma GetEnvAsIntItoa(env: Env, key: string, fallback: int, n: int)
    requires MinInt64 <= n <= MaxInt64
    requires key in env && env[key] == Itoa(n)
    ensures GetEnvAsInt(env, key, fallback) == Ok(n)
  {
    AtoiItoa(n);
    NatToStringValue(if n < 0 then -n else n);
  }

  /** The provider named by a variable: "meta" names the Llama backend; only three names are accepted. */
  function GetProvider(env: Env, key: string, fallback: string): (r: Result<ProviderType>)
    ensures r.Ok? ==> r.value in SupportedTypes
    ensures r.Ok? <==> GetEnv(env, key, fallback) in {"meta", "openai", "huggingface"}
  {
    var value := GetEnv(env, key, fallback);
    if value == "meta" then Ok(Llama)
    else if value == "openai" then Ok(OpenAI)
    else if value == "huggingface" then Ok(HuggingFace)
    else Err("invalid provider type: " + value)
  }

  /** The backend's own name "llama" is not accepted here: the Llama backend is only reachable as "meta". */
  lemma LlamaNameRejected(env: Env)
    requires "PROVIDER" in env && env["PROVIDER"] == "llama"
    ensures GetProvider(env, "PROVIDER", "meta") == Err("invalid provider type: llama")
  {
  }

  /**
   * The configuration: the first error among the temperature, the token limit
   * and the provider, in that order; otherwise every field from its variable or
   * its default.
   */
  function Load(env: Env, parseFloat: FloatParser): Result<Config>
  {
    var temperature := GetEnvAsFloat64(env, "TEMPERATURE", 0.45, parseFloat);
    if temperature.Err? then Err(temperature.error)
    else
      var maxTokens := GetEnvAsInt(env, "MAX_TOKENS", 1000);
      if maxTokens.Err? then Err(maxTokens.error)
      else
        var provider := GetProvider(env, "PROVIDER", "meta");
        if provider.Err? then Err(provider.error)
        else
          Ok(Config(
            GetEnv(env, "PORT", "8080"),
            GetEnv(env, "JWT_SECRET", "your-secret-key"),
            GetEnv(env, "DATABASE_URL", "nyasah.db"),
            provider.value,
            GetEnv(env, "MODEL", "llama3.2"),
            temperature.value,
            maxTokens.value))
  }

  /**
   * Loading succeeds exactly when all three checked variables are acceptable, and
   * then the provider is one the factory supports; a failure reports the first
   * bad variable's error.
   */
  lemma LoadSpec(env: Env, parseFloat: FloatParser)
    ensures Load(env, parseFloat).Ok? <==>
      GetEnvAsFloat64(env, "TEMPERATURE", 0.45, parseFloat).Ok? &&
      GetEnvAsInt(env, "MAX_TOKENS", 1000).Ok? &&
      GetProvider(env, "PROVIDER", "meta").Ok?
    ensures Load(env, parseFloat).Ok? ==> Load(env, parseFloat).value.Provider in SupportedTypes
    ensures GetEnvAsFloat64(env, "TEMPERATURE", 0.45, parseFloat).Err? ==>
      Load(env, parseFloat) == Err(GetEnvAsFloat64(env, "TEMPERATURE", 0.45, parseFloat).error)
    ensures GetEnvAsFloat64(env, "TEMPERATURE", 0.45, parseFloat).Ok? && GetEnvAsInt(env, "MAX_TOKENS", 1000).Err? ==>
      Load(env, parseFloat) == Err(GetEnvAsInt(env, "MAX_TOKENS", 1000).error)
  {
  }

  /** With none of the variables set, the defaults apply and the provider is Llama. */
  lemma LoadDefaults(env: Env, parseFloat: FloatParser)
    requires forall key :: key in env ==>
      key !in {"PORT", "JWT_SECRET", "DATABASE_URL", "PROVIDER", "MODEL", "TEMPERATURE", "MAX_TOKENS"}
    ensures Load(env, parseFloat) == Ok(Config("8080", "your-secret-key", "nyasah.db", Llama, "llama3.2", 0.45, 1000))
  {
    assert "TEMPERATURE" !in env && "MAX_TOKENS" !in env && "PROVIDER" !in env;
    assert "PORT" !in env && "JWT_SECRET" !in env && "DATABASE_URL" !in env && "MODEL" !in env;
  }
}
