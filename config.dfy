// The settings of bot/config.py, read from the environment when the module is imported, and
// `Config.validate`, which lists the required settings that are missing.

module Config {
  import opened Common

  /** The process environment. */
  type Env = map<string, string>

  /** `os.getenv(key)`. */
  function Getenv(env: Env, key: string): Option<string> {
    if key in env then Some(env[key]) else None
  }

  /** `os.getenv(key, default)`. */
  function GetenvOr(env: Env, key: string, default: string): string {
    if key in env then env[key] else default
  }

  /** The class attributes of `Config`. */
  datatype Settings = Settings(
    telegramBotToken: Option<string>,
    telegramAdminId: int,
    supabaseUrl: Option<string>,
    supabaseKey: Option<string>,
    openaiApiKey: Option<string>,
    debug: bool,
    rateLimitRequestsPerDay: int,
    webappUrl: string)

  const DefaultAdminId: string := "0"
  const DefaultRateLimit: string := "50"
  const DefaultWebappUrl: string := "https://your-webapp-domain.com"

  /** The `ValueError` that `int()` raises on text that is not a decimal integer. */
  function InvalidLiteral(s: string): string {
    "invalid literal for int() with base 10: '" + s + "'"
  }

  /** `int(text)`, with the error it raises. */
  function IntSetting(text: string): (r: Result<int>)
    ensures r.Ok? <==> ParseInt(text).Some?
    ensures r.Ok? ==> r.value == ParseInt(text).value
    ensures r.Err? ==> r.message == InvalidLiteral(text)
  {
    match ParseInt(text)
    case None => Err(InvalidLiteral(text))
    case Some(n) => Ok(n)
  }

  /** `os.getenv('DEBUG', 'False').lower() == 'true'`; `lower` stands for Python's character
      lowercasing. */
  function Debug(env: Env, lower: char -> char): bool {
    Lower(GetenvOr(env, "DEBUG", "False"), lower) == "true"
  }

  /** The class body, in its order: the admin id is converted before the rate limit, so its
      error is the one raised when both are malformed. */
  function Load(env: Env, lower: char -> char): (r: Result<Settings>)
    ensures r.Ok? <==> ParseInt(GetenvOr(env, "TELEGRAM_ADMIN_ID", DefaultAdminId)).Some?
                       && ParseInt(GetenvOr(env, "RATE_LIMIT_REQUESTS_PER_DAY", DefaultRateLimit)).Some?
    ensures ParseInt(GetenvOr(env, "TELEGRAM_ADMIN_ID", DefaultAdminId)).None? ==>
              r == Err(InvalidLiteral(GetenvOr(env, "TELEGRAM_ADMIN_ID", DefaultAdminId)))
    ensures ParseInt(GetenvOr(env, "TELEGRAM_ADMIN_ID", DefaultAdminId)).Some?
            && ParseInt(GetenvOr(env, "RATE_LIMIT_REQUESTS_PER_DAY", DefaultRateLimit)).None? ==>
              r == Err(InvalidLiteral(GetenvOr(env, "RATE_LIMIT_REQUESTS_PER_DAY", DefaultRateLimit)))
    ensures r.Ok? ==> r.value.telegramAdminId == ParseInt(GetenvOr(env, "TELEGRAM_ADMIN_ID", DefaultAdminId)).value
                      && r.value.rateLimitRequestsPerDay
                         == ParseInt(GetenvOr(env, "RATE_LIMIT_REQUESTS_PER_DAY", DefaultRateLimit)).value
    ensures r.Ok? ==> r.value.telegramBotToken == Getenv(env, "TELEGRAM_BOT_TOKEN")
                      && r.value.supabaseUrl == Getenv(env, "SUPABASE_URL")
                      && r.value.supabaseKey == Getenv(env, "SUPABASE_KEY")
                      && r.value.openaiApiKey == Getenv(env, "OPENAI_API_KEY")
                      && r.value.debug == Debug(env, lower)
                      && r.value.webappUrl == GetenvOr(env, "WEBAPP_URL", DefaultWebappUrl)
  {
    match IntSetting(GetenvOr(env, "TELEGRAM_ADMIN_ID", DefaultAdminId))
    case Err(m) => Err(m)
    case Ok(adminId) =>
      match IntSetting(GetenvOr(env, "RATE_LIMIT_REQUESTS_PER_DAY", DefaultRateLimit))
      case Err(m) => Err(m)
      case Ok(rateLimit) =>
        Ok(Settings(Getenv(env, "TELEGRAM_BOT_TOKEN"), adminId, Getenv(env, "SUPABASE_URL"),
                    Getenv(env, "SUPABASE_KEY"), Getenv(env, "OPENAI_API_KEY"), Debug(env, lower),
                    rateLimit, GetenvOr(env, "WEBAPP_URL", DefaultWebappUrl)))
  }

  /** An admin id written out in the environment is the id the bot forwards help questions to. */
  lemma AdminIdFromEnvironment(env: Env, lower: char -> char, id: int)
    requires "TELEGRAM_ADMIN_ID" in env && env["TELEGRAM_ADMIN_ID"] == IntToString(id)
    requires "RATE_LIMIT_REQUESTS_PER_DAY" !in env
    ensures Load(env, lower).Ok?
    ensures Load(env, lower).value.telegramAdminId == id
  {
    ParseIntOfIntToString(id);
    RateLimitDefaultParses();
  }

  /** `int("0") == 0`. */
  lemma AdminIdDefaultParses()
    ensures ParseInt(DefaultAdminId) == Some(0)
  {
    StripNoop(DefaultAdminId, Whitespace);
    assert DefaultAdminId[..0] == [];
  }

  /** `int("50") == 50`. */
  lemma RateLimitDefaultParses()
    ensures ParseInt(DefaultRateLimit) == Some(50)
  {
    StripNoop(DefaultRateLimit, Whitespace);
    var t := DefaultRateLimit;
    assert t[..1] == "5" && t[1] == '0';
    assert "5"[..0] == [];
    assert DigitsValue("5") == 5;
    assert AllDigits(t);
    assert DigitsValue(t) == DigitsValue(t[..1]) * 10 + 0;
  }

  /** With neither variable set, the admin id is 0 and the daily limit is 50; with `DEBUG`
      unset, debugging is off. */
  lemma UnsetDefaults(env: Env, lower: char -> char)
    requires "TELEGRAM_ADMIN_ID" !in env && "RATE_LIMIT_REQUESTS_PER_DAY" !in env && "DEBUG" !in env
    ensures Load(env, lower).Ok?
    ensures Load(env, lower).value.telegramAdminId == 0
    ensures Load(env, lower).value.rateLimitRequestsPerDay == 50
    ensures !Load(env, lower).value.debug
  {
    AdminIdDefaultParses();
    RateLimitDefaultParses();
    assert |Lower("False", lower)| == 5;
  }

  /** `DEBUG` is on exactly when its value lowercases to `true`. */
  lemma DebugIffTrue(env: Env, lower: char -> char)
    requires "DEBUG" in env
    ensures Debug(env, lower) <==> Lower(env["DEBUG"], lower) == "true"
  {
  }

  // ------------------------------------------------------------------ validate

  /** Python's truthiness of an optional string: set and not empty. */
  predicate Present(value: Option<string>) {
    value.Some? && value.value != []
  }

  /** The required settings, in the order `validate` checks them, with their values. */
  function Required(s: Settings): (r: seq<(string, Option<string>)>)
    ensures |r| == 4
  {
    [("TELEGRAM_BOT_TOKEN", s.telegramBotToken), ("SUPABASE_URL", s.supabaseUrl),
     ("SUPABASE_KEY", s.supabaseKey), ("OPENAI_API_KEY", s.openaiApiKey)]
  }

  /** The names of the settings that are not present, in order. */
  function Missing(required: seq<(string, Option<string>)>): (r: seq<string>)
    ensures |r| <= |required|
    ensures r == [] <==> forall i :: 0 <= i < |required| ==> Present(required[i].1)
    ensures forall x :: x in r <==> exists i :: 0 <= i < |required| && required[i].0 == x && !Present(required[i].1)
    decreases |required|
  {
    if required == [] then []
    else
      var n := |required| - 1;
      var init := Missing(required[..n]);
      assert forall i :: 0 <= i < n ==> required[..n][i] == required[i];
      init + (if Present(required[n].1) then [] else [required[n].0])
  }

  /** Missing names keep the order of the list: the names missing from two lists one after
      the other are those of the first, then those of the second. */
  lemma {:induction false} MissingAppend(a: seq<(string, Option<string>)>, b: seq<(string, Option<string>)>)
    ensures Missing(a + b) == Missing(a) + Missing(b)
    decreases |b|
  {
    if b != [] {
      var n := |b| - 1;
      assert (a + b)[..|a| + n] == a + b[..n];
      MissingAppend(a, b[..n]);
    } else {
      assert a + b == a;
    }
  }

  const MissingPrefix: string := "Missing required environment variables: "

  /** What `validate` does: raise a `ValueError` listing the missing names, joined by
      `", "`, or return True. */
  function Validation(s: Settings): (r: Result<bool>)
    ensures r.Err? <==> exists i :: 0 <= i < 4 && !Present(Required(s)[i].1)
    ensures r.Err? ==> r.message == MissingPrefix + Join(Missing(Required(s)), ", ")
    ensures r.Ok? ==> r.value
  {
    var missing := Missing(Required(s));
    if missing != [] then Err(MissingPrefix + Join(missing, ", ")) else Ok(true)
  }

  /** `Config.validate`. */
  method Validate(s: Settings) returns (r: Result<bool>)
    ensures r == Validation(s)
  {
    var required := Required(s);
    var missing: seq<string> := [];
    var i := 0;
    while i < |required|
      invariant i <= |required|
      invariant missing == Missing(required[..i])
    {
      var (name, value) := required[i];
      assert required[..i + 1][..i] == required[..i];
      if !Present(value) {
        missing := missing + [name];
      }
      i := i + 1;
    }
    assert required[..i] == required;
    if missing != [] {
      return Err(MissingPrefix + Join(missing, ", "));
    }
    return Ok(true);
  }

  /** With only the bot token missing, the error names exactly it. */
  lemma OnlyTokenMissing(s: Settings)
    requires !Present(s.telegramBotToken)
    requires Present(s.supabaseUrl) && Present(s.supabaseKey) && Present(s.openaiApiKey)
    ensures Validation(s) == Err(MissingPrefix + "TELEGRAM_BOT_TOKEN")
  {
    var req := Required(s);
    assert req[..3][..2][..1][..0] == [];
    assert Missing(req[..1]) == ["TELEGRAM_BOT_TOKEN"];
    assert Missing(req[..2]) == ["TELEGRAM_BOT_TOKEN"] by { assert req[..2][..1] == req[..1]; }
    assert Missing(req[..3]) == ["TELEGRAM_BOT_TOKEN"] by { assert req[..3][..2] == req[..2]; }
    assert req[..4] == req;
  }
}
