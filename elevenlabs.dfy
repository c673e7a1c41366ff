/** Request preparation of the text-to-speech service: service defaults, quality presets,
    voice-settings validation, output file names and the checks `text_to_speech` makes before
    it calls the speech API. */
module ElevenLabs {
  import opened Common
  import opened Values
  import Config

  /** An ordered dictionary of voice settings. */
  type Settings = seq<(string, Value)>

  // ------------------------------------------------------------------ service defaults

  /** The defaults a service is created with. */
  datatype Service = Service(apiKey: string, defaultVoiceId: string, defaultModel: string, audioFormat: string)

  const PlaceholderKey: string := "your_api_key_here"
  const MissingKey: string := "ElevenLabs API key is required. Please set ELEVENLABS_API_KEY in .env file"

  /** `api_key or os.getenv('ELEVENLABS_API_KEY')`: a non-empty given key, else the environment's. */
  function ApiKey(apiKey: Option<string>, env: Config.Env): (r: Option<string>)
    ensures apiKey.Some? && apiKey.value != "" ==> r == apiKey
    ensures !(apiKey.Some? && apiKey.value != "") ==> r == Config.Getenv(env, "ELEVENLABS_API_KEY")
  {
    if apiKey.Some? && apiKey.value != "" then apiKey else Config.Getenv(env, "ELEVENLABS_API_KEY")
  }

  /** `TextToSpeechService.__init__` without the output directory: the key is the given one
      or the environment's, and must be neither empty nor the placeholder. */
  function NewService(apiKey: Option<string>, env: Config.Env): (r: Result<Service>)
    ensures r.Err? <==> ApiKey(apiKey, env).None? || ApiKey(apiKey, env).value in {"", PlaceholderKey}
    ensures r.Err? ==> r.message == MissingKey
    ensures r.Ok? ==> r.value.apiKey == ApiKey(apiKey, env).value
    ensures r.Ok? ==> r.value.defaultVoiceId == Config.GetenvOr(env, "DEFAULT_VOICE_ID", "21m00Tcm4TlvDq8ikWAM")
                      && r.value.defaultModel == Config.GetenvOr(env, "MODEL", "eleven_monolingual_v1")
                      && r.value.audioFormat == Config.GetenvOr(env, "AUDIO_FORMAT", "mp3")
  {
    var key := ApiKey(apiKey, env);
    if key.None? || key.value == "" || key.value == PlaceholderKey then Err(MissingKey)
    else Ok(Service(key.value, Config.GetenvOr(env, "DEFAULT_VOICE_ID", "21m00Tcm4TlvDq8ikWAM"),
                    Config.GetenvOr(env, "MODEL", "eleven_monolingual_v1"), Config.GetenvOr(env, "AUDIO_FORMAT", "mp3")))
  }

  // ------------------------------------------------------------------ quality presets

  /** A preset's stability, similarity boost, style and description. */
  datatype Preset = Preset(stability: real, similarity: real, style: real, description: string)

  /** The settings of a preset, in order, with its description last. */
  function PresetSettings(p: Preset): Settings {
    [("stability", VNum(p.stability)), ("similarity_boost", VNum(p.similarity)), ("style", VNum(p.style)),
     ("use_speaker_boost", VBool(true)), ("description", VStr(p.description))]
  }

  /** `get_audio_quality_presets`, in its order. */
  const Presets: seq<(string, Preset)> := [
    ("podcast", Preset(0.7, 0.8, 0.1, "Optimized for podcast narration")),
    ("audiobook", Preset(0.8, 0.9, 0.2, "Perfect for audiobooks")),
    ("conversational", Preset(0.4, 0.6, 0.6, "Natural conversation style")),
    ("professional", Preset(0.9, 0.8, 0.0, "Professional presentations")),
    ("expressive", Preset(0.3, 0.5, 0.8, "Highly expressive delivery")),
    ("news", Preset(0.8, 0.7, 0.1, "Clear news reading"))
  ]

  const PresetNames: string := "podcast, audiobook, conversational, professional, expressive, news"

  /** Every preset value lies in the unit range. */
  predicate PresetInRange(p: Preset) {
    0.0 <= p.stability <= 1.0 && 0.0 <= p.similarity <= 1.0 && 0.0 <= p.style <= 1.0
  }

  lemma PresetsInRange()
    ensures forall i :: 0 <= i < |Presets| ==> PresetInRange(Presets[i].1)
  {
  }

  function LookupPreset(presets: seq<(string, Preset)>, name: string): (r: Option<Preset>)
    ensures r.None? <==> forall i :: 0 <= i < |presets| ==> presets[i].0 != name
    ensures r.Some? ==> exists i :: 0 <= i < |presets| && presets[i] == (name, r.value)
    decreases |presets|
  {
    if presets == [] then None
    else if presets[0].0 == name then Some(presets[0].1)
    else
      var r := LookupPreset(presets[1..], name);
      assert forall i :: 1 <= i < |presets| ==> presets[i] == presets[1..][i - 1];
      r
  }

  /** `{k: v for k, v in preset.items() if k != "description"}` */
  function WithoutDescription(s: Settings): (r: Settings)
    ensures forall i :: 0 <= i < |r| ==> r[i].0 != "description" && r[i] in s
    ensures forall p :: p in s && p.0 != "description" ==> p in r
    ensures (forall i :: 0 <= i < |s| ==> s[i].0 != "description") ==> r == s
    decreases |s|
  {
    if s == [] then []
    else (if s[0].0 == "description" then [] else [s[0]]) + WithoutDescription(s[1..])
  }

  /** The filter keeps the order of the pairs: filtering a concatenation filters each part. */
  lemma {:induction false} WithoutDescriptionAppend(a: Settings, b: Settings)
    ensures WithoutDescription(a + b) == WithoutDescription(a) + WithoutDescription(b)
    decreases |a|
  {
    if a == [] {
      assert a + b == b;
    } else {
      assert (a + b)[0] == a[0] && (a + b)[1..] == a[1..] + b;
      WithoutDescriptionAppend(a[1..], b);
      var head: Settings := if a[0].0 == "description" then [] else [a[0]];
      assert head + (WithoutDescription(a[1..]) + WithoutDescription(b))
          == (head + WithoutDescription(a[1..])) + WithoutDescription(b);
    }
  }

  /** Without its description a preset holds exactly the four voice settings, in order. */
  lemma PresetWithoutDescription(p: Preset)
    ensures WithoutDescription(PresetSettings(p))
         == [("stability", VNum(p.stability)), ("similarity_boost", VNum(p.similarity)),
             ("style", VNum(p.style)), ("use_speaker_boost", VBool(true))]
  {
    var s := PresetSettings(p);
    var keep, drop := s[..4], s[4..];
    assert s == keep + drop;
    assert forall i :: 0 <= i < |keep| ==> keep[i].0 != "description";
    assert drop[1..] == [];
    assert WithoutDescription(drop) == [];
    WithoutDescriptionAppend(keep, drop);
  }

  /** `apply_quality_preset`: the preset named by the lowercased name, without its
      description; `lower` stands for Python's character lowercasing. */
  function ApplyQualityPreset(name: string, lower: char -> char): (r: Result<Settings>)
    ensures r.Err? <==> forall i :: 0 <= i < |Presets| ==> Presets[i].0 != Lower(name, lower)
    ensures r.Err? ==> r.message == "Unknown preset '" + name + "'. Available: " + PresetNames
    ensures r.Ok? ==> exists i :: 0 <= i < |Presets| && Presets[i].0 == Lower(name, lower)
                                  && r.value == WithoutDescription(PresetSettings(Presets[i].1))
  {
    match LookupPreset(Presets, Lower(name, lower))
    case None => Err("Unknown preset '" + name + "'. Available: " + PresetNames)
    case Some(preset) => Ok(WithoutDescription(PresetSettings(preset)))
  }

  /** Names that lowercase alike select the same preset. */
  lemma PresetCaseInsensitive(a: string, b: string, lower: char -> char)
    requires Lower(a, lower) == Lower(b, lower)
    ensures ApplyQualityPreset(a, lower).Ok? <==> ApplyQualityPreset(b, lower).Ok?
    ensures ApplyQualityPreset(a, lower).Ok? ==> ApplyQualityPreset(a, lower).value == ApplyQualityPreset(b, lower).value
  {
  }

  /** The preset a known name selects has all its values in the unit range. */
  lemma LookupInRange(name: string)
    requires LookupPreset(Presets, name).Some?
    ensures PresetInRange(LookupPreset(Presets, name).value)
  {
    PresetsInRange();
  }

  /** An applied preset holds exactly the four voice settings, in order, each value in
      the unit range. */
  lemma PresetKeys(name: string, lower: char -> char)
    requires ApplyQualityPreset(name, lower).Ok?
    ensures var s := ApplyQualityPreset(name, lower).value;
            |s| == 4 && s[0].0 == "stability" && s[1].0 == "similarity_boost" && s[2].0 == "style"
            && s[3] == ("use_speaker_boost", VBool(true))
            && s[0].1.VNum? && 0.0 <= s[0].1.r <= 1.0 && s[1].1.VNum? && 0.0 <= s[1].1.r <= 1.0
            && s[2].1.VNum? && 0.0 <= s[2].1.r <= 1.0
  {
    var p := LookupPreset(Presets, Lower(name, lower)).value;
    LookupInRange(Lower(name, lower));
    PresetWithoutDescription(p);
  }

  // ------------------------------------------------------------------ voice settings

  /** The argument passed as `voice_settings`: a dict, or anything else. */
  datatype SettingsArg = DictArg(items: Settings) | NonDict

  predicate IsRangeKey(key: string) {
    key == "stability" || key == "similarity_boost" || key == "style"
  }

  /** `isinstance(value, (int, float)) and 0.0 <= value <= 1.0`; a bool is an int. */
  predicate InUnitRange(v: Value) {
    match v
    case VBool(_) => true
    case VInt(i) => 0 <= i <= 1
    case VNum(r) => 0.0 <= r <= 1.0
    case _ => false
  }

  /** The complaint about one setting, if any; keys that are not voice settings are ignored. */
  function SettingProblem(key: string, value: Value): (r: Option<string>)
    ensures r.None? <==> (key == "use_speaker_boost" ==> value.VBool?) && (IsRangeKey(key) ==> InUnitRange(value))
  {
    if key == "use_speaker_boost" then
      if value.VBool? then None else Some("'" + key + "' must be a boolean")
    else if IsRangeKey(key) then
      if InUnitRange(value) then None else Some("'" + key + "' must be between 0.0 and 1.0")
    else None
  }

  /** The complaint about the first bad setting, in dictionary order. */
  function FirstProblem(items: Settings): (r: Option<string>)
    ensures r.None? <==> forall i :: 0 <= i < |items| ==> SettingProblem(items[i].0, items[i].1).None?
    ensures r.Some? ==> exists i :: 0 <= i < |items| && SettingProblem(items[i].0, items[i].1) == r
                           && forall j :: 0 <= j < i ==> SettingProblem(items[j].0, items[j].1).None?
    decreases |items|
  {
    if items == [] then None
    else match SettingProblem(items[0].0, items[0].1)
      case Some(m) => Some(m)
      case None =>
        var r := FirstProblem(items[1..]);
        assert forall i :: 1 <= i < |items| ==> items[i] == items[1..][i - 1];
        if r.Some? then
          var k :| 0 <= k < |items[1..]| && SettingProblem(items[1..][k].0, items[1..][k].1) == r
                   && forall j :: 0 <= j < k ==> SettingProblem(items[1..][j].0, items[1..][j].1).None?;
          assert SettingProblem(items[k + 1].0, items[k + 1].1) == r;
          r
        else r
  }

  /** What `_validate_voice_settings` decides. */
  function Validation(arg: SettingsArg): Outcome {
    match arg
    case NonDict => Fail("voice_settings must be a dictionary")
    case DictArg(items) => if FirstProblem(items).Some? then Fail(FirstProblem(items).value) else Pass
  }

  /** `_validate_voice_settings`, looping over the items until the first bad one. */
  method ValidateVoiceSettings(arg: SettingsArg) returns (outcome: Outcome)
    ensures outcome == Validation(arg)
  {
    if arg.NonDict? {
      return Fail("voice_settings must be a dictionary");
    }
    var items := arg.items;
    var i := 0;
    while i < |items|
      invariant 0 <= i <= |items|
      invariant FirstProblem(items) == FirstProblem(items[i..])
    {
      assert items[i..][1..] == items[i + 1..];
      var (key, value) := items[i];
      if key == "use_speaker_boost" {
        if !value.VBool? {
          return Fail("'" + key + "' must be a boolean");
        }
      } else if key == "stability" || key == "similarity_boost" || key == "style" {
        if !InUnitRange(value) {
          return Fail("'" + key + "' must be between 0.0 and 1.0");
        }
      }
      i := i + 1;
    }
    assert items[i..] == [];
    outcome := Pass;
  }

  /** Four settings of the shape a preset yields pass validation. */
  lemma PresetShapeIsValid(s: Settings)
    requires |s| == 4 && s[0].0 == "stability" && s[1].0 == "similarity_boost" && s[2].0 == "style"
             && s[3] == ("use_speaker_boost", VBool(true))
             && s[0].1.VNum? && 0.0 <= s[0].1.r <= 1.0 && s[1].1.VNum? && 0.0 <= s[1].1.r <= 1.0
            && s[2].1.VNum? && 0.0 <= s[2].1.r <= 1.0
    ensures FirstProblem(s).None?
  {
    assert SettingProblem(s[0].0, s[0].1).None?;
    assert SettingProblem(s[1].0, s[1].1).None?;
    assert SettingProblem(s[2].0, s[2].1).None?;
    assert SettingProblem(s[3].0, s[3].1).None?;
  }

  /** Every applied preset passes validation. */
  lemma PresetsAreValid(name: string, lower: char -> char)
    requires ApplyQualityPreset(name, lower).Ok?
    ensures Validation(DictArg(ApplyQualityPreset(name, lower).value)) == Pass
  {
    PresetKeys(name, lower);
    PresetShapeIsValid(ApplyQualityPreset(name, lower).value);
  }

  // ------------------------------------------------------------------ file names

  /** The characters `_sanitize_filename` replaces by `_`. */
  const Forbidden: set<char> := {'<', '>', ':', '"', '/', '\\', '|', '?', '*'}

  /** The characters stripped from both ends. */
  const Trimmed: set<char> := {' ', '.'}

  function ReplaceForbidden(s: string): (r: string)
    ensures |r| == |s|
    ensures forall i :: 0 <= i < |s| ==> r[i] == (if s[i] in Forbidden then '_' else s[i])
  {
    seq(|s|, i requires 0 <= i < |s| => if s[i] in Forbidden then '_' else s[i])
  }

  function FallbackName(now: nat): string {
    "speech_" + NatToString(now)
  }

  /** `_sanitize_filename`: forbidden characters become `_`, spaces and dots are stripped from
      both ends, and an empty result becomes `speech_<now>`; `now` is the clock's integer seconds. */
  function SanitizeFilename(filename: string, now: nat): (r: string)
  {
    var s := Strip(ReplaceForbidden(filename), Trimmed);
    if s == [] then FallbackName(now) else s
  }

  /** A clean name: no forbidden character, not empty, no space or dot at either end. */
  predicate Clean(name: string) {
    name != [] && name[0] !in Trimmed && name[|name| - 1] !in Trimmed
    && forall i :: 0 <= i < |name| ==> name[i] !in Forbidden
  }

  lemma StripKeepsAbsence(s: string, cs: set<char>, bad: set<char>)
    requires forall i :: 0 <= i < |s| ==> s[i] !in bad
    ensures forall i :: 0 <= i < |Strip(s, cs)| ==> Strip(s, cs)[i] !in bad
  {
    var lo, hi := StripIsInfix(s, cs);
    forall i | 0 <= i < |Strip(s, cs)| ensures Strip(s, cs)[i] !in bad {
      assert Strip(s, cs)[i] == s[lo + i];
    }
  }

  /** Every sanitised name is clean. */
  lemma SanitizedIsClean(filename: string, now: nat)
    ensures Clean(SanitizeFilename(filename, now))
  {
    var replaced := ReplaceForbidden(filename);
    StripKeepsAbsence(replaced, Trimmed, Forbidden);
    var s := Strip(replaced, Trimmed);
    if s == [] {
      var f := FallbackName(now);
      var digits := NatToString(now);
      assert f[0] == 's';
      assert f[|f| - 1] == digits[|digits| - 1];
      assert forall i :: 0 <= i < |digits| ==> IsDigit(digits[i]);
      forall i | 0 <= i < |f| ensures f[i] !in Forbidden {
        if i >= 7 {
          assert f[i] == digits[i - 7];
        }
      }
    }
  }

  /** A clean name is left as it is. */
  lemma CleanIsFixed(name: string, now: nat)
    requires Clean(name)
    ensures SanitizeFilename(name, now) == name
  {
    assert ReplaceForbidden(name) == name;
    StripNoop(name, Trimmed);
  }

  /** Sanitising twice gives what sanitising once gives, whatever the clock says the second
      time. */
  lemma SanitizeIdempotent(filename: string, now: nat, later: nat)
    ensures SanitizeFilename(SanitizeFilename(filename, now), later) == SanitizeFilename(filename, now)
  {
    SanitizedIsClean(filename, now);
    CleanIsFixed(SanitizeFilename(filename, now), later);
  }

  /** The extension is appended only when the name does not already end with it. */
  function WithExtension(name: string, audioFormat: string): (r: string)
    ensures EndsWith(r, "." + audioFormat)
    ensures EndsWith(name, "." + audioFormat) ==> r == name
    ensures !EndsWith(name, "." + audioFormat) ==> r == name + "." + audioFormat
  {
    if EndsWith(name, "." + audioFormat) then name
    else
      var r := name + "." + audioFormat;
      assert r[|r| - |"." + audioFormat|..] == "." + audioFormat;
      r
  }

  // ------------------------------------------------------------------ text_to_speech, up to the API call

  /** The request `text_to_speech` sends: the text, model, voice, settings and the output
      file name. */
  datatype SpeechRequest = SpeechRequest(text: string, model: string, voiceId: string, voiceSettings: Settings,
                                         outputFilename: string)

  const EmptyText: string := "Text cannot be empty"
  const TooLong: string := "Text too long (max 5000 characters)"
  const MaxTextLength: nat := 5000

  const DefaultSettings: Settings :=
    [("stability", VNum(0.5)), ("similarity_boost", VNum(0.5)), ("style", VNum(0.0)), ("use_speaker_boost", VBool(true))]

  /** `value or default` for an optional string. */
  function OrDefault(value: Option<string>, default: string): string {
    if value.Some? && value.value != "" then value.value else default
  }

  /** The settings `text_to_speech` validates: a non-empty preset name wins over given
      settings; without either the defaults are used. */
  function ChosenSettings(voiceSettings: Option<SettingsArg>, qualityPreset: Option<string>, lower: char -> char)
    : (r: Result<SettingsArg>)
    ensures qualityPreset.Some? && qualityPreset.value != [] ==>
      r == (match ApplyQualityPreset(qualityPreset.value, lower)
            case Ok(p) => Ok(DictArg(p))
            case Err(m) => Err(m))
    ensures !(qualityPreset.Some? && qualityPreset.value != []) ==>
      r == Ok(if voiceSettings.Some? then voiceSettings.value else DictArg(DefaultSettings))
  {
    if qualityPreset.Some? && qualityPreset.value != [] then
      match ApplyQualityPreset(qualityPreset.value, lower)
      case Ok(p) => Ok(DictArg(p))
      case Err(m) => Err(m)
    else if voiceSettings.None? then Ok(DictArg(DefaultSettings))
    else Ok(voiceSettings.value)
  }

  /** The output name: the given one or `speech_<now>.<format>`, sanitised, with the
      extension appended when missing. */
  function OutputName(service: Service, outputFilename: Option<string>, now: nat): string {
    var name := if outputFilename.Some? then outputFilename.value
                else "speech_" + NatToString(now) + "." + service.audioFormat;
    WithExtension(SanitizeFilename(name, now), service.audioFormat)
  }

  /** What `text_to_speech` has prepared when it is about to call the API, or the error it
      raised before. */
  function PreparedRequest(service: Service, text: Value, voiceId: Option<string>, model: Option<string>,
                           voiceSettings: Option<SettingsArg>, qualityPreset: Option<string>,
                           outputFilename: Option<string>, now: nat, lower: char -> char): Result<SpeechRequest>
  {
    if !text.VStr? || Strip(text.s, Whitespace) == [] then Err(EmptyText)
    else if |text.s| > MaxTextLength then Err(TooLong)
    else match ChosenSettings(voiceSettings, qualityPreset, lower)
      case Err(m) => Err(m)
      case Ok(arg) =>
        match Validation(arg)
        case Fail(m) => Err(m)
        case Pass =>
          Ok(SpeechRequest(text.s, OrDefault(model, service.defaultModel), OrDefault(voiceId, service.defaultVoiceId),
                           arg.items, OutputName(service, outputFilename, now)))
  }

  /** The settings step of `text_to_speech`. */
  method ChooseSettings(voiceSettings: Option<SettingsArg>, qualityPreset: Option<string>, lower: char -> char)
    returns (r: Result<SettingsArg>)
    ensures r == ChosenSettings(voiceSettings, qualityPreset, lower)
  {
    if qualityPreset.Some? && qualityPreset.value != [] {
      var preset := ApplyQualityPreset(qualityPreset.value, lower);
      if preset.Err? {
        return Err(preset.message);
      }
      return Ok(DictArg(preset.value));
    }
    r := Ok(if voiceSettings.None? then DictArg(DefaultSettings) else voiceSettings.value);
  }

  /** The file-name step of `text_to_speech`. */
  method ChooseOutputName(service: Service, outputFilename: Option<string>, now: nat) returns (name: string)
    ensures name == OutputName(service, outputFilename, now)
  {
    name := if outputFilename.None? then "speech_" + NatToString(now) + "." + service.audioFormat
            else outputFilename.value;
    name := SanitizeFilename(name, now);
    if !EndsWith(name, "." + service.audioFormat) {
      name := name + "." + service.audioFormat;
    }
  }

  /** The validation and file-name steps of `text_to_speech`, in the source's order. */
  method PrepareSpeech(service: Service, text: Value, voiceId: Option<string>, model: Option<string>,
                       voiceSettings: Option<SettingsArg>, qualityPreset: Option<string>,
                       outputFilename: Option<string>, now: nat, lower: char -> char)
    returns (r: Result<SpeechRequest>)
    ensures r == PreparedRequest(service, text, voiceId, model, voiceSettings, qualityPreset, outputFilename, now, lower)
  {
    if !text.VStr? || Strip(text.s, Whitespace) == [] {
      return Err(EmptyText);
    }
    if |text.s| > MaxTextLength {
      return Err(TooLong);
    }
    var voice := if voiceId.Some? && voiceId.value != "" then voiceId.value else service.defaultVoiceId;
    var modelId := if model.Some? && model.value != "" then model.value else service.defaultModel;
    var settings := ChooseSettings(voiceSettings, qualityPreset, lower);
    if settings.Err? {
      return Err(settings.message);
    }
    var outcome := ValidateVoiceSettings(settings.value);
    if outcome.Fail? {
      return Err(outcome.message);
    }
    var name := ChooseOutputName(service, outputFilename, now);
    r := Ok(SpeechRequest(text.s, modelId, voice, settings.value.items, name));
  }

  /** Appending an extension free of forbidden characters keeps a name free of them. */
  lemma ExtensionKeepsAbsence(name: string, audioFormat: string)
    requires forall i :: 0 <= i < |name| ==> name[i] !in Forbidden
    requires forall i :: 0 <= i < |audioFormat| ==> audioFormat[i] !in Forbidden
    ensures var r := WithExtension(name, audioFormat);
            forall i :: 0 <= i < |r| ==> r[i] !in Forbidden
  {
    var ext := "." + audioFormat;
    if !EndsWith(name, ext) {
      var r := name + ext;
      forall i | 0 <= i < |r| ensures r[i] !in Forbidden {
        if i > |name| {
          assert r[i] == audioFormat[i - |name| - 1];
        }
      }
    }
  }

  /** An output name ends with the audio format's extension, and holds no path separator or
      other forbidden character when the format holds none. */
  lemma OutputNameIsSafe(service: Service, outputFilename: Option<string>, now: nat)
    ensures EndsWith(OutputName(service, outputFilename, now), "." + service.audioFormat)
    ensures (forall i :: 0 <= i < |service.audioFormat| ==> service.audioFormat[i] !in Forbidden) ==>
            var n := OutputName(service, outputFilename, now);
            forall i :: 0 <= i < |n| ==> n[i] !in Forbidden
  {
    var name := if outputFilename.Some? then outputFilename.value
                else "speech_" + NatToString(now) + "." + service.audioFormat;
    SanitizedIsClean(name, now);
    if forall i :: 0 <= i < |service.audioFormat| ==> service.audioFormat[i] !in Forbidden {
      ExtensionKeepsAbsence(SanitizeFilename(name, now), service.audioFormat);
    }
  }

  /** A prepared request always has a text of 1 to 5000 characters that is not all
      whitespace, settings that pass validation, and the output name. */
  lemma PreparedRequestIsSound(service: Service, text: Value, voiceId: Option<string>, model: Option<string>,
                               voiceSettings: Option<SettingsArg>, qualityPreset: Option<string>,
                               outputFilename: Option<string>, now: nat, lower: char -> char)
    requires PreparedRequest(service, text, voiceId, model, voiceSettings, qualityPreset, outputFilename, now, lower).Ok?
    ensures var q := PreparedRequest(service, text, voiceId, model, voiceSettings, qualityPreset, outputFilename, now, lower).value;
            && 1 <= |q.text| <= MaxTextLength && Strip(q.text, Whitespace) != []
            && Validation(DictArg(q.voiceSettings)) == Pass
            && q.outputFilename == OutputName(service, outputFilename, now)
  {
  }
}
