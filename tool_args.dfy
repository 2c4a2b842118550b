/** Argument validation and defaulting of the `google_tts` and `openai_tts`
    tool handlers: a fixed-order chain of checks over the request's argument
    map and the process environment, ending in an error result or in the
    resolved request. */
module ToolArgs {
  import opened Wrappers

  /** A value of the decoded JSON argument map. Every JSON number decodes to a
      Go float64, modelled as a real; booleans, null, arrays and objects are
      `Other`. A key absent from the map reads as nil in Go, which fails every
      type assertion, just as `Other` does. */
  datatype ArgValue = Str(s: string) | Num(x: real) | Other

  type Arguments = map<string, ArgValue>

  /** The process environment; a variable that is not set reads as "". */
  type Environment = map<string, string>

  /** What an MCP tool handler returns: the text content and the IsError flag. */
  datatype ToolResult = ToolResult(text: string, isError: bool)

  /** The request the Google handler resolves before calling the provider. */
  datatype GoogleRequest = GoogleRequest(text: string, voice: string, model: string, apiKey: string)

  /** The request the OpenAI handler resolves before calling the provider. */
  datatype OpenAiRequest = OpenAiRequest(
    text: string, voice: string, model: string, speed: real, instructions: string, apiKey: string)

  const TextNotString := "Error: text must be a string"
  const EmptyText := "Error: Empty text provided"
  const GoogleKeyMissing := "Error: GOOGLE_AI_API_KEY or GEMINI_API_KEY is not set"
  const OpenAiKeyMissing := "Error: OPENAI_API_KEY is not set"

  const GoogleDefaultVoice := "Kore"
  const GoogleDefaultModel := "gemini-2.5-flash-preview-tts"
  const OpenAiDefaultVoice := "coral"
  const OpenAiDefaultModel := "gpt-4o-mini-tts"

  const MinSpeed: real := 0.25
  const MaxSpeed: real := 4.0
  const DefaultSpeed: real := 1.0

  /** `os.Getenv`: a set variable reads as its value, and an unset one reads
      as "". */
  function Getenv(env: Environment, name: string): (value: string)
    ensures name in env ==> value == env[name]
    ensures name !in env ==> value == ""
  {
    if name in env then env[name] else ""
  }

  /** `arguments[key]`, with an absent key as None. */
  function Lookup(args: Arguments, key: string): (v: Option<ArgValue>)
  {
    if key in args then Some(args[key]) else None
  }

  /** `arguments[key].(string)` succeeds. */
  predicate IsString(args: Arguments, key: string)
  {
    key in args && args[key].Str?
  }

  /** `v, ok := arguments[key].(string); ok && v != ""`. */
  predicate Supplied(args: Arguments, key: string)
  {
    IsString(args, key) && args[key].s != ""
  }

  /** The two checks on `text` that both handlers make first. */
  function CheckText(args: Arguments): (r: Result<string>)
    ensures r == Err(TextNotString) <==> !IsString(args, "text")
    ensures r == Err(EmptyText) <==> Lookup(args, "text") == Some(Str(""))
    ensures r.Ok? <==> Supplied(args, "text")
    ensures r.Ok? ==> args["text"] == Str(r.value) && r.value != ""
  {
    if !IsString(args, "text") then Err(TextNotString)
    else if args["text"].s == "" then Err(EmptyText)
    else Ok(args["text"].s)
  }

  /** An optional string argument: the caller's value when it is a non-empty
      string, the provider default otherwise. */
  function ResolveString(args: Arguments, key: string, default: string): (r: string)
    ensures Supplied(args, key) ==> args[key] == Str(r)
    ensures !Supplied(args, key) ==> r == default
    ensures default != "" ==> r != ""
  {
    if Supplied(args, key) then args[key].s else default
  }

  /** Google's key lookup: GOOGLE_AI_API_KEY if set and non-empty, otherwise
      GEMINI_API_KEY; "" means neither is available. */
  function GoogleApiKey(env: Environment): (key: string)
    ensures Getenv(env, "GOOGLE_AI_API_KEY") != "" ==> key == Getenv(env, "GOOGLE_AI_API_KEY")
    ensures Getenv(env, "GOOGLE_AI_API_KEY") == "" ==> key == Getenv(env, "GEMINI_API_KEY")
    ensures key == "" <==> Getenv(env, "GOOGLE_AI_API_KEY") == "" && Getenv(env, "GEMINI_API_KEY") == ""
  {
    var primary := Getenv(env, "GOOGLE_AI_API_KEY");
    if primary == "" then Getenv(env, "GEMINI_API_KEY") else primary
  }

  /** `speed` is a number within [0.25, 4.0]. */
  predicate SpeedInRange(args: Arguments)
  {
    "speed" in args && args["speed"].Num? && MinSpeed <= args["speed"].x <= MaxSpeed
  }

  /** OpenAI's speed: the caller's number when it lies in [0.25, 4.0], and 1.0
      for anything else, including an absent, non-numeric or out-of-range
      value; no value is ever reported as an error. */
  function ResolveSpeed(args: Arguments): (speed: real)
    ensures MinSpeed <= speed <= MaxSpeed
    ensures SpeedInRange(args) ==> args["speed"] == Num(speed)
    ensures !SpeedInRange(args) ==> speed == DefaultSpeed
  {
    if "speed" in args && args["speed"].Num? then
      var s := args["speed"].x;
      if s >= MinSpeed && s <= MaxSpeed then s else DefaultSpeed
    else DefaultSpeed
  }

  /** OpenAI's voice instructions: the argument when it is a non-empty string,
      otherwise OPENAI_TTS_INSTRUCTIONS (possibly ""). */
  function ResolveInstructions(args: Arguments, env: Environment): (instructions: string)
    ensures Supplied(args, "instructions") ==> args["instructions"] == Str(instructions)
    ensures !Supplied(args, "instructions") ==> instructions == Getenv(env, "OPENAI_TTS_INSTRUCTIONS")
  {
    if Supplied(args, "instructions") then args["instructions"].s
    else Getenv(env, "OPENAI_TTS_INSTRUCTIONS")
  }

  /** The `google_tts` handler's decision chain. The error precedence is: a
      non-string text, then an empty text, then a missing key; voice and model
      never cause an error. */
  function GoogleTts(args: Arguments, env: Environment): (r: Result<GoogleRequest>)
    ensures !IsString(args, "text") ==> r == Err(TextNotString)
    ensures Lookup(args, "text") == Some(Str("")) ==> r == Err(EmptyText)
    ensures r == Err(GoogleKeyMissing) <==> Supplied(args, "text") && GoogleApiKey(env) == ""
    ensures r.Ok? <==> Supplied(args, "text") && GoogleApiKey(env) != ""
    ensures r.Ok? ==> Str(r.value.text) == args["text"] && r.value.apiKey == GoogleApiKey(env)
    ensures r.Ok? ==> r.value.text != "" && r.value.voice != "" && r.value.model != ""
    ensures r.Ok? && Supplied(args, "voice") ==> Str(r.value.voice) == args["voice"]
    ensures r.Ok? && !Supplied(args, "voice") ==> r.value.voice == GoogleDefaultVoice
    ensures r.Ok? && Supplied(args, "model") ==> Str(r.value.model) == args["model"]
    ensures r.Ok? && !Supplied(args, "model") ==> r.value.model == GoogleDefaultModel
  {
    match CheckText(args)
    case Err(m) => Err(m)
    case Ok(text) =>
      var apiKey := GoogleApiKey(env);
      if apiKey == "" then Err(GoogleKeyMissing)
      else
        var voice := ResolveString(args, "voice", GoogleDefaultVoice);
        var model := ResolveString(args, "model", GoogleDefaultModel);
        Ok(GoogleRequest(text, voice, model, apiKey))
  }

  /** The `openai_tts` handler's decision chain: the same text checks, then
      OPENAI_API_KEY with no fallback; voice, model, speed and instructions
      never cause an error. */
  function OpenAiTts(args: Arguments, env: Environment): (r: Result<OpenAiRequest>)
    ensures !IsString(args, "text") ==> r == Err(TextNotString)
    ensures Lookup(args, "text") == Some(Str("")) ==> r == Err(EmptyText)
    ensures r == Err(OpenAiKeyMissing) <==> Supplied(args, "text") && Getenv(env, "OPENAI_API_KEY") == ""
    ensures r.Ok? <==> Supplied(args, "text") && Getenv(env, "OPENAI_API_KEY") != ""
    ensures r.Ok? ==> Str(r.value.text) == args["text"] && r.value.apiKey == Getenv(env, "OPENAI_API_KEY")
    ensures r.Ok? ==> r.value.voice != "" && r.value.model != "" && MinSpeed <= r.value.speed <= MaxSpeed
    ensures r.Ok? && Supplied(args, "voice") ==> Str(r.value.voice) == args["voice"]
    ensures r.Ok? && !Supplied(args, "voice") ==> r.value.voice == OpenAiDefaultVoice
    ensures r.Ok? && Supplied(args, "model") ==> Str(r.value.model) == args["model"]
    ensures r.Ok? && !Supplied(args, "model") ==> r.value.model == OpenAiDefaultModel
    ensures r.Ok? && SpeedInRange(args) ==> Num(r.value.speed) == args["speed"]
    ensures r.Ok? && !SpeedInRange(args) ==> r.value.speed == DefaultSpeed
    ensures r.Ok? && Supplied(args, "instructions") ==> Str(r.value.instructions) == args["instructions"]
    ensures r.Ok? && !Supplied(args, "instructions") ==>
              r.value.instructions == Getenv(env, "OPENAI_TTS_INSTRUCTIONS")
  {
    match CheckText(args)
    case Err(m) => Err(m)
    case Ok(text) =>
      var apiKey := Getenv(env, "OPENAI_API_KEY");
      if apiKey == "" then Err(OpenAiKeyMissing)
      else
        var voice := ResolveString(args, "voice", OpenAiDefaultVoice);
        var model := ResolveString(args, "model", OpenAiDefaultModel);
        var speed := ResolveSpeed(args);
        var instructions := ResolveInstructions(args, env);
        Ok(OpenAiRequest(text, voice, model, speed, instructions, apiKey))
  }

  /** `part` occurs somewhere in `s` (testify's `assert.Contains` on strings). */
  predicate Contains(s: string, part: string)
  {
    exists i :: 0 <= i <= |s| && part <= s[i..]
  }

  /** Putting text in front keeps an occurrence. */
  lemma ContainsAfter(front: string, s: string, part: string)
    requires Contains(s, part)
    ensures Contains(front + s, part)
  {
    var i :| 0 <= i <= |s| && part <= s[i..];
    assert (front + s)[|front| + i..] == s[i..];
  }

  /** Putting text behind keeps an occurrence. */
  lemma ContainsBefore(s: string, back: string, part: string)
    requires Contains(s, part)
    ensures Contains(s + back, part)
  {
    var i :| 0 <= i <= |s| && part <= s[i..];
    assert (s + back)[i..] == s[i..] + back;
  }

  /** Every string occurs in itself. */
  lemma ContainsSelf(s: string)
    ensures Contains(s, s)
  {
    assert s[0..] == s;
  }

  /** The text of the Google handler's success result. The source's literal
      " (via Google TTS with voice " is split so that the parts the tests look
      for stand on their own. */
  function GoogleResultText(req: GoogleRequest): (text: string)
    ensures "Speaking: " + req.text <= text
    ensures text[|text| - 1] == ')'
  {
    "Speaking: " + req.text + " (via " + "Google TTS" + " with " + ("voice " + req.voice)
      + " using model " + req.model + ")"
  }

  /** The success text names the provider, the voice and the model, which is
      what the handler's tests look for. */
  lemma {:induction false} GoogleResultMentions(req: GoogleRequest)
    ensures Contains(GoogleResultText(req), "Google TTS")
    ensures Contains(GoogleResultText(req), "voice " + req.voice)
    ensures Contains(GoogleResultText(req), req.model)
  {
    var a := "Speaking: " + req.text + " (via ";
    var b := a + "Google TTS";
    var c := b + " with ";
    var d := c + ("voice " + req.voice);
    var e := d + " using model ";
    var f := e + req.model;
    assert Contains(b, "Google TTS") by {
      ContainsSelf("Google TTS");
      ContainsAfter(a, "Google TTS", "Google TTS");
    }
    assert Contains(d, "Google TTS") by {
      ContainsBefore(b, " with ", "Google TTS");
      ContainsBefore(c, "voice " + req.voice, "Google TTS");
    }
    assert Contains(d, "voice " + req.voice) by {
      ContainsSelf("voice " + req.voice);
      ContainsAfter(c, "voice " + req.voice, "voice " + req.voice);
    }
    GoogleTailKeeps(d, req.model, "Google TTS");
    GoogleTailKeeps(d, req.model, "voice " + req.voice);
    assert Contains(f + ")", req.model) by {
      ContainsSelf(req.model);
      ContainsAfter(e, req.model, req.model);
      ContainsBefore(f, ")", req.model);
    }
  }

  /** What follows the voice in the Google text keeps an occurrence found before it. */
  lemma GoogleTailKeeps(d: string, model: string, part: string)
    requires Contains(d, part)
    ensures Contains(d + " using model " + model + ")", part)
  {
    ContainsBefore(d, " using model ", part);
    ContainsBefore(d + " using model ", model, part);
    ContainsBefore(d + " using model " + model, ")", part);
  }

  /** The success text before the optional instructions suffix; `speedText`
      stands for the `%.1f` rendering of the speed. The source's literal is
      split as in the Google text. */
  function OpenAiBaseText(req: OpenAiRequest, speedText: string): (text: string)
    ensures "Speaking: " + req.text <= text
    ensures text[|text| - 1] == ')'
  {
    "Speaking: " + req.text + " (via " + "OpenAI TTS" + " with " + ("voice " + req.voice)
      + ", model " + req.model + ", speed " + speedText + ")"
  }

  /** The text of the OpenAI handler's success result. */
  function OpenAiResultText(req: OpenAiRequest, speedText: string): (text: string)
    ensures OpenAiBaseText(req, speedText) <= text
    ensures text == OpenAiBaseText(req, speedText) <==> req.instructions == ""
  {
    var base := OpenAiBaseText(req, speedText);
    if req.instructions != "" then base + " with instructions: " + req.instructions else base
  }

  /** What follows the voice in the OpenAI text keeps an occurrence found before it. */
  lemma OpenAiTailKeeps(d: string, req: OpenAiRequest, speedText: string, part: string)
    requires Contains(d, part)
    ensures Contains(d + ", model " + req.model + ", speed " + speedText + ")", part)
  {
    ContainsBefore(d, ", model ", part);
    ContainsBefore(d + ", model ", req.model, part);
    ContainsBefore(d + ", model " + req.model, ", speed ", part);
    ContainsBefore(d + ", model " + req.model + ", speed ", speedText, part);
    ContainsBefore(d + ", model " + req.model + ", speed " + speedText, ")", part);
  }

  /** The text before the instructions suffix names the provider and the voice. */
  lemma {:induction false} OpenAiBaseMentions(req: OpenAiRequest, speedText: string)
    ensures Contains(OpenAiBaseText(req, speedText), "OpenAI TTS")
    ensures Contains(OpenAiBaseText(req, speedText), "voice " + req.voice)
  {
    var a := "Speaking: " + req.text + " (via ";
    var b := a + "OpenAI TTS";
    var c := b + " with ";
    var d := c + ("voice " + req.voice);
    assert Contains(b, "OpenAI TTS") by {
      ContainsSelf("OpenAI TTS");
      ContainsAfter(a, "OpenAI TTS", "OpenAI TTS");
    }
    assert Contains(d, "OpenAI TTS") by {
      ContainsBefore(b, " with ", "OpenAI TTS");
      ContainsBefore(c, "voice " + req.voice, "OpenAI TTS");
    }
    assert Contains(d, "voice " + req.voice) by {
      ContainsSelf("voice " + req.voice);
      ContainsAfter(c, "voice " + req.voice, "voice " + req.voice);
    }
    OpenAiTailKeeps(d, req, speedText, "OpenAI TTS");
    OpenAiTailKeeps(d, req, speedText, "voice " + req.voice);
  }

  /** The success text names the provider and the voice, and the instructions
      suffix is present exactly when the resolved instructions are non-empty. */
  lemma {:induction false} OpenAiResultMentions(req: OpenAiRequest, speedText: string)
    ensures Contains(OpenAiResultText(req, speedText), "OpenAI TTS")
    ensures Contains(OpenAiResultText(req, speedText), "voice " + req.voice)
    ensures req.instructions != "" ==>
      OpenAiResultText(req, speedText) == OpenAiBaseText(req, speedText) + " with instructions: " + req.instructions
    ensures req.instructions == "" ==> OpenAiResultText(req, speedText) == OpenAiBaseText(req, speedText)
  {
    var base := OpenAiBaseText(req, speedText);
    OpenAiBaseMentions(req, speedText);
    if req.instructions != "" {
      var withLabel := base + " with instructions: ";
      ContainsBefore(base, " with instructions: ", "OpenAI TTS");
      ContainsBefore(base, " with instructions: ", "voice " + req.voice);
      ContainsBefore(withLabel, req.instructions, "OpenAI TTS");
      ContainsBefore(withLabel, req.instructions, "voice " + req.voice);
    }
  }

  /** The whole `google_tts` handler: the error text with IsError set, or the
      success text. */
  function GoogleHandler(args: Arguments, env: Environment): (result: ToolResult)
    ensures result.isError <==> GoogleTts(args, env).Err?
    ensures result.isError ==> result.text == GoogleTts(args, env).message
    ensures !result.isError ==> result.text == GoogleResultText(GoogleTts(args, env).value)
    ensures !result.isError ==>
              && Contains(result.text, "Google TTS")
              && Contains(result.text, "voice " + GoogleTts(args, env).value.voice)
              && Contains(result.text, GoogleTts(args, env).value.model)
  {
    match GoogleTts(args, env)
    case Err(m) => ToolResult(m, true)
    case Ok(req) =>
      GoogleResultMentions(req);
      ToolResult(GoogleResultText(req), false)
  }

  /** The whole `openai_tts` handler, with the speed's rendering as a parameter. */
  function OpenAiHandler(args: Arguments, env: Environment, speedText: string): (result: ToolResult)
    ensures result.isError <==> OpenAiTts(args, env).Err?
    ensures result.isError ==> result.text == OpenAiTts(args, env).message
    ensures !result.isError ==> result.text == OpenAiResultText(OpenAiTts(args, env).value, speedText)
    ensures !result.isError ==>
              && Contains(result.text, "OpenAI TTS")
              && Contains(result.text, "voice " + OpenAiTts(args, env).value.voice)
  {
    match OpenAiTts(args, env)
    case Err(m) => ToolResult(m, true)
    case Ok(req) =>
      OpenAiResultMentions(req, speedText);
      ToolResult(OpenAiResultText(req, speedText), false)
  }

  /** A key set in the environment is found: a request carrying only a
      non-empty text succeeds with that key and the provider defaults. */
  lemma KeyFromEnvironment(text: string, key: string)
    requires text != "" && key != ""
    ensures GoogleTts(map["text" := Str(text)], map["GOOGLE_AI_API_KEY" := key])
      == Ok(GoogleRequest(text, GoogleDefaultVoice, GoogleDefaultModel, key))
    ensures GoogleTts(map["text" := Str(text)], map["GEMINI_API_KEY" := key])
      == Ok(GoogleRequest(text, GoogleDefaultVoice, GoogleDefaultModel, key))
    ensures OpenAiTts(map["text" := Str(text)], map["OPENAI_API_KEY" := key])
      == Ok(OpenAiRequest(text, OpenAiDefaultVoice, OpenAiDefaultModel, DefaultSpeed, "", key))
  {
  }

  /** Both handlers make the same text checks before looking at the
      environment, so they report the same text error whatever either
      environment holds. */
  lemma TextChecksAgree(args: Arguments, googleEnv: Environment, openAiEnv: Environment)
    ensures CheckText(args).Err? ==>
      GoogleTts(args, googleEnv) == Err(CheckText(args).message)
      && OpenAiTts(args, openAiEnv) == Err(CheckText(args).message)
    ensures CheckText(args).Ok? ==> GoogleTts(args, googleEnv).Ok? || GoogleTts(args, googleEnv) == Err(GoogleKeyMissing)
    ensures CheckText(args).Ok? ==> OpenAiTts(args, openAiEnv).Ok? || OpenAiTts(args, openAiEnv) == Err(OpenAiKeyMissing)
  {
  }

  /** Setting any argument other than `text` never turns a success into an
      error or changes the error reported. */
  lemma OptionalArgumentsNeverFail(args: Arguments, env: Environment, key: string, v: ArgValue)
    requires key != "text"
    ensures GoogleTts(args[key := v], env).Err? <==> GoogleTts(args, env).Err?
    ensures GoogleTts(args, env).Err? ==> GoogleTts(args[key := v], env) == GoogleTts(args, env)
    ensures OpenAiTts(args[key := v], env).Err? <==> OpenAiTts(args, env).Err?
    ensures OpenAiTts(args, env).Err? ==> OpenAiTts(args[key := v], env) == OpenAiTts(args, env)
  {
  }

  /** The speed argument, whatever its value, affects only the resolved speed. */
  lemma SpeedOnlyAffectsSpeed(args: Arguments, env: Environment, v: ArgValue)
    ensures OpenAiTts(args["speed" := v], env).Ok? <==> OpenAiTts(args, env).Ok?
    ensures OpenAiTts(args, env).Ok? ==>
      OpenAiTts(args["speed" := v], env).value
        == OpenAiTts(args, env).value.(speed := ResolveSpeed(args["speed" := v]))
  {
  }

  /** The voice argument affects only the resolved voice, for both providers. */
  lemma VoiceOnlyAffectsVoice(args: Arguments, env: Environment, v: ArgValue)
    ensures GoogleTts(args, env).Ok? ==>
      GoogleTts(args["voice" := v], env)
        == Ok(GoogleTts(args, env).value.(voice := ResolveString(args["voice" := v], "voice", GoogleDefaultVoice)))
    ensures OpenAiTts(args, env).Ok? ==>
      OpenAiTts(args["voice" := v], env)
        == Ok(OpenAiTts(args, env).value.(voice := ResolveString(args["voice" := v], "voice", OpenAiDefaultVoice)))
  {
  }

  /** The model argument affects only the resolved model, for both providers. */
  lemma ModelOnlyAffectsModel(args: Arguments, env: Environment, v: ArgValue)
    ensures GoogleTts(args, env).Ok? ==>
      GoogleTts(args["model" := v], env)
        == Ok(GoogleTts(args, env).value.(model := ResolveString(args["model" := v], "model", GoogleDefaultModel)))
    ensures OpenAiTts(args, env).Ok? ==>
      OpenAiTts(args["model" := v], env)
        == Ok(OpenAiTts(args, env).value.(model := ResolveString(args["model" := v], "model", OpenAiDefaultModel)))
  {
  }
}
