/**
 * The model-invocation adapters: the standard request is turned into each
 * model family's request body, each family's response is read back into the
 * standard output, and three registries keyed by model name tie a name to its
 * adapters and its Bedrock model id.  JSON values are modelled structurally;
 * floating-point parameters are carried as opaque reals.
 */
module ModelAdapters {
  import Text
  import opened Wrappers
  import opened JsonData

  /** A prompt: a plain string or a list of message objects. */
  datatype Prompt = TextPrompt(text: string) | MessageList(messages: seq<Json>)

  /** StandardInput; every field but the model name is optional. */
  datatype StandardInput = StandardInput(
    modelName: string,
    prompt: Option<Prompt>,
    maxTokens: Option<int>,
    temperature: Option<real>,
    topP: Option<real>,
    topK: Option<int>,
    stopSequences: Option<seq<string>>,
    textToEmbed: Option<string>,
    inputType: Option<string>)

  /** StandardOutput; JNull stands for None, the value of a field the adapter does not fill. */
  datatype StandardOutput = StandardOutput(outputText: Json, embedding: Json, inputTokens: Json, outputTokens: Json)

  /** The adapter families the registries point to. */
  datatype Family = TitanText | Anthropic | Ai21 | CohereCommand | CohereCommandR | Meta | Mistral | TitanEmbed | CohereEmbed

  predicate IsEmbedFamily(f: Family)
  {
    f == TitanEmbed || f == CohereEmbed
  }

  // ---------------------------------------------------------------------
  // The registries.
  // ---------------------------------------------------------------------

  /** The supported model names, in registry order. */
  const ModelNames: seq<string> := [
    "TITAN_TEXT_PREMIER_V1", "TITAN_TEXT_LITE_V1", "TITAN_TEXT_EXPRESS_V1",
    "ANTHROPIC_CLAUDE_INSTANT_V1", "ANTHROPIC_CLAUDE_V2:1", "ANTHROPIC_CLAUDE_V2",
    "ANTHROPIC_CLAUDE_3_SONNET_V1", "ANTHROPIC_CLAUDE_3_HAIKU_V1",
    "AI21_JURASSIC_2_ULTRA", "AI21_JURASSIC_2_MID",
    "COHERE_COMMAND_LIGHT_TEXT_V14", "COHERE_COMMAND_TEXT_V14",
    "COHERE_COMMAND_R_V1", "COHERE_COMMAND_R_PLUS_V1",
    "META_LLAMA2_CHAT_13B_V1", "META_LLAMA2_CHAT_70B_V1", "META_LLAMA3_8B_INSTRUCT_V1", "META_LLAMA3_70B_INSTRUCT_V1",
    "MISTRAL_7B_INSTRUCT_V0:2", "MIXTRAL_8X7B_INSTRUCT_V0:1", "MISTRAL_LARGE_V1:0",
    "TITAN_EMBED_TEXT_V1", "TITAN_TEXT_EMBED_V2", "COHERE_EMBED_ENGLISH_V3", "COHERE_EMBED_MULTILINGUAL_V3"]

  /** input_adapters */
  const InputAdapters: map<string, Family> := map[
    "TITAN_TEXT_PREMIER_V1" := TitanText, "TITAN_TEXT_LITE_V1" := TitanText, "TITAN_TEXT_EXPRESS_V1" := TitanText,
    "ANTHROPIC_CLAUDE_INSTANT_V1" := Anthropic, "ANTHROPIC_CLAUDE_V2:1" := Anthropic, "ANTHROPIC_CLAUDE_V2" := Anthropic,
    "ANTHROPIC_CLAUDE_3_SONNET_V1" := Anthropic, "ANTHROPIC_CLAUDE_3_HAIKU_V1" := Anthropic,
    "AI21_JURASSIC_2_ULTRA" := Ai21, "AI21_JURASSIC_2_MID" := Ai21,
    "COHERE_COMMAND_LIGHT_TEXT_V14" := CohereCommand, "COHERE_COMMAND_TEXT_V14" := CohereCommand,
    "COHERE_COMMAND_R_V1" := CohereCommandR, "COHERE_COMMAND_R_PLUS_V1" := CohereCommandR,
    "META_LLAMA2_CHAT_13B_V1" := Meta, "META_LLAMA2_CHAT_70B_V1" := Meta, "META_LLAMA3_8B_INSTRUCT_V1" := Meta, "META_LLAMA3_70B_INSTRUCT_V1" := Meta,
    "MISTRAL_7B_INSTRUCT_V0:2" := Mistral, "MIXTRAL_8X7B_INSTRUCT_V0:1" := Mistral, "MISTRAL_LARGE_V1:0" := Mistral,
    "TITAN_EMBED_TEXT_V1" := TitanEmbed, "TITAN_TEXT_EMBED_V2" := TitanEmbed,
    "COHERE_EMBED_ENGLISH_V3" := CohereEmbed, "COHERE_EMBED_MULTILINGUAL_V3" := CohereEmbed]

  /** output_adapters: each name is read back by the output adapter of the same family. */
  const OutputAdapters: map<string, Family> := map[
    "TITAN_TEXT_PREMIER_V1" := TitanText, "TITAN_TEXT_LITE_V1" := TitanText, "TITAN_TEXT_EXPRESS_V1" := TitanText,
    "ANTHROPIC_CLAUDE_INSTANT_V1" := Anthropic, "ANTHROPIC_CLAUDE_V2:1" := Anthropic, "ANTHROPIC_CLAUDE_V2" := Anthropic,
    "ANTHROPIC_CLAUDE_3_SONNET_V1" := Anthropic, "ANTHROPIC_CLAUDE_3_HAIKU_V1" := Anthropic,
    "AI21_JURASSIC_2_ULTRA" := Ai21, "AI21_JURASSIC_2_MID" := Ai21,
    "COHERE_COMMAND_LIGHT_TEXT_V14" := CohereCommand, "COHERE_COMMAND_TEXT_V14" := CohereCommand,
    "COHERE_COMMAND_R_V1" := CohereCommandR, "COHERE_COMMAND_R_PLUS_V1" := CohereCommandR,
    "META_LLAMA2_CHAT_13B_V1" := Meta, "META_LLAMA2_CHAT_70B_V1" := Meta, "META_LLAMA3_8B_INSTRUCT_V1" := Meta, "META_LLAMA3_70B_INSTRUCT_V1" := Meta,
    "MISTRAL_7B_INSTRUCT_V0:2" := Mistral, "MIXTRAL_8X7B_INSTRUCT_V0:1" := Mistral, "MISTRAL_LARGE_V1:0" := Mistral,
    "TITAN_EMBED_TEXT_V1" := TitanEmbed, "TITAN_TEXT_EMBED_V2" := TitanEmbed,
    "COHERE_EMBED_ENGLISH_V3" := CohereEmbed, "COHERE_EMBED_MULTILINGUAL_V3" := CohereEmbed]

  /** model_id_map */
  const ModelIdMap: map<string, string> := map[
    "TITAN_TEXT_PREMIER_V1" := "amazon.titan-text-premier-v1:0",
    "TITAN_TEXT_LITE_V1" := "amazon.titan-text-lite-v1",
    "TITAN_TEXT_EXPRESS_V1" := "amazon.titan-text-express-v1",
    "ANTHROPIC_CLAUDE_INSTANT_V1" := "anthropic.claude-instant-v1",
    "ANTHROPIC_CLAUDE_V2:1" := "anthropic.claude-v2:1",
    "ANTHROPIC_CLAUDE_V2" := "anthropic.claude-v2",
    "ANTHROPIC_CLAUDE_3_SONNET_V1" := "anthropic.claude-3-sonnet-20240229-v1:0",
    "ANTHROPIC_CLAUDE_3_HAIKU_V1" := "anthropic.claude-3-haiku-20240307-v1:0",
    "AI21_JURASSIC_2_ULTRA" := "ai21.j2-ultra-v1",
    "AI21_JURASSIC_2_MID" := "ai21.j2-mid-v1",
    "COHERE_COMMAND_LIGHT_TEXT_V14" := "cohere.command-light-text-v14",
    "COHERE_COMMAND_TEXT_V14" := "cohere.command-text-v14",
    "COHERE_COMMAND_R_V1" := "cohere.command-r-v1:0",
    "COHERE_COMMAND_R_PLUS_V1" := "cohere.command-r-plus-v1:0",
    "META_LLAMA2_CHAT_13B_V1" := "meta.llama2-13b-chat-v1",
    "META_LLAMA2_CHAT_70B_V1" := "meta.llama2-70b-chat-v1",
    "META_LLAMA3_8B_INSTRUCT_V1" := "meta.llama3-8b-instruct-v1:0",
    "META_LLAMA3_70B_INSTRUCT_V1" := "meta.llama3-70b-instruct-v1:0",
    "MISTRAL_7B_INSTRUCT_V0:2" := "mistral.mistral-7b-instruct-v0:2",
    "MIXTRAL_8X7B_INSTRUCT_V0:1" := "mistral.mixtral-8x7b-instruct-v0:1",
    "MISTRAL_LARGE_V1:0" := "mistral.mistral-large-2402-v1:0",
    "TITAN_EMBED_TEXT_V1" := "amazon.titan-embed-text-v1",
    "TITAN_TEXT_EMBED_V2" := "amazon.titan-embed-text-v2:0",
    "COHERE_EMBED_ENGLISH_V3" := "cohere.embed-english-v3",
    "COHERE_EMBED_MULTILINGUAL_V3" := "cohere.embed-multilingual-v3"]

  /**
   * The three registries have the same 25 names, each name reads back with the family that
   * wrote its request, and every name has a non-empty model id.
   */
  lemma RegistriesAgree()
    ensures InputAdapters.Keys == OutputAdapters.Keys == ModelIdMap.Keys
    ensures forall n :: n in InputAdapters ==> InputAdapters[n] == OutputAdapters[n] && ModelIdMap[n] != ""
    ensures forall n :: n in InputAdapters <==> n in ModelNames
    ensures |ModelNames| == 25 && forall i, j :: 0 <= i < j < |ModelNames| ==> ModelNames[i] != ModelNames[j]
  {
    RegistryKeys();
    RegistryValues();
    NamesDistinct();
  }

  lemma RegistryKeys()
    ensures InputAdapters.Keys == OutputAdapters.Keys == ModelIdMap.Keys
    ensures forall n :: n in InputAdapters <==> n in ModelNames
  {
  }

  lemma RegistryValues()
    ensures forall n :: n in InputAdapters ==> n in OutputAdapters && n in ModelIdMap && InputAdapters[n] == OutputAdapters[n] && ModelIdMap[n] != ""
  {
  }

  lemma NamesDistinct()
    ensures |ModelNames| == 25 && forall i, j :: 0 <= i < j < |ModelNames| ==> ModelNames[i] != ModelNames[j]
  {
  }

  /** Each of the first five names lacks the letter B or D of "EMBED". */
  lemma NamesLackLetterA()
    ensures forall i :: 0 <= i < 5 ==> 'B' !in ModelNames[i] || 'D' !in ModelNames[i]
  {
  }

  /** Each of names 5 to 9 lacks the letter B or D of "EMBED". */
  lemma NamesLackLetterB()
    ensures forall i :: 5 <= i < 10 ==> 'B' !in ModelNames[i] || 'D' !in ModelNames[i]
  {
  }

  /** Each of names 10 to 14 lacks the letter B or D of "EMBED". */
  lemma NamesLackLetterC()
    ensures forall i :: 10 <= i < 15 ==> 'B' !in ModelNames[i] || 'D' !in ModelNames[i]
  {
  }

  /** Each of names 15 to 20 lacks the letter B or D of "EMBED". */
  lemma NamesLackLetterD()
    ensures forall i :: 15 <= i < 21 ==> 'B' !in ModelNames[i] || 'D' !in ModelNames[i]
  {
  }

  /** The last four names, and only they, are registered with an embed adapter. */
  lemma EmbedFamiliesLast()
    ensures forall i :: 0 <= i < |ModelNames| ==> (IsEmbedFamily(InputAdapters[ModelNames[i]]) <==> i >= 21)
  {
  }

  /** "EMBED" occurs in exactly the last four names. */
  lemma EmbedAt(i: int)
    requires 0 <= i < |ModelNames|
    ensures Text.Occurs("EMBED", ModelNames[i]) <==> i >= 21
  {
    if i < 21 {
      NoEmbedBefore(i);
    } else {
      EmbedFrom(i);
    }
  }

  /** The first 21 names lack "EMBED", since each lacks its B or its D. */
  lemma NoEmbedBefore(i: int)
    requires 0 <= i < 21
    ensures !Text.Occurs("EMBED", ModelNames[i])
  {
    NamesLackLetterA();
    NamesLackLetterB();
    NamesLackLetterC();
    NamesLackLetterD();
    if 'B' !in ModelNames[i] {
      Text.OccursMissingChar(ModelNames[i], "EMBED", 'B');
    } else {
      Text.OccursMissingChar(ModelNames[i], "EMBED", 'D');
    }
  }

  /** Each of the last four names holds "EMBED". */
  lemma EmbedFrom(i: int)
    requires 21 <= i < |ModelNames|
    ensures Text.Occurs("EMBED", ModelNames[i])
  {
    if i == 21 {
      assert ModelNames[i] == "TITAN_EMBED_TEXT_V1";
      EmbedIn(ModelNames[i], 6);
    } else if i == 22 {
      assert ModelNames[i] == "TITAN_TEXT_EMBED_V2";
      EmbedIn(ModelNames[i], 11);
    } else if i == 23 {
      assert ModelNames[i] == "COHERE_EMBED_ENGLISH_V3";
      EmbedIn(ModelNames[i], 7);
    } else {
      assert ModelNames[i] == "COHERE_EMBED_MULTILINGUAL_V3";
      EmbedIn(ModelNames[i], 7);
    }
  }

  /** "EMBED" spelled out from position k of name. */
  lemma EmbedIn(name: string, k: nat)
    requires k + 5 <= |name|
    requires name[k] == 'E' && name[k + 1] == 'M' && name[k + 2] == 'B' && name[k + 3] == 'E' && name[k + 4] == 'D'
    ensures Text.Occurs("EMBED", name)
  {
    assert name[k..k + 5] == "EMBED";
    Text.OccursAt(name, "EMBED", k);
  }

  /** Exactly the four names containing "EMBED" are mapped to the embed adapters. */
  lemma EmbedNames()
    ensures forall n :: n in InputAdapters ==> (Text.Occurs("EMBED", n) <==> IsEmbedFamily(InputAdapters[n]))
  {
    RegistriesAgree();
    forall n | n in InputAdapters ensures Text.Occurs("EMBED", n) <==> IsEmbedFamily(InputAdapters[n]) {
      var i :| 0 <= i < |ModelNames| && ModelNames[i] == n;
      EmbedAt(i);
      EmbedFamiliesLast();
    }
  }

  // ---------------------------------------------------------------------
  // Input adapters.
  // ---------------------------------------------------------------------

  /** The prompt as it is put into a request body: None, a string or the list as given. */
  function PromptJson(p: Option<Prompt>): (r: Json)
    ensures p.None? <==> r == JNull
    ensures p.Some? && p.value.TextPrompt? ==> r == JStr(p.value.text)
    ensures p.Some? && p.value.MessageList? ==> r == JArr(p.value.messages)
  {
    match p
    case None => JNull
    case Some(TextPrompt(t)) => JStr(t)
    case Some(MessageList(ms)) => JArr(ms)
  }

  /** A list of strings as JSON. */
  function StringList(ss: seq<string>): (r: Json)
    ensures r.JArr? && |r.items| == |ss|
    ensures forall i :: 0 <= i < |ss| ==> r.items[i] == JStr(ss[i])
  {
    JArr(seq(|ss|, i requires 0 <= i < |ss| => JStr(ss[i])))
  }

  /** `v or d` for an optional float: None and 0.0 give d. */
  function FloatOr(v: Option<real>, d: real): Json
  {
    JNum(OrDefault(v, x => x == 0.0, d))
  }

  /** `v or d` for an optional integer: None and 0 give d. */
  function IntOr(v: Option<int>, d: int): Json
  {
    JInt(OrDefault(v, x => x == 0, d))
  }

  /** `stop_sequences or []`. */
  function StopOr(v: Option<seq<string>>): Json
  {
    StringList(OrDefault(v, ss => |ss| == 0, []))
  }

  function TitanTextInput(req: StandardInput): map<string, Json>
  {
    map[
      "inputText" := PromptJson(req.prompt),
      "textGenerationConfig" := JObj(map[
        "temperature" := FloatOr(req.temperature, 0.7),
        "topP" := FloatOr(req.topP, 0.9),
        "maxTokenCount" := IntOr(req.maxTokens, 100),
        "stopSequences" := StopOr(req.stopSequences)])]
  }

  /** A string prompt as the single user message with one text part. */
  function UserMessage(text: string): Json
  {
    JObj(map["role" := JStr("user"), "content" := JArr([JObj(map["type" := JStr("text"), "text" := JStr(text)])])])
  }

  function AnthropicMessages(p: Option<Prompt>): Json
  {
    if p.Some? && p.value.TextPrompt? then JArr([UserMessage(p.value.text)]) else PromptJson(p)
  }

  function AnthropicInput(req: StandardInput): map<string, Json>
  {
    map[
      "anthropic_version" := JStr("bedrock-2023-05-31"),
      "max_tokens" := IntOr(req.maxTokens, 1000),
      "system" := JStr(""),
      "messages" := AnthropicMessages(req.prompt),
      "temperature" := FloatOr(req.temperature, 0.7),
      "top_p" := FloatOr(req.topP, 0.9),
      "top_k" := IntOr(req.topK, 40),
      "stop_sequences" := StopOr(req.stopSequences)]
  }

  function ZeroScale(): Json
  {
    JObj(map["scale" := JNum(0.0)])
  }

  function Ai21Input(req: StandardInput): map<string, Json>
  {
    map[
      "prompt" := PromptJson(req.prompt),
      "temperature" := FloatOr(req.temperature, 0.7),
      "topP" := FloatOr(req.topP, 0.9),
      "maxTokens" := IntOr(req.maxTokens, 1000),
      "stopSequences" := StopOr(req.stopSequences),
      "countPenalty" := ZeroScale(),
      "presencePenalty" := ZeroScale(),
      "frequencyPenalty" := ZeroScale()]
  }

  function CohereCommandInput(req: StandardInput): map<string, Json>
  {
    map[
      "prompt" := PromptJson(req.prompt),
      "temperature" := FloatOr(req.temperature, 0.7),
      "p" := FloatOr(req.topP, 0.9),
      "k" := IntOr(req.topK, 40),
      "max_tokens" := IntOr(req.maxTokens, 1000),
      "stop_sequences" := StopOr(req.stopSequences),
      "return_likelihoods" := JStr("NONE"),
      "stream" := JBool(false),
      "num_generations" := JInt(1),
      "logit_bias" := JObj(map[]),
      "truncate" := JStr("NONE")]
  }

  function CohereCommandRInput(req: StandardInput): map<string, Json>
  {
    map[
      "message" := PromptJson(req.prompt),
      "chat_history" := JArr([]),
      "documents" := JArr([]),
      "search_queries_only" := JBool(false),
      "preamble" := JStr(""),
      "max_tokens" := IntOr(req.maxTokens, 1000),
      "temperature" := FloatOr(req.temperature, 0.7),
      "p" := FloatOr(req.topP, 0.9),
      "k" := IntOr(req.topK, 40),
      "prompt_truncation" := JStr("OFF"),
      "frequency_penalty" := JNum(0.0),
      "presence_penalty" := JNum(0.0),
      "seed" := JInt(0),
      "return_prompt" := JBool(false),
      "stop_sequences" := StopOr(req.stopSequences),
      "raw_prompting" := JBool(false)]
  }

  function MetaInput(req: StandardInput): map<string, Json>
  {
    map[
      "prompt" := PromptJson(req.prompt),
      "temperature" := FloatOr(req.temperature, 0.7),
      "top_p" := FloatOr(req.topP, 0.9),
      "max_gen_len" := IntOr(req.maxTokens, 1000)]
  }

  function MistralInput(req: StandardInput): map<string, Json>
  {
    map[
      "prompt" := PromptJson(req.prompt),
      "max_tokens" := IntOr(req.maxTokens, 1000),
      "stop" := StopOr(req.stopSequences),
      "temperature" := FloatOr(req.temperature, 0.7),
      "top_p" := FloatOr(req.topP, 0.9),
      "top_k" := IntOr(req.topK, 40)]
  }

  /** An optional string as JSON: None is null. */
  function OptString(v: Option<string>): Json
  {
    if v.Some? then JStr(v.value) else JNull
  }

  function TitanEmbedInput(req: StandardInput): map<string, Json>
  {
    map["inputText" := OptString(req.textToEmbed)]
  }

  function CohereEmbedInput(req: StandardInput): map<string, Json>
  {
    map[
      "texts" := JArr([OptString(req.textToEmbed)]),
      "input_type" := JStr(OrDefault(req.inputType, t => t == "", "search_document"))]
  }

  /** The request body the family's input adapter builds. */
  function InputAdapter(f: Family, req: StandardInput): (body: map<string, Json>)
    ensures IsEmbedFamily(f) ==> body.Keys <= {"inputText", "texts", "input_type"}
    ensures !IsEmbedFamily(f) ==> "prompt" in body || "messages" in body || "message" in body || "inputText" in body
  {
    match f
    case TitanText => TitanTextInput(req)
    case Anthropic => AnthropicInput(req)
    case Ai21 => Ai21Input(req)
    case CohereCommand => CohereCommandInput(req)
    case CohereCommandR => CohereCommandRInput(req)
    case Meta => MetaInput(req)
    case Mistral => MistralInput(req)
    case TitanEmbed => TitanEmbedInput(req)
    case CohereEmbed => CohereEmbedInput(req)
  }

  /** The request with no sampling parameters set. */
  function Unset(req: StandardInput): StandardInput
  {
    req.(maxTokens := None, temperature := None, topP := None, topK := None, stopSequences := None)
  }

  /**
   * A falsy parameter (0, 0.0 or the empty list) builds the same body as an absent one:
   * Python's `or` replaces both by the family's default.
   */
  lemma FalsyIsAbsent(f: Family, req: StandardInput)
    ensures InputAdapter(f, req.(maxTokens := Some(0), temperature := Some(0.0), topP := Some(0.0), topK := Some(0), stopSequences := Some([])))
         == InputAdapter(f, Unset(req))
    ensures InputAdapter(f, req.(inputType := Some(""))) == InputAdapter(f, req.(inputType := None))
  {
    if f == TitanText || f == Anthropic || f == Ai21 {
      ZeroedIsUnsetA(f, req);
    } else if f == CohereCommand || f == CohereCommandR || f == Meta {
      ZeroedIsUnsetB(f, req);
    } else {
      ZeroedIsUnsetC(f, req);
    }
    EmptyInputTypeIsAbsent(f, req);
  }

  /** The request with every sampling parameter set to its falsy value. */
  function Zeroed(req: StandardInput): StandardInput
  {
    req.(maxTokens := Some(0), temperature := Some(0.0), topP := Some(0.0), topK := Some(0), stopSequences := Some([]))
  }

  lemma ZeroedIsUnsetA(f: Family, req: StandardInput)
    requires f == TitanText || f == Anthropic || f == Ai21
    ensures InputAdapter(f, Zeroed(req)) == InputAdapter(f, Unset(req))
  {
    assert StopOr(Zeroed(req).stopSequences) == StopOr(Unset(req).stopSequences);
  }

  lemma ZeroedIsUnsetB(f: Family, req: StandardInput)
    requires f == CohereCommand || f == CohereCommandR || f == Meta
    ensures InputAdapter(f, Zeroed(req)) == InputAdapter(f, Unset(req))
  {
    assert StopOr(Zeroed(req).stopSequences) == StopOr(Unset(req).stopSequences);
  }

  lemma ZeroedIsUnsetC(f: Family, req: StandardInput)
    requires f == Mistral || f == TitanEmbed || f == CohereEmbed
    ensures InputAdapter(f, Zeroed(req)) == InputAdapter(f, Unset(req))
  {
    assert StopOr(Zeroed(req).stopSequences) == StopOr(Unset(req).stopSequences);
  }

  /** An empty input type builds the same body as none. */
  lemma EmptyInputTypeIsAbsent(f: Family, req: StandardInput)
    ensures InputAdapter(f, req.(inputType := Some(""))) == InputAdapter(f, req.(inputType := None))
  {
  }

  /** With nothing set, Titan text uses temperature 0.7, topP 0.9, 100 tokens and no stop sequences. */
  lemma TitanDefaults(req: StandardInput)
    ensures TitanTextInput(Unset(req))["textGenerationConfig"]
         == JObj(map["temperature" := JNum(0.7), "topP" := JNum(0.9), "maxTokenCount" := JInt(100), "stopSequences" := JArr([])])
  {
    assert StopOr(None) == JArr([]);
  }

  /** With nothing set, Anthropic uses 1000 tokens, top_k 40, temperature 0.7 and top_p 0.9. */
  lemma AnthropicDefaults(req: StandardInput)
    ensures var body := AnthropicInput(Unset(req));
      body["max_tokens"] == JInt(1000) && body["top_k"] == JInt(40) && body["temperature"] == JNum(0.7)
      && body["top_p"] == JNum(0.9) && body["stop_sequences"] == JArr([]) && body["system"] == JStr("")
  {
    assert StopOr(None) == JArr([]);
  }

  /** Set parameters reach the body unchanged. */
  lemma SetParametersKept(req: StandardInput, t: real, p: real, n: int, k: int)
    requires t != 0.0 && p != 0.0 && n != 0 && k != 0
    ensures var body := AnthropicInput(req.(temperature := Some(t), topP := Some(p), maxTokens := Some(n), topK := Some(k)));
      body["temperature"] == JNum(t) && body["top_p"] == JNum(p) && body["max_tokens"] == JInt(n) && body["top_k"] == JInt(k)
  {
  }

  /**
   * Anthropic sends a string prompt as one user message with one text part, and a
   * message list (or no prompt) unchanged.
   */
  lemma AnthropicWrap(req: StandardInput)
    ensures req.prompt.Some? && req.prompt.value.TextPrompt? ==>
      AnthropicInput(req)["messages"] == JArr([JObj(map[
        "role" := JStr("user"),
        "content" := JArr([JObj(map["type" := JStr("text"), "text" := JStr(req.prompt.value.text)])])])])
    ensures req.prompt.Some? && req.prompt.value.MessageList? ==> AnthropicInput(req)["messages"] == JArr(req.prompt.value.messages)
    ensures req.prompt.None? ==> AnthropicInput(req)["messages"] == JNull
  {
  }

  /** The embed adapters: Titan sends the text alone; Cohere a one-text list with a search_document default. */
  lemma EmbedInputs(req: StandardInput, text: string)
    requires req.textToEmbed == Some(text)
    ensures InputAdapter(TitanEmbed, req) == map["inputText" := JStr(text)]
    ensures InputAdapter(CohereEmbed, req.(inputType := None))
         == map["texts" := JArr([JStr(text)]), "input_type" := JStr("search_document")]
  {
  }

  // ---------------------------------------------------------------------
  // Output adapters.
  // ---------------------------------------------------------------------

  /** `obj.get(k, d)` on a value that must be a dict. */
  function GetOr(v: Json, k: string, d: Json): (r: Result<Json, string>)
    ensures v.JObj? <==> r.Ok?
    ensures v.JObj? && k in v.fields ==> r == Ok(v.fields[k])
    ensures v.JObj? && k !in v.fields ==> r == Ok(d)
  {
    if v.JObj? then Ok(if k in v.fields then v.fields[k] else d) else Err("AttributeError: object has no attribute 'get'")
  }

  /** `obj.get(k)`: a missing key reads as None. */
  function Get(v: Json, k: string): Result<Json, string>
  {
    GetOr(v, k, JNull)
  }

  /** `obj[k]`: a missing key raises. */
  function Index(v: Json, k: string): (r: Result<Json, string>)
    ensures r.Ok? <==> v.JObj? && k in v.fields
  {
    if v.JObj? && k in v.fields then Ok(v.fields[k]) else Err("KeyError: '" + k + "'")
  }

  /** `lst[0]`: an empty list (or a non-list) raises. */
  function First(v: Json): (r: Result<Json, string>)
    ensures r.Ok? <==> v.JArr? && |v.items| > 0
    ensures r.Ok? ==> r.value == v.items[0]
  {
    if v.JArr? && |v.items| > 0 then Ok(v.items[0]) else Err("IndexError: list index out of range")
  }

  /** The default `[{}]` of a list lookup. */
  function OneEmptyDict(): Json
  {
    JArr([JObj(map[])])
  }

  function TitanTextOutput(resp: Json): Result<StandardOutput, string>
  {
    var results :- GetOr(resp, "results", OneEmptyDict());
    var first :- First(results);
    var text :- Get(first, "outputText");
    var inTokens :- Get(resp, "inputTextTokenCount");
    var outTokens :- Get(first, "tokenCount");
    Ok(StandardOutput(text, JNull, inTokens, outTokens))
  }

  function AnthropicOutput(resp: Json): Result<StandardOutput, string>
  {
    var content :- GetOr(resp, "content", OneEmptyDict());
    var first :- First(content);
    var text :- Get(first, "text");
    var usage :- GetOr(resp, "usage", JObj(map[]));
    var inTokens :- Get(usage, "input_tokens");
    var outTokens :- Get(usage, "output_tokens");
    Ok(StandardOutput(text, JNull, inTokens, outTokens))
  }

  function Ai21Output(resp: Json): Result<StandardOutput, string>
  {
    var completions :- GetOr(resp, "completions", OneEmptyDict());
    var first :- First(completions);
    var data :- Index(first, "data");
    var text :- Get(data, "text");
    Ok(StandardOutput(text, JNull, JNull, JNull))
  }

  function CohereCommandOutput(resp: Json): Result<StandardOutput, string>
  {
    var generations :- GetOr(resp, "generations", OneEmptyDict());
    var first :- First(generations);
    var text :- Get(first, "text");
    Ok(StandardOutput(text, JNull, JNull, JNull))
  }

  function CohereCommandROutput(resp: Json): Result<StandardOutput, string>
  {
    var text :- Get(resp, "text");
    var counts :- GetOr(resp, "token_count", JObj(map[]));
    var inTokens :- Get(counts, "prompt_tokens");
    var outTokens :- Get(counts, "response_tokens");
    Ok(StandardOutput(text, JNull, inTokens, outTokens))
  }

  function MetaOutput(resp: Json): Result<StandardOutput, string>
  {
    var text :- Get(resp, "generation");
    var inTokens :- Get(resp, "prompt_token_count");
    var outTokens :- Get(resp, "generation_token_count");
    Ok(StandardOutput(text, JNull, inTokens, outTokens))
  }

  function MistralOutput(resp: Json): Result<StandardOutput, string>
  {
    var outputs :- GetOr(resp, "outputs", OneEmptyDict());
    var first :- First(outputs);
    var text :- Get(first, "text");
    Ok(StandardOutput(text, JNull, JNull, JNull))
  }

  function TitanEmbedOutput(resp: Json): Result<StandardOutput, string>
  {
    var embedding :- Get(resp, "embedding");
    var inTokens :- Get(resp, "inputTextTokenCount");
    Ok(StandardOutput(JNull, embedding, inTokens, JNull))
  }

  function CohereEmbedOutput(resp: Json): Result<StandardOutput, string>
  {
    var embeddings :- GetOr(resp, "embeddings", JArr([JArr([])]));
    var first :- First(embeddings);
    Ok(StandardOutput(JNull, first, JNull, JNull))
  }

  /**
   * The standard output the family's output adapter reads from a response body. Text
   * families never fill the embedding and embed families never fill the output text.
   */
  function OutputAdapter(f: Family, resp: Json): (r: Result<StandardOutput, string>)
    ensures r.Ok? ==> resp.JObj?
    ensures r.Ok? && IsEmbedFamily(f) ==> r.value.outputText == JNull
    ensures r.Ok? && !IsEmbedFamily(f) ==> r.value.embedding == JNull
  {
    match f
    case TitanText => TitanTextOutput(resp)
    case Anthropic => AnthropicOutput(resp)
    case Ai21 => Ai21Output(resp)
    case CohereCommand => CohereCommandOutput(resp)
    case CohereCommandR => CohereCommandROutput(resp)
    case Meta => MetaOutput(resp)
    case Mistral => MistralOutput(resp)
    case TitanEmbed => TitanEmbedOutput(resp)
    case CohereEmbed => CohereEmbedOutput(resp)
  }

  /**
   * An empty response body reads back as an output with every field None, except for
   * AI21, whose `['data']` raises, and Cohere embed, whose default `[[]]` gives an empty embedding.
   */
  lemma EmptyResponse(f: Family)
    ensures f == Ai21 <==> OutputAdapter(f, JObj(map[])).Err?
    ensures f != Ai21 && f != CohereEmbed ==> OutputAdapter(f, JObj(map[])) == Ok(StandardOutput(JNull, JNull, JNull, JNull))
    ensures OutputAdapter(CohereEmbed, JObj(map[])) == Ok(StandardOutput(JNull, JArr([]), JNull, JNull))
  {
  }

  /** A present but empty result list raises IndexError instead of reading None. */
  lemma EmptyResultListRaises()
    ensures OutputAdapter(TitanText, JObj(map["results" := JArr([])])).Err?
    ensures OutputAdapter(Anthropic, JObj(map["content" := JArr([])])).Err?
    ensures OutputAdapter(Ai21, JObj(map["completions" := JArr([])])).Err?
    ensures OutputAdapter(CohereCommand, JObj(map["generations" := JArr([])])).Err?
    ensures OutputAdapter(Mistral, JObj(map["outputs" := JArr([])])).Err?
  {
  }

  /** A well-formed Titan text response reads back its text and both token counts. */
  lemma TitanTextReadsBack(text: string, inTokens: int, outTokens: int)
    ensures OutputAdapter(TitanText, JObj(map[
        "inputTextTokenCount" := JInt(inTokens),
        "results" := JArr([JObj(map["outputText" := JStr(text), "tokenCount" := JInt(outTokens)])])]))
      == Ok(StandardOutput(JStr(text), JNull, JInt(inTokens), JInt(outTokens)))
  {
  }

  /**
   * The first entry of the list `m.get(key, [{}])` when that list is non-empty and its
   * first entry is a dict; None when reading the entry's keys would raise.
   */
  function FirstEntry(m: map<string, Json>, key: string): Option<map<string, Json>>
  {
    var v := Lookup(m, key, OneEmptyDict());
    if v.JArr? && |v.items| > 0 && v.items[0].JObj? then Some(v.items[0].fields) else None
  }

  /** Titan text reads results[0].outputText, inputTextTokenCount and results[0].tokenCount. */
  lemma TitanTextOutputKeys(m: map<string, Json>)
    ensures FirstEntry(m, "results").None? ==> OutputAdapter(TitanText, JObj(m)).Err?
    ensures FirstEntry(m, "results").Some? ==> OutputAdapter(TitanText, JObj(m)) == Ok(StandardOutput(
      Lookup(FirstEntry(m, "results").value, "outputText", JNull), JNull,
      Lookup(m, "inputTextTokenCount", JNull), Lookup(FirstEntry(m, "results").value, "tokenCount", JNull)))
  {
  }

  /** Anthropic reads content[0].text and usage's input_tokens and output_tokens. */
  lemma AnthropicOutputKeys(m: map<string, Json>)
    ensures FirstEntry(m, "content").None? || !Lookup(m, "usage", JObj(map[])).JObj? ==> OutputAdapter(Anthropic, JObj(m)).Err?
    ensures FirstEntry(m, "content").Some? && Lookup(m, "usage", JObj(map[])).JObj? ==>
      var usage := Lookup(m, "usage", JObj(map[])).fields;
      OutputAdapter(Anthropic, JObj(m)) == Ok(StandardOutput(
        Lookup(FirstEntry(m, "content").value, "text", JNull), JNull,
        Lookup(usage, "input_tokens", JNull), Lookup(usage, "output_tokens", JNull)))
  {
  }

  /** AI21 reads completions[0]['data'].text, which must exist; no token counts. */
  lemma Ai21OutputKeys(m: map<string, Json>)
    ensures OutputAdapter(Ai21, JObj(m)).Ok? <==>
      FirstEntry(m, "completions").Some? && "data" in FirstEntry(m, "completions").value
      && FirstEntry(m, "completions").value["data"].JObj?
    ensures OutputAdapter(Ai21, JObj(m)).Ok? ==> OutputAdapter(Ai21, JObj(m)) == Ok(StandardOutput(
      Lookup(FirstEntry(m, "completions").value["data"].fields, "text", JNull), JNull, JNull, JNull))
  {
  }

  /** Cohere command reads generations[0].text; no token counts. */
  lemma CohereCommandOutputKeys(m: map<string, Json>)
    ensures FirstEntry(m, "generations").None? ==> OutputAdapter(CohereCommand, JObj(m)).Err?
    ensures FirstEntry(m, "generations").Some? ==>
      OutputAdapter(CohereCommand, JObj(m)) == Ok(StandardOutput(Lookup(FirstEntry(m, "generations").value, "text", JNull), JNull, JNull, JNull))
  {
  }

  /** Cohere command-R reads text and token_count's prompt_tokens and response_tokens. */
  lemma CohereCommandROutputKeys(m: map<string, Json>)
    ensures !Lookup(m, "token_count", JObj(map[])).JObj? ==> OutputAdapter(CohereCommandR, JObj(m)).Err?
    ensures Lookup(m, "token_count", JObj(map[])).JObj? ==>
      var counts := Lookup(m, "token_count", JObj(map[])).fields;
      OutputAdapter(CohereCommandR, JObj(m)) == Ok(StandardOutput(Lookup(m, "text", JNull), JNull,
        Lookup(counts, "prompt_tokens", JNull), Lookup(counts, "response_tokens", JNull)))
  {
  }

  /** Meta reads generation, prompt_token_count and generation_token_count, each None when absent. */
  lemma MetaOutputKeys(m: map<string, Json>)
    ensures OutputAdapter(Meta, JObj(m)) == Ok(StandardOutput(Lookup(m, "generation", JNull), JNull,
      Lookup(m, "prompt_token_count", JNull), Lookup(m, "generation_token_count", JNull)))
  {
  }

  /** Mistral reads outputs[0].text; no token counts. */
  lemma MistralOutputKeys(m: map<string, Json>)
    ensures FirstEntry(m, "outputs").None? ==> OutputAdapter(Mistral, JObj(m)).Err?
    ensures FirstEntry(m, "outputs").Some? ==>
      OutputAdapter(Mistral, JObj(m)) == Ok(StandardOutput(Lookup(FirstEntry(m, "outputs").value, "text", JNull), JNull, JNull, JNull))
  {
  }

  /** Titan embed reads embedding and inputTextTokenCount, each None when absent. */
  lemma TitanEmbedOutputKeys(m: map<string, Json>)
    ensures OutputAdapter(TitanEmbed, JObj(m)) == Ok(StandardOutput(JNull, Lookup(m, "embedding", JNull),
      Lookup(m, "inputTextTokenCount", JNull), JNull))
  {
  }

  /** Cohere embed reads embeddings[0], whatever it holds, with `[[]]` as the default list. */
  lemma CohereEmbedOutputKeys(m: map<string, Json>)
    ensures var v := Lookup(m, "embeddings", JArr([JArr([])]));
      OutputAdapter(CohereEmbed, JObj(m)) == if v.JArr? && |v.items| > 0 then Ok(StandardOutput(JNull, v.items[0], JNull, JNull))
      else Err("IndexError: list index out of range")
  {
  }

  /** `StandardOutput.from_response`: each field reads the response key its mapping names, or key "". */
  function FromResponse(resp: map<string, Json>, mapping: map<string, string>): (r: StandardOutput)
    ensures forall field :: field in {"output_text", "embedding", "input_tokens", "output_tokens"} ==>
      var key := if field in mapping then mapping[field] else "";
      FieldOf(r, field) == (if key in resp then resp[key] else JNull)
  {
    StandardOutput(
      Lookup(resp, Lookup(mapping, "output_text", ""), JNull),
      Lookup(resp, Lookup(mapping, "embedding", ""), JNull),
      Lookup(resp, Lookup(mapping, "input_tokens", ""), JNull),
      Lookup(resp, Lookup(mapping, "output_tokens", ""), JNull))
  }

  /** `m.get(k, d)`. */
  function Lookup<V>(m: map<string, V>, k: string, d: V): V
  {
    if k in m then m[k] else d
  }

  /** The standard output field of the given Python name. */
  function FieldOf(o: StandardOutput, field: string): Json
  {
    match field
    case "output_text" => o.outputText
    case "embedding" => o.embedding
    case "input_tokens" => o.inputTokens
    case _ => o.outputTokens
  }

  /** A field left out of the mapping is None unless the response happens to have the key "". */
  lemma UnmappedFieldIsNone(resp: map<string, Json>, mapping: map<string, string>)
    requires "" !in resp && "output_text" !in mapping
    ensures FromResponse(resp, mapping).outputText == JNull
  {
    assert FieldOf(FromResponse(resp, mapping), "output_text") == JNull;
  }

  // ---------------------------------------------------------------------
  // The request models.
  // ---------------------------------------------------------------------

  /** A prompt element that is a dict with both 'role' and 'content'. */
  predicate IsMessage(j: Json)
  {
    j.JObj? && "role" in j.fields && "content" in j.fields
  }

  /**
   * The prompt validator of InvokeModelRequest: a string is accepted unchanged, a list
   * only when every element is a message (the empty list included), anything else is refused.
   */
  function CheckPrompt(v: Json): (r: Result<Prompt, string>)
    ensures v.JStr? ==> r == Ok(TextPrompt(v.s))
    ensures v.JArr? && (forall i :: 0 <= i < |v.items| ==> IsMessage(v.items[i])) ==> r == Ok(MessageList(v.items))
    ensures v.JArr? && (exists i :: 0 <= i < |v.items| && !IsMessage(v.items[i]))
      ==> r == Err("Each message must be a dict with 'role' and 'content'")
    ensures !v.JStr? && !v.JArr? ==> r == Err("prompt must be either a string or a list of messages")
  {
    match v
    case JStr(s) => Ok(TextPrompt(s))
    case JArr(items) =>
      if forall m :: m in items ==> IsMessage(m) then Ok(MessageList(items))
      else Err("Each message must be a dict with 'role' and 'content'")
    case _ => Err("prompt must be either a string or a list of messages")
  }

  /** The empty list and any list of messages pass; one bad element fails the whole prompt. */
  lemma CheckPromptLists(good: seq<Json>, bad: Json)
    requires forall i :: 0 <= i < |good| ==> IsMessage(good[i])
    requires !IsMessage(bad)
    ensures CheckPrompt(JArr([])) == Ok(MessageList([]))
    ensures CheckPrompt(JArr(good + [bad] + good)).Err?
  {
    assert (good + [bad] + good)[|good|] == bad;
  }

  /** InvokeModelRequest; every field after the prompt is optional. */
  datatype InvokeModelRequest = InvokeModelRequest(
    modelName: string,
    prompt: Prompt,
    maxTokens: Option<int>,
    temperature: Option<real>,
    topP: Option<real>,
    topK: Option<int>,
    stopSequences: Option<seq<string>>,
    systemPrompts: Option<seq<Json>>)

  /** InvokeEmbedModelRequest. */
  datatype InvokeEmbedModelRequest = InvokeEmbedModelRequest(modelName: string, inputText: Option<string>)

  /** A request as parsed when only the required fields are sent: every optional field is None. */
  function NewInvokeModelRequest(modelName: string, prompt: Prompt): (r: InvokeModelRequest)
    ensures r.modelName == modelName && r.prompt == prompt
    ensures r.maxTokens.None? && r.temperature.None? && r.topP.None? && r.topK.None?
    ensures r.stopSequences.None? && r.systemPrompts.None?
  {
    InvokeModelRequest(modelName, prompt, None, None, None, None, None, None)
  }

  /** An embed request without input_text. */
  function NewInvokeEmbedModelRequest(modelName: string): (r: InvokeEmbedModelRequest)
    ensures r.modelName == modelName && r.inputText.None?
  {
    InvokeEmbedModelRequest(modelName, None)
  }
}
