/**
 * The model-invocation routes: listing the models, the checks every invocation starts
 * with, the shaping of a message-list request for Bedrock's converse call and the
 * reading of its response, and the asynchronous invocation whose state lives in a
 * cache with a one-hour expiry.  Bedrock itself is a parameter: its response (or its
 * failure) is given to the operations that use it.
 */
module ModelInvocation {
  import Text
  import opened Wrappers
  import MA = ModelAdapters
  import opened JsonData

  // ---------------------------------------------------------------------
  // list_models
  // ---------------------------------------------------------------------

  /** A listed model: its name and Bedrock model id. */
  datatype ListedModel = ListedModel(name: string, id: string)

  /** The entries of the id registry whose names do (embed) or do not (text) contain "EMBED", in order. */
  function Listing(names: seq<string>, ids: map<string, string>, embed: bool): (r: seq<ListedModel>)
    requires forall n :: n in names ==> n in ids
    ensures forall m :: m in r ==> m.name in names && m.id == ids[m.name] && (Text.Occurs("EMBED", m.name) <==> embed)
    ensures |r| <= |names|
  {
    if names == [] then []
    else
      var rest := Listing(names[1..], ids, embed);
      if Text.Occurs("EMBED", names[0]) == embed then [ListedModel(names[0], ids[names[0]])] + rest else rest
  }

  /** The response of list_models: the text models and the embed models. */
  function ListModels(): (r: (seq<ListedModel>, seq<ListedModel>))
    ensures |r.0| + |r.1| == |MA.ModelNames|
    ensures forall m :: m in r.0 ==> m !in r.1
  {
    MA.RegistriesAgree();
    ListingPartition(MA.ModelNames, MA.ModelIdMap);
    (Listing(MA.ModelNames, MA.ModelIdMap, false), Listing(MA.ModelNames, MA.ModelIdMap, true))
  }

  /** Every name appears in exactly one of the two lists, exactly once. */
  lemma {:induction false} ListingPartition(names: seq<string>, ids: map<string, string>)
    requires forall n :: n in names ==> n in ids
    ensures |Listing(names, ids, false)| + |Listing(names, ids, true)| == |names|
    ensures forall n :: n in names ==> (ListedModel(n, ids[n]) in Listing(names, ids, false) || ListedModel(n, ids[n]) in Listing(names, ids, true))
    ensures forall m :: m in Listing(names, ids, false) ==> m !in Listing(names, ids, true)
  {
    if names != [] {
      ListingPartition(names[1..], ids);
    }
  }

  /** The embed list holds exactly the models registered with an embed adapter, with their ids. */
  lemma EmbedListing()
    ensures forall m :: m in ListModels().1 <==>
      m.name in MA.InputAdapters && MA.IsEmbedFamily(MA.InputAdapters[m.name]) && m.id == MA.ModelIdMap[m.name]
  {
    MA.RegistriesAgree();
    MA.EmbedNames();
    ListingPartition(MA.ModelNames, MA.ModelIdMap);
  }

  // ---------------------------------------------------------------------
  // The checks every invocation starts with.
  // ---------------------------------------------------------------------

  /** The name must have both adapters, then a non-empty model id; the result is the model id. */
  function CheckModel(name: string): (r: Result<string, HttpError>)
    ensures name !in MA.InputAdapters || name !in MA.OutputAdapters ==> r == Err(HttpError(400, "Unsupported model: " + name))
    ensures r.Ok? ==> name in MA.ModelIdMap && r.value == MA.ModelIdMap[name] && r.value != ""
  {
    if name !in MA.InputAdapters || name !in MA.OutputAdapters then Err(HttpError(400, "Unsupported model: " + name))
    else if name !in MA.ModelIdMap || MA.ModelIdMap[name] == "" then Err(HttpError(400, "Model ID not found for model: " + name))
    else Ok(MA.ModelIdMap[name])
  }

  /** invoke_embed adds a third check: the name must contain "EMBED". */
  function CheckEmbedModel(name: string): (r: Result<string, HttpError>)
    ensures CheckModel(name).Err? ==> r == CheckModel(name)
    ensures CheckModel(name).Ok? && !Text.Occurs("EMBED", name) ==> r == Err(HttpError(400, "Model is not an embed model: " + name))
  {
    var id :- CheckModel(name);
    if !Text.Occurs("EMBED", name) then Err(HttpError(400, "Model is not an embed model: " + name)) else Ok(id)
  }

  /** A model passes the checks exactly when it is one of the 25 registered names. */
  lemma CheckModelAccepts(name: string)
    ensures CheckModel(name).Ok? <==> name in MA.ModelNames
  {
    MA.RegistriesAgree();
  }

  /** The embed route accepts exactly the names registered with an embed adapter. */
  lemma CheckEmbedModelAccepts(name: string)
    ensures CheckEmbedModel(name).Ok? <==> name in MA.InputAdapters && MA.IsEmbedFamily(MA.InputAdapters[name])
  {
    MA.RegistriesAgree();
    MA.EmbedNames();
  }

  /** The body invoke_embed sends: the embed text with input_type '', which Cohere turns into its default. */
  function EmbedRequestBody(req: MA.InvokeEmbedModelRequest): (r: Result<map<string, Json>, HttpError>)
    ensures r.Ok? <==> CheckEmbedModel(req.modelName).Ok?
  {
    var _ :- CheckEmbedModel(req.modelName);
    var input := MA.StandardInput(req.modelName, None, None, None, None, None, None, req.inputText, Some(""));
    Ok(MA.InputAdapter(MA.InputAdapters[req.modelName], input))
  }

  /** An accepted embed request for Cohere asks for search_document embeddings of the one text. */
  lemma CohereEmbedBody(text: string)
    ensures EmbedRequestBody(MA.InvokeEmbedModelRequest("COHERE_EMBED_ENGLISH_V3", Some(text)))
         == Ok(map["texts" := JArr([JStr(text)]), "input_type" := JStr("search_document")])
  {
    MA.EmbedAt(23);
  }

  // ---------------------------------------------------------------------
  // A message-list prompt goes through Bedrock's converse call.
  // ---------------------------------------------------------------------

  /** The models whose message list is cut to its last message. */
  const LastMessageOnly: set<string> := {"AI21_JURASSIC_2_ULTRA", "AI21_JURASSIC_2_MID", "COHERE_COMMAND_LIGHT_TEXT_V14", "COHERE_COMMAND_TEXT_V14"}

  /** The messages sent to converse. */
  function ConverseMessages(name: string, messages: seq<Json>): (r: seq<Json>)
    ensures name in LastMessageOnly && |messages| > 1 ==> r == [messages[|messages| - 1]]
    ensures name !in LastMessageOnly || |messages| <= 1 ==> r == messages
    ensures multiset(r) <= multiset(messages)
  {
    if name in LastMessageOnly && |messages| > 1 then [messages[|messages| - 1]] else messages
  }

  /** The inferenceConfig: each parameter is present exactly when the request's value is truthy. */
  function InferenceConfig(req: MA.InvokeModelRequest): (config: map<string, Json>)
    ensures "maxTokens" in config <==> TruthyInt(req.maxTokens)
    ensures "temperature" in config <==> req.temperature.Some? && req.temperature.value != 0.0
    ensures "topP" in config <==> req.topP.Some? && req.topP.value != 0.0
    ensures "stopSequences" in config <==> req.stopSequences.Some? && req.stopSequences.value != []
    ensures config.Keys <= {"maxTokens", "temperature", "topP", "stopSequences"}
    ensures "maxTokens" in config ==> config["maxTokens"] == JInt(req.maxTokens.value)
    ensures "temperature" in config ==> config["temperature"] == JNum(req.temperature.value)
    ensures "topP" in config ==> config["topP"] == JNum(req.topP.value)
    ensures "stopSequences" in config ==> config["stopSequences"] == MA.StringList(req.stopSequences.value)
  {
    var c0: map<string, Json> := map[];
    var c1 := if TruthyInt(req.maxTokens) then c0["maxTokens" := JInt(req.maxTokens.value)] else c0;
    var c2 := if req.temperature.Some? && req.temperature.value != 0.0 then c1["temperature" := JNum(req.temperature.value)] else c1;
    var c3 := if req.topP.Some? && req.topP.value != 0.0 then c2["topP" := JNum(req.topP.value)] else c2;
    if req.stopSequences.Some? && req.stopSequences.value != [] then c3["stopSequences" := MA.StringList(req.stopSequences.value)] else c3
  }

  /**
   * The additionalModelRequestFields: a truthy top_k goes out as "top_k" for names with
   * ANTHROPIC or MISTRAL in them (MISTRAL_LARGE_V1:0 excepted), as "k" for COHERE names,
   * and not at all otherwise.
   */
  function AdditionalFields(name: string, topK: Option<int>): (r: map<string, Json>)
    ensures |r| <= 1
    ensures !TruthyInt(topK) || name == "MISTRAL_LARGE_V1:0" ==> r == map[]
    ensures TruthyInt(topK) && name != "MISTRAL_LARGE_V1:0" && (Text.Occurs("ANTHROPIC", name) || Text.Occurs("MISTRAL", name))
      ==> r == map["top_k" := JInt(topK.value)]
    ensures TruthyInt(topK) && name != "MISTRAL_LARGE_V1:0" && !Text.Occurs("ANTHROPIC", name) && !Text.Occurs("MISTRAL", name)
      ==> r == (if Text.Occurs("COHERE", name) then map["k" := JInt(topK.value)] else map[])
  {
    if TruthyInt(topK) && name != "MISTRAL_LARGE_V1:0" then
      if Text.Occurs("ANTHROPIC", name) || Text.Occurs("MISTRAL", name) then map["top_k" := JInt(topK.value)]
      else if Text.Occurs("COHERE", name) then map["k" := JInt(topK.value)]
      else map[]
    else map[]
  }

  /** A Meta model never forwards top_k. */
  lemma MetaGetsNoTopK(k: int)
    ensures AdditionalFields("META_LLAMA2_CHAT_13B_V1", Some(k)) == map[]
  {
    Text.OccursMissingChar("META_LLAMA2_CHAT_13B_V1", "ANTHROPIC", 'O');
    Text.OccursMissingChar("META_LLAMA2_CHAT_13B_V1", "MISTRAL", 'S');
    Text.OccursMissingChar("META_LLAMA2_CHAT_13B_V1", "COHERE", 'O');
  }

  /** The arguments of the converse call. */
  datatype ConverseRequest = ConverseRequest(
    modelId: string,
    messages: seq<Json>,
    system: seq<Json>,
    inferenceConfig: map<string, Json>,
    additionalFields: map<string, Json>)

  /** invoke_model with a message-list prompt: the checks, then the converse call's arguments. */
  method ShapeConverse(req: MA.InvokeModelRequest) returns (r: Result<ConverseRequest, HttpError>)
    requires req.prompt.MessageList?
    ensures CheckModel(req.modelName).Err? ==> r == Err(CheckModel(req.modelName).error)
    ensures CheckModel(req.modelName).Ok? ==> r.Ok? && r.value.modelId == CheckModel(req.modelName).value
    ensures r.Ok? ==> r.value.messages == ConverseMessages(req.modelName, req.prompt.messages)
    ensures r.Ok? ==> r.value.additionalFields == AdditionalFields(req.modelName, req.topK)
    ensures r.Ok? ==> r.value.system == if req.systemPrompts.Some? then req.systemPrompts.value else []
    ensures r.Ok? ==> r.value.inferenceConfig == InferenceConfig(req)
  {
    var checked := CheckModel(req.modelName);
    if checked.Err? {
      return Err(checked.error);
    }
    var messages := ConverseMessages(req.modelName, req.prompt.messages);
    var config := InferenceConfig(req);
    var extra := AdditionalFields(req.modelName, req.topK);
    var system := if req.systemPrompts.Some? then req.systemPrompts.value else [];
    r := Ok(ConverseRequest(checked.value, messages, system, config, extra));
  }

  /**
   * The standard output read from a converse response: 500 when "output" or "usage" is
   * missing; the first content part's text when the message has content, otherwise "".
   */
  function ConverseOutput(resp: map<string, Json>): (r: Result<MA.StandardOutput, HttpError>)
    ensures "output" !in resp || "usage" !in resp ==> r == Err(HttpError(500, "Unexpected response from model"))
    ensures r.Ok? ==> r.value.outputText.JStr? && r.value.embedding == JNull
  {
    if "output" !in resp || "usage" !in resp then Err(HttpError(500, "Unexpected response from model"))
    else
      var text :- OutputText(resp["output"]);
      var inTokens :- Field(resp["usage"], "inputTokens");
      var outTokens :- Field(resp["usage"], "outputTokens");
      Ok(MA.StandardOutput(JStr(text), JNull, inTokens, outTokens))
  }

  /** `v[k]` inside the route, where a failure is an unhandled error: 500. */
  function Field(v: Json, k: string): (r: Result<Json, HttpError>)
    ensures r.Ok? <==> v.JObj? && k in v.fields
  {
    if v.JObj? && k in v.fields then Ok(v.fields[k]) else Err(HttpError(500, "Internal Server Error"))
  }

  /** The output text of a converse output: "" unless its message has a non-empty content list. */
  function OutputText(output: Json): (r: Result<string, HttpError>)
    ensures !HasContent(output) ==> r == Ok("")
  {
    if HasContent(output) then
      var first := output.fields["message"].fields["content"].items[0];
      var text :- Field(first, "text");
      if text.JStr? then Ok(text.s) else Err(HttpError(500, "Internal Server Error"))
    else Ok("")
  }

  /** `"message" in output and "content" in output["message"] and len(...) > 0`. */
  predicate HasContent(output: Json)
  {
    output.JObj? && "message" in output.fields && output.fields["message"].JObj?
    && "content" in output.fields["message"].fields
    && output.fields["message"].fields["content"].JArr? && |output.fields["message"].fields["content"].items| > 0
  }

  /** A converse response with an empty content list reads as output text "" with its token counts. */
  lemma EmptyContentReadsEmpty(i: int, o: int)
    ensures ConverseOutput(map[
        "output" := JObj(map["message" := JObj(map["content" := JArr([])])]),
        "usage" := JObj(map["inputTokens" := JInt(i), "outputTokens" := JInt(o)])])
      == Ok(MA.StandardOutput(JStr(""), JNull, JInt(i), JInt(o)))
  {
  }

  // ---------------------------------------------------------------------
  // Asynchronous invocation and its cached result.
  // ---------------------------------------------------------------------

  /** The cached record of an asynchronous invocation. Only a success carries the app id. */
  datatype AsyncRecord =
    | InProgress
    | Success(result: MA.StandardOutput, appId: string)
    | Failed(error: string)

  /** A cache entry and the time (in seconds) at which it expires. */
  datatype Entry = Entry(record: AsyncRecord, expiresAt: int)

  /** Every write sets a one-hour expiry. */
  const Expiry := 3600

  /** The outcome of the Bedrock call: the response body, or the text of the exception it raised. */
  datatype Outcome = Responded(body: Json) | Raised(message: string)

  /** The record an invocation ends with. */
  function FinalRecord(name: string, appId: string, outcome: Outcome): AsyncRecord
    requires name in MA.OutputAdapters
  {
    match outcome
    case Raised(e) => Failed(e)
    case Responded(body) =>
      match MA.OutputAdapter(MA.OutputAdapters[name], body)
      case Ok(out) => Success(out, appId)
      case Err(e) => Failed(e)
  }

  /** The result cache of the asynchronous route, keyed by invocation id. */
  class ResultCache {
    var entries: map<string, Entry>

    constructor ()
      ensures entries == map[]
    {
      entries := map[];
    }

    /** Sets the record of an invocation with a fresh one-hour expiry. */
    method Set(id: string, record: AsyncRecord, now: int)
      modifies this`entries
      ensures entries == old(entries)[id := Entry(record, now + Expiry)]
    {
      entries := entries[id := Entry(record, now + Expiry)];
    }

    /**
     * async_invoke_model: the record is set IN_PROGRESS at `started`, then, at `finished`,
     * to SUCCESS with the adapted output and the app id, or to FAILED with the error.
     */
    method Invoke(id: string, name: string, appId: string, outcome: Outcome, started: int, finished: int)
      requires name in MA.OutputAdapters
      modifies this`entries
      ensures entries == old(entries)[id := Entry(FinalRecord(name, appId, outcome), finished + Expiry)]
    {
      Set(id, InProgress, started);
      var record: AsyncRecord;
      match outcome {
        case Raised(e) =>
          record := Failed(e);
        case Responded(body) =>
          var adapted := MA.OutputAdapter(MA.OutputAdapters[name], body);
          record := if adapted.Ok? then Success(adapted.value, appId) else Failed(adapted.error);
      }
      Set(id, record, finished);
    }

    /** get_async_output on the current cache. */
    function Output(id: string, appId: string, now: int): Result<MA.StandardOutput, HttpError>
      reads this
    {
      AsyncOutput(entries, id, appId, now)
    }
  }

  const NotFound := "Invocation ID not found or result expired"

  /**
   * get_async_output: a missing or expired id is 404. Every HTTP error raised inside the
   * route's try block becomes 500: another app's result, and a record without an app id
   * (in progress or failed). Only the owner's success is returned.
   */
  function AsyncOutput(entries: map<string, Entry>, id: string, appId: string, now: int): (r: Result<MA.StandardOutput, HttpError>)
    ensures id !in entries || now >= entries[id].expiresAt ==> r == Err(HttpError(404, NotFound))
    ensures r.Ok? <==> (id in entries && now < entries[id].expiresAt && entries[id].record.Success?
                         && entries[id].record.appId != "" && entries[id].record.appId == appId)
    ensures r.Ok? ==> r.value == entries[id].record.result
  {
    if id !in entries || now >= entries[id].expiresAt then Err(HttpError(404, NotFound))
    else
      match entries[id].record
      case Success(result, owner) =>
        if owner == "" then Err(HttpError(500, "Error retrieving result: 404: " + NotFound))
        else if owner != appId then Err(HttpError(500, "Error retrieving result: 401: Unauthorized access to result"))
        else Ok(result)
      case _ => Err(HttpError(500, "Error retrieving result: 404: " + NotFound))
  }

  /**
   * After an invocation finishes, within the hour: the owner reads the adapted output,
   * another app gets 500, a failed invocation gives 500; after the hour, 404.
   */
  lemma AsyncOutcomes(entries: map<string, Entry>, id: string, name: string, owner: string, other: string, outcome: Outcome, finished: int, now: int)
    requires name in MA.OutputAdapters && owner != "" && other != owner
    ensures var after := entries[id := Entry(FinalRecord(name, owner, outcome), finished + Expiry)];
      && (now < finished + Expiry && outcome.Responded? && MA.OutputAdapter(MA.OutputAdapters[name], outcome.body).Ok? ==>
            AsyncOutput(after, id, owner, now) == Ok(MA.OutputAdapter(MA.OutputAdapters[name], outcome.body).value)
            && AsyncOutput(after, id, other, now) == Err(HttpError(500, "Error retrieving result: 401: Unauthorized access to result")))
      && (now < finished + Expiry && outcome.Raised? ==>
            AsyncOutput(after, id, owner, now) == Err(HttpError(500, "Error retrieving result: 404: " + NotFound)))
      && (now >= finished + Expiry ==> AsyncOutput(after, id, owner, now) == Err(HttpError(404, NotFound)))
  {
  }

  /** While the invocation is in progress, even its owner gets 500. */
  lemma InProgressIs500(entries: map<string, Entry>, id: string, appId: string, started: int, now: int)
    requires now < started + Expiry
    ensures AsyncOutput(entries[id := Entry(InProgress, started + Expiry)], id, appId, now)
         == Err(HttpError(500, "Error retrieving result: 404: " + NotFound))
  {
  }
}
