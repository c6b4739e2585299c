/**
 * The document-summarization sample's client SDK: a Cognito token manager,
 * the base service that prefixes every endpoint with the platform URL and
 * refreshes the bearer header before each request, the document service's
 * filename rules and folder upload, and the request bodies with optional
 * fields. HTTP calls and the file system are parameters.
 */
module Sdk {
  import Text
  import opened Wrappers
  import opened JsonData
  import CT = CognitoTokens
  import EW = ExtractionWorker
  import DP = DocumentProcessing
  import DM = DocumentModels

  // ---------------------------------------------------------------------
  // CognitoTokenManager
  // ---------------------------------------------------------------------

  /** The SDK's token manager, configured from the environment. */
  class TokenManager {
    var clientId: string
    var clientSecret: string
    var userPoolId: string
    var region: string
    var domain: string
    var token: Option<string>
    var expiry: int

    /** The cached token and expiry. */
    function Cached(): CT.Cache
      reads this
    {
      CT.Cache(token, expiry)
    }

    /** The environment values are stored as read; there is no token yet. */
    constructor(clientId: string, clientSecret: string, userPoolId: string, region: string, domain: string)
      ensures this.clientId == clientId && this.clientSecret == clientSecret
      ensures this.userPoolId == userPoolId && this.region == region && this.domain == domain
      ensures Cached() == CT.Fresh
    {
      this.clientId := clientId;
      this.clientSecret := clientSecret;
      this.userPoolId := userPoolId;
      this.region := region;
      this.domain := domain;
      this.token := None;
      this.expiry := 0;
    }

    /** _fetch_token_with_secret: on 200 set the expiry and return the token, otherwise raise. */
    method FetchTokenWithSecret(post: CT.TokenRequest -> CT.TokenAnswer, answeredAt: int) returns (r: Result<string, string>)
      modifies this
      ensures var x := CT.Exchange(post(CT.Request(clientId, clientSecret, domain)), answeredAt);
        (x.Ok? ==> r == Ok(x.value.0) && expiry == x.value.1) &&
        (x.Err? ==> r == Err(x.error) && expiry == old(expiry))
      ensures token == old(token) && clientId == old(clientId) && clientSecret == old(clientSecret)
      ensures userPoolId == old(userPoolId) && region == old(region) && domain == old(domain)
    {
      var x := CT.Exchange(post(CT.Request(clientId, clientSecret, domain)), answeredAt);
      if x.Ok? {
        expiry := x.value.1;
        r := Ok(x.value.0);
      } else {
        r := Err(x.error);
      }
    }

    /** get_token: the cached token while valid, otherwise a fetch whose token is cached. */
    method GetToken(now: int, post: CT.TokenRequest -> CT.TokenAnswer, answeredAt: int) returns (r: Result<string, string>)
      modifies this
      ensures (r, Cached()) == CT.Refreshed(old(Cached()), now, CT.Exchange(post(CT.Request(clientId, clientSecret, domain)), answeredAt))
      ensures clientId == old(clientId) && clientSecret == old(clientSecret)
      ensures userPoolId == old(userPoolId) && region == old(region) && domain == old(domain)
    {
      if token.None? || now >= expiry {
        r := FetchTokenWithSecret(post, answeredAt);
        if r.Ok? {
          token := Some(r.value);
        }
      } else {
        r := Ok(token.value);
      }
    }
  }

  // ---------------------------------------------------------------------
  // BaseService
  // ---------------------------------------------------------------------

  /**
   * The base URL of a service from PLATFORM_API_URL: one trailing '/' removed. An unset
   * variable fails with a TypeError and an empty one with an IndexError.
   */
  function TrimBaseUrl(platformApiUrl: Option<string>): (r: Result<string, string>)
    ensures platformApiUrl.None? || platformApiUrl.value == [] <==> r.Err?
    ensures r.Ok? && platformApiUrl.value[|platformApiUrl.value| - 1] == '/' ==> platformApiUrl.value == r.value + "/"
    ensures r.Ok? && platformApiUrl.value[|platformApiUrl.value| - 1] != '/' ==> r.value == platformApiUrl.value
  {
    match platformApiUrl
    case None => Err("TypeError: 'NoneType' object is not subscriptable")
    case Some(u) =>
      if u == [] then Err("IndexError: string index out of range")
      else if u[|u| - 1] == '/' then Ok(u[..|u| - 1])
      else Ok(u)
  }

  /** Only one slash is removed: a URL ending in "//" keeps one, so endpoints get a double slash. */
  lemma OneSlashRemoved(u: string)
    ensures TrimBaseUrl(Some(u + "//")) == Ok(u + "/")
    ensures TrimBaseUrl(Some(u + "/")) == Ok(u)
  {
    assert (u + "//")[..|u + "//"| - 1] == u + "/";
    assert (u + "/")[..|u + "/"| - 1] == u;
  }

  /** The service headers: Content-Type and, once a request was made, Authorization. */
  datatype Headers = Headers(contentType: string, authorization: Option<string>)

  /** One HTTP request as sent. */
  datatype Call = Call(verb: string, url: string, headers: Headers, body: Option<Json>)

  /** The platform's reply: the request raised, or a status and the JSON parse of the body. */
  datatype Reply = Raised(reason: string) | Replied(status: int, body: Result<Json, string>)

  /** _request's result: raise_for_status raises for 400 to 599, otherwise the parsed body. */
  function ReplyResult(reply: Reply): (r: Result<Json, string>)
    ensures r.Ok? <==> reply.Replied? && !(400 <= reply.status < 600) && reply.body.Ok?
    ensures r.Ok? ==> r.value == reply.body.value
  {
    match reply
    case Raised(reason) => Err(reason)
    case Replied(status, body) =>
      if 400 <= status < 600 then Err("HTTPError " + Text.IntText(status)) else body
  }

  /** A platform service client; every service of the SDK is one of these. */
  class BaseService {
    var baseUrl: string
    var tokens: TokenManager
    var headers: Headers

    /** The service with an already trimmed base URL and only the Content-Type header. */
    constructor(tokens: TokenManager, baseUrl: string)
      ensures this.tokens == tokens && this.baseUrl == baseUrl
      ensures headers == Headers("application/json", None)
    {
      this.baseUrl := baseUrl;
      this.tokens := tokens;
      this.headers := Headers("application/json", None);
    }

    /**
     * _update_token then the request: the token manager's answer becomes the Bearer header,
     * and the request goes to base URL + endpoint with those headers. A token failure raises
     * before anything is sent.
     */
    method Request(verb: string, endpoint: string, body: Option<Json>,
                   now: int, post: CT.TokenRequest -> CT.TokenAnswer, answeredAt: int, send: Call -> Reply)
      returns (r: Result<Json, string>, sent: Option<Call>)
      modifies this, tokens
      ensures tokens == old(tokens) && baseUrl == old(baseUrl)
      ensures var t := CT.Refreshed(old(tokens.Cached()), now,
                        CT.Exchange(post(CT.Request(old(tokens.clientId), old(tokens.clientSecret), old(tokens.domain))), answeredAt));
        tokens.Cached() == t.1 &&
        (t.0.Err? ==> r == Err(t.0.error) && sent == None && headers == old(headers)) &&
        (t.0.Ok? ==> headers == old(headers).(authorization := Some("Bearer " + t.0.value)) &&
                     sent == Some(Call(verb, baseUrl + endpoint, headers, body)) &&
                     r == ReplyResult(send(sent.value)))
    {
      var token := tokens.GetToken(now, post, answeredAt);
      if token.Err? {
        return Err(token.error), None;
      }
      headers := headers.(authorization := Some("Bearer " + token.value));
      var call := Call(verb, baseUrl + endpoint, headers, body);
      sent := Some(call);
      r := ReplyResult(send(call));
    }
  }

  /** BaseService.__init__: fails when PLATFORM_API_URL is unset or empty. */
  method NewBaseService(tokens: TokenManager, platformApiUrl: Option<string>) returns (r: Result<BaseService, string>)
    ensures r.Err? <==> TrimBaseUrl(platformApiUrl).Err?
    ensures r.Ok? ==> fresh(r.value) && r.value.tokens == tokens && r.value.baseUrl == TrimBaseUrl(platformApiUrl).value
    ensures r.Ok? ==> r.value.headers == Headers("application/json", None)
  {
    var trimmed := TrimBaseUrl(platformApiUrl);
    if trimmed.Err? {
      return Err(trimmed.error);
    }
    var service := new BaseService(tokens, trimmed.value);
    r := Ok(service);
  }

  /** HealthService.check_health's endpoint. */
  function HealthEndpoint(service: string): (r: string)
    ensures r == "/" + service + "/service/health"
  {
    "/" + service + "/service/health"
  }

  // ---------------------------------------------------------------------
  // Request bodies
  // ---------------------------------------------------------------------

  /** invoke_model's body: model_name and prompt, then the keyword arguments, which win on a clash. */
  function InvokeModelBody(modelName: string, prompt: string, kwargs: map<string, Json>): (r: Json)
    ensures r.JObj? && r.fields.Keys == {"model_name", "prompt"} + kwargs.Keys
    ensures forall k :: k in kwargs ==> r.fields[k] == kwargs[k]
    ensures "model_name" !in kwargs ==> r.fields["model_name"] == JStr(modelName)
    ensures "prompt" !in kwargs ==> r.fields["prompt"] == JStr(prompt)
  {
    JObj(map["model_name" := JStr(modelName), "prompt" := JStr(prompt)] + kwargs)
  }

  /** Adds key := value to an object's fields when the value is not None. */
  function WithOptional(fields: map<string, Json>, key: string, value: Option<Json>): (r: map<string, Json>)
    ensures value.None? ==> r == fields
    ensures value.Some? ==> r == fields[key := value.value]
    ensures fields.Keys <= r.Keys && r.Keys <= fields.Keys + {key}
    ensures forall k :: k in fields && k != key ==> r[k] == fields[k]
  {
    if value.Some? then fields[key := value.value] else fields
  }

  /** create_chunking_job's body: chunking_params only when given. */
  function ChunkingJobBody(extractionJobId: string, chunkingStrategy: string, chunkingParams: Option<Json>): (r: Json)
    ensures r.JObj? && "extraction_job_id" in r.fields && "chunking_strategy" in r.fields
    ensures r.fields["extraction_job_id"] == JStr(extractionJobId) && r.fields["chunking_strategy"] == JStr(chunkingStrategy)
    ensures "chunking_params" in r.fields <==> chunkingParams.Some?
    ensures chunkingParams.Some? ==> r.fields["chunking_params"] == chunkingParams.value
    ensures |r.fields| == if chunkingParams.Some? then 3 else 2
  {
    var fields := map["extraction_job_id" := JStr(extractionJobId), "chunking_strategy" := JStr(chunkingStrategy)];
    assert "extraction_job_id" in fields && "chunking_strategy" in fields;
    JObj(WithOptional(fields, "chunking_params", chunkingParams))
  }

  /** create_vector_store's body: description and tags only when given. */
  function VectorStoreBody(storeName: string, storeType: string, description: Option<Json>, tags: Option<Json>): (r: Json)
    ensures r.JObj? && "store_name" in r.fields && "store_type" in r.fields
    ensures r.fields["store_name"] == JStr(storeName) && r.fields["store_type"] == JStr(storeType)
    ensures "description" in r.fields <==> description.Some?
    ensures "tags" in r.fields <==> tags.Some?
    ensures description.Some? ==> r.fields["description"] == description.value
    ensures tags.Some? ==> r.fields["tags"] == tags.value
  {
    var fields := map["store_name" := JStr(storeName), "store_type" := JStr(storeType)];
    assert "store_name" in fields && "store_type" in fields;
    JObj(WithOptional(WithOptional(fields, "description", description), "tags", tags))
  }

  // ---------------------------------------------------------------------
  // DocumentService: file names
  // ---------------------------------------------------------------------

  /** The extensions the SDK uploads. */
  const SdkFileTypes: set<string> := {"pdf", "jpg", "jpeg", "png", "tiff", "txt", "md", "html"}

  /** The characters sanitize_filename keeps: [a-zA-Z0-9_.-]. */
  predicate SafeChar(c: char)
  {
    'a' <= c <= 'z' || 'A' <= c <= 'Z' || '0' <= c <= '9' || c == '_' || c == '.' || c == '-'
  }

  /** sanitize_filename: every other character becomes '_'. */
  function SanitizeFilename(name: string): (r: string)
    ensures |r| == |name|
    ensures forall i :: 0 <= i < |name| ==> r[i] == if SafeChar(name[i]) then name[i] else '_'
  {
    if name == [] then [] else [if SafeChar(name[0]) then name[0] else '_'] + SanitizeFilename(name[1..])
  }

  /** A sanitized name holds only safe characters, and sanitizing it again changes nothing. */
  lemma SanitizeIdempotent(name: string)
    ensures forall i :: 0 <= i < |name| ==> SafeChar(SanitizeFilename(name)[i])
    ensures SanitizeFilename(SanitizeFilename(name)) == SanitizeFilename(name)
  {
  }

  /** No character the server refuses in a file name is safe. */
  lemma AvoidCharsUnsafe()
    ensures forall c :: c in DM.AvoidChars ==> !SafeChar(c)
  {
    forall c | c in DM.AvoidChars ensures !SafeChar(c) {
      var i :| 0 <= i < |DM.AvoidChars| && DM.AvoidChars[i] == c;
    }
  }

  /** is_allowed_file_type: the lower-cased last '.'-segment is one of the SDK's types. */
  predicate IsAllowedFileType(name: string)
  {
    EW.FileTypeOf(name) in SdkFileTypes
  }

  /** Every type the SDK uploads is one the server's register_file admits. */
  lemma SdkTypesAdmitted()
    ensures SdkFileTypes <= DP.AllowedFileTypes
  {
  }

  /** Every SDK type is made of lower-case ASCII letters. */
  lemma SdkTypesLowerLetters(e: string)
    requires e in SdkFileTypes
    ensures forall i :: 0 <= i < |e| ==> 'a' <= e[i] <= 'z'
  {
  }

  /** A text whose lower-casing is made of lower-case letters is made of letters, so sanitizing keeps it. */
  lemma LettersSanitizeToThemselves(ext: string)
    requires forall i :: 0 <= i < |ext| ==> 'a' <= Text.Lower(ext)[i] <= 'z'
    ensures SanitizeFilename(ext) == ext
  {
    forall i | 0 <= i < |ext| ensures SafeChar(ext[i]) {
      assert Text.Lower(ext)[i] == Text.LowerChar(ext[i]);
    }
  }

  /** Sanitizing commutes with taking the last '.'-segment, since '.' is kept and nothing becomes '.'. */
  lemma SanitizeLastSegment(name: string)
    ensures Text.LastSegment(SanitizeFilename(name), '.') == SanitizeFilename(Text.LastSegment(name, '.'))
  {
    var r := Text.LastSegment(name, '.');
    Text.LastSegmentShape(name, '.');
    var s := SanitizeFilename(name);
    var sr := SanitizeFilename(r);
    assert '.' !in sr by {
      forall i | 0 <= i < |sr| ensures sr[i] != '.' {
        assert r[i] != '.';
      }
    }
    if '.' in name {
      var x := name[..|name| - |r| - 1];
      assert name == x + ['.'] + r;
      var sx := SanitizeFilename(x);
      assert s == sx + ['.'] + sr by {
        forall i | 0 <= i < |s| ensures s[i] == (sx + ['.'] + sr)[i] {
          if i < |x| {
            assert name[i] == x[i];
          } else if i > |x| {
            assert name[i] == r[i - |x| - 1];
          }
        }
      }
      Text.LastSegmentConcat(sx, sr, '.');
    } else {
      assert '.' !in s by {
        forall i | 0 <= i < |s| ensures s[i] != '.' {
          assert name[i] != '.';
        }
      }
      Text.LastSegmentNoSep(s, '.');
    }
  }

  /**
   * A file the SDK accepts, once sanitized, passes every file-name check of the server's
   * register_file: it is non-empty, keeps an admitted type and holds no refused character.
   */
  lemma SanitizedNameRegisters(name: string)
    requires IsAllowedFileType(name)
    ensures DP.CheckFileName(SanitizeFilename(name)).None?
  {
    var s := SanitizeFilename(name);
    var ext := Text.LastSegment(name, '.');
    SanitizeLastSegment(name);
    SdkTypesLowerLetters(Text.Lower(ext));
    LettersSanitizeToThemselves(ext);
    assert EW.FileTypeOf(s) == EW.FileTypeOf(name);
    SdkTypesAdmitted();
    Text.LastSegmentShape(name, '.');
    assert s != "";
    SanitizeIdempotent(name);
    AvoidCharsUnsafe();
    assert forall c :: c in DM.AvoidChars ==> c !in s;
    DP.FileNameAccepted(s);
  }

  // ---------------------------------------------------------------------
  // DocumentService.initiate_extraction_from_folder
  // ---------------------------------------------------------------------

  /** A directory entry: its name and whether it is a regular file. */
  datatype DirEntry = DirEntry(name: string, isFile: bool)

  /** The platform calls the folder upload makes, in order. */
  datatype Step =
    | Register(jobId: string, fileName: string)
    | Upload(url: string, fileName: string)
    | Start(jobId: string)

  /** The entries the folder upload registers: regular files of an allowed type. */
  predicate Eligible(e: DirEntry)
  {
    e.isFile && IsAllowedFileType(e.name)
  }

  /**
   * The register-and-upload loop over the entries so far: the steps made and the error that
   * stopped it, if any. A failed registration, an upload that raises (an Err answer) or one
   * not answered 200 stops the loop.
   */
  function Uploads(entries: seq<DirEntry>, jobId: string, register: (string, string) -> Result<string, string>,
                   upload: (string, string) -> Result<int, string>): (r: (seq<Step>, Option<string>))
    ensures |r.0| <= 2 * |entries|
    ensures forall i :: 0 <= i < |r.0| ==> !r.0[i].Start?
    ensures r.1.Some? ==> r.0 != []
  {
    if entries == [] then ([], None)
    else
      var prior := Uploads(entries[..|entries| - 1], jobId, register, upload);
      var e := entries[|entries| - 1];
      if prior.1.Some? || !Eligible(e) then prior
      else
        var safe := SanitizeFilename(e.name);
        match register(jobId, safe)
        case Err(m) => (prior.0 + [Register(jobId, safe)], Some(m))
        case Ok(url) =>
          var steps := prior.0 + [Register(jobId, safe), Upload(url, safe)];
          match upload(url, safe)
          case Err(m) => (steps, Some(m))
          case Ok(status) =>
            if status != 200 then (steps, Some("Failed to upload " + safe + " to " + url))
            else (steps, None)
  }

  /** The sanitized names of the eligible entries, in order. */
  function EligibleNames(entries: seq<DirEntry>): seq<string>
  {
    if entries == [] then []
    else
      var last := entries[|entries| - 1];
      EligibleNames(entries[..|entries| - 1]) + if Eligible(last) then [SanitizeFilename(last.name)] else []
  }

  /** The file names registered by a sequence of steps, in order. */
  function RegisteredNames(steps: seq<Step>): seq<string>
  {
    if steps == [] then []
    else RegisteredNames(steps[..|steps| - 1]) + (if steps[|steps| - 1].Register? then [steps[|steps| - 1].fileName] else [])
  }

  lemma RegisteredNamesAppend(a: seq<Step>, b: seq<Step>)
    ensures RegisteredNames(a + b) == RegisteredNames(a) + RegisteredNames(b)
    decreases |b|
  {
    if b != [] {
      assert (a + b)[..|a + b| - 1] == a + b[..|b| - 1];
      RegisteredNamesAppend(a, b[..|b| - 1]);
    } else {
      assert a + b == a;
    }
  }

  /**
   * When the loop finishes without error it has registered exactly the sanitized eligible
   * names, in order, and every upload it made was answered 200; its steps never start the job.
   */
  lemma {:induction false} UploadsFacts(entries: seq<DirEntry>, jobId: string, register: (string, string) -> Result<string, string>,
                                        upload: (string, string) -> Result<int, string>)
    ensures var r := Uploads(entries, jobId, register, upload);
      (r.1.None? ==> RegisteredNames(r.0) == EligibleNames(entries)) &&
      (r.1.None? ==> forall i :: 0 <= i < |r.0| && r.0[i].Upload? ==> upload(r.0[i].url, r.0[i].fileName) == Ok(200)) &&
      (forall i :: 0 <= i < |r.0| ==> !r.0[i].Start?)
  {
    if entries != [] {
      var prior := Uploads(entries[..|entries| - 1], jobId, register, upload);
      UploadsFacts(entries[..|entries| - 1], jobId, register, upload);
      UploadsLast(entries, jobId, register, upload);
      var e := entries[|entries| - 1];
      if prior.1.None? && Eligible(e) {
        var safe := SanitizeFilename(e.name);
        var reg := register(jobId, safe);
        if reg.Ok? && upload(reg.value, safe) == Ok(200) {
          var added := [Register(jobId, safe), Upload(reg.value, safe)];
          RegisteredNamesAppend(prior.0, added);
          assert added[..1] == [Register(jobId, safe)];
          assert added[..1][..0] == [];
          assert RegisteredNames(added[..1]) == [safe];
          assert RegisteredNames(added) == [safe];
        }
      }
    }
  }

  /** The last entry either adds its register and 200-answered upload steps, or adds no step and no error. */
  lemma UploadsLast(entries: seq<DirEntry>, jobId: string, register: (string, string) -> Result<string, string>,
                    upload: (string, string) -> Result<int, string>)
    requires entries != []
    ensures var prior := Uploads(entries[..|entries| - 1], jobId, register, upload);
      var r := Uploads(entries, jobId, register, upload);
      var e := entries[|entries| - 1];
      var safe := SanitizeFilename(e.name);
      r.1.None? ==>
        (prior.1.None? && Eligible(e) && register(jobId, safe).Ok? && upload(register(jobId, safe).value, safe) == Ok(200) &&
         r.0 == prior.0 + [Register(jobId, safe), Upload(register(jobId, safe).value, safe)]) ||
        r == prior
  {
  }

  /** Once the loop has stopped on an error, the later entries change nothing. */
  lemma UploadsStops(entries: seq<DirEntry>, k: nat, jobId: string, register: (string, string) -> Result<string, string>,
                     upload: (string, string) -> Result<int, string>)
    requires k <= |entries| && Uploads(entries[..k], jobId, register, upload).1.Some?
    ensures Uploads(entries, jobId, register, upload) == Uploads(entries[..k], jobId, register, upload)
    decreases |entries| - k
  {
    if k < |entries| {
      assert entries[..k + 1][..k] == entries[..k];
      UploadsStops(entries, k + 1, jobId, register, upload);
    } else {
      assert entries[..k] == entries;
    }
  }

  /**
   * initiate_extraction_from_folder as a function of the platform's answers: the job id, or
   * the error raised, and the steps made. The job is started only after the loop ends without error.
   */
  function FolderRun(isDir: bool, folder: string, entries: seq<DirEntry>, createJob: Result<string, string>,
                     register: (string, string) -> Result<string, string>, upload: (string, string) -> Result<int, string>,
                     start: string -> Result<Json, string>): (r: (Result<string, string>, seq<Step>))
    ensures !isDir || createJob.Err? ==> r.1 == [] && r.0.Err?
    ensures r.0.Ok? ==> createJob == Ok(r.0.value) && r.1 != [] && r.1[|r.1| - 1] == Start(r.0.value)
  {
    if !isDir then (Err("The provided path '" + folder + "' is not a valid directory."), [])
    else if createJob.Err? then (Err(createJob.error), [])
    else
      var jobId := createJob.value;
      var loop := Uploads(entries, jobId, register, upload);
      if loop.1.Some? then (Err(loop.1.value), loop.0)
      else
        var steps := loop.0 + [Start(jobId)];
        match start(jobId)
        case Err(m) => (Err(m), steps)
        case Ok(_) => (Ok(jobId), steps)
  }

  /**
   * The job is started at most once, as the last step, and only when every eligible file was
   * registered under its sanitized name and every upload was answered 200. A returned job id
   * means the job was started.
   */
  lemma StartOnlyAfterUploads(isDir: bool, folder: string, entries: seq<DirEntry>, createJob: Result<string, string>,
                              register: (string, string) -> Result<string, string>, upload: (string, string) -> Result<int, string>,
                              start: string -> Result<Json, string>)
    ensures var r := FolderRun(isDir, folder, entries, createJob, register, upload, start);
      (forall i :: 0 <= i < |r.1| - 1 ==> !r.1[i].Start?) &&
      (r.0.Ok? ==> |r.1| > 0 && r.1[|r.1| - 1] == Start(r.0.value)) &&
      (|r.1| > 0 && r.1[|r.1| - 1].Start? ==>
        RegisteredNames(r.1) == EligibleNames(entries) &&
        forall i :: 0 <= i < |r.1| && r.1[i].Upload? ==> upload(r.1[i].url, r.1[i].fileName) == Ok(200))
  {
    if isDir && createJob.Ok? {
      var jobId := createJob.value;
      var loop := Uploads(entries, jobId, register, upload);
      UploadsFacts(entries, jobId, register, upload);
      if loop.1.None? {
        StartAppended(loop.0, jobId, EligibleNames(entries), upload);
      }
    }
  }

  /** Appending the start to an upload run that started nothing keeps its names and answers. */
  lemma StartAppended(steps: seq<Step>, jobId: string, names: seq<string>, upload: (string, string) -> Result<int, string>)
    requires RegisteredNames(steps) == names
    requires forall i :: 0 <= i < |steps| && steps[i].Upload? ==> upload(steps[i].url, steps[i].fileName) == Ok(200)
    requires forall i :: 0 <= i < |steps| ==> !steps[i].Start?
    ensures var all := steps + [Start(jobId)];
      (forall i :: 0 <= i < |all| - 1 ==> !all[i].Start?) && all[|all| - 1] == Start(jobId) &&
      RegisteredNames(all) == names &&
      forall i :: 0 <= i < |all| && all[i].Upload? ==> upload(all[i].url, all[i].fileName) == Ok(200)
  {
    var all := steps + [Start(jobId)];
    assert all[..|all| - 1] == steps;
  }

  /** DocumentService.initiate_extraction_from_folder: the loop over the folder's entries. */
  method InitiateExtractionFromFolder(isDir: bool, folder: string, entries: seq<DirEntry>, createJob: Result<string, string>,
                                      register: (string, string) -> Result<string, string>, upload: (string, string) -> Result<int, string>,
                                      start: string -> Result<Json, string>)
    returns (r: Result<string, string>, steps: seq<Step>)
    ensures (r, steps) == FolderRun(isDir, folder, entries, createJob, register, upload, start)
  {
    if !isDir {
      return Err("The provided path '" + folder + "' is not a valid directory."), [];
    }
    if createJob.Err? {
      return Err(createJob.error), [];
    }
    var jobId := createJob.value;
    steps := [];
    for i := 0 to |entries|
      invariant Uploads(entries[..i], jobId, register, upload) == (steps, None)
    {
      assert entries[..i + 1][..i] == entries[..i];
      var e := entries[i];
      if e.isFile && IsAllowedFileType(e.name) {
        var safe := SanitizeFilename(e.name);
        var before := steps;
        steps := steps + [Register(jobId, safe)];
        var reg := register(jobId, safe);
        if reg.Err? {
          UploadsStops(entries, i + 1, jobId, register, upload);
          return Err(reg.error), steps;
        }
        var url := reg.value;
        steps := steps + [Upload(url, safe)];
        assert steps == before + [Register(jobId, safe), Upload(url, safe)];
        var answer := upload(url, safe);
        if answer.Err? {
          UploadsStops(entries, i + 1, jobId, register, upload);
          return Err(answer.error), steps;
        }
        if answer.value != 200 {
          UploadsStops(entries, i + 1, jobId, register, upload);
          return Err("Failed to upload " + safe + " to " + url), steps;
        }
      }
    }
    assert entries[..|entries|] == entries;
    steps := steps + [Start(jobId)];
    var started := start(jobId);
    if started.Err? {
      return Err(started.error), steps;
    }
    r := Ok(jobId);
  }
}
