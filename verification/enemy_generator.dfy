/** `generate_enemy`: send the prompt to the text-generation backend, extract
    the JSON object from its reply and return it, or return a canned enemy if
    anything on the way raises. The backend and `json.loads` are parameters. */
module EnemyGenerator {
  import opened Wrappers
  import opened JsonValues
  import opened JsonExtract
  import opened EnemyPrompt

  /** The backend model every request names. */
  const ModelName: string := "qwen2.5:3b"

  /** The body posted to the backend. */
  datatype Payload = Payload(model: string, prompt: Prompt, stream: bool)

  /** What the POST and the decoding of its body produce: `requests.post`
      raised, `response.json()` raised, or the decoded body. The HTTP status
      is not consulted by the generator, so it is not part of the outcome. */
  datatype Transport =
    | PostFailed(message: string)
    | DecodeFailed(message: string)
    | Decoded(body: Json)

  /** The exceptions the `try` block can raise. */
  datatype Exception =
    | RequestError(message: string)   // raised by requests.post
    | DecodeError(message: string)    // raised by response.json()
    | AttributeError(typeName: string) // `.get` on a body that is not a dict
    | TypeError(typeName: string)      // re.search on a "response" that is not a str
    | ParseError(message: string)     // raised by json.loads

  /** `str(e)` for each exception. */
  function Describe(e: Exception): string
  {
    match e
    case RequestError(m) => m
    case DecodeError(m) => m
    case AttributeError(t) => "'" + t + "' object has no attribute 'get'"
    case TypeError(t) => "expected string or bytes-like object, got '" + t + "'"
    case ParseError(m) => m
  }

  /** `json.loads`: a parse error message, or the decoded object. Its input
      always starts with `{` and ends with `}`, so a success is an object. */
  type Parser = string -> Result<map<string, Json>, string>

  /** The backend: one POST with a payload. */
  type Backend = Payload -> Transport

  /** The payload `generate_enemy` posts for a request. */
  function EnemyPayload(req: EnemyRequest): Payload
  {
    Payload(ModelName, BuildPrompt(req), false)
  }

  /** `response_json.get("response", "")`: the "response" member, the empty
      string when the member is missing, or AttributeError when the body is
      not an object. */
  function ResponseMember(body: Json): (r: Result<Json, Exception>)
    ensures r.Failure? <==> !body.JObject?
    ensures body.JObject? && "response" !in body.fields ==> r == Success(JStr(""))
    ensures body.JObject? && "response" in body.fields ==> r == Success(body.fields["response"])
  {
    match body
    case JObject(fields) => if "response" in fields then Success(fields["response"]) else Success(JStr(""))
    case _ => Failure(AttributeError(TypeName(body)))
  }

  /** `clean_json(raw_text)`, which raises TypeError unless the value is a string. */
  function CleanResponse(raw: Json): (r: Result<string, Exception>)
    ensures r.Failure? <==> !raw.JStr?
    ensures r.Success? ==> IsBraced(r.value)
    ensures raw.JStr? ==> r == Success(CleanJson(raw.s))
    ensures !raw.JStr? ==> r == Failure(TypeError(TypeName(raw)))
  {
    match raw
    case JStr(text) => Success(CleanJson(text))
    case _ => Failure(TypeError(TypeName(raw)))
  }

  /** The reply text `clean_json` receives as a string, when the body is an
      object whose "response" member is a string or is missing. */
  function ReplyText(t: Transport): (r: Option<string>)
    ensures r.Some? <==> (t.Decoded? && t.body.JObject? &&
                          ("response" in t.body.fields ==> t.body.fields["response"].JStr?))
    ensures t.Decoded? && t.body.JObject? && "response" !in t.body.fields ==> r == Some("")
    ensures t.Decoded? && t.body.JObject? && "response" in t.body.fields && t.body.fields["response"].JStr? ==>
      r == Some(t.body.fields["response"].s)
  {
    if t.Decoded? && ResponseMember(t.body).Success? && ResponseMember(t.body).value.JStr?
    then Some(ResponseMember(t.body).value.s)
    else None
  }

  /** `data` is what `json.loads` makes of the `clean_json` span of this reply. */
  ghost predicate ReplyParsedAs(t: Transport, parse: Parser, data: map<string, Json>)
  {
    ReplyText(t).Some? && parse(CleanJson(ReplyText(t).value)) == Success(data)
  }

  /** The body of the `try` block: the parsed object, or the exception raised. */
  function TryGenerate(t: Transport, parse: Parser): (r: Result<map<string, Json>, Exception>)
    ensures t.PostFailed? ==> r == Failure(RequestError(t.message))
    ensures t.DecodeFailed? ==> r == Failure(DecodeError(t.message))
    ensures r.Success? ==> ReplyParsedAs(t, parse, r.value)
    ensures ReplyText(t).Some? && parse(CleanJson(ReplyText(t).value)).Failure? ==>
      r == Failure(ParseError(parse(CleanJson(ReplyText(t).value)).error))
    ensures ReplyText(t).Some? && parse(CleanJson(ReplyText(t).value)).Success? ==>
      r == Success(parse(CleanJson(ReplyText(t).value)).value)
    ensures t.Decoded? && !t.body.JObject? ==> r == Failure(AttributeError(TypeName(t.body)))
    ensures t.Decoded? && t.body.JObject? && ReplyText(t).None? ==>
      r == Failure(TypeError(TypeName(t.body.fields["response"])))
  {
    match t
    case PostFailed(m) => Failure(RequestError(m))
    case DecodeFailed(m) => Failure(DecodeError(m))
    case Decoded(body) =>
      var raw :- ResponseMember(body);
      var span :- CleanResponse(raw);
      match parse(span)
      case Failure(m) => Failure(ParseError(m))
      case Success(data) => Success(data)
  }

  /** The canned enemy returned when anything raised. */
  function FallbackRecord(e: Exception): map<string, Json>
  {
    map[
      "error" := JStr(Describe(e)),
      "name" := JStr("Glitch Ghost"),
      "health" := JInt(50),
      "attack_power" := JInt(5),
      "xp_reward" := JInt(10)]
  }

  /** `r` is the canned enemy for some exception. */
  ghost predicate IsFallbackRecord(r: map<string, Json>)
  {
    exists e :: r == FallbackRecord(e)
  }

  /** `generate_enemy`: it never raises, and what it returns is either the
      canned enemy or an object `json.loads` produced from a braced span. */
  function GenerateEnemy(req: EnemyRequest, post: Backend, parse: Parser): (r: map<string, Json>)
    ensures TryGenerate(post(EnemyPayload(req)), parse).Failure? ==>
      r == FallbackRecord(TryGenerate(post(EnemyPayload(req)), parse).error)
    ensures TryGenerate(post(EnemyPayload(req)), parse).Success? ==>
      ReplyParsedAs(post(EnemyPayload(req)), parse, r)
    ensures IsFallbackRecord(r) || ReplyParsedAs(post(EnemyPayload(req)), parse, r)
  {
    match TryGenerate(post(EnemyPayload(req)), parse)
    case Failure(e) => FallbackRecord(e)
    case Success(data) => data
  }

  // ----- Properties of the generator -----

  /** The outbound payload names the configured model, carries the prompt for
      the request and asks for a non-streamed reply; the result depends on the
      backend only through its answer to that one payload. */
  lemma OnePayloadPerRequest(req: EnemyRequest, post1: Backend, post2: Backend, parse: Parser)
    requires post1(EnemyPayload(req)) == post2(EnemyPayload(req))
    ensures EnemyPayload(req).model == "qwen2.5:3b"
    ensures EnemyPayload(req).prompt == BuildPrompt(req) && !EnemyPayload(req).stream
    ensures GenerateEnemy(req, post1, parse) == GenerateEnemy(req, post2, parse)
  {
  }

  /** The canned enemy has exactly the five keys and the fixed stats, so it is
      never the empty object. */
  lemma FallbackRecordShape(e: Exception)
    ensures FallbackRecord(e).Keys == {"error", "name", "health", "attack_power", "xp_reward"}
    ensures FallbackRecord(e)["name"] == JStr("Glitch Ghost")
    ensures FallbackRecord(e)["health"] == JInt(50)
    ensures FallbackRecord(e)["attack_power"] == JInt(5)
    ensures FallbackRecord(e)["xp_reward"] == JInt(10)
    ensures FallbackRecord(e)["error"] == JStr(Describe(e))
    ensures FallbackRecord(e) != map[]
  {
    assert "error" in FallbackRecord(e);
  }

  /** A failed POST or an undecodable body gives the canned enemy with the
      exception's message. */
  lemma TransportFailureGivesFallback(req: EnemyRequest, post: Backend, parse: Parser)
    requires !post(EnemyPayload(req)).Decoded?
    ensures post(EnemyPayload(req)).PostFailed? ==>
      GenerateEnemy(req, post, parse) == FallbackRecord(RequestError(post(EnemyPayload(req)).message))
    ensures post(EnemyPayload(req)).DecodeFailed? ==>
      GenerateEnemy(req, post, parse) == FallbackRecord(DecodeError(post(EnemyPayload(req)).message))
  {
  }

  /** A body that is not an object, or a "response" member that is not a
      string, raises inside the `try` and gives the canned enemy. */
  lemma MalformedBodyGivesFallback(req: EnemyRequest, post: Backend, parse: Parser)
    requires post(EnemyPayload(req)).Decoded?
    ensures !post(EnemyPayload(req)).body.JObject? ==>
      GenerateEnemy(req, post, parse) == FallbackRecord(AttributeError(TypeName(post(EnemyPayload(req)).body)))
    ensures var body := post(EnemyPayload(req)).body;
      body.JObject? && "response" in body.fields && !body.fields["response"].JStr? ==>
      GenerateEnemy(req, post, parse) == FallbackRecord(TypeError(TypeName(body.fields["response"])))
  {
  }

  /** When the reply text reaches `json.loads`, a parse error gives the canned
      enemy and a parsed object is returned unchanged. */
  lemma ReplyTextIsParsed(req: EnemyRequest, post: Backend, parse: Parser, fields: map<string, Json>, text: string)
    requires post(EnemyPayload(req)) == Decoded(JObject(fields))
    requires "response" in fields && fields["response"] == JStr(text)
    ensures parse(CleanJson(text)).Failure? ==>
      GenerateEnemy(req, post, parse) == FallbackRecord(ParseError(parse(CleanJson(text)).error))
    ensures parse(CleanJson(text)).Success? ==>
      GenerateEnemy(req, post, parse) == parse(CleanJson(text)).value
  {
  }

  /** A body without a "response" member is treated as an empty reply: `{}` is
      parsed and the empty object is returned, not the canned enemy. */
  lemma MissingResponseGivesEmptyObject(req: EnemyRequest, post: Backend, parse: Parser, fields: map<string, Json>)
    requires post(EnemyPayload(req)) == Decoded(JObject(fields))
    requires "response" !in fields
    requires parse("{}") == Success(map[])
    ensures GenerateEnemy(req, post, parse) == map[]
    ensures !IsFallbackRecord(GenerateEnemy(req, post, parse))
  {
    assert CleanJson("") == EmptyObjectText;
    NotFallback();
  }

  /** A reply with no `}` after its first `{` likewise yields the empty object. */
  lemma BracelessReplyGivesEmptyObject(req: EnemyRequest, post: Backend, parse: Parser, fields: map<string, Json>, text: string)
    requires post(EnemyPayload(req)) == Decoded(JObject(fields))
    requires "response" in fields && fields["response"] == JStr(text)
    requires !HasBracedSpan(text)
    requires parse("{}") == Success(map[])
    ensures GenerateEnemy(req, post, parse) == map[]
    ensures !IsFallbackRecord(GenerateEnemy(req, post, parse))
  {
    NotFallback();
  }

  /** The empty object is not a canned enemy. */
  lemma NotFallback()
    ensures !IsFallbackRecord(map[])
  {
    forall e: Exception ensures FallbackRecord(e) != map[] {
      FallbackRecordShape(e);
    }
  }
}
