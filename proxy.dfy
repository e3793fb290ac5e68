/** The front end's API route that forwards a lookup to the back end, so the
    browser only talks to the front end's own origin. The request to the back
    end and its timer are replaced by what the request came to. */
module Proxy {
  import opened Wrappers
  import opened Json

  /** The back end used when no `BACKEND_URL` is configured. */
  const DefaultBackendUrl: string := "http://146.235.29.239:5000"
  /** The back end's lookup route. */
  const ConsultaPath: string := "/api/consulta-bachillerato"
  /** The timer after which the request to the back end is aborted. */
  const AbortAfterMs: nat := 95000

  /** What the request to the back end came to: an answer after `elapsedMs`
      milliseconds, with its status and its body (or the error parsing it as
      JSON threw), or an error thrown before any answer. */
  datatype BackendOutcome =
    | Answered(elapsedMs: nat, status: nat, body: Result<JObject>)
    | Unreachable(name: string, message: string)

  /** An error caught by the handler: its `name` and `message`. */
  datatype CaughtError = CaughtError(name: string, message: string)

  /** The request the handler forwards. */
  datatype Forward = Forward(url: string, body: JObject)

  /** The handler's response, and the request it forwarded (None when it
      forwarded none). */
  datatype ProxyReply = ProxyReply(response: Response, forwarded: Option<Forward>)

  /** `process.env.BACKEND_URL || default`: an unset or empty variable falls
      back to the default. */
  function BackendUrl(env: Option<string>): string
  {
    if env.Some? && env.value != "" then env.value else DefaultBackendUrl
  }

  /** `Error.prototype.toString`: the name, then `": "` and the message when
      both are non-empty; otherwise whichever of the two is non-empty. */
  function ErrorToString(e: CaughtError): string
  {
    if e.name == "" then e.message
    else if e.message == "" then e.name
    else e.name + ": " + e.message
  }

  /** The error the awaited calls throw, if any: the timer aborts an answer
      that takes 95 s or more, and a body that is not JSON throws while it is
      parsed. */
  function Caught(backend: BackendOutcome): Option<CaughtError>
  {
    match backend
    case Answered(elapsedMs, _, body) =>
      if elapsedMs >= AbortAfterMs then Some(CaughtError("AbortError", "This operation was aborted"))
      else if body.Failure? then Some(CaughtError("SyntaxError", body.error))
      else None
    case Unreachable(name, message) => Some(CaughtError(name, message))
  }

  /** The body of the 504 response. */
  function TimeoutBody(): JObject
  {
    map["error" := JStr("Timeout ao consultar bachillerato"),
        "message" := JStr("A consulta demorou muito tempo. Tente novamente.")]
  }

  /** `handler`: refuses every method but POST with 405; forwards a POST to
      the back end and answers with the back end's status and body, or with
      504 when the request was aborted, or with 500 for any other error. */
  function Handler(httpMethod: string, env: Option<string>, body: JObject, backend: BackendOutcome): ProxyReply
  {
    if httpMethod != "POST" then
      ProxyReply(Response(405, map["error" := JStr("Método não permitido")]), None)
    else
      var forward := Some(Forward(BackendUrl(env) + ConsultaPath, body));
      match Caught(backend)
      case None =>
        ProxyReply(Response(backend.status, backend.body.value), forward)
      case Some(e) =>
        if e.name == "AbortError" then
          ProxyReply(Response(504, TimeoutBody()), forward)
        else
          ProxyReply(Response(500, map["error" := JStr("Erro ao conectar com o backend"),
                                       "message" := JStr(e.message),
                                       "details" := JStr(ErrorToString(e))]), forward)
  }

  /** Only a POST is forwarded; any other method gets 405 with the
      not-allowed error. */
  lemma OnlyPostIsForwarded(httpMethod: string, env: Option<string>, body: JObject, backend: BackendOutcome)
    ensures var reply := Handler(httpMethod, env, body, backend);
            && (reply.forwarded.Some? <==> httpMethod == "POST")
            && (httpMethod != "POST" ==>
                  reply.response.status == 405
                  && StringField(reply.response.body, "error") == Some("Método não permitido"))
  {
  }

  /** A POST is forwarded unchanged to the lookup route of the configured
      back end, or of the default one when none is configured. */
  lemma ForwardTarget(env: Option<string>, body: JObject, backend: BackendOutcome)
    ensures var fwd := Handler("POST", env, body, backend).forwarded;
            && fwd.Some? && fwd.value.body == body
            && (env.Some? && env.value != "" ==> fwd.value.url == env.value + ConsultaPath)
            && (env.None? || env.value == "" ==> fwd.value.url == DefaultBackendUrl + ConsultaPath)
  {
    assert Handler("POST", env, body, backend).forwarded == Some(Forward(BackendUrl(env) + ConsultaPath, body));
  }

  /** An answer within the timer, with a JSON body, comes back unchanged:
      same status, same body. */
  lemma AnswerPassesThrough(env: Option<string>, body: JObject, elapsedMs: nat, status: nat, data: JObject)
    requires elapsedMs < 95000
    ensures Handler("POST", env, body, Answered(elapsedMs, status, Success(data))).response == Response(status, data)
  {
  }

  /** A POST ends in 504 exactly when the request was aborted: by the timer,
      or by an error named `AbortError`. */
  lemma TimeoutIs504(env: Option<string>, body: JObject, backend: BackendOutcome)
    ensures var response := Handler("POST", env, body, backend).response;
            && ((backend.Answered? && backend.elapsedMs >= 95000)
                || (backend.Unreachable? && backend.name == "AbortError")
                <==> Caught(backend).Some? && response.status == 504 && response.body == TimeoutBody())
  {
  }

  /** Any other error ends in 500 carrying the error's message and its
      string form. */
  lemma OtherErrorIs500(env: Option<string>, body: JObject, backend: BackendOutcome)
    requires Caught(backend).Some? && Caught(backend).value.name != "AbortError"
    ensures var response := Handler("POST", env, body, backend).response;
            && response.status == 500
            && StringField(response.body, "error") == Some("Erro ao conectar com o backend")
            && StringField(response.body, "message") == Some(Caught(backend).value.message)
            && StringField(response.body, "details") == Some(ErrorToString(Caught(backend).value))
  {
    var e := Caught(backend).value;
    ErrorBodyFields("Erro ao conectar com o backend", e.message, ErrorToString(e));
  }

  /** The three fields of the 500 body read back as they were written. */
  lemma ErrorBodyFields(error: string, message: string, details: string)
    ensures var data := map["error" := JStr(error), "message" := JStr(message), "details" := JStr(details)];
            && StringField(data, "error") == Some(error)
            && StringField(data, "message") == Some(message)
            && StringField(data, "details") == Some(details)
  {
    assert "message" != "details" by {
      assert "message"[0] != "details"[0];
    }
  }

  /** The string form of an error begins with its name and, when it has a
      message, ends with it; without a name it is the message alone. */
  lemma ErrorToStringParts(e: CaughtError)
    ensures var t := ErrorToString(e);
            && |e.name| <= |t| && t[..|e.name|] == e.name
            && (e.message != "" ==> |e.message| <= |t| && t[|t| - |e.message|..] == e.message)
            && (e.message == "" ==> t == e.name)
            && (e.name == "" ==> t == e.message)
  {
    var t := ErrorToString(e);
    if e.name != "" && e.message != "" {
      assert t == (e.name + ": ") + e.message;
    }
  }
}
