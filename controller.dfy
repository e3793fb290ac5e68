/** The back end's request controller: validates the request body, calls the
    verification agent and maps its outcome to an HTTP response. The agent's
    outcome for the call is a parameter, so the controller is a function of
    the body and that outcome. */
module Controller {
  import opened Wrappers
  import opened Text
  import opened Json
  import opened Classification
  import opened Agent

  /** The error of a request without a document number. */
  const MissingDocumentError: string := "Número de documento é obrigatório"
  /** The error of a request the agent failed on. */
  const ProcessingError: string := "Erro ao processar consulta"

  /** The arguments the controller passes to the agent. */
  datatype Call = Call(bachillerato: string, fechaNacimiento: Option<string>)

  /** The response, and the agent call made on the way (None when the agent
      was not called). */
  datatype Reply = Reply(response: Response, call: Option<Call>)

  /** `!bachillerato || bachillerato.trim() === ''`: missing, null, empty or
      only white space. */
  predicate Blank(bachillerato: Option<string>)
  {
    bachillerato.None? || Trim(bachillerato.value) == ""
  }

  /** `consultarBachillerato`: 400 for a blank document number, otherwise
      the agent is called with both fields as received, and its result comes
      back with 200 or its error with 500. */
  function ConsultarBachillerato(body: JObject, answer: Result<Resultado>): Reply
  {
    var bachillerato := StringField(body, "bachillerato");
    if Blank(bachillerato) then
      Reply(Response(400, map["error" := JStr(MissingDocumentError), "status" := JStr("ERROR")]), None)
    else
      var call := Call(bachillerato.value, StringField(body, "fechaNacimiento"));
      match answer
      case Success(resultado) =>
        Reply(Response(200, ToJson(resultado)), Some(call))
      case Failure(message) =>
        Reply(Response(500, map["error" := JStr(ProcessingError), "detalhes" := JStr(message),
                                "status" := JStr("ERROR")]), Some(call))
  }

  /** A request is refused with 400, and the agent is not called, exactly
      when its document number is blank; the refusal names the missing
      document. */
  lemma BlankIsRejected(body: JObject, answer: Result<Resultado>)
    ensures var reply := ConsultarBachillerato(body, answer);
            && (reply.response.status == 400 <==> Blank(StringField(body, "bachillerato")))
            && (reply.call.None? <==> reply.response.status == 400)
            && (reply.response.status == 400 ==>
                  StringField(reply.response.body, "error") == Some(MissingDocumentError)
                  && StringField(reply.response.body, "status") == Some("ERROR"))
  {
  }

  /** A document number with any non-blank character is never refused. */
  lemma NonBlankIsAccepted(body: JObject, answer: Result<Resultado>, i: nat)
    requires "bachillerato" in body && body["bachillerato"].JStr?
    requires i < |body["bachillerato"].s| && !IsWhitespace(body["bachillerato"].s[i])
    ensures ConsultarBachillerato(body, answer).call.Some?
  {
    var b := body["bachillerato"].s;
    TrimDropsWhitespace(b);
    assert TrimOffset(b) <= i < TrimOffset(b) + |Trim(b)|;
  }

  /** An accepted request reaches the agent with both fields exactly as they
      were received: neither is trimmed, and a missing or null date stays
      missing. */
  lemma CallPassesFieldsAsReceived(body: JObject, answer: Result<Resultado>)
    requires ConsultarBachillerato(body, answer).call.Some?
    ensures var call := ConsultarBachillerato(body, answer).call.value;
            && body["bachillerato"] == JStr(call.bachillerato)
            && (call.fechaNacimiento.Some? <==> "fechaNacimiento" in body && body["fechaNacimiento"].JStr?)
            && (call.fechaNacimiento.Some? ==> body["fechaNacimiento"] == JStr(call.fechaNacimiento.value))
  {
  }

  /** The agent's result comes back unchanged with 200: every field of the
      record can be read back from the response body. */
  lemma SuccessPassesThrough(body: JObject, r: Resultado)
    requires !Blank(StringField(body, "bachillerato"))
    ensures var response := ConsultarBachillerato(body, Success(r)).response;
            && response.status == 200
            && FromJson(response.body) == Some(r)
  {
    FromJsonToJson(r);
  }

  /** The agent's error comes back with 500, its message in `detalhes`. */
  lemma FailureIs500(body: JObject, message: string)
    requires !Blank(StringField(body, "bachillerato"))
    ensures var response := ConsultarBachillerato(body, Failure(message)).response;
            && response.status == 500
            && StringField(response.body, "detalhes") == Some(message)
            && StringField(response.body, "error") == Some(ProcessingError)
            && StringField(response.body, "status") == Some("ERROR")
  {
  }

  /** Every response is 200, 400 or 500, and only a 200 lacks the `ERROR`
      status marker. */
  lemma ResponseCodes(body: JObject, answer: Result<Resultado>)
    ensures var response := ConsultarBachillerato(body, answer).response;
            && response.status in {200, 400, 500}
            && (response.status != 200 <==> StringField(response.body, "status") == Some("ERROR"))
  {
    var response := ConsultarBachillerato(body, answer).response;
    if response.status == 200 {
      var r := answer.value;
      assert StringField(response.body, "status") == Some(StatusText(r.status));
    }
  }
}
