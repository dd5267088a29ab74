/**
 * The outbound request body: chosen by the inbound content type for a bodied
 * inbound verb, then replaced by a `_body` override when there is one.
 */
module BodyTranscoder {
  import opened Wrappers
  import opened JsString
  import opened Http
  import opened HeaderReconciler

  /** The body readers, in the order the content type is tested. */
  datatype ContentKind = JsonContent | TextContent | FormUrlEncoded | Multipart | Binary

  /** The `ct.includes(...)` chain on the lower-cased content type; the first match wins. */
  function Classify(ct: string): ContentKind
  {
    if Contains(ct, "application/json") then JsonContent
    else if Contains(ct, "application/text") || Contains(ct, "text/html") then TextContent
    else if Contains(ct, "application/x-www-form-urlencoded") then FormUrlEncoded
    else if Contains(ct, "multipart/form-data") then Multipart
    else Binary
  }

  /**
   * Reading the inbound body: JSON is parsed and re-serialised (and can fail),
   * text and url-encoded forms are read as text, multipart as form data, the
   * rest as a blob.
   */
  function ReadBody(rt: Runtime, kind: ContentKind, raw: string): Result<OutBody, ProxyError>
  {
    match kind
    case JsonContent =>
      (match rt.reserializeJson(raw)
       case Success(j) => Success(JsonText(j))
       case Failure(m) => Failure(RuntimeError(m)))
    case TextContent => Success(PlainText(raw))
    case FormUrlEncoded => Success(PlainText(raw))
    case Multipart => Success(FormData(raw))
    case Binary => Success(Blob(raw))
  }

  /** The lower-cased inbound content type, "" when absent. */
  function InboundContentType(req: Request): string
  {
    Lower(GetOr(req.headers, "content-type", ""))
  }

  /** `fp.body` after the body block and the `_body` override. */
  function BodyPlan(rt: Runtime, req: Request, overrides: map<string, string>): Result<OutBody, ProxyError>
  {
    var derived :=
      if IsBodiedVerb(req.verb) then ReadBody(rt, Classify(InboundContentType(req)), req.body)
      else Success(NoBody);
    match derived
    case Failure(e) => Failure(e)
    case Success(b) => Success(if "_body" in overrides then Override(overrides["_body"]) else b)
  }

  /**
   * The body plan fails only when a bodied request declares JSON that does
   * not parse, and then it fails even if `_body` would have replaced the body.
   */
  lemma BodyPlanFailsOnlyOnBadJson(rt: Runtime, req: Request, overrides: map<string, string>)
    ensures BodyPlan(rt, req, overrides).Failure? <==>
      IsBodiedVerb(req.verb) && Classify(InboundContentType(req)) == JsonContent &&
      rt.reserializeJson(req.body).Failure?
  {
  }

  /** A `_body` override replaces whatever was derived, for any verb and any content type. */
  lemma BodyOverrideWins(rt: Runtime, req: Request, overrides: map<string, string>)
    requires "_body" in overrides
    requires BodyPlan(rt, req, overrides).Success?
    ensures BodyPlan(rt, req, overrides).value == Override(overrides["_body"])
  {
  }

  /**
   * Without `_body`, only a bodied inbound verb gets a body; the `_method`
   * override plays no part in that choice.
   */
  lemma BodyFollowsInboundVerb(rt: Runtime, req: Request, overrides: map<string, string>, m: string)
    ensures "_body" !in overrides && !IsBodiedVerb(req.verb) ==> BodyPlan(rt, req, overrides) == Success(NoBody)
    ensures BodyPlan(rt, req, overrides["_method" := m]) == BodyPlan(rt, req, overrides)
  {
  }

  /**
   * A bodied inbound request without `_body` sends what its content type's
   * reader yields: the re-serialised JSON, the raw text of a text body or a
   * url-encoded form, the form data of a multipart body, otherwise a blob.
   */
  lemma BodiedRequestPlan(rt: Runtime, req: Request, overrides: map<string, string>)
    requires IsBodiedVerb(req.verb) && "_body" !in overrides
    ensures var ct := InboundContentType(req);
      BodyPlan(rt, req, overrides) == ReadBody(rt, Classify(ct), req.body) &&
      (Contains(ct, "application/json") && rt.reserializeJson(req.body).Success? ==>
         BodyPlan(rt, req, overrides) == Success(JsonText(rt.reserializeJson(req.body).value))) &&
      (Classify(ct) == TextContent || Classify(ct) == FormUrlEncoded ==>
         BodyPlan(rt, req, overrides) == Success(PlainText(req.body))) &&
      (Classify(ct) == Multipart ==> BodyPlan(rt, req, overrides) == Success(FormData(req.body))) &&
      (Classify(ct) == Binary ==> BodyPlan(rt, req, overrides) == Success(Blob(req.body)))
  {
    DispatchPrecedence(InboundContentType(req));
    ReadersYield(rt, req.body);
  }

  /**
   * Dispatch precedence: JSON beats every other marker, either text marker
   * beats the form encodings, a url-encoded form beats multipart, and a
   * content type with none of the markers is read as a blob.
   */
  lemma DispatchPrecedence(ct: string)
    ensures Contains(ct, "application/json") ==> Classify(ct) == JsonContent
    ensures !Contains(ct, "application/json") && (Contains(ct, "application/text") || Contains(ct, "text/html")) ==>
      Classify(ct) == TextContent
    ensures Classify(ct) == FormUrlEncoded <==>
      !Contains(ct, "application/json") && !Contains(ct, "application/text") && !Contains(ct, "text/html") &&
      Contains(ct, "application/x-www-form-urlencoded")
    ensures Classify(ct) == Multipart <==>
      !Contains(ct, "application/json") && !Contains(ct, "application/text") && !Contains(ct, "text/html") &&
      !Contains(ct, "application/x-www-form-urlencoded") && Contains(ct, "multipart/form-data")
    ensures Classify(ct) == Binary <==>
      !Contains(ct, "application/json") && !Contains(ct, "application/text") && !Contains(ct, "text/html") &&
      !Contains(ct, "application/x-www-form-urlencoded") && !Contains(ct, "multipart/form-data")
  {
  }

  /**
   * What each reader yields: JSON is re-serialised (its failure is the
   * runtime's error), both text kinds and url-encoded forms are the raw text
   * (a form is never re-encoded), multipart is form data, the rest a blob.
   */
  lemma ReadersYield(rt: Runtime, raw: string)
    ensures rt.reserializeJson(raw).Success? ==>
      ReadBody(rt, JsonContent, raw) == Success(JsonText(rt.reserializeJson(raw).value))
    ensures rt.reserializeJson(raw).Failure? ==>
      ReadBody(rt, JsonContent, raw) == Failure(RuntimeError(rt.reserializeJson(raw).error))
    ensures ReadBody(rt, TextContent, raw) == Success(PlainText(raw))
    ensures ReadBody(rt, FormUrlEncoded, raw) == Success(PlainText(raw))
    ensures ReadBody(rt, Multipart, raw) == Success(FormData(raw))
    ensures ReadBody(rt, Binary, raw) == Success(Blob(raw))
  {
  }
}
