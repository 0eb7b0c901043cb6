/**
 * The content-negotiation middleware: a request is let through only when
 * its `Accept` header (and, for methods other than GET, its `Content-Type`)
 * matches the one configured media type, compared case-insensitively.
 * Media-type parameters are not parsed.
 */
module Negotiation {
  import opened Wrappers
  import opened HttpStatus
  import opened Responder

  const DefaultContentType := "application/json"
  const AnyMediaType := "*/*"

  /** The character is an upper-case ASCII letter. */
  predicate IsUpper(c: char)
  {
    'A' <= c <= 'Z'
  }

  /**
   * ASCII lower case of a string: every upper-case ASCII letter becomes the
   * character 32 places later, every other character is kept, and no
   * upper-case letter is left.
   */
  function Lower(s: string): (r: string)
    ensures |r| == |s|
    ensures forall i :: 0 <= i < |s| && IsUpper(s[i]) ==> r[i] == (s[i] as int + 32) as char
    ensures forall i :: 0 <= i < |s| && !IsUpper(s[i]) ==> r[i] == s[i]
    ensures forall i :: 0 <= i < |r| ==> !IsUpper(r[i])
  {
    if s == [] then []
    else [if IsUpper(s[0]) then (s[0] as int + 32) as char else s[0]] + Lower(s[1..])
  }

  /** Lower-casing an already lower-cased string changes nothing. */
  lemma LowerIdempotent(s: string)
    ensures Lower(Lower(s)) == Lower(s)
  {
  }

  /** No string other than the wildcard `AnyMediaType` itself lowers to it: the wildcard has no letters. */
  lemma LowerIsAnyOnlyForAny(s: string)
    ensures Lower(s) == AnyMediaType <==> s == AnyMediaType
  {
    if Lower(s) == AnyMediaType {
      assert |s| == 3;
      assert s == [s[0], s[1], s[2]];
    }
  }

  /** The request method is GET, in any case. */
  predicate IsGet(requestMethod: string)
  {
    Lower(requestMethod) == "get"
  }

  /** The Accept header is exactly the wildcard `AnyMediaType` or names the configured type in any case. */
  predicate Acceptable(accept: string, configured: string)
  {
    accept == AnyMediaType || Lower(accept) == Lower(configured)
  }

  /** The Content-Type header names the configured type in any case. */
  predicate ContentTypeMatches(contentType: string, configured: string)
  {
    Lower(contentType) == Lower(configured)
  }

  datatype Decision = Pass | Reject406 | Reject415

  /**
   * The middleware's decision for a request, given the configured media type.
   */
  function Negotiate(requestMethod: string, contentType: string, accept: string, configured: string): (d: Decision)
    ensures d == Reject415 ==> !IsGet(requestMethod) && !ContentTypeMatches(contentType, configured)
    ensures d == Reject406 ==> !Acceptable(accept, configured)
    ensures d == Reject406 && !IsGet(requestMethod) ==> ContentTypeMatches(contentType, configured)
  {
    if IsGet(requestMethod) then
      if Acceptable(accept, configured) then Pass else Reject406
    else if !ContentTypeMatches(contentType, configured) then Reject415
    else if Acceptable(accept, configured) then Pass
    else Reject406
  }

  /** A GET passes exactly when Accept is acceptable, is otherwise refused with 406, and is never refused with 415. */
  lemma NegotiateGet(requestMethod: string, contentType: string, accept: string, configured: string)
    requires IsGet(requestMethod)
    ensures Negotiate(requestMethod, contentType, accept, configured) == Pass <==> Acceptable(accept, configured)
    ensures Negotiate(requestMethod, contentType, accept, configured) == Reject406 <==> !Acceptable(accept, configured)
    ensures forall other :: Negotiate(requestMethod, other, accept, configured) == Negotiate(requestMethod, contentType, accept, configured)
  {
  }

  /**
   * Any other method is refused with 415 when Content-Type does not match,
   * whatever Accept says; only then is Accept checked.
   */
  lemma NegotiateWrite(requestMethod: string, contentType: string, accept: string, configured: string)
    requires !IsGet(requestMethod)
    ensures !ContentTypeMatches(contentType, configured) ==>
      forall other :: Negotiate(requestMethod, contentType, other, configured) == Reject415
    ensures ContentTypeMatches(contentType, configured) ==>
      (Negotiate(requestMethod, contentType, accept, configured) == Pass <==> Acceptable(accept, configured))
    ensures ContentTypeMatches(contentType, configured) ==>
      (Negotiate(requestMethod, contentType, accept, configured) == Reject406 <==> !Acceptable(accept, configured))
  {
  }

  /** A request passes exactly when Accept is acceptable and, unless it is a GET, Content-Type matches. */
  lemma NegotiatePassIff(requestMethod: string, contentType: string, accept: string, configured: string)
    ensures Negotiate(requestMethod, contentType, accept, configured) == Pass <==>
      Acceptable(accept, configured) && (IsGet(requestMethod) || ContentTypeMatches(contentType, configured))
  {
  }

  /** Whether a request is a GET does not depend on the case of its method. */
  lemma IsGetCaseInsensitive(requestMethod: string)
    ensures IsGet(Lower(requestMethod)) == IsGet(requestMethod)
  {
    LowerIdempotent(requestMethod);
  }

  /**
   * Whether Accept is acceptable does not depend on case; in particular the
   * case-sensitive comparison with the wildcard `AnyMediaType` is not observable.
   */
  lemma AcceptableCaseInsensitive(accept: string, configured: string)
    ensures Acceptable(Lower(accept), Lower(configured)) == Acceptable(accept, configured)
  {
    LowerIdempotent(accept);
    LowerIdempotent(configured);
    LowerIsAnyOnlyForAny(accept);
  }

  /** Whether Content-Type matches does not depend on case. */
  lemma ContentTypeMatchesCaseInsensitive(contentType: string, configured: string)
    ensures ContentTypeMatches(Lower(contentType), Lower(configured)) == ContentTypeMatches(contentType, configured)
  {
    LowerIdempotent(contentType);
    LowerIdempotent(configured);
  }

  /** The decision is the same when every input is lower-cased. */
  lemma NegotiateCaseInsensitive(requestMethod: string, contentType: string, accept: string, configured: string)
    ensures Negotiate(Lower(requestMethod), Lower(contentType), Lower(accept), Lower(configured))
         == Negotiate(requestMethod, contentType, accept, configured)
  {
    IsGetCaseInsensitive(requestMethod);
    AcceptableCaseInsensitive(accept, configured);
    ContentTypeMatchesCaseInsensitive(contentType, configured);
  }

  /**
   * Media-type parameters are not parsed: an Accept header naming the
   * configured type followed by anything, such as `; charset=utf-8`, is not
   * acceptable.
   */
  lemma ParametersNotAcceptable(parameters: string)
    requires parameters != ""
    ensures !Acceptable(DefaultContentType + parameters, DefaultContentType)
  {
    var accept := DefaultContentType + parameters;
    assert |Lower(accept)| == |accept| > |DefaultContentType| == |Lower(DefaultContentType)|;
  }

  /** So a GET whose Accept header carries parameters is refused with 406. */
  lemma NegotiateIgnoresParameters(requestMethod: string, contentType: string, parameters: string)
    requires parameters != "" && IsGet(requestMethod)
    ensures Negotiate(requestMethod, contentType, DefaultContentType + parameters, DefaultContentType) == Reject406
  {
    ParametersNotAcceptable(parameters);
  }

  /** What the middleware does with a decision: go on, or abort with the matching error. */
  datatype Outcome = Next | Aborted(reply: Abort<string>)

  function Respond(d: Decision, id: string): (o: Outcome)
    ensures o.Next? <==> d == Pass
    ensures d == Reject406 ==> o.reply.status == StatusNotAcceptable
    ensures d == Reject415 ==> o.reply.status == StatusUnsupportedMediaType
    ensures o.Aborted? ==> o.reply.body.httpStatus == o.reply.status && o.reply.logged == None
    ensures o.Aborted? ==> |o.reply.body.errors| == 1 && o.reply.body.errors[0].detail == Some(StatusText(o.reply.status))
  {
    match d
    case Pass => Next
    case Reject406 => Aborted(ErrReply(StatusNotAcceptable, Some(StatusText(StatusNotAcceptable)), None, id))
    case Reject415 => Aborted(ErrReply(StatusUnsupportedMediaType, Some(StatusText(StatusUnsupportedMediaType)), None, id))
  }

  /** Every rejection the middleware sends is the reply `Err` intends: it never passes code 0. */
  lemma RejectionsAsIntended(d: Decision, id: string)
    requires d != Pass
    ensures Respond(d, id).reply
         == ErrIntended(Respond(d, id).reply.status, Some(StatusText(Respond(d, id).reply.status)), None, id)
  {
    var code := Respond(d, id).reply.status;
    ErrAgreesWhenCodeSet(code, Some(StatusText(code)), None, id);
  }

  /** Settings of the responder: the one accepted media type, `""` meaning the default. */
  class Config {
    var contentType: string

    constructor (contentType: string)
      ensures this.contentType == contentType
    {
      this.contentType := contentType;
    }

    /** The accepted type, storing the default first when none is set. */
    method GetContentType() returns (t: string)
      modifies this`contentType
      ensures old(contentType) == "" ==> t == DefaultContentType
      ensures old(contentType) != "" ==> t == old(contentType)
      ensures contentType == t != ""
    {
      if contentType == "" {
        contentType := DefaultContentType;
      }
      t := contentType;
    }
  }

  /**
   * The middleware's checks against the accepted type `configured`; `id` is
   * the identifier a rejection's error gets. Exactly one of going on and
   * aborting happens.
   */
  method CheckAgainst(configured: string, requestMethod: string, contentType: string, accept: string, id: string)
    returns (o: Outcome)
    ensures o == Respond(Negotiate(requestMethod, contentType, accept, configured), id)
    ensures o.Next? <==> Acceptable(accept, configured) && (IsGet(requestMethod) || ContentTypeMatches(contentType, configured))
  {
    var act := Lower(configured);
    if Lower(requestMethod) == "get" {
      if accept != AnyMediaType && Lower(accept) != act {
        var a := Err(StatusNotAcceptable, Some(StatusText(StatusNotAcceptable)), None, id);
        return Aborted(a);
      }
    } else {
      if Lower(contentType) != act {
        var a := Err(StatusUnsupportedMediaType, Some(StatusText(StatusUnsupportedMediaType)), None, id);
        return Aborted(a);
      }
      if accept != AnyMediaType && Lower(accept) != act {
        var a := Err(StatusNotAcceptable, Some(StatusText(StatusNotAcceptable)), None, id);
        return Aborted(a);
      }
    }
    o := Next;
  }

  /**
   * The middleware for one request: read the accepted type (storing the
   * default when none is set), then check the request against it. The
   * configuration only ever gains its default type.
   */
  method CheckContentType(config: Config, requestMethod: string, contentType: string, accept: string, id: string)
    returns (o: Outcome)
    modifies config`contentType
    ensures old(config.contentType) != "" ==> config.contentType == old(config.contentType)
    ensures old(config.contentType) == "" ==> config.contentType == DefaultContentType
    ensures o == Respond(Negotiate(requestMethod, contentType, accept, config.contentType), id)
  {
    var configured := config.GetContentType();
    o := CheckAgainst(configured, requestMethod, contentType, accept, id);
  }

  /** `GET` reads as a GET request. */
  lemma GetIsGet()
    ensures IsGet("GET")
  {
  }

  /** `POST` does not read as a GET request. */
  lemma PostIsNotGet()
    ensures !IsGet("POST")
  {
    assert |Lower("POST")| != |"get"|;
  }

  /** A GET whose Accept header is the wildcard `AnyMediaType` passes whatever the configured type. */
  lemma GetAnyPasses(configured: string, contentType: string)
    ensures Negotiate("GET", contentType, AnyMediaType, configured) == Pass
  {
    GetIsGet();
  }

  /** GET with `Accept: text/xml` against `application/json` is refused with one 406 "Not Acceptable" error. */
  lemma GetXmlRefused(contentType: string, id: string)
    ensures Respond(Negotiate("GET", contentType, "text/xml", DefaultContentType), id)
         == Aborted(ErrReply(406, Some("Not Acceptable"), None, id))
  {
    GetIsGet();
    XmlNotAcceptable();
  }

  /** POST with `Content-Type: application/xml` is refused with 415 whatever Accept says. */
  lemma PostXmlRefused(accept: string, id: string)
    ensures Respond(Negotiate("POST", "application/xml", accept, DefaultContentType), id)
         == Aborted(ErrReply(415, Some("Unsupported Media Type"), None, id))
  {
    PostIsNotGet();
    XmlContentTypeMismatch();
  }

  /** `Accept: text/xml` does not accept `application/json`. */
  lemma XmlNotAcceptable()
    ensures !Acceptable("text/xml", DefaultContentType)
  {
    assert |Lower("text/xml")| != |Lower(DefaultContentType)|;
  }

  /** `Content-Type: application/xml` does not match `application/json`. */
  lemma XmlContentTypeMismatch()
    ensures !ContentTypeMatches("application/xml", DefaultContentType)
  {
    assert |Lower("application/xml")| != |Lower(DefaultContentType)|;
  }
}
