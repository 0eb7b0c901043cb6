/**
 * Writing an envelope to the transport: `Resp` for a normal reply and `Err`
 * for a reply that aborts the request with a single error. The transport
 * itself is not modelled: each operation returns the status and body it
 * hands to it.
 */
module Responder {
  import opened Wrappers
  import opened HttpStatus
  import opened Envelopes

  /** A JSON reply written with `status`; the request goes on. */
  datatype Json<P> = Json(status: int, body: Envelope<P>)

  /**
   * A JSON reply written with `status` that aborts the request; `logged` is
   * the error printed to the diagnostic log, if any.
   */
  datatype Abort<P> = Abort(status: int, body: Envelope<P>, logged: Option<Error<P>>)

  /**
   * Defaults an unset status to 200 and writes the envelope with it. Only
   * the status of the envelope may change.
   */
  method Resp<P>(r: Response<P>) returns (reply: Json<P>)
    modifies r`httpStatus
    ensures old(r.httpStatus) == 0 ==> r.httpStatus == StatusOK
    ensures old(r.httpStatus) != 0 ==> r.httpStatus == old(r.httpStatus)
    ensures r.Snapshot() == old(r.Snapshot()).(httpStatus := r.httpStatus)
    ensures reply.status == r.httpStatus != 0
    ensures reply.body == r.Snapshot()
  {
    if r.httpStatus == 0 {
      r.httpStatus := StatusOK;
    }
    reply := Json(r.httpStatus, r.Snapshot());
  }

  /**
   * What `Err(code, msg, prevErr)` sends, with `id` the identifier generated
   * for the error: a fresh envelope with exactly one error, whose code is
   * `code` and whose title is the text of `code`. The envelope records
   * `code`, or 500 when `code` is 0, but the request is aborted with `code`
   * itself. The error's own status is never set. The error is logged exactly
   * when there is an underlying cause.
   */
  function ErrReply<P>(code: int, msg: Option<P>, prevErr: Option<string>, id: string): (a: Abort<P>)
    ensures a.status == code
    ensures a.body.httpStatus != 0
    ensures code != 0 ==> a.body.httpStatus == code
    ensures code == 0 ==> a.body.httpStatus == StatusInternalServerError
    ensures |a.body.errors| == 1
    ensures a.body.errors[0].id == id && a.body.errors[0].code == code
    ensures a.body.errors[0].title == StatusText(code) && a.body.errors[0].detail == msg
    ensures a.body.errors[0].status == 0 && a.body.errors[0].links == None
    ensures a.body.errors[0].prevError == prevErr
    ensures a.body == ZeroEnvelope<P>().(httpStatus := a.body.httpStatus, errors := a.body.errors)
    ensures a.logged.Some? <==> prevErr.Some?
    ensures a.logged.Some? ==> a.logged.value == a.body.errors[0]
  {
    var err := Error(id, 0, code, StatusText(code), msg, None, prevErr);
    var status := if code != 0 then code else StatusInternalServerError;
    Abort(code, Envelope(status, None, [err], None, None, []), if prevErr.Some? then Some(err) else None)
  }

  /**
   * Builds the error reply as the source does: a zero envelope, its status,
   * one `AddError`, the log line when there is a cause, then the abort.
   */
  method Err<P>(code: int, msg: Option<P>, prevErr: Option<string>, id: string) returns (a: Abort<P>)
    ensures a == ErrReply(code, msg, prevErr, id)
  {
    var r := new Response<P>();
    if code != 0 {
      r.httpStatus := code;
    } else {
      r.httpStatus := StatusInternalServerError;
    }
    var err := Error(id, 0, code, StatusText(code), msg, None, prevErr);
    r.AddError(err);
    var logged := None;
    if prevErr.Some? {
      logged := Some(err);
    }
    a := Abort(code, r.Snapshot(), logged);
  }

  /** The text of the error `Err` reports is the standard text of its code. */
  lemma ErrTextIsStatusText<P>(code: int, msg: Option<P>, prevErr: Option<string>, id: string)
    ensures ErrReply(code, msg, prevErr, id).body.errors[0].Text() == StatusText(code)
    ensures code in {StatusNotAcceptable, StatusUnsupportedMediaType} ==> ErrReply(code, msg, prevErr, id).body.errors[0].Text() != ""
  {
  }

  /**
   * With code 0 the reply disagrees with itself: the envelope records 500,
   * but the request is aborted with status 0 and the error has an empty title.
   */
  lemma ErrZeroCodeMismatch<P>(msg: Option<P>, prevErr: Option<string>, id: string)
    ensures ErrReply(0, msg, prevErr, id).status == 0
    ensures ErrReply(0, msg, prevErr, id).body.httpStatus == StatusInternalServerError
    ensures ErrReply(0, msg, prevErr, id).status != ErrReply(0, msg, prevErr, id).body.httpStatus
    ensures ErrReply(0, msg, prevErr, id).body.errors[0].title == ""
  {
  }

  /**
   * The reply `Err` evidently intends: the request is aborted with the status
   * the envelope records (500 for code 0), and the error's title is the text
   * of that status.
   */
  function ErrIntended<P>(code: int, msg: Option<P>, prevErr: Option<string>, id: string): (a: Abort<P>)
    ensures a.status == a.body.httpStatus != 0
    ensures code != 0 ==> a.status == code
    ensures code == 0 ==> a.status == StatusInternalServerError
    ensures |a.body.errors| == 1
    ensures a.body.errors[0].code == code && a.body.errors[0].title == StatusText(a.status)
    ensures code == 0 ==> a.body.errors[0].title == "Internal Server Error"
    ensures a.body.errors[0].id == id && a.body.errors[0].detail == msg
    ensures a.logged.Some? <==> prevErr.Some?
  {
    var status := if code != 0 then code else StatusInternalServerError;
    var err := Error(id, 0, code, StatusText(status), msg, None, prevErr);
    Abort(status, Envelope(status, None, [err], None, None, []), if prevErr.Some? then Some(err) else None)
  }

  /** For every non-zero code (all the codes the middleware passes) the source's reply is the intended one. */
  lemma ErrAgreesWhenCodeSet<P>(code: int, msg: Option<P>, prevErr: Option<string>, id: string)
    requires code != 0
    ensures ErrReply(code, msg, prevErr, id) == ErrIntended(code, msg, prevErr, id)
  {
  }
}
