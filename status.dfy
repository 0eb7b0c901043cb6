/**
 * The HTTP status codes this layer names, and the standard text of each
 * (the `http.StatusText` table of Go's standard library, restricted to the
 * codes the responder itself uses; every other code has the empty text,
 * as an unknown code has in that table).
 */
module HttpStatus {
  const StatusOK := 200
  const StatusNotAcceptable := 406
  const StatusUnsupportedMediaType := 415
  const StatusInternalServerError := 500

  function StatusText(code: int): (text: string)
    ensures code in {StatusOK, StatusNotAcceptable, StatusUnsupportedMediaType, StatusInternalServerError} ==> text != ""
    ensures code == 0 ==> text == ""
  {
    if code == StatusOK then "OK"
    else if code == StatusNotAcceptable then "Not Acceptable"
    else if code == StatusUnsupportedMediaType then "Unsupported Media Type"
    else if code == StatusInternalServerError then "Internal Server Error"
    else ""
  }
}
