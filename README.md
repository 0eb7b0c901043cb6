# go-api-responder, modelled in Dafny

A model of the helper layer of the `api` Go package (`main.go`): a uniform
JSON response envelope (status, links, errors, messages, data, meta)
with builder methods that update it in place, the two ways of writing it
(`Resp` for a normal reply, `Err` for an aborting single-error reply), and
the `CheckContentType` middleware, which lets a request through only when
its `Accept` header (and, for methods other than GET, its `Content-Type`)
matches the one configured media type.

Files:

- `wrappers.dfy`: `Option`, where `None` stands for Go's `nil`.
- `status.dfy`: the status codes used here and their standard texts.
- `envelope.dfy`: `Error`, the `Envelope` value, the `Response` class and its builder methods, and `WithLink`.
- `responder.dfy`: `Resp` and `Err`, with `ErrReply` as the specification of `Err`. Also `ErrIntended`, the corrected reply (see Findings).
- `negotiation.dfy`: ASCII lower-casing, the `Negotiate` decision function and the `Config` class. Also the `CheckAgainst` method, which runs the checks against a given accepted type, and the `CheckContentType` middleware method.

The payloads `Data`, `Meta` and `Detail` (Go `interface{}`) have a type
parameter `P`. The middleware instantiates it with `string`, because its
rejections carry the status text as their detail. The transport is not
modelled. `Resp` returns the status and body it would write. `Err` returns
the abort status, the body and the error it logs. `CheckContentType` returns
`Next` or `Aborted(reply)`, so exactly one of "abort" and "go on" happens.

`Err` is modelled as written:

- With code 0, `Err` stores 500 in the envelope's `HTTPStatus` (main.go:105-109).
  It then aborts with the raw code 0 (main.go:121), and the error's title is the empty text of code 0 (main.go:113).
  `HTTPStatus` is never serialized (`json:"-"`, main.go:33), and after main.go:109 nothing reads it.
  `AddError` (main.go:117) only appends to `Errors`, and the abort (main.go:121) takes the raw `code`.
  So the 500 has no effect. It was presumably meant as the abort status.
  It could also have been meant for the error's own `Status` field (main.go:81, also `json:"-"`), which `Err` never sets.
  "## Findings" records this.
- `Err` never sets the error's own `Status` field.

## Model

| member | source | states |
|---|---|---|
| `Envelopes.Response.constructor` | main.go:32-39 | A new envelope is the zero `Response{}`: status 0, nil links, no errors or messages, nil data and meta |
| `Envelopes.Response.SetData` | main.go:42-44 | Data becomes the given value; no other field changes |
| `Envelopes.Response.SetMeta` | main.go:47-49 | Meta becomes the given value; no other field changes |
| `Envelopes.Response.AddError` | main.go:52-54 | Errors becomes the old errors followed by the new one, in order; no other field changes |
| `Envelopes.Response.AddMessage` | main.go:57-59 | Messages becomes the old messages followed by the new one, in order; no other field changes |
| `Envelopes.Response.AddLink` | main.go:62-67 | Links is non-nil afterwards and maps the title to the link; every other title keeps its old URL; no other field changes |
| `Envelopes.WithLink` | main.go:62-67 | Inserting into a possibly nil links map gives the old keys plus the title, the title maps to the link, and every other key keeps its value |
| `Envelopes.WithLinkIdempotent` | main.go:62-67 | Adding the same link twice gives the same map as adding it once |
| `Envelopes.WithLinkOverwrites` | main.go:62-67 | A second link under the same title replaces the first |
| `Envelopes.WithLinkCommutes` | main.go:62-70 | Links under distinct titles give the same map in either order |
| `Envelopes.SetDataTwice` | main.go:42-44 | Two `SetData` calls leave only the last value and change nothing else |
| `Envelopes.AddLinkTwice` | main.go:62-67 | Repeating the same `AddLink` leaves the envelope as one call does |
| `Responder.Resp` | main.go:95-100 | Status 0 becomes 200 and any other status is kept; only the status changes; the reply is written with the final, non-zero status and the whole envelope |
| `Responder.ErrReply` | main.go:103-122 | Exactly one error, with the given id, code and detail, the status text of the raw code as title, its own status unset and the cause attached. The envelope status is the code, or 500 for code 0. The abort status is the raw code. Links, messages, data and meta are empty. The error is logged exactly when there is a cause |
| `Responder.Err` | main.go:103-122 | Building a zero envelope, setting its status and calling `AddError` produces exactly `ErrReply` |
| `Responder.ErrTextIsStatusText` | main.go:89-92 | The text of the reported error (its title) is the standard text of the code, and is non-empty for 406 and 415 |
| `Responder.ErrZeroCodeMismatch` | main.go:105-121 | With code 0 the abort status is 0 while the envelope records 500, and the title is empty |
| `Responder.ErrIntended` | main.go:103-122 | Corrected reply: the abort status equals the envelope status (500 for code 0) and the title is the text of that status |
| `Responder.ErrAgreesWhenCodeSet` | main.go:103-122 | For every non-zero code the reply as written equals the corrected reply |
| `HttpStatus.StatusText` | main.go:113 | The standard text of 200, 406, 415 and 500 is non-empty, and code 0 has the empty text |
| `Envelopes.Error.Text` | main.go:89-92 | Definition of the text of an `Error` as a Go `error`: its title. `Responder.ErrTextIsStatusText` states what that text is for a reported error |
| `Negotiation.Lower` | main.go:126-137 | Lower-casing keeps the length. Each upper-case ASCII letter becomes the character 32 places later, every other character is kept, and no upper-case letter is left |
| `Negotiation.LowerIdempotent` | main.go:126-137 | Lower-casing twice is lower-casing once |
| `Negotiation.LowerIsAnyOnlyForAny` | main.go:128 | Only `*/*` itself lowers to `*/*`, so the case-sensitive wildcard test behaves like a case-insensitive one |
| `Negotiation.IsGet` | main.go:127 | A request is a GET when its method lower-cases to `get` |
| `Negotiation.Acceptable` | main.go:128 | Accept is acceptable when it is exactly `*/*` or lower-cases to the lower-cased configured type |
| `Negotiation.ContentTypeMatches` | main.go:133 | Content-Type matches when it lower-cases to the lower-cased configured type |
| `Negotiation.Negotiate` | main.go:125-143 | The middleware's decision. A 415 comes only for a non-GET whose Content-Type does not match. A 406 comes only when Accept is not acceptable, and for a non-GET only after Content-Type matched |
| `Negotiation.NegotiateGet` | main.go:127-131 | For GET in any case: pass exactly when Accept is `*/*` or equals the configured type ignoring case; otherwise 406; never 415; Content-Type is ignored |
| `Negotiation.NegotiateWrite` | main.go:132-141 | For other methods: a Content-Type mismatch gives 415 whatever Accept says; with a matching Content-Type, the Accept rule decides between pass and 406 |
| `Negotiation.NegotiatePassIff` | main.go:125-143 | A request passes exactly when Accept is acceptable and, unless it is a GET, Content-Type matches |
| `Negotiation.IsGetCaseInsensitive` | main.go:127 | Whether a request is a GET does not change when its method is lower-cased |
| `Negotiation.AcceptableCaseInsensitive` | main.go:128 | Whether Accept is acceptable does not change when both strings are lower-cased, although the `*/*` test is case-sensitive |
| `Negotiation.ContentTypeMatchesCaseInsensitive` | main.go:133 | Whether Content-Type matches does not change when both strings are lower-cased |
| `Negotiation.NegotiateCaseInsensitive` | main.go:126-137 | The decision is unchanged when every input is lower-cased |
| `Negotiation.ParametersNotAcceptable` | main.go:128 | An Accept header of `application/json` followed by anything, such as `; charset=utf-8`, is not acceptable against `application/json`: parameters are not parsed |
| `Negotiation.NegotiateIgnoresParameters` | main.go:127-131 | A GET whose Accept header is `application/json` with parameters is refused with 406 |
| `Negotiation.Respond` | main.go:127-142 | Pass goes on; 406 and 415 abort with that status, one error whose detail is the status text, and no log line |
| `Negotiation.RejectionsAsIntended` | main.go:129-138 | Every rejection the middleware sends equals the corrected `Err` reply |
| `Negotiation.Config.constructor` | main.go:15-17 | A configuration holds the given type |
| `Negotiation.Config.GetContentType` | main.go:19-24 | An empty type becomes `application/json`, stored and returned; a set type is returned unchanged; the result is never empty |
| `Negotiation.CheckAgainst` | main.go:126-142 | Against a given accepted type, the checks go on exactly when Accept is acceptable and, unless it is a GET, Content-Type matches. Otherwise they abort with the `Err` reply for 406 or 415: the outcome is `Respond` of `Negotiate` |
| `Negotiation.CheckContentType` | main.go:125-143 | The outcome is `Respond` of `Negotiate` on the method, headers and effective configured type. The configuration only gains its default |
| `Negotiation.GetIsGet` | main.go:127 | `GET` reads as a GET request |
| `Negotiation.PostIsNotGet` | main.go:127 | `POST` does not read as a GET request |
| `Negotiation.XmlNotAcceptable` | main.go:128 | `Accept: text/xml` does not accept `application/json` |
| `Negotiation.XmlContentTypeMismatch` | main.go:133 | `Content-Type: application/xml` does not match `application/json` |
| `Negotiation.GetAnyPasses` | main.go:127-131 | A GET with `Accept: */*` passes |
| `Negotiation.GetXmlRefused` | main.go:127-131 | A GET with `Accept: text/xml` against `application/json` aborts with one error: code 406, title "Not Acceptable" |
| `Negotiation.PostXmlRefused` | main.go:132-135 | A POST with `Content-Type: application/xml` aborts with 415 before Accept is looked at |

## Findings

| source | as written | input that shows it | evidently intended | confidence | as-written member | corrected member |
|---|---|---|---|---|---|---|
| main.go:105-121 | `Err` stores 500 in the envelope's `HTTPStatus` when `code` is 0. That field is never serialized (main.go:33), and nothing reads it afterwards. `Err` then aborts with the raw `code` and takes the title from the raw `code` | `Err(c, 0, "oops", cause)`: abort status 0, envelope status 500, title "" | Abort with the status the envelope records (500), with title "Internal Server Error" | medium, not executed | `Responder.ErrZeroCodeMismatch` | `Responder.ErrIntended` |

`Responder.ErrReply` and `Responder.Err` keep the code as written.
`Responder.ErrAgreesWhenCodeSet` shows that the two replies agree for every
non-zero code. `Negotiation.RejectionsAsIntended` shows that every
rejection the middleware sends is the corrected reply.

## Left out

- The gin transport (`c.JSON`, `c.AbortWithStatusJSON`, `c.Next`, `c.GetHeader`) is not modelled. Replies and outcomes are returned as values, and headers are plain string inputs.
- `c.ContentType()` is not modelled. Its result is the `contentType` input, taken as given.
- JSON serialisation and `omitempty` are not modelled. These happen in Go's encoding library.
- `uuid.NewV1()` is not modelled. The error identifier is the `id` parameter.
- `log.Println` is represented only by the `logged` error of the reply.
- `HttpStatus.StatusText`: this table covers only 200, 406, 415 and 500, plus the empty text of code 0. The body gives every other code the empty text, whereas Go's table names many more codes. The contract states nothing about those other codes.
- The global `config` pointer and `Setup` are not modelled. The configuration is passed to `CheckContentType` as a non-null `Config`. The source would fail on a nil pointer when `Setup` was never called.
- `Negotiation.Lower`: lower-cases ASCII letters only, whereas `strings.ToLower` also folds non-ASCII letters.
- The cause `PrevError` (a Go `error`) is represented by its message.
- `Data`, `Meta` and `Detail` share one payload type parameter, whereas Go lets each hold a value of any type.
- `api.go` is not part of this model. It is a second copy of the same code that does not compile, and its envelope methods are textually the same as those in `main.go`.
- Reference sharing is not modelled. In Go, `Links` is a map and `Errors` and `Messages` are slices, so a copied `Response` shares them with the original, and `AddLink` on one copy changes both. Here these fields are values: copies never alias, and each method changes only the object it is called on.
- Concurrency is not modelled. `getContentType` writes the process-wide configuration from a middleware that serves requests concurrently, so the source has an unsynchronised write. The model runs one request at a time.
