# Contact-form handler: a Dafny model

This project models the request handler of a contact-form backend: an AWS
Lambda function behind API Gateway (`lambda/main.go`). The handler does five
things in order:

1. It loads the AWS configuration.
2. It extracts a contact submission from a multipart/form-data body that may
   be base64 transport-encoded, and validates it.
3. It checks the submitter's reCAPTCHA token.
4. It stores the submission in DynamoDB.
5. It sends a notification mail through SES.

Every stage can fail, and a failure ends the request with a fixed
`(status, message)` JSON response.

The model is functional. Library behaviour the handler calls into is supplied
as values. The outside world's answers are supplied as a `World` value. The
handler returns its response together with a trace of the effects it
attempted.

Modules, leaf first:

- `Results` (`results.dfy`): `Option` and `Result`.
- `Text` (`text.dfy`): Go's `unicode.IsSpace`, `strings.TrimSpace` and
  `strings.EqualFold`, and the UTF-8 byte length that Go's `len` measures.
- `Headers` (`headers.dfy`): `getHeaderValue`.
- `Contact` (`contact.dfy`): `ContactRequest`, the part fold, the three
  validation rules and `parseMultipartContact`.
- `Responses` (`responses.dfy`): `errorResponse` and the success response.
- `Handler` (`handler.dfy`): the stored item, the notification mail and
  `handler` itself.

Facts about `lambda/main.go` the model follows:

- The only body format is multipart/form-data. No JSON body is decoded.
- The token is read from the form name `recaptchaToken`. A part named
  `verificationToken` is ignored, so the submission is refused as incomplete
  (`Contact.VerificationTokenNameIgnored`).
- Lines 108 and 111 read `result.email` and `result.message` in lower case.
  Those are not fields of `ContactRequest`, so the file does not compile as
  written. The model uses the evident intent, the `Email` and `Message`
  fields, and `Contact.Validate` says so in a comment.
- Field lengths are byte lengths (UTF-8), as Go's `len` counts them.
  Character counts are not used.

## Model

| member | source | states |
|---|---|---|
| Text.TrimSpace | lambda/main.go:90 | The result is a contiguous slice of the input with only white space cut from either end and no white space left at either end. |
| Text.TrimUnique | lambda/main.go:90 | At most one string fits that description, so `TrimSpace` is fully determined by it. |
| Text.TrimIdempotent | lambda/main.go:90 | Trimming an already trimmed value changes nothing. |
| Text.TrimEmptyIffAllSpace | lambda/main.go:90 | A value trims to the empty string exactly when it consists only of white space. |
| Text.IsSpaceIsWhiteSpace | lambda/main.go:90 | The white space `TrimSpace` cuts is exactly the set of characters with the Unicode White_Space property: Go's Latin-1 shortcut agrees with the property table. |
| Text.EqualFoldAscii | lambda/main.go:67 | On ASCII text, case-insensitive equality under any folding that treats ASCII as Unicode does is equality after mapping `A`..`Z` to `a`..`z`, in both directions. |
| Text.EncodeChar | lambda/main.go:108-112 | One character takes 1 byte below U+0080, 2 bytes below U+0800, 3 bytes below U+10000 and 4 bytes above, each exactly in its range. An ASCII character is its own byte. |
| Text.Utf8 | lambda/main.go:108-112 | The bytes of a string number at least its characters and at most four times as many. |
| Text.Utf8Append | lambda/main.go:108-112 | The bytes of a concatenation are the bytes of the first part followed by the bytes of the second. |
| Text.ByteLength | lambda/main.go:108-112 | Go's `len` lies between the number of characters and four times it. For a single character it is that character's encoded width. |
| Text.ByteLengthAppend | lambda/main.go:108-112 | The byte length of a concatenation is the sum of the byte lengths. |
| Text.AsciiByteLength | lambda/main.go:108-112 | ASCII text is one byte per character. |
| Text.ThreeByteLength | lambda/main.go:108-112 | Text from U+0800 to U+FFFF, such as kana and kanji, is three bytes per character. |
| Headers.FirstFoldMatch | lambda/main.go:122-126 | The range loop returns the value of a key that equals the query under case folding. It finds nothing only when no enumerated key matches. |
| Headers.GetHeaderValue | lambda/main.go:118-128 | An exact key returns its own value. Otherwise the result is the value of some key that equals the query under case folding. When no key matches, the result is `""`. |
| Headers.UniqueMatchIgnoresOrder | lambda/main.go:118-128 | With no exact key and a single case-insensitive match, the map's iteration order does not affect the result. |
| Headers.LowercaseContentTypeFound | lambda/main.go:118-128 | When the only header is a lower-case `content-type`, looking up `Content-Type` returns its value in every iteration order. |
| Contact.FieldOf | lambda/main.go:91-102 | The switch selects a field exactly when the form name is that field's name (`name`, `email`, `subject`, `message`, `recaptchaToken`). It is the inverse of `FormName`. |
| Contact.Assign | lambda/main.go:90-102 | One part sets exactly the field its form name selects, to the trimmed value. An unrecognised name leaves the submission unchanged. |
| Contact.FoldParts | lambda/main.go:78-103 | A field that no part names keeps its starting value. |
| Contact.LastValue | lambda/main.go:78-103 | The value found is that of a part with the given name after which no part has that name. There is none exactly when no part has that name. |
| Contact.FoldLastWins | lambda/main.go:76-103 | After the loop, each field holds the trimmed value of the last part with its form name. With no such part, the field keeps its starting value. Later parts overwrite earlier ones. |
| Contact.FormPartsRoundTrip | lambda/main.go:76-103 | Sending each field once, already trimmed, gives back the same submission. |
| Contact.Validate | lambda/main.go:105-115 | A submission passes exactly when every field is non-empty, the email is at most 256 bytes and the message is at most 2000 bytes. On success it is returned unchanged. The rules apply in order: missing fields first, then email length, then message length. |
| Contact.MessageBoundIsBytes | lambda/main.go:111-113 | More than 2000 characters of message is always too long. 2000 ASCII characters always fit. |
| Contact.WideEmailRefused | lambda/main.go:108-110 | An email address of 86 kana or kanji is 258 bytes and is refused, although it has fewer than 256 characters. |
| Contact.BlankFieldRefused | lambda/main.go:90-106 | A field whose last part is only white space, or that no part supplies, makes the submission fail as "required fields missing". |
| Contact.Payload | lambda/main.go:49-56 | Without the base64 flag the body is used as it is. With the flag, the payload is the decoder's result, and only the decoder can fail. |
| Contact.FormBoundary | lambda/main.go:58-73 | The checks fail in order: no Content-Type, a value that does not parse, a media type other than multipart/form-data, no boundary. Otherwise the result is the boundary parameter. |
| Contact.MixedCaseFormData | lambda/main.go:67 | The media type `Multipart/Form-Data` is accepted. |
| Contact.NearMissRefused | lambda/main.go:67 | The media type `multipart/form-date` is refused, so the comparison ignores case and nothing else. |
| Contact.ParseMultipartContact | lambda/main.go:48-116 | The failures come in source order: base64 decoding, empty Content-Type, media type that does not parse, media type other than multipart/form-data (case-insensitive), missing boundary, reader failure. After these, the result equals validation of the fold of the parts. Any success satisfies the validation rules. |
| Contact.RawBodyIgnoresDecoder | lambda/main.go:49-56 | When the base64 flag is clear, the raw body is used and the decoder is never consulted. |
| Contact.Base64Transparent | lambda/main.go:49-56 | When the flag is set and the body decodes, parsing behaves exactly as if the decoded bytes had arrived unencoded. |
| Contact.SampleSubmissionParses | lambda/main.go:48-116 | A base64-encoded body with boundary X and parts name=Alice, email=a@example.com, subject=Hi, message=Hello and recaptchaToken=tok123 yields exactly those values. |
| Contact.VerificationTokenNameIgnored | lambda/main.go:100-106 | A token sent under the form name `verificationToken` is not read, so the submission fails as incomplete. |
| Responses.ErrorResponse | lambda/main.go:233-242 | The response has the given status and exactly the headers `Content-Type: application/json` and `Access-Control-Allow-Origin: *`. Its body has the shape `{"error": "<msg>"}`, the message reads back unchanged, and it is not a success body. |
| Responses.SuccessResponse | lambda/main.go:223-230 | The response has status 200 and the same two headers. Its body has the shape `{"message":"…"}`, the acceptance text reads back from it, and it is not an error body. |
| Handler.ToItem | lambda/main.go:178-187 | The item has exactly the keys `id`, `name`, `email`, `subject`, `message` and `received_at`. The record reads back from it unchanged. |
| Handler.NotificationSubject | lambda/main.go:200-202 | The subject is `【お問い合わせ】` followed by the submitted subject. The submitted subject reads back unchanged. |
| Handler.NotificationBody | lambda/main.go:203-214 | The body is the greeting, then the name, email, subject and time-received lines, each with its label, one after another, then the message heading, the message and one newline. Every field reads back at its offset. |
| Handler.Notification | lambda/main.go:194-218 | The mail goes from the configured sender to the configured recipient only. Replies go to the submitter's email. The subject is the prefixed subject, and the body is the labelled body of the record. |
| Handler.Handle | lambda/main.go:156-231 | The effects are a prefix of load, verify, put, send, each at most once. Every response carries the JSON headers. The status is 200 exactly when every stage succeeds. An item is put exactly when configuration, parsing and verification succeeded. A mail is sent exactly when the put also succeeded. |
| Handler.Pipeline | lambda/main.go:157-231 | The same guarantees as `Handler.Handle`, stated for a given parse result: the linear trace, the JSON headers, 200 exactly when every stage succeeds, put exactly after a successful parse and verification, send exactly after a successful put. |
| Handler.ConfigFailureComesFirst | lambda/main.go:157-160 | A configuration failure gives 500 with the configuration message, for every request. Only the configuration load is attempted. |
| Handler.ParseFailureCollapses | lambda/main.go:165-168 | Any parse or validation failure gives the single 400 message `リクエストの解析に失敗しました`, whatever the cause. Nothing after the configuration load is attempted. |
| Handler.VerificationFailureStops | lambda/main.go:170-173 | A refused token gives 400 after one verification call. That call carries the configured secret and the submitted token. Nothing is stored or sent. |
| Handler.StoreFailureStops | lambda/main.go:178-191 | A failed put gives 500, and no mail is sent. |
| Handler.SendFailureKeepsItem | lambda/main.go:194-221 | A failed send gives 500 after the put already happened. Nothing is rolled back. |
| Handler.AcceptedSubmissionSucceeds | lambda/main.go:223-230 | When every stage succeeds, the response is the 200 success response, after exactly one put and one send. |
| Handler.StatusClasses | lambda/main.go:156-231 | The status is always 200, 400 or 500. It is 400 exactly when configuration loaded and then parsing or verification failed. |
| Handler.StoredItemContents | lambda/main.go:175-188 | The put goes to the configured table. It holds the parsed name, email, subject and message with the generated id and timestamp, under exactly the six item keys. The token is not stored. |
| Handler.NotificationContents | lambda/main.go:194-218 | The mail sent has the configured sender and recipient, reply-to set to the submitter's email, the prefixed subject, and the labelled body of the stored record, with its generated timestamp. |
| Handler.DistinctIdsDistinctItems | lambda/main.go:175-188 | The same request handled twice with different generated ids puts two different items. The handler is not idempotent. |

## Left out

- Library internals are abstract values of the `Library` datatype, not
  modelled: base64 decoding (section 4 of RFC 4648), `mime.ParseMediaType`
  (section 5.1 of RFC 2045) and the `mime/multipart` reader (RFC 7578,
  section 5.1.1 of RFC 2046). Any error from `NextPart` or `io.ReadAll`
  collapses into a failed read, because the partial fold is discarded in the
  source as well.
- Unicode simple case folding (`unicode.SimpleFold` tables) is a parameter
  `fold`. `strings.EqualFold` is modelled as rune-by-rune equality under it.
  Its behaviour on ASCII is pinned by `Text.AsciiFold`, which the lemmas
  about mixed-case header names and media types assume. Folds involving
  characters outside ASCII (for example the Kelvin sign and `k`) are left
  abstract.
- Invalid UTF-8 is not represented. Part values and header strings are
  sequences of Unicode scalar values, and byte lengths are lengths of their
  UTF-8 encoding.
- Go's map iteration order is an input (`order`) that must list exactly the
  header keys. It is not chosen nondeterministically.
- The AWS SDK calls (`config.LoadDefaultConfig`, DynamoDB `PutItem`, SES
  `SendEmail`) are network clients. Only their success or failure is
  modelled, as `World` flags. The attempted calls are recorded in the trace.
- `verifyRecaptcha` (the HTTP POST and JSON decoding) is network I/O. Its
  result is the boolean `World.recaptchaPasses`. The function fails closed:
  a transport error or an unreadable reply counts as `false`.
- `uuid.New()` and `time.Now()` are nondeterministic. They are the inputs
  `World.recordId` and `World.receivedAt`, and RFC 3339 formatting is not
  modelled.
- The `os.Getenv` globals are an immutable `Config` value.
- `lambda.Start`, `main` and the log lines are host wiring and are left out.
- The Go handler's error result is always nil, so it is not modelled.
- `fmt.Sprintf` is modelled only as string concatenation. The error body
  does not escape the message, and every message passed is a fixed text
  without quotes.
- `lib/receive-contact-stack.ts` and `bin/project-root.ts` are CDK
  infrastructure declarations with no runtime logic.
