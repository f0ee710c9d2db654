/** Contact extraction and validation (`parseMultipartContact`).

    The library steps the parser delegates to — base64 transport decoding
    (section 4 of RFC 4648), `mime.ParseMediaType` (section 5.1 of RFC 2045)
    and the `mime/multipart` reader (RFC 7578) — are opaque partial
    functions supplied in a `Library` value. The reader yields the form
    parts as `(formName, value)` pairs, or fails. */
module Contact {
  import opened Results
  import opened Text
  import opened Headers

  /** The form fields of a contact submission (`ContactRequest`). */
  datatype ContactRequest = ContactRequest(
    name: string, email: string, subject: string, message: string, recaptchaToken: string)

  /** The zero value the fold starts from. */
  const Blank := ContactRequest("", "", "", "", "")

  /** The five recognised fields. */
  datatype Field = Name | Email | Subject | Message | RecaptchaToken

  /** The multipart form name that fills each field. The token is read from
      `recaptchaToken`. */
  function FormName(f: Field): string
  {
    match f
    case Name => "name"
    case Email => "email"
    case Subject => "subject"
    case Message => "message"
    case RecaptchaToken => "recaptchaToken"
  }

  /** The field a form name selects: the inverse of `FormName`. */
  function FieldOf(formName: string): (r: Option<Field>)
    ensures forall f :: r == Some(f) <==> FormName(f) == formName
  {
    match formName
    case "name" => Some(Name)
    case "email" => Some(Email)
    case "subject" => Some(Subject)
    case "message" => Some(Message)
    case "recaptchaToken" => Some(RecaptchaToken)
    case _ => None
  }

  function Get(c: ContactRequest, f: Field): string
  {
    match f
    case Name => c.name
    case Email => c.email
    case Subject => c.subject
    case Message => c.message
    case RecaptchaToken => c.recaptchaToken
  }

  /** `c` with field `f` replaced by `v` and every other field kept. */
  function With(c: ContactRequest, f: Field, v: string): (c': ContactRequest)
    ensures Get(c', f) == v
    ensures forall g :: g != f ==> Get(c', g) == Get(c, g)
  {
    match f
    case Name => c.(name := v)
    case Email => c.(email := v)
    case Subject => c.(subject := v)
    case Message => c.(message := v)
    case RecaptchaToken => c.(recaptchaToken := v)
  }

  /** One form part as the multipart reader delivers it. */
  datatype Part = Part(formName: string, value: string)

  /** One iteration of the part loop: a recognised form name sets its
      field to the trimmed value, any other name changes nothing. */
  function Assign(c: ContactRequest, p: Part): (c': ContactRequest)
    ensures forall f :: Get(c', f) == if FormName(f) == p.formName then TrimSpace(p.value) else Get(c, f)
  {
    match FieldOf(p.formName)
    case Some(f) => With(c, f, TrimSpace(p.value))
    case None => c
  }

  /** The part loop: the parts applied in the order the reader yields them.
      A field that no part names keeps its starting value; the value of a
      named field is given by `FoldLastWins`. */
  function FoldParts(c: ContactRequest, parts: seq<Part>): (r: ContactRequest)
    ensures forall f :: (forall i :: 0 <= i < |parts| ==> parts[i].formName != FormName(f)) ==> Get(r, f) == Get(c, f)
    decreases |parts|
  {
    if |parts| == 0 then c
    else
      var r := FoldParts(Assign(c, parts[0]), parts[1..]);
      assert forall i :: 0 <= i < |parts| - 1 ==> parts[1..][i] == parts[i + 1];
      r
  }

  /** The raw value of the last part named `formName`, if any. */
  function LastValue(parts: seq<Part>, formName: string): (r: Option<string>)
    ensures r.None? <==> forall i :: 0 <= i < |parts| ==> parts[i].formName != formName
    ensures r.Some? ==> exists i :: && 0 <= i < |parts| && parts[i] == Part(formName, r.value)
                                    && forall j :: i < j < |parts| ==> parts[j].formName != formName
  {
    if |parts| == 0 then None
    else if parts[|parts| - 1].formName == formName then Some(parts[|parts| - 1].value)
    else
      var r := LastValue(parts[..|parts| - 1], formName);
      assert forall i :: 0 <= i < |parts| - 1 ==> parts[..|parts| - 1][i] == parts[i];
      r
  }

  lemma {:induction false} FoldSnoc(c: ContactRequest, parts: seq<Part>, p: Part)
    ensures FoldParts(c, parts + [p]) == Assign(FoldParts(c, parts), p)
    decreases |parts|
  {
    if |parts| == 0 {
      assert [p][1..] == [];
    } else {
      assert (parts + [p])[1..] == parts[1..] + [p];
      FoldSnoc(Assign(c, parts[0]), parts[1..], p);
    }
  }

  /** After the loop every field holds the trimmed value of the LAST part
      carrying its form name, or its starting value when no part does:
      later parts overwrite earlier ones, other names are ignored. */
  lemma {:induction false} FoldLastWins(c: ContactRequest, parts: seq<Part>, f: Field)
    ensures LastValue(parts, FormName(f)).Some? ==>
      Get(FoldParts(c, parts), f) == TrimSpace(LastValue(parts, FormName(f)).value)
    ensures LastValue(parts, FormName(f)).None? ==> Get(FoldParts(c, parts), f) == Get(c, f)
    decreases |parts|
  {
    if |parts| > 0 {
      var init, last := parts[..|parts| - 1], parts[|parts| - 1];
      assert parts == init + [last];
      FoldSnoc(c, init, last);
      FoldLastWins(c, init, f);
    }
  }

  /** The parser's failures, one per `return ContactRequest{}, err`. */
  datatype ParseError =
    | Base64Malformed        // transport decoding failed
    | ContentTypeMissing     // "content type header missing"
    | MediaTypeMalformed     // mime.ParseMediaType failed
    | UnsupportedMediaType   // "unsupported media type"
    | BoundaryMissing        // "boundary not found"
    | MultipartMalformed     // NextPart or ReadAll failed
    | RequiredFieldsMissing  // 必要な項目が不足しています
    | InvalidEmail           // 不正なメールアドレスです
    | MessageTooLong         // メッセージが長すぎます

  const MaxEmailBytes: nat := 256
  const MaxMessageBytes: nat := 2000

  /** Every field is non-empty. */
  predicate Complete(c: ContactRequest)
  {
    forall f :: Get(c, f) != ""
  }

  /** A submission the validation rules let through. */
  predicate Acceptable(c: ContactRequest)
  {
    Complete(c) && ByteLength(c.email) <= MaxEmailBytes && ByteLength(c.message) <= MaxMessageBytes
  }

  /** The three ordered validation rules. The source's bounds read
      `result.email` and `result.message` (lower case), which are not fields
      of `ContactRequest` and do not compile; the evident intent, the
      `Email` and `Message` fields, is what is modelled. */
  function Validate(c: ContactRequest): (r: Result<ContactRequest, ParseError>)
    ensures r.Ok? <==> Acceptable(c)
    ensures r.Ok? ==> r.value == c
    ensures !Complete(c) ==> r == Err(RequiredFieldsMissing)
    ensures Complete(c) && ByteLength(c.email) > MaxEmailBytes ==> r == Err(InvalidEmail)
    ensures Complete(c) && ByteLength(c.email) <= MaxEmailBytes && ByteLength(c.message) > MaxMessageBytes
            ==> r == Err(MessageTooLong)
  {
    assert Get(c, Name) == c.name && Get(c, Email) == c.email && Get(c, Subject) == c.subject
        && Get(c, Message) == c.message && Get(c, RecaptchaToken) == c.recaptchaToken;
    if c.name == "" || c.email == "" || c.subject == "" || c.message == "" || c.recaptchaToken == "" then
      Err(RequiredFieldsMissing)
    else if MaxEmailBytes < ByteLength(c.email) then
      Err(InvalidEmail)
    else if MaxMessageBytes < ByteLength(c.message) then
      Err(MessageTooLong)
    else
      Ok(c)
  }

  /** A parsed Content-Type value. */
  datatype MediaType = MediaType(mediaType: string, params: map<string, string>)

  /** The library behaviour the parser calls into. */
  datatype Library = Library(
    fold: char -> char,                                  // unicode simple case folding
    decodeBase64: seq<byte> -> Option<seq<byte>>,        // base64.StdEncoding.DecodeString
    parseMediaType: string -> Option<MediaType>,         // mime.ParseMediaType
    readParts: (seq<byte>, string) -> Option<seq<Part>>) // multipart.Reader, NextPart and io.ReadAll

  /** The API Gateway proxy request, as far as the parser reads it. */
  datatype Request = Request(headers: map<string, string>, body: seq<byte>, isBase64Encoded: bool)

  /** The payload: the body, transport-decoded when flagged. Only the
      decoder can fail, and without the flag it is not consulted. */
  function Payload(lib: Library, req: Request): (r: Option<seq<byte>>)
    ensures r.None? ==> req.isBase64Encoded
    ensures !req.isBase64Encoded ==> r == Some(req.body)
    ensures req.isBase64Encoded ==> r == lib.decodeBase64(req.body)
  {
    if req.isBase64Encoded then lib.decodeBase64(req.body) else Some(req.body)
  }

  function ContentType(lib: Library, req: Request, order: seq<string>): string
    requires Enumerates(order, req.headers)
  {
    GetHeaderValue(lib.fold, req.headers, order, "Content-Type")
  }

  predicate IsFormData(lib: Library, mt: MediaType)
  {
    EqualFold(lib.fold, mt.mediaType, "multipart/form-data")
  }

  /** The multipart boundary named by the Content-Type header. The checks
      fail in order: no header, a value that does not parse, a media type
      other than multipart/form-data, no `boundary` parameter. */
  function FormBoundary(lib: Library, req: Request, order: seq<string>): (r: Result<string, ParseError>)
    requires Enumerates(order, req.headers)
    ensures ContentType(lib, req, order) == "" ==> r == Err(ContentTypeMissing)
    ensures ContentType(lib, req, order) != "" ==>
      match lib.parseMediaType(ContentType(lib, req, order))
      case None => r == Err(MediaTypeMalformed)
      case Some(mt) =>
        && (!IsFormData(lib, mt) ==> r == Err(UnsupportedMediaType))
        && (IsFormData(lib, mt) && "boundary" !in mt.params ==> r == Err(BoundaryMissing))
        && (IsFormData(lib, mt) && "boundary" in mt.params ==> r == Ok(mt.params["boundary"]))
  {
    var contentType := ContentType(lib, req, order);
    if contentType == "" then Err(ContentTypeMissing)
    else match lib.parseMediaType(contentType)
      case None => Err(MediaTypeMalformed)
      case Some(mt) =>
        if !IsFormData(lib, mt) then Err(UnsupportedMediaType)
        else if "boundary" !in mt.params then Err(BoundaryMissing)
        else Ok(mt.params["boundary"])
  }

  /** `parseMultipartContact`: decode the body, check the media type, fold
      the parts and validate the result. */
  function ParseMultipartContact(lib: Library, req: Request, order: seq<string>)
    : (r: Result<ContactRequest, ParseError>)
    requires Enumerates(order, req.headers)
    ensures req.isBase64Encoded && lib.decodeBase64(req.body).None? ==> r == Err(Base64Malformed)
    ensures Payload(lib, req).Some? ==>
      var contentType := ContentType(lib, req, order);
      && (contentType == "" ==> r == Err(ContentTypeMissing))
      && (contentType != "" && lib.parseMediaType(contentType).None? ==> r == Err(MediaTypeMalformed))
      && (contentType != "" && lib.parseMediaType(contentType).Some? ==>
            var mt := lib.parseMediaType(contentType).value;
            && (!IsFormData(lib, mt) ==> r == Err(UnsupportedMediaType))
            && (IsFormData(lib, mt) && "boundary" !in mt.params ==> r == Err(BoundaryMissing))
            && (IsFormData(lib, mt) && "boundary" in mt.params ==>
                  match lib.readParts(Payload(lib, req).value, mt.params["boundary"])
                  case None => r == Err(MultipartMalformed)
                  case Some(parts) => r == Validate(FoldParts(Blank, parts))))
    ensures r.Ok? ==> Acceptable(r.value)
  {
    match Payload(lib, req)
    case None => Err(Base64Malformed)
    case Some(body) =>
      match FormBoundary(lib, req, order)
      case Err(e) => Err(e)
      case Ok(boundary) =>
        match lib.readParts(body, boundary)
        case None => Err(MultipartMalformed)
        case Some(parts) => Validate(FoldParts(Blank, parts))
  }

  /** The media type comparison ignores ASCII case: `Multipart/Form-Data`
      is accepted. */
  lemma MixedCaseFormData(lib: Library, params: map<string, string>)
    requires AsciiFold(lib.fold)
    ensures IsFormData(lib, MediaType("Multipart/Form-Data", params))
  {
    assert AsciiLowerString("Multipart/Form-Data") == AsciiLowerString("multipart/form-data");
    EqualFoldAscii(lib.fold, "Multipart/Form-Data", "multipart/form-data");
  }

  /** Ignoring case is all the comparison ignores: `multipart/form-date`
      differs in one letter and is refused. */
  lemma NearMissRefused(lib: Library, params: map<string, string>)
    requires AsciiFold(lib.fold)
    ensures !IsFormData(lib, MediaType("multipart/form-date", params))
  {
    assert AsciiLowerString("multipart/form-date")[18] != AsciiLowerString("multipart/form-data")[18];
    EqualFoldAscii(lib.fold, "multipart/form-date", "multipart/form-data");
  }

  /** Without the transport flag the body is used as it is: the decoder is
      never consulted. */
  lemma RawBodyIgnoresDecoder(lib: Library, req: Request, order: seq<string>,
                              decode: seq<byte> -> Option<seq<byte>>)
    requires Enumerates(order, req.headers) && !req.isBase64Encoded
    ensures ParseMultipartContact(lib.(decodeBase64 := decode), req, order)
         == ParseMultipartContact(lib, req, order)
  {
  }

  /** With the transport flag set and a body that decodes, parsing behaves
      exactly as if the decoded bytes had arrived unencoded. */
  lemma Base64Transparent(lib: Library, req: Request, order: seq<string>, decoded: seq<byte>)
    requires Enumerates(order, req.headers)
    requires req.isBase64Encoded && lib.decodeBase64(req.body) == Some(decoded)
    ensures ParseMultipartContact(lib, req, order)
         == ParseMultipartContact(lib, req.(body := decoded, isBase64Encoded := false), order)
  {
  }

  /** A field whose last part holds nothing but white space, or that no part
      names, is missing: the submission is refused before any length rule. */
  lemma {:induction false} BlankFieldRefused(parts: seq<Part>, f: Field)
    requires match LastValue(parts, FormName(f))
             case Some(v) => AllSpace(v)
             case None => true
    ensures Validate(FoldParts(Blank, parts)) == Err(RequiredFieldsMissing)
  {
    FoldLastWins(Blank, parts, f);
    match LastValue(parts, FormName(f))
    case Some(v) => TrimEmptyIffAllSpace(v);
    case None =>
  }

  /** Two submissions with the same value in every field are equal. */
  lemma FieldsDetermine(a: ContactRequest, b: ContactRequest)
    requires forall f :: Get(a, f) == Get(b, f)
    ensures a == b
  {
    assert Get(a, Name) == Get(b, Name) && Get(a, Email) == Get(b, Email);
    assert Get(a, Subject) == Get(b, Subject) && Get(a, Message) == Get(b, Message);
    assert Get(a, RecaptchaToken) == Get(b, RecaptchaToken);
  }

  /** A part carrying a field's form name and an unpadded value stores the
      value as it is. */
  lemma AssignUnpadded(c: ContactRequest, f: Field, v: string)
    requires Unpadded(v)
    ensures Assign(c, Part(FormName(f), v)) == With(c, f, v)
  {
    TrimKeepsUnpadded(v);
    FieldsDetermine(Assign(c, Part(FormName(f), v)), With(c, f, v));
  }

  lemma FoldFive(c: ContactRequest, p0: Part, p1: Part, p2: Part, p3: Part, p4: Part)
    ensures FoldParts(c, [p0, p1, p2, p3, p4]) == Assign(Assign(Assign(Assign(Assign(c, p0), p1), p2), p3), p4)
  {
    var c1 := Assign(c, p0);
    var c2 := Assign(c1, p1);
    var c3 := Assign(c2, p2);
    var c4 := Assign(c3, p3);
    assert [p0, p1, p2, p3, p4][1..] == [p1, p2, p3, p4];
    assert [p1, p2, p3, p4][1..] == [p2, p3, p4];
    assert [p2, p3, p4][1..] == [p3, p4];
    assert [p3, p4][1..] == [p4];
    assert FoldParts(c4, [p4]) == Assign(c4, p4);
    assert FoldParts(c3, [p3, p4]) == FoldParts(c4, [p4]);
    assert FoldParts(c2, [p2, p3, p4]) == FoldParts(c3, [p3, p4]);
    assert FoldParts(c1, [p1, p2, p3, p4]) == FoldParts(c2, [p2, p3, p4]);
  }

  /** The five form parts a browser sends for `c`, the token under
      `tokenName`. */
  function FormParts(c: ContactRequest, tokenName: string): seq<Part>
  {
    [Part("name", c.name), Part("email", c.email), Part("subject", c.subject),
     Part("message", c.message), Part(tokenName, c.recaptchaToken)]
  }

  /** Sending each field of `c` once, already trimmed, reproduces `c`. */
  lemma FormPartsRoundTrip(c: ContactRequest)
    requires forall f :: Unpadded(Get(c, f))
    ensures FoldParts(Blank, FormParts(c, "recaptchaToken")) == c
  {
    var c1 := With(Blank, Name, c.name);
    var c2 := With(c1, Email, c.email);
    var c3 := With(c2, Subject, c.subject);
    var c4 := With(c3, Message, c.message);
    assert Get(c, Name) == c.name && Get(c, Email) == c.email && Get(c, Subject) == c.subject
        && Get(c, Message) == c.message && Get(c, RecaptchaToken) == c.recaptchaToken;
    AssignUnpadded(Blank, Name, c.name);
    AssignUnpadded(c1, Email, c.email);
    AssignUnpadded(c2, Subject, c.subject);
    AssignUnpadded(c3, Message, c.message);
    AssignUnpadded(c4, RecaptchaToken, c.recaptchaToken);
    FoldFive(Blank, Part("name", c.name), Part("email", c.email), Part("subject", c.subject),
             Part("message", c.message), Part("recaptchaToken", c.recaptchaToken));
    FieldsDetermine(With(c4, RecaptchaToken, c.recaptchaToken), c);
  }

  /** A form-data request whose reader yields `parts` yields exactly what
      validation makes of their fold. */
  lemma ParseOfFormData(lib: Library, req: Request, order: seq<string>,
                        body: seq<byte>, mt: MediaType, parts: seq<Part>)
    requires Enumerates(order, req.headers)
    requires Payload(lib, req) == Some(body)
    requires ContentType(lib, req, order) != ""
    requires lib.parseMediaType(ContentType(lib, req, order)) == Some(mt)
    requires IsFormData(lib, mt) && "boundary" in mt.params
    requires lib.readParts(body, mt.params["boundary"]) == Some(parts)
    ensures ParseMultipartContact(lib, req, order) == Validate(FoldParts(Blank, parts))
  {
  }

  const Sample := ContactRequest("Alice", "a@example.com", "Hi", "Hello", "tok123")

  lemma SampleFolds()
    ensures FoldParts(Blank, FormParts(Sample, "recaptchaToken")) == Sample
  {
    assert Unpadded(Sample.name) && Unpadded(Sample.email) && Unpadded(Sample.subject)
        && Unpadded(Sample.message) && Unpadded(Sample.recaptchaToken);
    assert forall f :: Unpadded(Get(Sample, f));
    FormPartsRoundTrip(Sample);
  }

  lemma SampleAcceptable()
    ensures Acceptable(Sample)
  {
    assert Get(Sample, Name) != "";
  }

  /** A base64-encoded body declared `multipart/form-data; boundary=X` whose
      parts are name=Alice, email=a@example.com, subject=Hi, message=Hello
      and recaptchaToken=tok123 yields exactly those five values. */
  lemma SampleSubmissionParses(lib: Library, req: Request, order: seq<string>, decoded: seq<byte>)
    requires Enumerates(order, req.headers)
    requires req.isBase64Encoded && lib.decodeBase64(req.body) == Some(decoded)
    requires "Content-Type" in req.headers
    requires req.headers["Content-Type"] == "multipart/form-data; boundary=X"
    requires lib.parseMediaType("multipart/form-data; boundary=X")
          == Some(MediaType("multipart/form-data", map["boundary" := "X"]))
    requires lib.readParts(decoded, "X") == Some(FormParts(Sample, "recaptchaToken"))
    ensures ParseMultipartContact(lib, req, order) == Ok(Sample)
  {
    var mt := MediaType("multipart/form-data", map["boundary" := "X"]);
    assert Payload(lib, req) == Some(decoded);
    assert ContentType(lib, req, order) == "multipart/form-data; boundary=X";
    assert IsFormData(lib, mt);
    ParseOfFormData(lib, req, order, decoded, mt, FormParts(Sample, "recaptchaToken"));
    SampleFolds();
    SampleAcceptable();
  }

  /** The same parts with the token sent under the form name
      `verificationToken` leave the token empty, so the submission is
      refused: only `recaptchaToken` is read. */
  lemma VerificationTokenNameIgnored(c: ContactRequest)
    ensures Validate(FoldParts(Blank, FormParts(c, "verificationToken"))) == Err(RequiredFieldsMissing)
  {
    var parts := FormParts(c, "verificationToken");
    assert LastValue(parts, FormName(RecaptchaToken)).None? by {
      assert forall i :: 0 <= i < |parts| ==> parts[i].formName != "recaptchaToken";
    }
    BlankFieldRefused(parts, RecaptchaToken);
  }

  /** Bounds are on bytes, not characters: more than 2000 characters of
      message is always too long, and a message of 2000 characters within
      ASCII always fits. */
  lemma MessageBoundIsBytes(c: ContactRequest)
    requires Complete(c) && ByteLength(c.email) <= MaxEmailBytes
    ensures |c.message| > MaxMessageBytes ==> Validate(c) == Err(MessageTooLong)
    ensures |c.message| <= MaxMessageBytes && (forall k :: 0 <= k < |c.message| ==> c.message[k] < '\U{80}')
            ==> Validate(c) == Ok(c)
  {
    if forall k :: 0 <= k < |c.message| ==> c.message[k] < '\U{80}' {
      AsciiByteLength(c.message);
    }
  }

  /** An email address of 86 characters written in kana or kanji takes 258
      bytes, so it is refused although it has far fewer than 256
      characters. */
  lemma WideEmailRefused(c: ContactRequest)
    requires Complete(c) && |c.email| == 86
    requires forall k :: 0 <= k < |c.email| ==> '\U{800}' <= c.email[k] <= '\U{FFFF}'
    ensures Validate(c) == Err(InvalidEmail)
  {
    ThreeByteLength(c.email);
  }
}
