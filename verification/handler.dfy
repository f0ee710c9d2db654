/** The request handler: a strictly linear pipeline
    config -> parse -> verify -> store -> notify -> 200,
    where each stage can fail and ends the request with a fixed
    `(status, message)` response.

    The outside world is fixed in advance by a `World` value: whether the
    AWS configuration loads, whether reCAPTCHA verification passes, whether
    the DynamoDB put and the SES send succeed, and the generated id and
    timestamp. The effects the handler attempts are returned as a trace. */
module Handler {
  import opened Results
  import opened Text
  import opened Headers
  import opened Contact
  import opened Responses

  /** The environment-provided settings. */
  datatype Config = Config(
    tableName: string, fromEmail: string, toEmail: string, region: string, recaptchaSecretKey: string)

  /** The answers of the outside world for one invocation. `recaptchaPasses`
      is what `verifyRecaptcha` returns: that function fails closed, so a
      transport error or an unreadable reply is `false` here. `recordId`
      stands for `uuid.New()` and `receivedAt` for the RFC 3339 form of
      `time.Now()` in UTC. */
  datatype World = World(
    configLoads: bool, recaptchaPasses: bool, putSucceeds: bool, sendSucceeds: bool,
    recordId: string, receivedAt: string)

  /** One accepted submission as it is persisted. The token is not kept. */
  datatype StoredRecord = StoredRecord(
    id: string, name: string, email: string, subject: string, message: string, receivedAt: string)

  function NewRecord(id: string, data: ContactRequest, receivedAt: string): StoredRecord
  {
    StoredRecord(id, data.name, data.email, data.subject, data.message, receivedAt)
  }

  const ItemKeys: set<string> := {"id", "name", "email", "subject", "message", "received_at"}

  /** Reads a DynamoDB item back into a record, if it has exactly the item
      keys. */
  function FromItem(item: map<string, string>): Option<StoredRecord>
  {
    if item.Keys == ItemKeys then
      Some(StoredRecord(item["id"], item["name"], item["email"], item["subject"], item["message"],
                        item["received_at"]))
    else None
  }

  /** The DynamoDB item (all attributes strings): exactly the item keys,
      from which the record reads back unchanged. */
  function ToItem(rec: StoredRecord): (item: map<string, string>)
    ensures item.Keys == ItemKeys
    ensures FromItem(item) == Some(rec)
  {
    map["id" := rec.id, "name" := rec.name, "email" := rec.email, "subject" := rec.subject,
        "message" := rec.message, "received_at" := rec.receivedAt]
  }

  /** The SES message. */
  datatype EmailMessage = EmailMessage(
    source: string, toAddresses: seq<string>, subject: string, body: string, replyToAddresses: seq<string>)

  const SubjectPrefix: string := "【お問い合わせ】"

  /** The notification subject: the fixed prefix, then the submitted
      subject, which reads back unchanged. */
  function NotificationSubject(subject: string): (r: string)
    ensures |r| == |SubjectPrefix| + |subject|
    ensures r[..|SubjectPrefix|] == SubjectPrefix
    ensures r[|SubjectPrefix|..] == subject
  {
    SubjectPrefix + subject
  }

  const BodyIntro: string := "お問い合わせを受け付けました。\n\n■ 名前："
  const EmailLabel: string := "\n■ メール："
  const SubjectLabel: string := "\n■ 件名："
  const ReceivedLabel: string := "\n■ 送信日時："
  const MessageHeading: string := "\n\n--- メッセージ ---\n"

  /** `x` sits at offset `|p|` of `p + x + q`. */
  lemma PieceAt(p: string, x: string, q: string)
    ensures (p + x + q)[|p|..|p| + |x|] == x
  {
  }

  /** The plain-text notification body, one labelled line per record field
      in the order name, email, subject, time received, then the message
      under its heading and a final newline. Each line sits right after
      the previous one, so every field reads back at a known offset. */
  function NotificationBody(rec: StoredRecord): (r: string)
    ensures |r| == |BodyIntro| + |rec.name| + |EmailLabel| + |rec.email| + |SubjectLabel| + |rec.subject|
                   + |ReceivedLabel| + |rec.receivedAt| + |MessageHeading| + |rec.message| + 1
    ensures r[..|BodyIntro|] == BodyIntro
    ensures r[|BodyIntro|..|BodyIntro| + |rec.name|] == rec.name
    ensures var o := |BodyIntro| + |rec.name|;
      r[o..o + |EmailLabel| + |rec.email|] == EmailLabel + rec.email
    ensures var o := |BodyIntro| + |rec.name| + |EmailLabel| + |rec.email|;
      r[o..o + |SubjectLabel| + |rec.subject|] == SubjectLabel + rec.subject
    ensures var o := |BodyIntro| + |rec.name| + |EmailLabel| + |rec.email| + |SubjectLabel| + |rec.subject|;
      r[o..o + |ReceivedLabel| + |rec.receivedAt|] == ReceivedLabel + rec.receivedAt
    ensures r[|r| - |MessageHeading| - |rec.message| - 1..] == MessageHeading + rec.message + "\n"
  {
    var intro, name := BodyIntro, rec.name;
    var email := EmailLabel + rec.email;
    var subject := SubjectLabel + rec.subject;
    var received := ReceivedLabel + rec.receivedAt;
    var message := MessageHeading + rec.message + "\n";
    var r := intro + name + email + subject + received + message;
    PieceAt([], intro, name + email + subject + received + message);
    PieceAt(intro, name, email + subject + received + message);
    PieceAt(intro + name, email, subject + received + message);
    PieceAt(intro + name + email, subject, received + message);
    PieceAt(intro + name + email + subject, received, message);
    PieceAt(intro + name + email + subject + received, message, []);
    r
  }

  /** The notification: from the configured sender to the configured
      recipient, replies going to the submitter, with the prefixed subject
      and the labelled body of the record. */
  function Notification(cfg: Config, rec: StoredRecord): (m: EmailMessage)
    ensures m.source == cfg.fromEmail
    ensures m.toAddresses == [cfg.toEmail]
    ensures m.replyToAddresses == [rec.email]
    ensures m.subject == SubjectPrefix + rec.subject
    ensures m.body == NotificationBody(rec)
  {
    EmailMessage(cfg.fromEmail, [cfg.toEmail], NotificationSubject(rec.subject), NotificationBody(rec), [rec.email])
  }

  /** The external effects the handler attempts. */
  datatype Effect =
    | LoadConfig(region: string)
    | VerifyRecaptcha(secret: string, token: string)
    | PutItem(tableName: string, item: map<string, string>)
    | SendEmail(message: EmailMessage)

  /** Position of each effect in the pipeline. */
  function Rank(e: Effect): nat
  {
    match e
    case LoadConfig(_) => 0
    case VerifyRecaptcha(_, _) => 1
    case PutItem(_, _) => 2
    case SendEmail(_) => 3
  }

  /** Each effect at most once, in pipeline order, starting with the
      configuration load: the trace is a prefix of load, verify, put, send. */
  predicate Linear(trace: seq<Effect>)
  {
    1 <= |trace| <= 4 && forall i :: 0 <= i < |trace| ==> Rank(trace[i]) == i
  }

  predicate Stored(trace: seq<Effect>)
  {
    exists i :: 0 <= i < |trace| && trace[i].PutItem?
  }

  predicate Notified(trace: seq<Effect>)
  {
    exists i :: 0 <= i < |trace| && trace[i].SendEmail?
  }

  const ConfigLoadFailed: string := "AWS設定の読み込みに失敗しました"
  const ParseFailed: string := "リクエストの解析に失敗しました"
  const RecaptchaFailed: string := "reCAPTCHA認証に失敗しました"
  const StoreFailed: string := "DynamoDB保存に失敗しました"
  const SendFailed: string := "メール送信に失敗しました"

  /** What one invocation produces: the response and the effects attempted.
      The Go handler's error result is always nil and is not modelled. */
  datatype Outcome = Outcome(response: Response, trace: seq<Effect>)

  /** The stages of `handler` once the request has been parsed to `parsed`
      (or the parse was not reached, when the configuration fails). */
  function Pipeline(cfg: Config, world: World, parsed: Result<ContactRequest, ParseError>): (out: Outcome)
    ensures Linear(out.trace)
    ensures HasJsonHeaders(out.response)
    ensures out.response.statusCode == 200 <==>
      world.configLoads && parsed.Ok? && world.recaptchaPasses && world.putSucceeds && world.sendSucceeds
    ensures Stored(out.trace) <==> world.configLoads && parsed.Ok? && world.recaptchaPasses
    ensures Notified(out.trace) <==> Stored(out.trace) && world.putSucceeds
  {
    var load := [LoadConfig(cfg.region)];
    if !world.configLoads then Outcome(ErrorResponse(ConfigLoadFailed, 500), load)
    else match parsed
      case Err(_) => Outcome(ErrorResponse(ParseFailed, 400), load)
      case Ok(data) =>
        var verify := load + [VerifyRecaptcha(cfg.recaptchaSecretKey, data.recaptchaToken)];
        if !world.recaptchaPasses then Outcome(ErrorResponse(RecaptchaFailed, 400), verify)
        else
          var rec := NewRecord(world.recordId, data, world.receivedAt);
          var put := verify + [PutItem(cfg.tableName, ToItem(rec))];
          assert put[2].PutItem?;
          if !world.putSucceeds then Outcome(ErrorResponse(StoreFailed, 500), put)
          else
            var send := put + [SendEmail(Notification(cfg, rec))];
            assert send[2].PutItem? && send[3].SendEmail?;
            if !world.sendSucceeds then Outcome(ErrorResponse(SendFailed, 500), send)
            else Outcome(SuccessResponse(), send)
  }

  /** `handler`: load the configuration, parse, then run the remaining
      stages. The parse has no effects of its own. */
  function Handle(cfg: Config, lib: Library, req: Request, order: seq<string>, world: World): (out: Outcome)
    requires Enumerates(order, req.headers)
    ensures Linear(out.trace)
    ensures HasJsonHeaders(out.response)
    ensures out.response.statusCode == 200 <==>
      world.configLoads && ParseMultipartContact(lib, req, order).Ok?
      && world.recaptchaPasses && world.putSucceeds && world.sendSucceeds
    ensures Stored(out.trace) <==>
      world.configLoads && ParseMultipartContact(lib, req, order).Ok? && world.recaptchaPasses
    ensures Notified(out.trace) <==> Stored(out.trace) && world.putSucceeds
  {
    Pipeline(cfg, world, ParseMultipartContact(lib, req, order))
  }

  /** A configuration failure answers 500 before the request is looked at:
      the outcome is the same for every request. */
  lemma ConfigFailureComesFirst(cfg: Config, lib: Library, req: Request, order: seq<string>, world: World)
    requires Enumerates(order, req.headers) && !world.configLoads
    ensures Handle(cfg, lib, req, order, world)
         == Outcome(ErrorResponse(ConfigLoadFailed, 500), [LoadConfig(cfg.region)])
  {
  }

  /** Every parse or validation failure, whatever its cause, is the same 400
      response, and nothing after the configuration load is attempted. */
  lemma ParseFailureCollapses(cfg: Config, lib: Library, req: Request, order: seq<string>, world: World)
    requires Enumerates(order, req.headers) && world.configLoads
    requires ParseMultipartContact(lib, req, order).Err?
    ensures Handle(cfg, lib, req, order, world)
         == Outcome(ErrorResponse(ParseFailed, 400), [LoadConfig(cfg.region)])
  {
  }

  /** A refused token answers 400 after the verification call, which carries
      the configured secret and the submitted token; nothing is stored or
      sent. */
  lemma VerificationFailureStops(cfg: Config, lib: Library, req: Request, order: seq<string>, world: World)
    requires Enumerates(order, req.headers) && world.configLoads && !world.recaptchaPasses
    requires ParseMultipartContact(lib, req, order).Ok?
    ensures var data := ParseMultipartContact(lib, req, order).value;
      Handle(cfg, lib, req, order, world)
      == Outcome(ErrorResponse(RecaptchaFailed, 400),
                 [LoadConfig(cfg.region), VerifyRecaptcha(cfg.recaptchaSecretKey, data.recaptchaToken)])
  {
  }

  /** A failed put answers 500 and no mail is sent. */
  lemma StoreFailureStops(cfg: Config, lib: Library, req: Request, order: seq<string>, world: World)
    requires Enumerates(order, req.headers)
    requires world.configLoads && world.recaptchaPasses && !world.putSucceeds
    requires ParseMultipartContact(lib, req, order).Ok?
    ensures var out := Handle(cfg, lib, req, order, world);
      && out.response == ErrorResponse(StoreFailed, 500)
      && Stored(out.trace) && !Notified(out.trace)
  {
  }

  /** A failed send answers 500 although the item was already put: nothing
      is rolled back. */
  lemma SendFailureKeepsItem(cfg: Config, lib: Library, req: Request, order: seq<string>, world: World)
    requires Enumerates(order, req.headers)
    requires world.configLoads && world.recaptchaPasses && world.putSucceeds && !world.sendSucceeds
    requires ParseMultipartContact(lib, req, order).Ok?
    ensures var out := Handle(cfg, lib, req, order, world);
      && out.response == ErrorResponse(SendFailed, 500)
      && |out.trace| == 4 && out.trace[2].PutItem? && out.trace[3].SendEmail?
  {
  }

  /** A valid, verified submission whose put and send succeed gets the 200
      response after exactly one put and one send. */
  lemma AcceptedSubmissionSucceeds(cfg: Config, lib: Library, req: Request, order: seq<string>, world: World)
    requires Enumerates(order, req.headers)
    requires world.configLoads && world.recaptchaPasses && world.putSucceeds && world.sendSucceeds
    requires ParseMultipartContact(lib, req, order).Ok?
    ensures var out := Handle(cfg, lib, req, order, world);
      && out.response == SuccessResponse()
      && |out.trace| == 4 && out.trace[2].PutItem? && out.trace[3].SendEmail?
  {
  }

  /** The statuses: 500 for configuration, store and send failures, 400 for
      parse and verification failures, 200 otherwise. */
  lemma StatusClasses(cfg: Config, lib: Library, req: Request, order: seq<string>, world: World)
    requires Enumerates(order, req.headers)
    ensures var status := Handle(cfg, lib, req, order, world).response.statusCode;
      && status in {200, 400, 500}
      && (status == 400 <==>
            world.configLoads
            && (ParseMultipartContact(lib, req, order).Err? || !world.recaptchaPasses))
  {
  }

  /** The item put holds the parsed name, email, subject and message with
      the generated id and timestamp, under exactly the six item keys (the
      token is not among them), in the configured table. */
  lemma StoredItemContents(cfg: Config, lib: Library, req: Request, order: seq<string>, world: World)
    requires Enumerates(order, req.headers)
    requires Stored(Handle(cfg, lib, req, order, world).trace)
    ensures ParseMultipartContact(lib, req, order).Ok?
    ensures var data := ParseMultipartContact(lib, req, order).value;
      var e := Handle(cfg, lib, req, order, world).trace[2];
      && e.PutItem? && e.tableName == cfg.tableName
      && e.item.Keys == ItemKeys
      && FromItem(e.item) == Some(StoredRecord(world.recordId, data.name, data.email, data.subject,
                                              data.message, world.receivedAt))
  {
  }

  /** The mail sent goes from the configured sender to the configured
      recipient, replies go to the submitter, and its subject is the prefix
      followed by the submitted subject. */
  lemma NotificationContents(cfg: Config, lib: Library, req: Request, order: seq<string>, world: World)
    requires Enumerates(order, req.headers)
    requires Notified(Handle(cfg, lib, req, order, world).trace)
    ensures ParseMultipartContact(lib, req, order).Ok?
    ensures var data := ParseMultipartContact(lib, req, order).value;
      var e := Handle(cfg, lib, req, order, world).trace[3];
      && e.SendEmail?
      && e.message.source == cfg.fromEmail && e.message.toAddresses == [cfg.toEmail]
      && e.message.replyToAddresses == [data.email]
      && e.message.subject == SubjectPrefix + data.subject
      && e.message.body == NotificationBody(NewRecord(world.recordId, data, world.receivedAt))
  {
  }

  /** Submitting the same request twice with different generated ids puts
      two different items: the handler is not idempotent. */
  lemma DistinctIdsDistinctItems(cfg: Config, lib: Library, req: Request, order: seq<string>,
                                 world1: World, world2: World)
    requires Enumerates(order, req.headers)
    requires world1.recordId != world2.recordId
    requires Stored(Handle(cfg, lib, req, order, world1).trace)
    requires Stored(Handle(cfg, lib, req, order, world2).trace)
    ensures Handle(cfg, lib, req, order, world1).trace[2] != Handle(cfg, lib, req, order, world2).trace[2]
  {
    StoredItemContents(cfg, lib, req, order, world1);
    StoredItemContents(cfg, lib, req, order, world2);
  }
}
