/** The chat and notification payload schemas: length bounds, the notification
    type enum, and the defaults filled in for absent fields. Fields other than the
    schema's are dropped (a non-strict object). */
module ChatValidators {
  import opened Wrappers
  import opened Json

  const RoomMax := 120
  const UserMax := 80
  const MessageMax := 1000
  const TitleMax := 120
  const BodyMax := 500

  /** A chat message as accepted from a client. */
  datatype SendMessage = SendMessage(room: string, user: string, message: string)

  predicate SendMessageOk(b: Body) {
    StrBetween(b, "room", 1, RoomMax)
    && StrBetween(b, "user", 1, UserMax)
    && StrBetween(b, "message", 1, MessageMax)
  }

  function SendMessageChecks(b: Body): seq<Check> {
    [ Check("room", StrBetween(b, "room", 1, RoomMax)),
      Check("user", StrBetween(b, "user", 1, UserMax)),
      Check("message", StrBetween(b, "message", 1, MessageMax)) ]
  }

  /** `sendMessageSchema.parse`: every field a string within its bounds; the
      issues name exactly the fields that are not. */
  function ParseSendMessage(p: Payload): (r: Result<SendMessage, seq<string>>)
    ensures r.Ok? <==> p.Object? && SendMessageOk(p.fields)
    ensures r.Ok? ==> 1 <= |r.value.room| <= RoomMax && 1 <= |r.value.user| <= UserMax
                      && 1 <= |r.value.message| <= MessageMax
    ensures r.Ok? ==> r.value.room == p.fields["room"].s && r.value.user == p.fields["user"].s
                      && r.value.message == p.fields["message"].s
    ensures r.Err? ==> r.error != []
    ensures r.Err? && p.Object? ==>
      ("room" in r.error <==> !StrBetween(p.fields, "room", 1, RoomMax))
      && ("user" in r.error <==> !StrBetween(p.fields, "user", 1, UserMax))
      && ("message" in r.error <==> !StrBetween(p.fields, "message", 1, MessageMax))
  {
    match p
    case NotObject => Err([""])
    case Object(b) =>
      var issues := Failing(SendMessageChecks(b));
      if issues == [] then
        assert SendMessageChecks(b)[0].ok && SendMessageChecks(b)[1].ok && SendMessageChecks(b)[2].ok;
        Ok(SendMessage(b["room"].s, b["user"].s, b["message"].s))
      else
        assert "room" in issues <==> !StrBetween(b, "room", 1, RoomMax) by {
          assert SendMessageChecks(b)[0].path == "room";
        }
        assert "user" in issues <==> !StrBetween(b, "user", 1, UserMax) by {
          assert SendMessageChecks(b)[1].path == "user";
        }
        assert "message" in issues <==> !StrBetween(b, "message", 1, MessageMax) by {
          assert SendMessageChecks(b)[2].path == "message";
        }
        Err(issues)
  }

  /** The parsed value written back as a payload. */
  function SendMessagePayload(m: SendMessage): Payload {
    Object(map["room" := Str(m.room), "user" := Str(m.user), "message" := Str(m.message)])
  }

  /** Parsing is idempotent: a parsed message parses again to itself. */
  lemma SendMessageReparse(p: Payload)
    requires ParseSendMessage(p).Ok?
    ensures ParseSendMessage(SendMessagePayload(ParseSendMessage(p).value)) == ParseSendMessage(p)
  {
    var m := ParseSendMessage(p).value;
    assert SendMessageOk(SendMessagePayload(m).fields);
  }

  datatype NotifyType = Info | Success | Warning | Error

  function TypeName(t: NotifyType): string {
    match t
    case Info => "info"
    case Success => "success"
    case Warning => "warning"
    case Error => "error"
  }

  /** `z.enum(['info','success','warning','error'])` on a string. */
  function ParseType(s: string): (r: Option<NotifyType>)
    ensures r.Some? <==> s in {"info", "success", "warning", "error"}
    ensures r.Some? ==> TypeName(r.value) == s
  {
    if s == "info" then Some(Info)
    else if s == "success" then Some(Success)
    else if s == "warning" then Some(Warning)
    else if s == "error" then Some(Error)
    else None
  }

  lemma TypeNameRoundTrip(t: NotifyType)
    ensures ParseType(TypeName(t)) == Some(t)
  {
  }

  /** An ad-hoc notification as accepted by `POST /notify`. */
  datatype Notify = Notify(room: string, kind: NotifyType, title: string, body: string)

  predicate TypeOk(b: Body) {
    "type" !in b || (b["type"].Str? && ParseType(b["type"].s).Some?)
  }

  predicate NotifyOk(b: Body) {
    StrBetween(b, "room", 1, RoomMax) && TypeOk(b)
    && StrBetween(b, "title", 1, TitleMax) && OptStrAtMost(b, "body", BodyMax)
  }

  function NotifyChecks(b: Body): seq<Check> {
    [ Check("room", StrBetween(b, "room", 1, RoomMax)),
      Check("type", TypeOk(b)),
      Check("title", StrBetween(b, "title", 1, TitleMax)),
      Check("body", OptStrAtMost(b, "body", BodyMax)) ]
  }

  /** `notifySchema.parse`: bounds on room, title and body, the type enum, and the
      defaults `info` for an absent type and "" for an absent body. */
  function ParseNotify(p: Payload): (r: Result<Notify, seq<string>>)
    ensures r.Ok? <==> p.Object? && NotifyOk(p.fields)
    ensures r.Ok? ==>
      && 1 <= |r.value.room| <= RoomMax && 1 <= |r.value.title| <= TitleMax && |r.value.body| <= BodyMax
      && r.value.room == p.fields["room"].s && r.value.title == p.fields["title"].s
      && (("type" !in p.fields) ==> r.value.kind == Info)
      && (("type" in p.fields) ==> TypeName(r.value.kind) == p.fields["type"].s)
      && (("body" !in p.fields) ==> r.value.body == "")
      && (("body" in p.fields) ==> r.value.body == p.fields["body"].s)
    ensures r.Err? ==> r.error != []
    ensures r.Err? && p.Object? ==>
      ("room" in r.error <==> !StrBetween(p.fields, "room", 1, RoomMax))
      && ("type" in r.error <==> !TypeOk(p.fields)) && ("title" in r.error <==> !StrBetween(p.fields, "title", 1, TitleMax))
      && ("body" in r.error <==> !OptStrAtMost(p.fields, "body", BodyMax))
  {
    match p
    case NotObject => Err([""])
    case Object(b) =>
      var checks := NotifyChecks(b);
      var issues := Failing(checks);
      if issues == [] then
        assert checks[0].ok && checks[1].ok && checks[2].ok && checks[3].ok;
        var kind := if "type" in b then ParseType(b["type"].s).value else Info;
        Ok(Notify(b["room"].s, kind, b["title"].s, StrOr(b, "body", "")))
      else
        assert "room" in issues <==> !StrBetween(b, "room", 1, RoomMax) by { assert checks[0].path == "room"; }
        assert "type" in issues <==> !TypeOk(b) by { assert checks[1].path == "type"; }
        assert "title" in issues <==> !StrBetween(b, "title", 1, TitleMax) by { assert checks[2].path == "title"; }
        assert "body" in issues <==> !OptStrAtMost(b, "body", BodyMax) by { assert checks[3].path == "body"; }
        Err(issues)
  }

  function NotifyPayload(n: Notify): Payload {
    Object(map["room" := Str(n.room), "type" := Str(TypeName(n.kind)), "title" := Str(n.title), "body" := Str(n.body)])
  }

  /** Parsing is idempotent: a parsed notification parses again to itself. */
  lemma NotifyReparse(p: Payload)
    requires ParseNotify(p).Ok?
    ensures ParseNotify(NotifyPayload(ParseNotify(p).value)) == ParseNotify(p)
  {
    var n := ParseNotify(p).value;
    TypeNameRoundTrip(n.kind);
    assert NotifyOk(NotifyPayload(n).fields);
  }
}
