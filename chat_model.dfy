/** The stored chat message: required room, user (at most 80 characters) and
    message (at most 1000), with creation and update timestamps. */
module ChatModel {
  import opened Wrappers
  import opened Json
  import CV = ChatValidators

  const UserMaxLength := 80
  const MessageMaxLength := 1000

  datatype ChatMessage = ChatMessage(
    id: nat, room: string, user: string, message: string, createdAt: int, updatedAt: int)

  /** The schema's validators: `required` refuses the empty string, `maxlength` bounds the rest. */
  predicate Storable(room: string, user: string, message: string) {
    room != "" && user != "" && |user| <= UserMaxLength && message != "" && |message| <= MessageMaxLength
  }

  /** What every stored message satisfies. */
  predicate Valid(m: ChatMessage) {
    Storable(m.room, m.user, m.message) && m.updatedAt == m.createdAt
  }

  /** `ChatMessage.create`: validate, then stamp both timestamps with the current time. */
  function Create(id: nat, room: string, user: string, message: string, now: int): (r: Result<ChatMessage, seq<string>>)
    ensures r.Ok? <==> Storable(room, user, message)
    ensures r.Ok? ==> Valid(r.value) && r.value.createdAt == now && r.value.updatedAt == now
    ensures r.Ok? ==> r.value.id == id && r.value.room == room && r.value.user == user && r.value.message == message
    ensures r.Err? ==> r.error != []
  {
    var checks := [
      Check("room", room != ""),
      Check("user", user != "" && |user| <= UserMaxLength),
      Check("message", message != "" && |message| <= MessageMaxLength)];
    var issues := Failing(checks);
    if issues == [] then
      assert checks[0].ok && checks[1].ok && checks[2].ok;
      Ok(ChatMessage(id, room, user, message, now, now))
    else
      assert !checks[0].ok || !checks[1].ok || !checks[2].ok;
      Err(issues)
  }

  /** Whatever the chat schema accepts, the stored model accepts too. */
  lemma AcceptedIsStorable(p: Payload)
    requires CV.ParseSendMessage(p).Ok?
    ensures var m := CV.ParseSendMessage(p).value; Storable(m.room, m.user, m.message)
  {
  }
}
