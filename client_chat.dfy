/** The chat page and the project chat panel: the room label, the outgoing message
    built from the inputs (nothing is sent for blank text; a blank name becomes
    `Anon`), the incoming list capped at 200, and clearing the input on a good ack. */
module ClientChat {
  import opened Wrappers
  import opened Seqs
  import opened Text
  import opened Json
  import CV = ChatValidators
  import CM = ChatModel
  import CS = ChatService

  const GlobalRoom := "global"
  const AnonUser := "Anon"
  const MaxShown := 200

  /** `roomLabel`. */
  function RoomLabel(room: string): (shown: string)
    ensures room == GlobalRoom ==> shown == "Global"
    ensures room != GlobalRoom ==> shown == room
  {
    if room == GlobalRoom then "Global" else room
  }

  /** `send`: nothing for blank text; otherwise the room, the trimmed name or `Anon`,
      and the trimmed text. */
  function Compose(room: string, user: string, text: string): (m: Option<CV.SendMessage>)
    ensures m.None? <==> AllSpace(text)
    ensures m.Some? ==> m.value.room == room && m.value.message == Trim(text)
    ensures m.Some? ==> m.value.message != [] && !IsSpace(m.value.message[0])
    ensures m.Some? ==> m.value.user == (if AllSpace(user) then AnonUser else Trim(user))
    ensures m.Some? ==> m.value.user != []
  {
    TrimSpec(text);
    TrimSpec(user);
    if Trim(text) == "" then None
    else Some(CV.SendMessage(room, if Trim(user) == "" then AnonUser else Trim(user), Trim(text)))
  }

  /** The chat page always sends to the global room. */
  function ChatPageSend(user: string, text: string): (m: Option<CV.SendMessage>)
    ensures m.Some? ==> m.value.room == GlobalRoom
    ensures m == Compose(GlobalRoom, user, text)
  {
    Compose(GlobalRoom, user, text)
  }

  /** The panel sends to its own room. */
  function PanelSend(room: string, user: string, text: string): (m: Option<CV.SendMessage>)
    ensures m.Some? ==> m.value.room == room
  {
    Compose(room, user, text)
  }

  /** The server accepts a composed message exactly when the room, the name and the text
      fit their bounds; emptiness is already ruled out. */
  lemma ComposedAcceptedIffBounded(room: string, user: string, text: string)
    requires Compose(room, user, text).Some?
    ensures var m := Compose(room, user, text).value;
      CV.ParseSendMessage(CV.SendMessagePayload(m)).Ok? <==>
        1 <= |room| <= CV.RoomMax && |m.user| <= CV.UserMax && |m.message| <= CV.MessageMax
  {
  }

  /** Messages from the chat page are accepted whenever name and text are short enough. */
  lemma ChatPageSendAccepted(user: string, text: string)
    requires ChatPageSend(user, text).Some?
    requires |Trim(user)| <= CV.UserMax && |Trim(text)| <= CV.MessageMax
    ensures CV.ParseSendMessage(CV.SendMessagePayload(ChatPageSend(user, text).value)).Ok?
  {
    ComposedAcceptedIffBounded(GlobalRoom, user, text);
  }

  /** `onNew`: append, then keep the last 200. */
  function AppendCapped(prev: seq<CM.ChatMessage>, msg: CM.ChatMessage): (r: seq<CM.ChatMessage>)
    ensures 1 <= |r| <= MaxShown && |r| <= |prev| + 1
    ensures r[|r| - 1] == msg
    ensures r == (prev + [msg])[|prev| + 1 - |r|..]
    ensures |prev| < MaxShown ==> r == prev + [msg]
  {
    KeepLast(prev + [msg], MaxShown)
  }

  /** The input after the acknowledgement: cleared on success, kept on failure. */
  function TextAfterAck(text: string, ack: CS.Ack): (r: string)
    ensures ack.AckOk? ==> r == ""
    ensures ack.AckError? ==> r == text
  {
    if ack.AckOk? then "" else text
  }
}
