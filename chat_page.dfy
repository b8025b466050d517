/**
  The chat page: the message list of one conversation, the text box, and the
  three ways a message reaches the list (the initial load, a socket event,
  and the user's own send). HTTP requests are recorded in a log; responses
  and clock readings arrive as method parameters.
*/
module ChatPage {
  import opened Wrappers
  import opened JsString
  import opened ChatService
  import Json

  /** One message as the list holds it; `senderId` is the sender object's `_id`. */
  datatype Message = Message(
    id: string,
    conversationId: string,
    senderId: string,
    text: string,
    read: bool,
    createdAt: string,
    updatedAt: string)

  /** The body of `POST /message`. */
  datatype MessageBody = MessageBody(conversationId: string, senderId: string, text: string)

  datatype HttpRequest = Get(url: string) | Post(url: string, body: MessageBody)

  /** The id the page gives a message it builds from a socket event. */
  const ReceivedId := "87t87g8xwv8"
  /** The id the page gives a message the user sends. */
  const SentId := "676"
  /** The name of the callback `ngOnInit` registers for 'getMessage'. */
  const PageHandler := "ChatPage.onMessage"

  // ---- pure helpers ----

  /** What `formatTime` shows; the locale time and date strings are not modelled. */
  datatype Shown = ShownNow | ShownMinutes(n: nat) | LocaleTime | LocaleDate

  /**
    `formatTime` given `diff` = now minus the timestamp: 'now' below a minute,
    whole minutes below an hour, then the locale time (below a day) or date.
  */
  function FormatTime(diff: int): (r: Shown)
    ensures r == ShownNow <==> diff < 60000
    ensures r.ShownMinutes? <==> 60000 <= diff < 3600000
    ensures r.ShownMinutes? ==> 1 <= r.n < 60 && r.n * 60000 <= diff < (r.n + 1) * 60000
    ensures r == LocaleTime <==> 3600000 <= diff < 86400000
    ensures r == LocaleDate <==> diff >= 86400000
  {
    if diff < 60000 then ShownNow
    else if diff < 3600000 then ShownMinutes(diff / 60000)
    else if diff < 86400000 then LocaleTime
    else LocaleDate
  }

  /** The text of a shown time: 'now' or `${minutes}m`; None for the locale forms. */
  function ShownText(t: Shown): (r: Option<string>)
    ensures r.Some? <==> t.ShownNow? || t.ShownMinutes?
    ensures t.ShownNow? ==> r == Some("now")
    ensures t.ShownMinutes? ==> r == Some(NatToString(t.n) + "m")
  {
    match t
    case ShownNow => Some("now")
    case ShownMinutes(n) => Some(NatToString(n) + "m")
    case _ => None
  }

  /** `getStatusIcon` of the chat page: four statuses have icons, anything else has none. */
  function StatusIcon(status: string): (icon: string)
    ensures icon != "" <==> status in {"sending", "sent", "delivered", "read"}
    ensures status == "delivered" || status == "read" <==> icon == "checkmark-done-outline"
    ensures status == "sending" <==> icon == "time-outline"
    ensures status == "sent" <==> icon == "checkmark-outline"
  {
    match status
    case "sending" => "time-outline"
    case "sent" => "checkmark-outline"
    case "delivered" => "checkmark-done-outline"
    case "read" => "checkmark-done-outline"
    case _ => ""
  }

  /** The message `onMessage` appends for an incoming event. */
  function Incoming(conversationId: string, senderId: string, text: string, createdAt: string, updatedAt: string): (m: Message)
    ensures m.senderId == senderId && m.text == text && !m.read && m.conversationId == conversationId
  {
    Message(ReceivedId, conversationId, senderId, text, false, createdAt, updatedAt)
  }

  /** The message `sendMessage` appends: the user's id, the text exactly as typed, unread. */
  function Outgoing(conversationId: string, userId: string, text: string, now: string): (m: Message)
    ensures m.senderId == userId && m.text == text && !m.read && m.conversationId == conversationId
    ensures m.createdAt == now && m.updatedAt == now
  {
    Message(SentId, conversationId, userId, text, false, now, now)
  }

  class ChatPage {
    const chat: Chat
    const apiBaseUrl: string
    var messages: seq<Message>
    var newMessage: string
    var conversationId: string
    var userId: string
    var recevierId: string
    /** Every HTTP request the page has issued, oldest first. */
    var requests: seq<HttpRequest>

    /** The page for the conversation named by the route's `id` parameter. */
    constructor (chat: Chat, apiBaseUrl: string, routeId: string)
      ensures this.chat == chat && this.apiBaseUrl == apiBaseUrl && conversationId == routeId
      ensures messages == [] && newMessage == "" && userId == "" && recevierId == "" && requests == []
    {
      this.chat := chat;
      this.apiBaseUrl := apiBaseUrl;
      messages := [];
      newMessage := "";
      conversationId := routeId;
      userId := "";
      recevierId := "";
      requests := [];
    }

    /**
      `ngOnInit`: ask for the stored user, request the conversation's messages,
      copy the receiver from the chat service and listen for 'getMessage'
      (which throws when the service has no socket yet).
    */
    method NgOnInit() returns (r: Result<(), string>)
      modifies this, chat.socket
      ensures requests == old(requests) + [Get(apiBaseUrl + "/message/" + conversationId)]
      ensures recevierId == chat.receiver && messages == old(messages) && newMessage == old(newMessage)
      ensures conversationId == old(conversationId) && userId == old(userId)
      ensures chat.socket == null ==> r.Err?
      ensures chat.socket != null ==>
        r.Ok? && chat.socket.listeners == old(chat.socket.listeners) + [Listener("getMessage", PageHandler)]
        && chat.socket.emitted == old(chat.socket.emitted)
    {
      LoadMessages();
      recevierId := chat.GetReceiver();
      r := chat.OnMessage(PageHandler);
    }

    /** `getUserId`'s continuation: the stored user's id, or '' without one. */
    method UserLoaded(user: Option<Json.UserRecord>)
      modifies this
      ensures userId == if user.Some? then user.value.id else ""
      ensures messages == old(messages) && newMessage == old(newMessage) && requests == old(requests)
      ensures recevierId == old(recevierId) && conversationId == old(conversationId)
    {
      userId := if user.Some? then user.value.id else "";
    }

    /** `loadMessages`: issues the GET; the response arrives in `MessagesLoaded`. */
    method LoadMessages()
      modifies this
      ensures requests == old(requests) + [Get(apiBaseUrl + "/message/" + conversationId)]
      ensures messages == old(messages) && newMessage == old(newMessage) && userId == old(userId)
      ensures recevierId == old(recevierId) && conversationId == old(conversationId)
    {
      requests := requests + [Get(apiBaseUrl + "/message/" + conversationId)];
    }

    /** The GET's response: any present (truthy) list, even an empty one, replaces the messages. */
    method MessagesLoaded(data: Option<seq<Message>>)
      modifies this
      ensures messages == if data.Some? then data.value else old(messages)
      ensures newMessage == old(newMessage) && requests == old(requests) && userId == old(userId)
      ensures recevierId == old(recevierId) && conversationId == old(conversationId)
    {
      if data.Some? {
        messages := data.value;
      }
    }

    /** `onMessage(event)`: exactly one message is appended, built from the event. */
    method OnMessage(senderId: string, text: string, createdAt: string, updatedAt: string)
      modifies this
      ensures messages == old(messages) + [Incoming(conversationId, senderId, text, createdAt, updatedAt)]
      ensures newMessage == old(newMessage) && requests == old(requests) && userId == old(userId)
      ensures recevierId == old(recevierId) && conversationId == old(conversationId)
    {
      messages := messages + [Incoming(conversationId, senderId, text, createdAt, updatedAt)];
    }

    /** `addMeessage`: appends the message as given. */
    method AddMeessage(m: Message)
      modifies this
      ensures messages == old(messages) + [m]
      ensures newMessage == old(newMessage) && requests == old(requests) && userId == old(userId)
      ensures recevierId == old(recevierId) && conversationId == old(conversationId)
    {
      messages := messages + [m];
    }

    /**
      `sendMessage` at time `now`. A blank box changes nothing. Otherwise the
      socket event goes out first (if the service has no socket this throws
      and nothing else happens), then the message is appended and the POST is
      issued; the box is cleared only by `PostSucceeded`.
    */
    method SendMessage(now: string) returns (r: Result<(), string>)
      modifies this, chat.socket
      ensures conversationId == old(conversationId) && userId == old(userId) && recevierId == old(recevierId)
      ensures newMessage == old(newMessage) && chat.socket == old(chat.socket)
      ensures IsBlank(newMessage) ==>
        r.Ok? && messages == old(messages) && requests == old(requests)
        && (chat.socket != null ==> chat.socket.emitted == old(chat.socket.emitted))
      ensures !IsBlank(newMessage) && chat.socket == null ==>
        r.Err? && messages == old(messages) && requests == old(requests)
      ensures !IsBlank(newMessage) && chat.socket != null ==>
        r.Ok?
        && chat.socket.emitted == old(chat.socket.emitted) + [Emission("sendMessage", OutgoingMessage(userId, recevierId, newMessage))]
        && messages == old(messages) + [Outgoing(conversationId, userId, newMessage, now)]
        && requests == old(requests) + [Post(apiBaseUrl + "/message", MessageBody(conversationId, userId, newMessage))]
      ensures chat.socket != null ==> chat.socket.listeners == old(chat.socket.listeners)
    {
      if IsBlank(newMessage) {
        r := Ok(());
      } else {
        r := Send(now);
      }
    }

    /** The body of `sendMessage` once the text has passed the blank check. */
    method Send(now: string) returns (r: Result<(), string>)
      modifies this, chat.socket
      ensures conversationId == old(conversationId) && userId == old(userId) && recevierId == old(recevierId)
      ensures newMessage == old(newMessage) && chat.socket == old(chat.socket)
      ensures chat.socket == null ==> r.Err? && messages == old(messages) && requests == old(requests)
      ensures chat.socket != null ==>
        r.Ok?
        && chat.socket.emitted == old(chat.socket.emitted) + [Emission("sendMessage", OutgoingMessage(userId, recevierId, newMessage))]
        && messages == old(messages) + [Outgoing(conversationId, userId, newMessage, now)]
        && requests == old(requests) + [Post(apiBaseUrl + "/message", MessageBody(conversationId, userId, newMessage))]
      ensures chat.socket != null ==> chat.socket.listeners == old(chat.socket.listeners)
    {
      var message := Outgoing(conversationId, userId, newMessage, now);
      var body := MessageBody(conversationId, userId, newMessage);
      r := chat.SendMessage(userId, recevierId, newMessage);
      if r.Ok? {
        AddMeessage(message);
        requests := requests + [Post(apiBaseUrl + "/message", body)];
      }
    }

    /** The text box's two-way binding: the typed text, untrimmed. */
    method OnInput(text: string)
      modifies this
      ensures newMessage == text && messages == old(messages) && requests == old(requests)
      ensures userId == old(userId) && recevierId == old(recevierId) && conversationId == old(conversationId)
    {
      newMessage := text;
    }

    /** The POST succeeded: the box is emptied. (Its error callback changes nothing.) */
    method PostSucceeded()
      modifies this
      ensures newMessage == "" && messages == old(messages) && requests == old(requests)
      ensures userId == old(userId) && recevierId == old(recevierId) && conversationId == old(conversationId)
    {
      newMessage := "";
    }
  }
}
