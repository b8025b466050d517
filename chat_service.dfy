/**
  The chat service (`shared/services/chat.ts`): a mutable `receiver` field
  that the inbox writes and the chat page reads, and a socket.io client seen
  only through what the application does with it. Each `emit` is appended to
  a log and each `on` registration to a list of listeners; the transport
  itself is not modelled.
*/
module ChatService {
  import opened Wrappers

  /** The data argument of one `socket.emit`. */
  datatype Payload =
    | UserId(userId: string)
    | ConversationId(conversationId: string)
    | OutgoingMessage(senderId: string, receiverId: string, text: string)

  /** One `socket.emit(event, data)`. */
  datatype Emission = Emission(event: string, data: Payload)

  /** One `socket.on(event, callback)`; `handler` names the callback. */
  datatype Listener = Listener(event: string, handler: string)

  /** The error a call on the socket throws before `init` has created it. */
  const SocketMissing := "TypeError: cannot read properties of undefined"

  /** The socket.io server the service connects to. */
  const ServerUrl := "https://socketapi-2ffd.onrender.com"

  /** A socket.io client: what was sent on it and who listens on it. */
  class Socket {
    const url: string
    var emitted: seq<Emission>
    var listeners: seq<Listener>

    /** `io(url)`. */
    constructor (url: string)
      ensures this.url == url && emitted == [] && listeners == []
    {
      this.url := url;
      emitted := [];
      listeners := [];
    }

    method Emit(event: string, data: Payload)
      modifies this
      ensures emitted == old(emitted) + [Emission(event, data)]
      ensures listeners == old(listeners)
    {
      emitted := emitted + [Emission(event, data)];
    }

    /** Registers one more listener; earlier ones stay registered. */
    method On(event: string, handler: string)
      modifies this
      ensures listeners == old(listeners) + [Listener(event, handler)]
      ensures emitted == old(emitted)
    {
      listeners := listeners + [Listener(event, handler)];
    }
  }

  class Chat {
    /** `undefined` (null here) until `init` runs. */
    var socket: Socket?
    var receiver: string

    constructor ()
      ensures socket == null && receiver == ""
    {
      socket := null;
      receiver := "";
    }

    method Init()
      modifies this
      ensures socket != null && fresh(socket)
      ensures socket.url == ServerUrl && socket.emitted == [] && socket.listeners == []
      ensures receiver == old(receiver)
    {
      socket := new Socket(ServerUrl);
    }

    /** `setRecevier(id)`: what `getReceiver` returns from now on. */
    method SetRecevier(id: string)
      modifies this
      ensures receiver == id && GetReceiver() == id
      ensures socket == old(socket)
    {
      receiver := id;
    }

    function GetReceiver(): string
      reads this
    {
      receiver
    }

    /** Emits `event` with `data` on the socket, or throws when there is none. */
    method EmitOrThrow(event: string, data: Payload) returns (r: Result<(), string>)
      modifies socket
      ensures socket == old(socket)
      ensures socket == null ==> r == Err(SocketMissing)
      ensures socket != null ==> r.Ok? && socket.emitted == old(socket.emitted) + [Emission(event, data)]
      ensures socket != null ==> socket.listeners == old(socket.listeners)
    {
      if socket == null {
        r := Err(SocketMissing);
      } else {
        socket.Emit(event, data);
        r := Ok(());
      }
    }

    /** `connect(userId)`: one 'addUsers' event carrying the user id. */
    method Connect(userId: string) returns (r: Result<(), string>)
      modifies socket
      ensures socket == old(socket) && receiver == old(receiver)
      ensures socket == null ==> r == Err(SocketMissing)
      ensures socket != null ==> r.Ok? && socket.emitted == old(socket.emitted) + [Emission("addUsers", UserId(userId))]
      ensures socket != null ==> socket.listeners == old(socket.listeners)
    {
      r := EmitOrThrow("addUsers", UserId(userId));
    }

    /** `joinConversation(id)`: one 'joinConversation' event carrying the id. */
    method JoinConversation(conversationId: string) returns (r: Result<(), string>)
      modifies socket
      ensures socket == old(socket) && receiver == old(receiver)
      ensures socket == null ==> r == Err(SocketMissing)
      ensures socket != null ==> r.Ok? && socket.emitted == old(socket.emitted) + [Emission("joinConversation", ConversationId(conversationId))]
      ensures socket != null ==> socket.listeners == old(socket.listeners)
    {
      r := EmitOrThrow("joinConversation", ConversationId(conversationId));
    }

    /** `sendMessage(data)`: one 'sendMessage' event with the payload as given. */
    method SendMessage(senderId: string, receiverId: string, text: string) returns (r: Result<(), string>)
      modifies socket
      ensures socket == old(socket) && receiver == old(receiver)
      ensures socket == null ==> r == Err(SocketMissing)
      ensures socket != null ==> r.Ok? && socket.emitted == old(socket.emitted) + [Emission("sendMessage", OutgoingMessage(senderId, receiverId, text))]
      ensures socket != null ==> socket.listeners == old(socket.listeners)
    {
      r := EmitOrThrow("sendMessage", OutgoingMessage(senderId, receiverId, text));
    }

    /** `onMessage(callback)`: adds a 'getMessage' listener; nothing is removed. */
    method OnMessage(handler: string) returns (r: Result<(), string>)
      modifies socket
      ensures socket == old(socket) && receiver == old(receiver)
      ensures socket == null ==> r == Err(SocketMissing)
      ensures socket != null ==> r.Ok? && socket.listeners == old(socket.listeners) + [Listener("getMessage", handler)]
      ensures socket != null ==> socket.emitted == old(socket.emitted)
    {
      if socket == null {
        r := Err(SocketMissing);
      } else {
        socket.On("getMessage", handler);
        r := Ok(());
      }
    }
  }

  /** Only the listeners for `event`, in registration order. */
  function ListenersFor(ls: seq<Listener>, event: string): (r: seq<string>)
    ensures |r| <= |ls|
    ensures forall h :: h in r <==> Listener(event, h) in ls
  {
    if ls == [] then []
    else (if ls[0].event == event then [ls[0].handler] else []) + ListenersFor(ls[1..], event)
  }

  /**
    Registering the same callback twice makes it listen twice: a 'getMessage'
    event then reaches it once per registration.
  */
  lemma {:induction false} HandlersAccumulate(ls: seq<Listener>, handler: string)
    ensures ListenersFor(ls + [Listener("getMessage", handler)], "getMessage") == ListenersFor(ls, "getMessage") + [handler]
    decreases |ls|
  {
    if ls == [] {
      assert ls + [Listener("getMessage", handler)] == [Listener("getMessage", handler)];
    } else {
      assert (ls + [Listener("getMessage", handler)])[1..] == ls[1..] + [Listener("getMessage", handler)];
      HandlersAccumulate(ls[1..], handler);
    }
  }
}
