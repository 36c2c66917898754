/** backend/services/websocket.service.js: the websocket server. A
    connection is authenticated once by the token in its URL; then
    NEW_MESSAGE and TYPING frames are fanned out to the connections that
    carry the frame's session id. */
module Realtime {
  import opened Common
  import Msg = MessageModel

  /** A parsed incoming frame: `type`, `sessionId` (the empty string when
      absent, both being falsy), `isTyping`, and the rest of the object,
      which is relayed as it came. */
  datatype Inbound = Inbound(kind: string, sessionId: string, isTyping: Option<bool>, rest: string)

  /** What the server writes to a connection. */
  datatype Frame =
    | ConnectionSuccess(userId: Id)
    | Relayed(data: Inbound)
    | TypingNotice(typist: Option<Id>, isTyping: Option<bool>)
    | NewMessage(message: Msg.Message)

  const PolicyViolation: int := 1008
  const InternalError: int := 1011

  /** One connection. Nothing in the server assigns `sessionId`, so it stays
      unset unless some other code sets it. */
  class Socket {
    var open: bool
    var userId: Option<Id>
    var sessionId: Option<string>
    var outbox: seq<Frame>
    var closeCode: Option<int>

    constructor ()
      ensures open && userId.None? && sessionId.None? && outbox == [] && closeCode.None?
    {
      open := true;
      userId := None;
      sessionId := None;
      outbox := [];
      closeCode := None;
    }

    /** `ws.send(frame)`: delivery is best effort, a closed connection drops it. */
    method Send(f: Frame)
      modifies this`outbox
      ensures outbox == if open then old(outbox) + [f] else old(outbox)
    {
      if open {
        outbox := outbox + [f];
      }
    }

    method Close(code: int)
      modifies this`open, this`closeCode
      ensures !open && closeCode == Some(code)
    {
      open := false;
      closeCode := Some(code);
    }
  }

  /** The three selections the server's and the upload route's loops make. */
  datatype Audience =
    | OpenInSession(sessionId: string)
    | OpenInSessionExcept(sessionId: string, userId: Option<Id>)
    | InSession(sessionId: string)

  predicate Picks(a: Audience, open: bool, userId: Option<Id>, sessionId: Option<string>)
  {
    match a
    case OpenInSession(sid) => open && sessionId == Some(sid)
    case OpenInSessionExcept(sid, uid) => open && sessionId == Some(sid) && userId != uid
    case InSession(sid) => sessionId == Some(sid)
  }

  /** The connection receives a frame sent to the audience. */
  predicate Receives(a: Audience, s: Socket)
    reads s`open, s`userId, s`sessionId
  {
    s.open && Picks(a, s.open, s.userId, s.sessionId)
  }

  /** `wss.clients`, in the order `forEach` visits them. */
  class Hub {
    var clients: seq<Socket>

    ghost predicate Valid()
      reads this
    {
      NoDuplicates(clients)
    }

    ghost function Sockets(): set<Socket>
      reads this
    {
      set i | 0 <= i < |clients| :: clients[i]
    }

    /** No connection carries a session id. */
    ghost predicate Unsubscribed()
      reads this, Sockets()
    {
      forall i :: 0 <= i < |clients| ==> clients[i].sessionId.None?
    }

    constructor ()
      ensures Valid() && Unsubscribed() && clients == []
    {
      clients := [];
    }

    /** The 'connection' handler. `verify` stands for `jwt.verify`: the id in
        the token, or `None` when verification throws. */
    method Connect(token: Option<string>, verify: string -> Option<Id>) returns (ws: Socket)
      requires Valid()
      modifies this`clients
      ensures Valid() && fresh(ws) && clients == old(clients) + [ws]
      ensures ws.sessionId.None?
      ensures old(Unsubscribed()) ==> Unsubscribed()
      ensures token.None? || token.value == "" ==>
        !ws.open && ws.closeCode == Some(PolicyViolation) && ws.userId.None? && ws.outbox == []
      ensures token.Some? && token.value != "" && verify(token.value).None? ==>
        !ws.open && ws.closeCode == Some(InternalError) && ws.userId.None? && ws.outbox == []
      ensures token.Some? && token.value != "" && verify(token.value).Some? ==>
        ws.open && ws.closeCode.None? && ws.userId == verify(token.value) &&
        ws.outbox == [ConnectionSuccess(verify(token.value).value)]
    {
      ws := new Socket();
      clients := clients + [ws];
      if token.None? || token.value == "" {
        ws.Close(PolicyViolation);
        return;
      }
      var decoded := verify(token.value);
      if decoded.None? {
        ws.Close(InternalError);
        return;
      }
      ws.userId := decoded;
      ws.Send(ConnectionSuccess(decoded.value));
    }

    /** `wss.clients.forEach(client => { if (<selected>) client.send(f) })`. */
    method Fanout(a: Audience, f: Frame)
      requires Valid()
      modifies Sockets()`outbox
      ensures forall i :: 0 <= i < |clients| ==>
        clients[i].outbox == old(clients[i].outbox) + (if Receives(a, clients[i]) then [f] else [])
    {
      for k := 0 to |clients|
        invariant forall i :: 0 <= i < k ==>
          clients[i].outbox == old(clients[i].outbox) + (if Receives(a, clients[i]) then [f] else [])
        invariant forall i :: k <= i < |clients| ==> clients[i].outbox == old(clients[i].outbox)
      {
        var c := clients[k];
        if Picks(a, c.open, c.userId, c.sessionId) {
          c.Send(f);
        }
      }
    }

    /** The 'message' handler of an authenticated connection `from`: it is
        registered only after the token was verified, so `from` is one of the
        clients and carries a user id. */
    method OnMessage(from: Socket, data: Inbound)
      requires Valid() && from in clients && from.userId.Some?
      modifies Sockets()`outbox
      ensures data.kind == "NEW_MESSAGE" && data.sessionId != "" ==>
        forall i :: 0 <= i < |clients| ==>
          clients[i].outbox == old(clients[i].outbox) +
            (if clients[i].open && clients[i].sessionId == Some(data.sessionId) then [Relayed(data)] else [])
      ensures data.kind == "TYPING" && data.sessionId != "" ==>
        forall i :: 0 <= i < |clients| ==>
          clients[i].outbox == old(clients[i].outbox) +
            (if clients[i].open && clients[i].sessionId == Some(data.sessionId) && clients[i].userId != from.userId
             then [TypingNotice(from.userId, data.isTyping)] else [])
      ensures data.sessionId == "" || data.kind !in {"NEW_MESSAGE", "TYPING"} ==>
        forall i :: 0 <= i < |clients| ==> clients[i].outbox == old(clients[i].outbox)
    {
      if data.kind == "NEW_MESSAGE" && data.sessionId != "" {
        Fanout(OpenInSession(data.sessionId), Relayed(data));
      }
      if data.kind == "TYPING" && data.sessionId != "" {
        Fanout(OpenInSessionExcept(data.sessionId, from.userId), TypingNotice(from.userId, data.isTyping));
      }
    }
  }

  /** With the server as written no connection ever carries a session id, so
      a relayed NEW_MESSAGE reaches nobody, not even its sender. */
  method RelayReachesNobody(hub: Hub, from: Socket, data: Inbound)
    requires hub.Valid() && hub.Unsubscribed() && from in hub.clients && from.userId.Some?
    requires data.kind == "NEW_MESSAGE" && data.sessionId != ""
    modifies hub.Sockets()`outbox
    ensures forall i :: 0 <= i < |hub.clients| ==> hub.clients[i].outbox == old(hub.clients[i].outbox)
  {
    hub.OnMessage(from, data);
  }
}
