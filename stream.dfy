/** backend/routes/stream.routes.js: chat and video credentials for a
    session's participants, channel set-up, and the append-only chat history
    kept on the session. The chat and video service itself is represented by
    its answers: token minting functions and a success flag. */
module StreamRoutes {
  import opened Common
  import S = SessionModel
  import opened Store

  datatype Tokens = Tokens(chatToken: string, videoToken: string)

  /** GET /tokens/:sessionId. Read-only. The minting functions answer
      `None` when the service's token call throws, which the route reports
      as a 500. */
  method IssueTokens(db: Database, sessionId: Id, requester: Id,
                     chatToken: Id -> Option<string>, videoToken: Id -> Option<string>)
    returns (r: Reply<Tokens>)
    ensures sessionId !in db.sessions ==> r == Err(404, "Session not found")
    ensures sessionId in db.sessions && !S.IsParticipant(db.sessions[sessionId], requester) ==>
      r == Err(403, "Not authorized")
    ensures r.Ok? <==> (sessionId in db.sessions && S.IsParticipant(db.sessions[sessionId], requester) &&
                        chatToken(requester).Some? && videoToken(requester).Some?)
    ensures r.Ok? ==> r == Ok(200, Tokens(chatToken(requester).value, videoToken(requester).value))
    ensures sessionId in db.sessions && S.IsParticipant(db.sessions[sessionId], requester) && r.Err? ==>
      r == Err(500, "Error generating tokens")
  {
    if sessionId !in db.sessions {
      return Err(404, "Session not found");
    }
    var s := db.sessions[sessionId];
    if !S.IsParticipant(s, requester) {
      return Err(403, "Not authorized");
    }
    var chat := chatToken(requester);
    var video := videoToken(requester);
    if chat.None? || video.None? {
      return Err(500, "Error generating tokens");
    }
    r := Ok(200, Tokens(chat.value, video.value));
  }

  /** POST /init/:sessionId. Read-only. Populating `mentor` looks the id up
      among mentor documents and `student` among users; a missing one makes
      the id read throw. Both the channel and the call are keyed by the
      session id; `serviceOk` says whether the service created them. No
      participation check is made. */
  method InitChannels(db: Database, sessionId: Id, serviceOk: bool)
    returns (r: Reply<S.StreamData>)
    ensures sessionId !in db.sessions ==> r == Err(404, "Session not found")
    ensures r.Ok? <==>
      sessionId in db.sessions && db.sessions[sessionId].mentor in db.mentors &&
      db.sessions[sessionId].student in db.users && serviceOk
    ensures r.Ok? ==> r == Ok(200, S.StreamData(sessionId, sessionId))
    ensures sessionId in db.sessions && r.Err? ==> r == Err(500, "Error initializing session channels")
  {
    if sessionId !in db.sessions {
      return Err(404, "Session not found");
    }
    var s := db.sessions[sessionId];
    if s.mentor !in db.mentors || s.student !in db.users || !serviceOk {
      return Err(500, "Error initializing session channels");
    }
    r := Ok(200, S.StreamData(sessionId, sessionId));
  }

  /** POST /chat/message/:sessionId: a participant's entry goes at the end of
      the history, stamped with the requester as sender and the save time; the
      reply is the whole history afterwards. */
  method PostChatMessage(db: Database, sessionId: Id, requester: Id,
                         content: Option<string>, fileUrl: Option<string>, now: int)
    returns (r: Reply<seq<S.ChatEntry>>)
    requires db.Valid()
    modifies db`sessions
    ensures db.Valid()
    ensures sessionId !in old(db.sessions) ==>
      r == Err(404, "Session not found") && db.sessions == old(db.sessions)
    ensures sessionId in old(db.sessions) && !S.IsParticipant(old(db.sessions)[sessionId], requester) ==>
      r == Err(403, "Not authorized") && db.sessions == old(db.sessions)
    ensures sessionId in old(db.sessions) && S.IsParticipant(old(db.sessions)[sessionId], requester) ==>
      var s := old(db.sessions)[sessionId];
      var history := s.chatHistory + [S.ChatEntry(requester, content, fileUrl, now)];
      db.sessions == old(db.sessions)[sessionId := s.(chatHistory := history)] &&
      r == Ok(200, history)
  {
    if sessionId !in db.sessions {
      return Err(404, "Session not found");
    }
    var s := db.sessions[sessionId];
    if !S.IsParticipant(s, requester) {
      return Err(403, "Not authorized");
    }
    var history := s.chatHistory + [S.ChatEntry(requester, content, fileUrl, now)];
    db.sessions := db.sessions[sessionId := s.(chatHistory := history)];
    r := Ok(200, history);
  }

  /** Two posts by participants keep the earlier entries in place and add
      both new ones in order. */
  method TwoPosts(db: Database, sessionId: Id, a: Id, b: Id, c1: string, c2: string, t1: int, t2: int)
    returns (r: Reply<seq<S.ChatEntry>>)
    requires db.Valid() && sessionId in db.sessions
    requires S.IsParticipant(db.sessions[sessionId], a) && S.IsParticipant(db.sessions[sessionId], b)
    modifies db`sessions
    ensures sessionId in db.sessions
    ensures db.sessions[sessionId].chatHistory ==
      old(db.sessions[sessionId].chatHistory) + [S.ChatEntry(a, Some(c1), None, t1), S.ChatEntry(b, Some(c2), None, t2)]
    ensures r == Ok(200, db.sessions[sessionId].chatHistory)
  {
    var _ := PostChatMessage(db, sessionId, a, Some(c1), None, t1);
    r := PostChatMessage(db, sessionId, b, Some(c2), None, t2);
  }
}
