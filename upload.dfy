/** backend/routes/upload.routes.js: a chat attachment upload. The student
    pays one block per started MiB at the session's block rate, the mentor
    pays nothing; the file becomes a stored message, and connections on the
    session are told about it. */
module Upload {
  import opened Common
  import S = SessionModel
  import Msg = MessageModel
  import opened Store
  import opened Realtime

  /** What the storage middleware hands the handler: the client's file name,
      its size in bytes, its MIME type and the URL it was stored under. */
  datatype UploadedFile = UploadedFile(originalName: string, size: nat, mimeType: string, path: string)

  /** The `file` object of the 201 reply. */
  datatype Receipt = Receipt(url: string, filename: string, mimetype: string)

  const MiB: int := 1024 * 1024
  /** The storage middleware's `fileSize` limit. */
  const MaxUploadBytes: int := 5 * MiB

  /** `Math.ceil(size / (1024 * 1024))` */
  function Blocks(size: nat): (b: int)
    ensures (b - 1) * MiB < size <= b * MiB
  {
    CeilDiv(size, MiB)
  }

  /** Under the upload limit a file is at most five blocks, and only an empty
      file is free. */
  lemma {:induction false} BlocksUnderCap(size: nat)
    requires size <= MaxUploadBytes
    ensures 0 <= Blocks(size) <= 5
    ensures Blocks(size) == 0 <==> size == 0
  {
    var b := Blocks(size);
    assert (b - 1) * MiB < 5 * MiB;
    assert b - 1 < 5;
    assert 0 <= b * MiB;
  }

  /** `metadata.type`: image exactly when the MIME type starts with "image/". */
  function FileKind(mimeType: string): (k: Msg.Kind)
    ensures k == Msg.Image <==> StartsWith(mimeType, "image/")
    ensures k != Msg.Text
  {
    if StartsWith(mimeType, "image/") then Msg.Image else Msg.File
  }

  /** The message an upload stores: the file name as content, the cost, and
      the file's metadata. */
  function FileMessage(sessionId: Id, sender: Id, f: UploadedFile, cost: int): (m: Msg.Message)
    ensures m.session == sessionId && m.sender == sender && m.cost == cost
    ensures m.content == f.originalName && m.metadata.fileName == Some(f.originalName)
    ensures m.metadata.kind == FileKind(f.mimeType) && m.readBy == []
    ensures Msg.ValidMessage(m) <==> f.originalName != ""
  {
    Msg.Message(sessionId, sender, f.originalName, cost,
      Msg.Metadata(FileKind(f.mimeType), Some(f.originalName), Some(f.size), Some(f.path), Some(f.mimeType)), [])
  }

  /** What the requester is charged: blocks times the session's block rate
      for the student, nothing for anyone else. */
  function UploadCost(s: S.Session, requester: Id, f: UploadedFile): int
  {
    if s.student == requester then Blocks(f.size) * s.ratePerBlock else 0
  }

  /** A student is charged at most five blocks, and nothing for an empty file;
      the mentor is never charged. */
  lemma {:induction false} UploadCostBounds(s: S.Session, requester: Id, f: UploadedFile)
    requires f.size <= MaxUploadBytes && s.ratePerBlock >= 0
    ensures 0 <= UploadCost(s, requester, f) <= 5 * s.ratePerBlock
    ensures s.student != requester || f.size == 0 ==> UploadCost(s, requester, f) == 0
  {
    BlocksUnderCap(f.size);
    if s.student == requester {
      var b := Blocks(f.size);
      assert (5 - b) * s.ratePerBlock >= 0;
    }
  }

  /** POST /:sessionId/upload by `requester`. `file` is `None` when the form
      carried no file; `hub` is the websocket server, `null` when none runs.
      Student charges are saved before the message is, so a message that
      fails validation leaves the charge in place. */
  method Upload(db: Database, hub: Hub?, sessionId: Id, requester: Id, file: Option<UploadedFile>)
    returns (r: Reply<Receipt>)
    requires db.Valid()
    requires hub != null ==> hub.Valid()
    modifies db`sessions, db`messages
    modifies if hub == null then {} else hub.Sockets()
    ensures db.Valid()
    ensures hub != null ==> hub.clients == old(hub.clients)
    ensures file.Some? && file.value.size > MaxUploadBytes ==>
      r == Err(500, "File too large") && db.sessions == old(db.sessions) && db.messages == old(db.messages) &&
      (hub != null ==> forall i :: 0 <= i < |hub.clients| ==> hub.clients[i].outbox == old(hub.clients[i].outbox))
    ensures file.None? ==>
      r == Err(400, "No file uploaded") && db.sessions == old(db.sessions) && db.messages == old(db.messages) &&
      (hub != null ==> forall i :: 0 <= i < |hub.clients| ==> hub.clients[i].outbox == old(hub.clients[i].outbox))
    ensures file.Some? && file.value.size <= MaxUploadBytes && sessionId !in old(db.sessions) ==>
      r == Err(404, "Session not found") && db.sessions == old(db.sessions) && db.messages == old(db.messages) &&
      (hub != null ==> forall i :: 0 <= i < |hub.clients| ==> hub.clients[i].outbox == old(hub.clients[i].outbox))
    ensures file.Some? && file.value.size <= MaxUploadBytes && sessionId in old(db.sessions) &&
            !S.IsParticipant(old(db.sessions)[sessionId], requester) ==>
      r == Err(403, "Not authorized") && db.sessions == old(db.sessions) && db.messages == old(db.messages) &&
      (hub != null ==> forall i :: 0 <= i < |hub.clients| ==> hub.clients[i].outbox == old(hub.clients[i].outbox))
    ensures file.Some? && file.value.size <= MaxUploadBytes && sessionId in old(db.sessions) &&
            S.IsParticipant(old(db.sessions)[sessionId], requester) ==>
      var f := file.value;
      var s := old(db.sessions)[sessionId];
      var cost := UploadCost(s, requester, f);
      var m := FileMessage(sessionId, requester, f, cost);
      db.sessions == (if s.student == requester
                      then old(db.sessions)[sessionId := s.(totalCost := s.totalCost + cost)]
                      else old(db.sessions)) &&
      if f.originalName == "" then
        r == Err(500, "Error uploading file") && db.messages == old(db.messages) &&
        (hub != null ==> forall i :: 0 <= i < |hub.clients| ==> hub.clients[i].outbox == old(hub.clients[i].outbox))
      else
        r == Ok(201, Receipt(f.path, f.originalName, f.mimeType)) && db.messages == old(db.messages) + [m] &&
        (hub != null ==> forall i :: 0 <= i < |hub.clients| ==>
          hub.clients[i].outbox == old(hub.clients[i].outbox) +
            (if hub.clients[i].open && hub.clients[i].sessionId == Some(sessionId) then [NewMessage(m)] else []))
  {
    if file.Some? && file.value.size > MaxUploadBytes {
      return Err(500, "File too large");
    }
    if file.None? {
      return Err(400, "No file uploaded");
    }
    var f := file.value;
    if sessionId !in db.sessions {
      return Err(404, "Session not found");
    }
    var s := db.sessions[sessionId];
    if !S.IsParticipant(s, requester) {
      return Err(403, "Not authorized");
    }
    var cost := UploadCost(s, requester, f);
    if s.student == requester {
      db.sessions := db.sessions[sessionId := s.(totalCost := s.totalCost + cost)];
    }
    var m := FileMessage(sessionId, requester, f, cost);
    if !Msg.ValidMessage(m) {
      return Err(500, "Error uploading file");
    }
    db.messages := db.messages + [m];
    if hub != null {
      hub.Fanout(InSession(sessionId), NewMessage(m));
    }
    r := Ok(201, Receipt(f.path, f.originalName, f.mimeType));
  }
}
