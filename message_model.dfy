/** backend/models/Message.js: a stored chat message with its cost and
    attachment metadata. */
module MessageModel {
  import opened Common

  datatype Kind = Text | Image | File

  datatype Metadata = Metadata(
    kind: Kind,
    fileName: Option<string>,
    fileSize: Option<int>,
    fileUrl: Option<string>,
    mimeType: Option<string>)

  datatype ReadReceipt = ReadReceipt(user: Id, readAt: int)

  /** `session`, `sender` and `content` are required. */
  datatype Message = Message(
    session: Id,
    sender: Id,
    content: string,
    cost: int,
    metadata: Metadata,
    readBy: seq<ReadReceipt>)

  /** A message built from its required fields only. */
  function NewMessage(session: Id, sender: Id, content: string): (m: Message)
    requires content != ""
    ensures ValidMessage(m)
    ensures m.cost == 0 && m.metadata.kind == Text && m.readBy == []
    ensures m.session == session && m.sender == sender && m.content == content
  {
    Message(session, sender, content, 0, Metadata(Text, None, None, None, None), [])
  }

  /** Mongoose's `required` rejects an empty string. */
  predicate ValidMessage(m: Message)
  {
    m.content != ""
  }

  predicate MessagesOk(ms: seq<Message>)
  {
    forall i :: 0 <= i < |ms| ==> ValidMessage(ms[i])
  }
}
