/** backend/models/Session.js: a booked mentoring session, its status enum,
    rating bounds and chat history. */
module SessionModel {
  import opened Common

  datatype Status = Scheduled | Ongoing | Completed | Cancelled | NoShow
  datatype PaymentStatus = PaymentPending | PaymentCompleted | Refunded

  function StatusName(s: Status): string
  {
    match s
    case Scheduled => "scheduled"
    case Ongoing => "ongoing"
    case Completed => "completed"
    case Cancelled => "cancelled"
    case NoShow => "no_show"
  }

  /** The enum check on `status`: exactly the five names are accepted. */
  function ParseStatus(s: string): (r: Option<Status>)
    ensures r.Some? ==> StatusName(r.value) == s
    ensures r.None? ==> forall x :: StatusName(x) != s
  {
    if s == "scheduled" then Some(Scheduled)
    else if s == "ongoing" then Some(Ongoing)
    else if s == "completed" then Some(Completed)
    else if s == "cancelled" then Some(Cancelled)
    else if s == "no_show" then Some(NoShow)
    else None
  }

  /** One `chatHistory` entry; `sender` is required, `createdAt` defaults to now. */
  datatype ChatEntry = ChatEntry(sender: Id, content: Option<string>, fileUrl: Option<string>, createdAt: int)

  datatype StreamData = StreamData(channelId: string, callId: string)

  /** Times are milliseconds since the epoch. `mentor` holds a Mentor document
      id. `ratePerBlock` and `totalCost` are read and written by the upload
      route but are not declared by the schema. */
  datatype Session = Session(
    mentor: Id,
    student: Id,
    startTime: int,
    endTime: Option<int>,
    actualDuration: Option<int>,
    status: Status,
    amount: Option<int>,
    paymentStatus: PaymentStatus,
    rating: Option<int>,
    feedback: Option<string>,
    chatHistory: seq<ChatEntry>,
    streamData: Option<StreamData>,
    ratePerBlock: int,
    totalCost: int)

  /** A session document built from its three required fields. */
  function NewSession(mentor: Id, student: Id, startTime: int): (s: Session)
    ensures ValidSession(s)
    ensures s.status == Scheduled && s.paymentStatus == PaymentPending
    ensures s.mentor == mentor && s.student == student && s.startTime == startTime
    ensures s.chatHistory == [] && s.rating.None? && s.endTime.None? && s.amount.None?
  {
    Session(mentor, student, startTime, None, None, Scheduled, None, PaymentPending,
            None, None, [], None, 0, 0)
  }

  /** `rating` has `min: 1` and `max: 5`; an absent rating is not checked. */
  predicate RatingOk(r: Option<int>)
  {
    r.None? || 1 <= r.value <= 5
  }

  predicate ValidSession(s: Session)
  {
    RatingOk(s.rating)
  }

  predicate SessionsOk(sessions: map<Id, Session>)
  {
    forall k :: k in sessions ==> ValidSession(sessions[k])
  }

  /** The participation test the upload, stream and status routes share. */
  predicate IsParticipant(s: Session, user: Id)
  {
    s.mentor == user || s.student == user
  }

  const MinuteMs: int := 60 * 1000
  const HourMs: int := 60 * 60 * 1000

  /** `Math.ceil(durationMs / (1000 * 60))`: whole minutes, a started minute counting. */
  function BilledMinutes(durationMs: int): (m: int)
    ensures (m - 1) * MinuteMs < durationMs <= m * MinuteMs
    ensures durationMs > 0 ==> m >= 1
    ensures durationMs <= 0 ==> m <= 0
  {
    CeilDiv(durationMs, MinuteMs)
  }
}
