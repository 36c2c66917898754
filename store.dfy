/** The MongoDB collections the route handlers read and write, held by one
    object. Each handler is one method that replaces the collections it
    saves to; the rest stay as they were. */
module Store {
  import opened Common
  import U = UserModel
  import T = TransactionModel
  import S = SessionModel
  import M = MentorModel
  import Msg = MessageModel

  class Database {
    var users: map<Id, U.User>
    /** The transactions collection in insertion (creation) order. */
    var txs: seq<T.Transaction>
    var sessions: map<Id, S.Session>
    var mentors: map<Id, M.Mentor>
    /** Mentor ids in insertion order, the order in which queries return them. */
    var mentorOrder: seq<Id>
    var messages: seq<Msg.Message>
    /** The waitlist collection: the joined e-mail addresses. */
    var waitlist: seq<string>

    /** Every document passes its schema's validation and every unique index
        holds; in particular every wallet balance is at least zero. */
    ghost predicate Valid()
      reads this
    {
      U.UsersOk(users) &&
      T.LedgerOk(txs) &&
      S.SessionsOk(sessions) &&
      M.MentorsOk(mentors, mentorOrder) &&
      Msg.MessagesOk(messages) &&
      NoDuplicates(waitlist)
    }

    constructor ()
      ensures Valid()
      ensures users == map[] && txs == [] && sessions == map[] && mentors == map[]
      ensures mentorOrder == [] && messages == [] && waitlist == []
    {
      users := map[];
      txs := [];
      sessions := map[];
      mentors := map[];
      mentorOrder := [];
      messages := [];
      waitlist := [];
    }
  }
}
