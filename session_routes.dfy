/** backend/routes/session.routes.js: booking a one-hour slot, starting and
    ending a session (with per-minute billing), the unchecked status update
    and student feedback. Every check that answers 4xx leaves the database as
    it was. Times are milliseconds since the epoch; `now` is the server clock
    at the moment the handler runs. */
module SessionRoutes {
  import opened Common
  import S = SessionModel
  import M = MentorModel
  import opened Store

  /** The booking query's match: a session of this mentor, neither cancelled
      nor completed, starting inside `[t, t + 1h)`. */
  predicate Blocks(s: S.Session, mentorId: Id, t: int)
  {
    s.mentor == mentorId && t <= s.startTime < t + S.HourMs &&
    s.status != S.Cancelled && s.status != S.Completed
  }

  predicate HasClash(sessions: map<Id, S.Session>, mentorId: Id, t: int)
  {
    exists k :: k in sessions && Blocks(sessions[k], mentorId, t)
  }

  /** The window only looks forward: a live session that started up to an
      hour earlier overlaps the new slot but does not block it, while one
      starting later inside the hour does. */
  lemma {:induction false} WindowLooksForwardOnly(s: S.Session, mentorId: Id, t: int, d: int)
    requires s.mentor == mentorId && s.status == S.Scheduled && 0 < d < S.HourMs
    ensures s.startTime == t - d ==> !Blocks(s, mentorId, t)
    ensures s.startTime == t + d ==> Blocks(s, mentorId, t)
    ensures s.startTime == t - d ==> Blocks(s, mentorId, t - d)
  {
  }

  /** What ending a session charges: billed minutes times the mentor's rate. */
  function Charge(durationMs: int, ratePerMinute: int): int
  {
    S.BilledMinutes(durationMs) * ratePerMinute
  }

  /** For a non-negative duration and rate the charge covers the exact time
      used and overshoots it by less than one minute's rate. */
  lemma {:induction false} ChargeBounds(durationMs: int, rate: int)
    requires durationMs >= 0 && rate >= 0
    ensures Charge(durationMs, rate) >= 0
    ensures Charge(durationMs, rate) * S.MinuteMs >= durationMs * rate
    ensures Charge(durationMs, rate) * S.MinuteMs < (durationMs + S.MinuteMs) * rate || rate == 0
  {
    var m := S.BilledMinutes(durationMs);
    assert m >= 0;
    assert m * S.MinuteMs >= durationMs;
    assert (m - 1) * S.MinuteMs < durationMs;
    MulMono(m * S.MinuteMs, durationMs, rate);
    assert m * rate * S.MinuteMs == m * S.MinuteMs * rate;
    if rate > 0 {
      MulStrict((m - 1) * S.MinuteMs, durationMs, rate);
      assert (m - 1) * S.MinuteMs * rate == m * rate * S.MinuteMs - S.MinuteMs * rate;
    }
  }

  lemma {:induction false} MulMono(a: int, b: int, c: int)
    requires a >= b && c >= 0
    ensures a * c >= b * c
  {
    assert a * c - b * c == (a - b) * c;
  }

  lemma {:induction false} MulStrict(a: int, b: int, c: int)
    requires a < b && c > 0
    ensures a * c < b * c
  {
    assert b * c - a * c == (b - a) * c;
  }

  /** The `$inc` end applies to the mentor's counters. */
  function CountSession(m: M.Mentor, minutes: int, earned: int): M.Mentor
  {
    m.(totalSessionsDone := m.totalSessionsDone + 1,
       totalMinutesTaught := m.totalMinutesTaught + minutes,
       totalEarnings := m.totalEarnings + earned)
  }

  /** The session end produces from an ongoing one. */
  function Ended(s: S.Session, now: int, ratePerMinute: int): (e: S.Session)
    ensures e.status == S.Completed && e.endTime == Some(now)
    ensures e.actualDuration == Some(S.BilledMinutes(now - s.startTime))
    ensures e.amount == Some(Charge(now - s.startTime, ratePerMinute))
    ensures e.mentor == s.mentor && e.student == s.student && e.startTime == s.startTime
    ensures e.rating == s.rating && e.chatHistory == s.chatHistory
  {
    var minutes := S.BilledMinutes(now - s.startTime);
    s.(status := S.Completed, endTime := Some(now), actualDuration := Some(minutes),
       amount := Some(minutes * ratePerMinute))
  }

  /** POST /book by `requester`. `startTime` is `None` when it does not parse
      as a date; `mailOk` says whether both notification e-mails went out
      (a failed send answers 500 after the session is saved); `newId` is the
      id the new document receives. */
  method Book(db: Database, requester: Id, mentorId: Id, startTime: Option<int>, newId: Id, mailOk: bool)
    returns (r: Reply<S.Session>)
    requires db.Valid() && newId !in db.sessions
    modifies db`sessions
    ensures db.Valid()
    ensures mentorId !in old(db.mentors) || old(db.mentors)[mentorId].status != M.Approved ==>
      r == Err(404, "Mentor not found or not approved") && db.sessions == old(db.sessions)
    ensures mentorId in old(db.mentors) && old(db.mentors)[mentorId].status == M.Approved ==>
      if startTime.None? then
        r == Err(500, "Error booking session") && db.sessions == old(db.sessions)
      else if HasClash(old(db.sessions), mentorId, startTime.value) then
        r == Err(400, "This slot is already booked") && db.sessions == old(db.sessions)
      else
        var s := S.NewSession(mentorId, requester, startTime.value);
        db.sessions == old(db.sessions)[newId := s] &&
        r == (if mailOk then Ok(201, s) else Err(500, "Error booking session"))
  {
    if mentorId !in db.mentors || db.mentors[mentorId].status != M.Approved {
      return Err(404, "Mentor not found or not approved");
    }
    if startTime.None? {
      return Err(500, "Error booking session");
    }
    var t := startTime.value;
    if exists k :: k in db.sessions && Blocks(db.sessions[k], mentorId, t) {
      return Err(400, "This slot is already booked");
    }
    var s := S.NewSession(mentorId, requester, t);
    db.sessions := db.sessions[newId := s];
    if !mailOk {
      return Err(500, "Error booking session");
    }
    r := Ok(201, s);
  }

  /** POST /:sessionId/start. `channels` is what setting up the chat channel
      and video call yields, `None` when that step throws. */
  method Start(db: Database, sessionId: Id, requester: Id, now: int, channels: Option<S.StreamData>)
    returns (r: Reply<S.Session>)
    requires db.Valid()
    modifies db`sessions
    ensures db.Valid()
    ensures sessionId !in old(db.sessions) ==>
      r == Err(404, "Session not found") && db.sessions == old(db.sessions)
    ensures sessionId in old(db.sessions) ==>
      var s := old(db.sessions)[sessionId];
      if s.mentor != requester then
        r == Err(403, "Not authorized") && db.sessions == old(db.sessions)
      else if s.status != S.Scheduled then
        r == Err(400, "Session cannot be started") && db.sessions == old(db.sessions)
      else if channels.None? then
        r == Err(500, "Error starting session") && db.sessions == old(db.sessions)
      else
        var s' := s.(status := S.Ongoing, startTime := now, streamData := channels);
        db.sessions == old(db.sessions)[sessionId := s'] && r == Ok(200, s')
  {
    if sessionId !in db.sessions {
      return Err(404, "Session not found");
    }
    var s := db.sessions[sessionId];
    if s.mentor != requester {
      return Err(403, "Not authorized");
    }
    if s.status != S.Scheduled {
      return Err(400, "Session cannot be started");
    }
    if channels.None? {
      return Err(500, "Error starting session");
    }
    s := s.(status := S.Ongoing, startTime := now, streamData := channels);
    db.sessions := db.sessions[sessionId := s];
    r := Ok(200, s);
  }

  /** POST /:sessionId/end. The mentor document is looked up by
      `session.mentor`; when it is missing, reading its rate throws before
      anything is saved. */
  method End(db: Database, sessionId: Id, requester: Id, now: int)
    returns (r: Reply<S.Session>)
    requires db.Valid()
    modifies db`sessions, db`mentors
    ensures db.Valid()
    ensures sessionId !in old(db.sessions) ==>
      r == Err(404, "Session not found") &&
      db.sessions == old(db.sessions) && db.mentors == old(db.mentors)
    ensures sessionId in old(db.sessions) ==>
      var s := old(db.sessions)[sessionId];
      if s.mentor != requester then
        r == Err(403, "Not authorized") && db.sessions == old(db.sessions) && db.mentors == old(db.mentors)
      else if s.status != S.Ongoing then
        r == Err(400, "Session is not ongoing") && db.sessions == old(db.sessions) && db.mentors == old(db.mentors)
      else if s.mentor !in old(db.mentors) then
        r == Err(500, "Error ending session") && db.sessions == old(db.sessions) && db.mentors == old(db.mentors)
      else
        var m := old(db.mentors)[s.mentor];
        var e := Ended(s, now, m.ratePerMinute);
        db.sessions == old(db.sessions)[sessionId := e] &&
        db.mentors == old(db.mentors)[s.mentor := CountSession(m, e.actualDuration.value, e.amount.value)] &&
        r == Ok(200, e)
  {
    if sessionId !in db.sessions {
      return Err(404, "Session not found");
    }
    var s := db.sessions[sessionId];
    if s.mentor != requester {
      return Err(403, "Not authorized");
    }
    if s.status != S.Ongoing {
      return Err(400, "Session is not ongoing");
    }
    if s.mentor !in db.mentors {
      return Err(500, "Error ending session");
    }
    var m := db.mentors[s.mentor];
    var e := Ended(s, now, m.ratePerMinute);
    db.sessions := db.sessions[sessionId := e];
    var m' := CountSession(m, e.actualDuration.value, e.amount.value);
    M.UpdateKeepsMentorsOk(db.mentors, db.mentorOrder, s.mentor, m');
    db.mentors := db.mentors[s.mentor := m'];
    r := Ok(200, e);
  }

  /** PUT /:sessionId/status. Any participant may set any status the enum
      admits, from any status. Completing also stamps `endTime` and counts the
      session for the mentor; the minutes increment names a path the session
      does not have, so only the count and the amount (when set) are added,
      and a missing mentor document is not an error. */
  method UpdateStatus(db: Database, sessionId: Id, requester: Id, status: string, now: int)
    returns (r: Reply<S.Session>)
    requires db.Valid()
    modifies db`sessions, db`mentors
    ensures db.Valid()
    ensures sessionId !in old(db.sessions) ==>
      r == Err(404, "Session not found") &&
      db.sessions == old(db.sessions) && db.mentors == old(db.mentors)
    ensures sessionId in old(db.sessions) ==>
      var s := old(db.sessions)[sessionId];
      if !S.IsParticipant(s, requester) then
        r == Err(403, "Not authorized") && db.sessions == old(db.sessions) && db.mentors == old(db.mentors)
      else if S.ParseStatus(status).None? then
        r == Err(500, "Error updating session") && db.sessions == old(db.sessions) && db.mentors == old(db.mentors)
      else
        var st := S.ParseStatus(status).value;
        var s' := s.(status := st, endTime := if st == S.Completed then Some(now) else s.endTime);
        db.sessions == old(db.sessions)[sessionId := s'] && r == Ok(200, s') &&
        db.mentors == (if st == S.Completed && s.mentor in old(db.mentors)
                       then old(db.mentors)[s.mentor := CountSession(old(db.mentors)[s.mentor], 0, M.OrElse(s.amount, 0))]
                       else old(db.mentors))
  {
    if sessionId !in db.sessions {
      return Err(404, "Session not found");
    }
    var s := db.sessions[sessionId];
    if !S.IsParticipant(s, requester) {
      return Err(403, "Not authorized");
    }
    var parsed := S.ParseStatus(status);
    if parsed.None? {
      return Err(500, "Error updating session");
    }
    var st := parsed.value;
    s := s.(status := st, endTime := if st == S.Completed then Some(now) else s.endTime);
    if st == S.Completed && s.mentor in db.mentors {
      var m' := CountSession(db.mentors[s.mentor], 0, M.OrElse(s.amount, 0));
      M.UpdateKeepsMentorsOk(db.mentors, db.mentorOrder, s.mentor, m');
      db.mentors := db.mentors[s.mentor := m'];
    }
    db.sessions := db.sessions[sessionId := s];
    r := Ok(200, s);
  }

  /** The `$push`/`$set` feedback applies to the mentor's ratings. */
  function Reviewed(m: M.Mentor, user: Id, rating: Option<int>, comment: Option<string>): M.Mentor
  {
    m.(ratings := M.Ratings(m.ratings.count + 1, m.ratings.reviews + [M.Review(user, rating, comment)]))
  }

  /** The `rating` of a feedback body: absent, JSON `null`, or a number. */
  datatype RatingInput = Absent | NullRating | Given(n: int)

  /** What `session.rating = rating` stores: nothing for absent or `null`. */
  function StoredRating(x: RatingInput): (r: Option<int>)
    ensures r.Some? <==> x.Given?
    ensures x.Given? ==> r.value == x.n
  {
    if x.Given? then Some(x.n) else None
  }

  /** POST /:sessionId/feedback. Only the session's student may rate; a
      rating outside 1..5 fails validation before anything is saved, and a
      missing mentor document fails after the session is saved. An absent
      rating makes the new average NaN, which the mentor update refuses to
      cast, so it also fails after the session is saved; `null` adds 0 to
      the average and goes through, pushing a review without a rating. */
  method Feedback(db: Database, sessionId: Id, requester: Id, rating: RatingInput, feedback: Option<string>)
    returns (r: Reply<S.Session>)
    requires db.Valid()
    modifies db`sessions, db`mentors
    ensures db.Valid()
    ensures sessionId !in old(db.sessions) || old(db.sessions)[sessionId].student != requester ==>
      r == Err(403, "Not authorized") && db.sessions == old(db.sessions) && db.mentors == old(db.mentors)
    ensures sessionId in old(db.sessions) && old(db.sessions)[sessionId].student == requester ==>
      var s := old(db.sessions)[sessionId];
      var s' := s.(rating := StoredRating(rating), feedback := feedback);
      if !S.RatingOk(StoredRating(rating)) then
        r == Err(500, "Error adding feedback") && db.sessions == old(db.sessions) && db.mentors == old(db.mentors)
      else if s.mentor !in old(db.mentors) || rating.Absent? then
        r == Err(500, "Error adding feedback") &&
        db.sessions == old(db.sessions)[sessionId := s'] && db.mentors == old(db.mentors)
      else
        db.sessions == old(db.sessions)[sessionId := s'] &&
        db.mentors == old(db.mentors)[s.mentor := Reviewed(old(db.mentors)[s.mentor], requester, StoredRating(rating), feedback)] &&
        r == Ok(200, s')
  {
    if sessionId !in db.sessions || db.sessions[sessionId].student != requester {
      return Err(403, "Not authorized");
    }
    var s := db.sessions[sessionId];
    s := s.(rating := StoredRating(rating), feedback := feedback);
    if !S.RatingOk(s.rating) {
      return Err(500, "Error adding feedback");
    }
    db.sessions := db.sessions[sessionId := s];
    if s.mentor !in db.mentors || rating.Absent? {
      return Err(500, "Error adding feedback");
    }
    var m' := Reviewed(db.mentors[s.mentor], requester, s.rating, feedback);
    M.UpdateKeepsMentorsOk(db.mentors, db.mentorOrder, s.mentor, m');
    db.mentors := db.mentors[s.mentor := m'];
    r := Ok(200, s);
  }

  /** Each successful feedback adds exactly one review and one to the count,
      so a mentor's count keeps matching its review list. */
  lemma {:induction false} ReviewedKeepsCount(m: M.Mentor, user: Id, rating: Option<int>, comment: Option<string>)
    requires m.ratings.count == |m.ratings.reviews|
    ensures Reviewed(m, user, rating, comment).ratings.count == |Reviewed(m, user, rating, comment).ratings.reviews|
    ensures Reviewed(m, user, rating, comment).ratings.reviews[..|m.ratings.reviews|] == m.ratings.reviews
  {
  }

  /** Two bookings half an hour apart with the later one first: the earlier
      slot is refused, since the later session starts inside its hour. */
  method EarlierSlotRefused(db: Database, student: Id, mentorId: Id, t: int, id1: Id, id2: Id)
    returns (r1: Reply<S.Session>, r2: Reply<S.Session>)
    requires db.Valid() && id1 != id2 && id1 !in db.sessions && id2 !in db.sessions
    requires mentorId in db.mentors && db.mentors[mentorId].status == M.Approved
    requires !HasClash(db.sessions, mentorId, t)
    modifies db`sessions
    ensures r1 == Ok(201, S.NewSession(mentorId, student, t))
    ensures r2 == Err(400, "This slot is already booked")
  {
    r1 := Book(db, student, mentorId, Some(t), id1, true);
    assert Blocks(db.sessions[id1], mentorId, t - 30 * S.MinuteMs);
    r2 := Book(db, student, mentorId, Some(t - 30 * S.MinuteMs), id2, true);
  }
}
