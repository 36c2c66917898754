/** backend/routes/mentor.routes.js: applying to mentor, the public listing
    with its filters and pagination, the admin's decision on an application,
    and the approved mentor's own profile update. */
module MentorRoutes {
  import opened Common
  import U = UserModel
  import M = MentorModel
  import opened Store

  /** Some stored mentor belongs to `user`. */
  predicate HasApplied(mentors: map<Id, M.Mentor>, user: Id)
  {
    exists k :: k in mentors && mentors[k].user == user
  }

  /** Some stored mentor already holds `m`'s user or e-mail. */
  predicate KeyTaken(mentors: map<Id, M.Mentor>, m: M.Mentor)
  {
    exists k :: k in mentors && (mentors[k].user == m.user || mentors[k].email == m.email)
  }

  /** The object apply constructs the document from: `user` first, so the
      body may replace it, then the body, then the requester's e-mail and
      status 'pending', which the body cannot replace. */
  function ApplicationFields(body: M.Fields, requester: Id, email: string): (f: M.Fields)
    ensures f.email == Some(email) && f.status == Some("pending")
    ensures f.user == (if body.user.Some? then body.user else Some(requester))
    ensures f.fullName == body.fullName && f.ratePerMinute == body.ratePerMinute
    ensures f.ratingsCount == body.ratingsCount && f.ratingsReviews == body.ratingsReviews
  {
    body.(user := if body.user.Some? then body.user else Some(requester),
          email := Some(email), status := Some("pending"))
  }

  /** A built application is pending and carries the requester's e-mail,
      whatever the body said; its ratings are whatever the body gave, so the
      count need not match the reviews. */
  lemma {:induction false} ApplicationIsPending(body: M.Fields, requester: Id, email: string)
    requires M.Build(ApplicationFields(body, requester, email)).Some?
    ensures M.Build(ApplicationFields(body, requester, email)).value.status == M.Pending
    ensures M.Build(ApplicationFields(body, requester, email)).value.email == email
    ensures M.Build(ApplicationFields(body, requester, email)).value.ratings ==
      M.Ratings(M.OrElse(body.ratingsCount, 0), M.OrElse(body.ratingsReviews, []))
  {
    var m := M.Build(ApplicationFields(body, requester, email)).value;
    assert M.StatusName(m.status) == "pending";
  }

  /** POST /apply by `requester`. `newId` is the id the new document gets;
      `mailOk` says whether the notice to the administrator went out (a
      failed send answers 500 after both writes). */
  method Apply(db: Database, requester: Id, body: M.Fields, newId: Id, mailOk: bool)
    returns (r: Reply<M.Mentor>)
    requires db.Valid() && requester in db.users && newId !in db.mentors
    modifies db`mentors, db`mentorOrder, db`users
    ensures db.Valid()
    ensures HasApplied(old(db.mentors), requester) ==>
      r == Err(400, "You have already applied to be a mentor") &&
      db.mentors == old(db.mentors) && db.mentorOrder == old(db.mentorOrder) && db.users == old(db.users)
    ensures !HasApplied(old(db.mentors), requester) ==>
      var built := M.Build(ApplicationFields(body, requester, old(db.users)[requester].email));
      if built.None? || KeyTaken(old(db.mentors), built.value) then
        r == Err(500, "Error submitting mentor application") &&
        db.mentors == old(db.mentors) && db.mentorOrder == old(db.mentorOrder) && db.users == old(db.users)
      else
        db.mentors == old(db.mentors)[newId := built.value] &&
        db.mentorOrder == old(db.mentorOrder) + [newId] &&
        db.users == old(db.users)[requester := old(db.users)[requester].(mentorStatus := U.Pending)] &&
        r == (if mailOk then Ok(201, built.value) else Err(500, "Error submitting mentor application"))
  {
    if HasApplied(db.mentors, requester) {
      return Err(400, "You have already applied to be a mentor");
    }
    var built := M.Build(ApplicationFields(body, requester, db.users[requester].email));
    if built.None? {
      return Err(500, "Error submitting mentor application");
    }
    var m := built.value;
    if KeyTaken(db.mentors, m) {
      return Err(500, "Error submitting mentor application");
    }
    M.InsertKeepsMentorsOk(db.mentors, db.mentorOrder, newId, m);
    db.mentors := db.mentors[newId := m];
    db.mentorOrder := db.mentorOrder + [newId];
    var u := db.users[requester].(mentorStatus := U.Pending);
    U.UpdateKeepsUsersOk(db.users, requester, u);
    db.users := db.users[requester := u];
    if !mailOk {
      return Err(500, "Error submitting mentor application");
    }
    r := Ok(201, m);
  }

  /** The listing's query string. A filter that is absent or empty is not
      applied; `featured` applies only when it is exactly "true". `page` and
      `limit` default to 1 and 10. */
  datatype Query = Query(area: Option<string>, language: Option<string>, featured: Option<string>,
                         page: Option<int>, limit: Option<int>)

  datatype Pagination = Pagination(total: int, pages: Option<int>, currentPage: int, perPage: int)
  datatype Listing = Listing(mentors: seq<M.Mentor>, pagination: Pagination)

  /** The listing's query: approved, and every filter given holds. */
  predicate Matches(q: Query, m: M.Mentor)
  {
    m.status == M.Approved &&
    (q.area.None? || q.area.value == "" || exists a :: a in m.mentoringAreas && M.AreaName(a) == q.area.value) &&
    (q.language.None? || q.language.value == "" || q.language.value in m.languages) &&
    (q.featured != Some("true") || m.isFeatured)
  }

  /** The matching mentors in insertion order. */
  function Matching(mentors: map<Id, M.Mentor>, order: seq<Id>, q: Query): seq<M.Mentor>
  {
    if order == [] then []
    else
      var last := order[|order| - 1];
      Matching(mentors, order[..|order| - 1], q) +
        (if last in mentors && Matches(q, mentors[last]) then [mentors[last]] else [])
  }

  /** Everything listed matches, and every matching mentor is listed. */
  lemma {:induction false} MatchingExact(mentors: map<Id, M.Mentor>, order: seq<Id>, q: Query)
    ensures forall m :: m in Matching(mentors, order, q) ==> Matches(q, m)
    ensures forall i :: 0 <= i < |order| && order[i] in mentors && Matches(q, mentors[order[i]]) ==>
      mentors[order[i]] in Matching(mentors, order, q)
  {
    if order != [] {
      var init := order[..|order| - 1];
      MatchingExact(mentors, init, q);
      forall i | 0 <= i < |order| && order[i] in mentors && Matches(q, mentors[order[i]])
        ensures mentors[order[i]] in Matching(mentors, order, q)
      {
        if i < |order| - 1 {
          assert order[i] == init[i];
        }
      }
    }
  }

  /** `.skip(skip).limit(limit)`: a limit of 0 means no limit, and a
      negative limit is taken by its absolute value. */
  function Window<X>(s: seq<X>, skip: nat, limit: int): (w: seq<X>)
    ensures skip >= |s| ==> w == []
    ensures skip < |s| ==> skip + |w| <= |s| && w == s[skip..skip + |w|]
    ensures limit != 0 ==> |w| <= (if limit > 0 then limit else -limit)
    ensures skip < |s| && limit == 0 ==> |w| == |s| - skip
    ensures skip < |s| && limit != 0 ==> |w| == (if limit > 0 then limit else -limit) || |w| == |s| - skip
  {
    if skip >= |s| then []
    else
      var rest := s[skip..];
      var n := if limit > 0 then limit else -limit;
      if limit == 0 || n >= |rest| then rest else rest[..n]
  }

  /** `Math.ceil(total / limit)`: `None` stands for the non-finite quotient
      of a zero limit, which serialises as null. */
  function PageCount(total: nat, limit: int): (p: Option<int>)
    ensures limit > 0 ==> p.Some? && (p.value - 1) * limit < total <= p.value * limit
  {
    if limit == 0 then None
    else if limit > 0 then Some(CeilDiv(total, limit))
    else Some(-(total / -limit))
  }

  /** GET /. Read-only; one pass over the mentors in insertion order. A
      negative skip is refused by the database. */
  method ListMentors(db: Database, q: Query) returns (r: Reply<Listing>)
    ensures
      var page := M.OrElse(q.page, 1);
      var limit := M.OrElse(q.limit, 10);
      var skip := (page - 1) * limit;
      var all := Matching(db.mentors, db.mentorOrder, q);
      if skip < 0 then r == Err(500, "Error fetching mentors")
      else r == Ok(200, Listing(Window(all, skip, limit), Pagination(|all|, PageCount(|all|, limit), page, limit)))
    ensures r.Ok? ==> forall m :: m in r.value.mentors ==> Matches(q, m)
  {
    var page := M.OrElse(q.page, 1);
    var limit := M.OrElse(q.limit, 10);
    var skip := (page - 1) * limit;
    if skip < 0 {
      return Err(500, "Error fetching mentors");
    }
    var all: seq<M.Mentor> := [];
    for i := 0 to |db.mentorOrder|
      invariant all == Matching(db.mentors, db.mentorOrder[..i], q)
    {
      var id := db.mentorOrder[i];
      assert db.mentorOrder[..i + 1][..i] == db.mentorOrder[..i];
      if id in db.mentors && Matches(q, db.mentors[id]) {
        all := all + [db.mentors[id]];
      }
    }
    assert db.mentorOrder[..|db.mentorOrder|] == db.mentorOrder;
    MatchingExact(db.mentors, db.mentorOrder, q);
    var w := Window(all, skip, limit);
    assert forall m :: m in w ==> m in all;
    r := Ok(200, Listing(w, Pagination(|all|, PageCount(|all|, limit), page, limit)));
  }

  /** The user fields approval writes: role mentor exactly when approved. */
  function Decided(u: U.User, st: M.Status): (u': U.User)
    ensures u'.role == U.Mentor <==> st == M.Approved
    ensures u'.role == U.Student <==> st != M.Approved
    ensures U.MentorStatusName(u'.mentorStatus) == M.StatusName(st)
    ensures u'.email == u.email && u'.name == u.name && u'.balance == u.balance && u'.googleId == u.googleId
  {
    u.(role := if st == M.Approved then U.Mentor else U.Student,
       mentorStatus := match st
                       case Pending => U.Pending
                       case Approved => U.Approved
                       case Rejected => U.Rejected)
  }

  /** PUT /application/:mentorId (administrators only). A status outside the
      enum fails validation before anything is written; the user update
      does nothing when the mentor's user no longer exists. */
  method Decide(db: Database, mentorId: Id, status: string, mailOk: bool)
    returns (r: Reply<M.Mentor>)
    requires db.Valid()
    modifies db`mentors, db`users
    ensures db.Valid()
    ensures mentorId !in old(db.mentors) ==>
      r == Err(404, "Mentor not found") && db.mentors == old(db.mentors) && db.users == old(db.users)
    ensures mentorId in old(db.mentors) && M.ParseStatus(status).None? ==>
      r == Err(500, "Error updating mentor status") && db.mentors == old(db.mentors) && db.users == old(db.users)
    ensures mentorId in old(db.mentors) && M.ParseStatus(status).Some? ==>
      var m := old(db.mentors)[mentorId];
      var m' := m.(status := M.ParseStatus(status).value);
      db.mentors == old(db.mentors)[mentorId := m'] &&
      db.users == (if m.user in old(db.users)
                   then old(db.users)[m.user := Decided(old(db.users)[m.user], m'.status)]
                   else old(db.users)) &&
      r == (if mailOk then Ok(200, m') else Err(500, "Error updating mentor status"))
  {
    if mentorId !in db.mentors {
      return Err(404, "Mentor not found");
    }
    var parsed := M.ParseStatus(status);
    if parsed.None? {
      return Err(500, "Error updating mentor status");
    }
    var m := db.mentors[mentorId];
    var m' := m.(status := parsed.value);
    M.UpdateKeepsMentorsOk(db.mentors, db.mentorOrder, mentorId, m');
    db.mentors := db.mentors[mentorId := m'];
    if m.user in db.users {
      var u := Decided(db.users[m.user], m'.status);
      U.UpdateKeepsUsersOk(db.users, m.user, u);
      db.users := db.users[m.user := u];
    }
    if !mailOk {
      return Err(500, "Error updating mentor status");
    }
    r := Ok(200, m');
  }

  /** The six fields a mentor may change; absent ones are left alone. */
  datatype Patch = Patch(headline: Option<string>, bio: Option<string>, languages: Option<seq<string>>,
                         availability: Option<seq<M.DayAvailability>>, ratePerMinute: Option<int>,
                         socialLinks: Option<M.SocialLinks>)

  /** The profile after the patch: each given field replaced, every other
      field as it was. */
  function Patched(m: M.Mentor, p: Patch): (m': M.Mentor)
    ensures m'.headline == M.OrElse(p.headline, m.headline) && m'.bio == M.OrElse(p.bio, m.bio)
    ensures m'.languages == M.OrElse(p.languages, m.languages)
    ensures m'.availability == M.OrElse(p.availability, m.availability)
    ensures m'.ratePerMinute == M.OrElse(p.ratePerMinute, m.ratePerMinute)
    ensures m'.socialLinks == M.OrElse(p.socialLinks, m.socialLinks)
    ensures m'.(headline := m.headline, bio := m.bio, languages := m.languages, availability := m.availability,
                ratePerMinute := m.ratePerMinute, socialLinks := m.socialLinks) == m
  {
    m.(headline := M.OrElse(p.headline, m.headline), bio := M.OrElse(p.bio, m.bio),
       languages := M.OrElse(p.languages, m.languages), availability := M.OrElse(p.availability, m.availability),
       ratePerMinute := M.OrElse(p.ratePerMinute, m.ratePerMinute),
       socialLinks := M.OrElse(p.socialLinks, m.socialLinks))
  }

  /** The requester's own approved profile. */
  predicate OwnsApproved(m: M.Mentor, requester: Id)
  {
    m.user == requester && m.status == M.Approved
  }

  /** PUT /profile: only the requester's approved profile can change, and
      emptying the headline or bio fails validation. */
  method UpdateProfile(db: Database, requester: Id, p: Patch) returns (r: Reply<M.Mentor>)
    requires db.Valid()
    modifies db`mentors
    ensures db.Valid()
    ensures (forall k :: k in old(db.mentors) ==> !OwnsApproved(old(db.mentors)[k], requester)) ==>
      r == Err(404, "Mentor profile not found or not approved") && db.mentors == old(db.mentors)
    ensures forall k :: k in old(db.mentors) && OwnsApproved(old(db.mentors)[k], requester) ==>
      var m' := Patched(old(db.mentors)[k], p);
      if M.ValidMentor(m') then db.mentors == old(db.mentors)[k := m'] && r == Ok(200, m')
      else db.mentors == old(db.mentors) && r == Err(500, "Error updating mentor profile")
  {
    if k :| k in db.mentors && OwnsApproved(db.mentors[k], requester) {
      var m' := Patched(db.mentors[k], p);
      if !M.ValidMentor(m') {
        return Err(500, "Error updating mentor profile");
      }
      M.UpdateKeepsMentorsOk(db.mentors, db.mentorOrder, k, m');
      db.mentors := db.mentors[k := m'];
      r := Ok(200, m');
    } else {
      r := Err(404, "Mentor profile not found or not approved");
    }
  }

  /** A profile patch whose availability names a day outside the enum fails
      validation, so the update answers 500 and changes nothing. */
  lemma UnknownDayRefused(m: M.Mentor, p: Patch, i: nat)
    requires p.availability.Some? && i < |p.availability.value|
    requires p.availability.value[i].day.Some? && M.ParseWeekday(p.availability.value[i].day.value).None?
    ensures !M.ValidMentor(Patched(m, p))
  {
  }
}
