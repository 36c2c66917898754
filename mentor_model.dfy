/** backend/models/Mentor.js: a mentor profile, its enums, defaults and
    counters, and the validation Mongoose runs when one is saved. */
module MentorModel {
  import opened Common

  datatype Gender = Male | Female | Others
  datatype Area = CodingSoftware | MbaCat | Freelancing | CareerJob
  datatype Status = Pending | Approved | Rejected

  function GenderName(g: Gender): string
  {
    match g
    case Male => "male"
    case Female => "female"
    case Others => "others"
  }

  function AreaName(a: Area): string
  {
    match a
    case CodingSoftware => "coding-software"
    case MbaCat => "mba-cat"
    case Freelancing => "freelancing"
    case CareerJob => "career-job"
  }

  function StatusName(s: Status): string
  {
    match s
    case Pending => "pending"
    case Approved => "approved"
    case Rejected => "rejected"
  }

  function ParseGender(s: string): (r: Option<Gender>)
    ensures r.Some? ==> GenderName(r.value) == s
    ensures r.None? ==> forall x :: GenderName(x) != s
  {
    if s == "male" then Some(Male)
    else if s == "female" then Some(Female)
    else if s == "others" then Some(Others)
    else None
  }

  function ParseArea(s: string): (r: Option<Area>)
    ensures r.Some? ==> AreaName(r.value) == s
    ensures r.None? ==> forall x :: AreaName(x) != s
  {
    if s == "coding-software" then Some(CodingSoftware)
    else if s == "mba-cat" then Some(MbaCat)
    else if s == "freelancing" then Some(Freelancing)
    else if s == "career-job" then Some(CareerJob)
    else None
  }

  function ParseStatus(s: string): (r: Option<Status>)
    ensures r.Some? ==> StatusName(r.value) == s
    ensures r.None? ==> forall x :: StatusName(x) != s
  {
    if s == "pending" then Some(Pending)
    else if s == "approved" then Some(Approved)
    else if s == "rejected" then Some(Rejected)
    else None
  }

  /** Every name of the list is one of the four areas; the areas in order. */
  function ParseAreas(names: seq<string>): (r: Option<seq<Area>>)
    ensures r.Some? <==> forall i :: 0 <= i < |names| ==> ParseArea(names[i]).Some?
    ensures r.Some? ==> (|r.value| == |names| &&
      forall i :: 0 <= i < |names| ==> AreaName(r.value[i]) == names[i])
  {
    if names == [] then Some([])
    else
      var head := ParseArea(names[0]);
      var tail := ParseAreas(names[1..]);
      if head.None? || tail.None? then
        assert head.None? ==> ParseArea(names[0]).None?;
        assert tail.None? ==> exists i :: 1 <= i < |names| && ParseArea(names[i]).None?
          by { if tail.None? { var i :| 0 <= i < |names[1..]| && ParseArea(names[1..][i]).None?; assert ParseArea(names[i + 1]).None?; } }
        None
      else Some([head.value] + tail.value)
  }

  datatype SocialLinks = SocialLinks(linkedin: Option<string>, twitter: Option<string>,
                                     github: Option<string>, instagram: Option<string>)

  datatype Slot = Slot(startTime: Option<string>, endTime: Option<string>)
  /** `day` is a string checked against the weekday enum on save. */
  datatype DayAvailability = DayAvailability(day: Option<string>, slots: seq<Slot>)

  function WeekdayName(d: Weekday): string
  {
    match d
    case Monday => "monday"
    case Tuesday => "tuesday"
    case Wednesday => "wednesday"
    case Thursday => "thursday"
    case Friday => "friday"
    case Saturday => "saturday"
    case Sunday => "sunday"
  }

  /** The enum on `availability.day`: exactly the seven lower-case names. */
  function ParseWeekday(s: string): (r: Option<Weekday>)
    ensures r.Some? ==> WeekdayName(r.value) == s
    ensures r.None? ==> forall x :: WeekdayName(x) != s
  {
    if s == "monday" then Some(Monday)
    else if s == "tuesday" then Some(Tuesday)
    else if s == "wednesday" then Some(Wednesday)
    else if s == "thursday" then Some(Thursday)
    else if s == "friday" then Some(Friday)
    else if s == "saturday" then Some(Saturday)
    else if s == "sunday" then Some(Sunday)
    else None
  }

  /** Every availability entry that names a day names one of the enum's. */
  predicate DaysOk(days: seq<DayAvailability>)
  {
    forall i :: 0 <= i < |days| && days[i].day.Some? ==> ParseWeekday(days[i].day.value).Some?
  }

  datatype Review = Review(user: Id, rating: Option<int>, comment: Option<string>)

  /** `ratings.average` is a floating-point running mean and is not part of this model. */
  datatype Ratings = Ratings(count: int, reviews: seq<Review>)

  datatype Mentor = Mentor(
    user: Id,
    fullName: string,
    email: string,
    phone: string,
    gender: Gender,
    organization: string,
    role: string,
    experience: int,
    headline: string,
    bio: string,
    languages: seq<string>,
    mentoringAreas: seq<Area>,
    socialLinks: SocialLinks,
    status: Status,
    availability: seq<DayAvailability>,
    ratings: Ratings,
    ratePerMinute: int,
    totalEarnings: int,
    totalSessionsDone: int,
    totalMinutesTaught: int,
    isFeatured: bool)

  /** The plain object a Mentor document is constructed from; an absent key
      is `None`. `ratings.count` and `ratings.reviews` are separate paths, so
      a `ratings` object that gives one keeps the default of the other. */
  datatype Fields = Fields(
    user: Option<Id>,
    fullName: Option<string>,
    email: Option<string>,
    phone: Option<string>,
    gender: Option<string>,
    organization: Option<string>,
    role: Option<string>,
    experience: Option<int>,
    headline: Option<string>,
    bio: Option<string>,
    languages: Option<seq<string>>,
    mentoringAreas: Option<seq<string>>,
    socialLinks: Option<SocialLinks>,
    status: Option<string>,
    availability: Option<seq<DayAvailability>>,
    ratingsCount: Option<int>,
    ratingsReviews: Option<seq<Review>>,
    ratePerMinute: Option<int>,
    totalEarnings: Option<int>,
    totalSessionsDone: Option<int>,
    totalMinutesTaught: Option<int>,
    isFeatured: Option<bool>)

  /** A required string path is set and non-empty. */
  predicate Given(s: Option<string>)
  {
    s.Some? && s.value != ""
  }

  /** What Mongoose's validation accepts: every required path set, and every
      enum path holding one of its names. */
  predicate Admissible(f: Fields)
  {
    f.user.Some? && Given(f.fullName) && Given(f.email) && Given(f.phone) &&
    f.gender.Some? && ParseGender(f.gender.value).Some? &&
    Given(f.organization) && Given(f.role) && f.experience.Some? &&
    Given(f.headline) && Given(f.bio) && f.ratePerMinute.Some? &&
    (f.mentoringAreas.None? || ParseAreas(f.mentoringAreas.value).Some?) &&
    (f.status.None? || ParseStatus(f.status.value).Some?) &&
    (f.availability.None? || DaysOk(f.availability.value))
  }

  function OrElse<T>(o: Option<T>, d: T): T
  {
    if o.Some? then o.value else d
  }

  /** `new Mentor(fields)` followed by validation: the document, or `None`
      when validation fails. Absent paths take the schema defaults. */
  function Build(f: Fields): (r: Option<Mentor>)
    ensures r.Some? <==> Admissible(f)
    ensures r.Some? ==> ValidMentor(r.value)
    ensures r.Some? ==> (r.value.user == f.user.value && r.value.email == f.email.value &&
      r.value.fullName == f.fullName.value && r.value.ratePerMinute == f.ratePerMinute.value)
    ensures r.Some? ==> StatusName(r.value.status) == OrElse(f.status, "pending")
    ensures r.Some? ==> (r.value.ratings == Ratings(OrElse(f.ratingsCount, 0), OrElse(f.ratingsReviews, [])) &&
      r.value.totalEarnings == OrElse(f.totalEarnings, 0) &&
      r.value.totalSessionsDone == OrElse(f.totalSessionsDone, 0) &&
      r.value.totalMinutesTaught == OrElse(f.totalMinutesTaught, 0) &&
      r.value.isFeatured == OrElse(f.isFeatured, false))
  {
    if !Admissible(f) then None
    else
      Some(Mentor(
        f.user.value, f.fullName.value, f.email.value, f.phone.value,
        ParseGender(f.gender.value).value, f.organization.value, f.role.value,
        f.experience.value, f.headline.value, f.bio.value,
        OrElse(f.languages, []),
        if f.mentoringAreas.Some? then ParseAreas(f.mentoringAreas.value).value else [],
        OrElse(f.socialLinks, SocialLinks(None, None, None, None)),
        if f.status.Some? then ParseStatus(f.status.value).value else Pending,
        OrElse(f.availability, []),
        Ratings(OrElse(f.ratingsCount, 0), OrElse(f.ratingsReviews, [])),
        f.ratePerMinute.value,
        OrElse(f.totalEarnings, 0), OrElse(f.totalSessionsDone, 0),
        OrElse(f.totalMinutesTaught, 0), OrElse(f.isFeatured, false)))
  }

  /** A day outside the enum in the availability makes construction fail. */
  lemma UnknownDayNotBuilt(f: Fields, i: nat)
    requires f.availability.Some? && i < |f.availability.value|
    requires f.availability.value[i].day.Some? && ParseWeekday(f.availability.value[i].day.value).None?
    ensures Build(f).None?
  {
  }

  /** The checks a saved mentor keeps passing: its required strings are
      non-empty and its availability days are in the enum. */
  predicate ValidMentor(m: Mentor)
  {
    m.fullName != "" && m.email != "" && m.phone != "" && m.organization != "" &&
    m.role != "" && m.headline != "" && m.bio != "" && DaysOk(m.availability)
  }

  /** The unique indexes on `user` and `email`. */
  predicate UniqueKeys(mentors: map<Id, Mentor>)
  {
    forall a, b :: a in mentors && b in mentors && a != b ==>
      mentors[a].user != mentors[b].user && mentors[a].email != mentors[b].email
  }

  /** The collection: valid documents, unique keys, and `order` listing every
      id once in insertion order (the natural order queries return). */
  predicate MentorsOk(mentors: map<Id, Mentor>, order: seq<Id>)
  {
    (forall k :: k in mentors ==> ValidMentor(mentors[k])) &&
    UniqueKeys(mentors) &&
    NoDuplicates(order) &&
    (forall i :: 0 <= i < |order| ==> order[i] in mentors) &&
    (forall k :: k in mentors ==> k in order)
  }

  /** Changing a mentor without touching `user` or `email`, and keeping it
      valid, keeps the collection valid. */
  lemma {:induction false} UpdateKeepsMentorsOk(mentors: map<Id, Mentor>, order: seq<Id>, k: Id, m: Mentor)
    requires MentorsOk(mentors, order) && k in mentors
    requires m.user == mentors[k].user && m.email == mentors[k].email && ValidMentor(m)
    ensures MentorsOk(mentors[k := m], order)
  {
    var mentors' := mentors[k := m];
    forall a, b | a in mentors' && b in mentors' && a != b
      ensures mentors'[a].user != mentors'[b].user && mentors'[a].email != mentors'[b].email
    {
      assert mentors'[a].user == mentors[a].user && mentors'[a].email == mentors[a].email;
      assert mentors'[b].user == mentors[b].user && mentors'[b].email == mentors[b].email;
    }
  }

  /** Inserting a valid mentor under a new id, whose user and e-mail no
      stored mentor has, keeps the collection valid with the id appended to
      the insertion order. */
  lemma {:induction false} InsertKeepsMentorsOk(mentors: map<Id, Mentor>, order: seq<Id>, k: Id, m: Mentor)
    requires MentorsOk(mentors, order) && k !in mentors && ValidMentor(m)
    requires forall j :: j in mentors ==> mentors[j].user != m.user && mentors[j].email != m.email
    ensures MentorsOk(mentors[k := m], order + [k])
  {
    var order' := order + [k];
    forall i, j | 0 <= i < j < |order'|
      ensures order'[i] != order'[j]
    {
      if j == |order| {
        assert order[i] in mentors;
      }
    }
  }
}
