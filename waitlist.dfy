/** backend/routes/waitlist.routes.js: joining the waitlist by e-mail, once,
    and counting the entries. */
module WaitlistRoutes {
  import opened Common
  import opened Store

  /** The list after a successful join of `email`: unchanged when the address
      is empty or already present, extended by it otherwise. */
  function Joined(w: seq<string>, email: string): seq<string>
  {
    if email == "" || email in w then w else w + [email]
  }

  /** The list after a series of joins, in order. */
  function JoinAll(w: seq<string>, emails: seq<string>): seq<string>
    decreases |emails|
  {
    if emails == [] then w else JoinAll(Joined(w, emails[0]), emails[1..])
  }

  /** Any series of joins keeps every address at most once, and the list
      holds exactly the earlier entries and the non-empty joined addresses. */
  lemma {:induction false} JoinAllKeepsOnce(w: seq<string>, emails: seq<string>)
    requires NoDuplicates(w)
    ensures NoDuplicates(JoinAll(w, emails))
    ensures forall x :: x in JoinAll(w, emails) <==> x in w || (x in emails && x != "")
    decreases |emails|
  {
    if emails != [] {
      var w' := Joined(w, emails[0]);
      assert NoDuplicates(w') by {
        if emails[0] != "" && emails[0] !in w {
          forall i, j | 0 <= i < j < |w'| ensures w'[i] != w'[j] {
            if j == |w| {
              assert w'[i] == w[i];
            }
          }
        }
      }
      JoinAllKeepsOnce(w', emails[1..]);
      forall x ensures x in JoinAll(w, emails) <==> x in w || (x in emails && x != "") {
        assert x in emails <==> x == emails[0] || x in emails[1..];
      }
    }
  }

  /** POST /join. `email` is `None` when the body has none. */
  method Join(db: Database, email: Option<string>) returns (r: Reply<string>)
    requires db.Valid()
    modifies db`waitlist
    ensures db.Valid()
    ensures email.None? || email.value == "" ==>
      r == Err(400, "Email is required") && db.waitlist == old(db.waitlist)
    ensures email.Some? && email.value != "" && email.value in old(db.waitlist) ==>
      r == Ok(200, "You are already on the waitlist!") && db.waitlist == old(db.waitlist)
    ensures email.Some? && email.value != "" && email.value !in old(db.waitlist) ==>
      r == Ok(201, "Successfully joined the waitlist!") && db.waitlist == old(db.waitlist) + [email.value]
    ensures email.Some? ==> db.waitlist == Joined(old(db.waitlist), email.value)
  {
    if email.None? || email.value == "" {
      return Err(400, "Email is required");
    }
    if email.value in db.waitlist {
      return Ok(200, "You are already on the waitlist!");
    }
    ghost var w := db.waitlist;
    db.waitlist := db.waitlist + [email.value];
    assert NoDuplicates(db.waitlist) by {
      forall i, j | 0 <= i < j < |db.waitlist| ensures db.waitlist[i] != db.waitlist[j] {
        if j == |w| {
          assert db.waitlist[i] == w[i];
        }
      }
    }
    r := Ok(201, "Successfully joined the waitlist!");
  }

  /** GET /count. Read-only. */
  method Count(db: Database) returns (r: Reply<int>)
    ensures r == Ok(200, |db.waitlist|)
  {
    r := Ok(200, |db.waitlist|);
  }

  /** Joining twice with the same address answers 201 and then 200, and the
      address is listed once. */
  method JoinTwice(db: Database, email: string) returns (r1: Reply<string>, r2: Reply<string>)
    requires db.Valid() && email != "" && email !in db.waitlist
    modifies db`waitlist
    ensures r1.Ok? && r1.code == 201 && r2.Ok? && r2.code == 200
    ensures db.waitlist == old(db.waitlist) + [email]
  {
    r1 := Join(db, Some(email));
    r2 := Join(db, Some(email));
  }
}
