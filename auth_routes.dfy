/**
 * The authentication routes: the pending-signup upsert that mails a
 * one-time code (`/otp`), its verification that promotes the pending record
 * to a user (`/verify-otp`), password sign-in, and the upsert of users
 * coming from the external identity provider (`/clerk-auth`).
 *
 * Hashing, the password comparison, the mailer, the clock and the random
 * draw are parameters; cookies and tokens are not modelled.
 */
module AuthRoutes {
  import opened Common
  import opened Models

  /** Ten minutes, in milliseconds: how long a mailed code stays valid. */
  const OtpLifetimeMs := 10 * 60 * 1000

  // ---------------------------------------------------------------------
  // The one-time code

  /** `Math.floor(100000 + Math.random() * 900000).toString()`, with `r` the integer `Math.floor(Math.random() * 900000)`. */
  function OtpCode(r: nat): (code: string)
    requires r < 900000
    ensures |code| == 6 && AllDigits(code)
    ensures ParseNat(code) == 100000 + r
  {
    assert Pow10(2) == 100 && Pow10(4) == 10000 && Pow10(6) == 1000000;
    NatToStringLength(100000 + r, 6);
    ParseNatToString(100000 + r);
    NatToString(100000 + r)
  }

  /** The code is a six-digit number from 100000 to 999999, and different draws give different codes. */
  lemma OtpCodeRange(r1: nat, r2: nat)
    requires r1 < 900000 && r2 < 900000
    ensures 100000 <= ParseNat(OtpCode(r1)) <= 999999
    ensures OtpCode(r1) == OtpCode(r2) <==> r1 == r2
  {
    if OtpCode(r1) == OtpCode(r2) {
      assert ParseNat(OtpCode(r1)) == ParseNat(OtpCode(r2));
    }
  }

  // ---------------------------------------------------------------------
  // Pending signups

  /** `TempUser.findOne({ name })` */
  function PendingByName(pending: seq<PendingSignup>, name: string): (r: Option<nat>)
    ensures r.Some? ==> r.value < |pending| && pending[r.value].name == name
    ensures r.None? ==> forall j :: 0 <= j < |pending| ==> pending[j].name != name
  {
    FirstWhere(pending, (p: PendingSignup) => p.name == name)
  }

  /** `TempUser.findById(id)` */
  function PendingById(pending: seq<PendingSignup>, id: ObjectId): (r: Option<nat>)
    ensures r.Some? ==> r.value < |pending| && pending[r.value].id == id
    ensures r.None? ==> forall j :: 0 <= j < |pending| ==> pending[j].id != id
  {
    FirstWhere(pending, (p: PendingSignup) => p.id == id)
  }

  /** No two pending records share a username. */
  ghost predicate NamesUnique(pending: seq<PendingSignup>) {
    forall i, j :: 0 <= i < j < |pending| ==> pending[i].name != pending[j].name
  }

  /**
   * The pending collection after the upsert keyed by `name`: the record with
   * that name is overwritten (keeping its id), or a record with `freshId` is added.
   */
  function Upserted(pending: seq<PendingSignup>, name: string, email: string, password: string, otp: string, expires: int, freshId: ObjectId)
    : (r: seq<PendingSignup>)
    ensures PendingByName(pending, name).Some? ==>
      var at := PendingByName(pending, name).value;
      |r| == |pending| && r[at] == PendingSignup(pending[at].id, name, email, password, otp, expires)
    ensures PendingByName(pending, name).None? ==>
      |r| == |pending| + 1 && r[|pending|] == PendingSignup(freshId, name, email, password, otp, expires)
    ensures forall i :: 0 <= i < |pending| && pending[i].name != name ==> r[i] == pending[i]
  {
    match PendingByName(pending, name)
    case Some(at) => pending[at := PendingSignup(pending[at].id, name, email, password, otp, expires)]
    case None => pending + [PendingSignup(freshId, name, email, password, otp, expires)]
  }

  /** The upsert keeps usernames unique, and afterwards the lookup by name finds the new record. */
  lemma UpsertKeepsNamesUnique(pending: seq<PendingSignup>, name: string, email: string, password: string, otp: string, expires: int, freshId: ObjectId)
    requires NamesUnique(pending)
    ensures var r := Upserted(pending, name, email, password, otp, expires, freshId);
      && NamesUnique(r)
      && PendingByName(r, name).Some?
      && r[PendingByName(r, name).value].otp == otp && r[PendingByName(r, name).value].otpExpires == expires
  {
    var r := Upserted(pending, name, email, password, otp, expires, freshId);
    var found := PendingByName(pending, name);
    var at := if found.Some? then found.value else |pending|;
    assert r[at].name == name;
    forall i, j | 0 <= i < j < |r| ensures r[i].name != r[j].name {
      if i != at && j != at {
        assert r[i] == pending[i] && r[j] == pending[j];
      } else if i == at {
        assert j < |pending| ==> r[j] == pending[j];
      } else {
        assert r[i] == pending[i];
      }
    }
    var k := PendingByName(r, name).value;
    assert k == at;
  }

  /**
   * `/otp`. `username`, `email` and `password` are the body fields; `r` is
   * the random draw, `mailSent` whether the mailer accepted the message and
   * `hashedPassword` the salted hash of the password. A missing field, or an
   * email already registered, answers 400; a mail failure answers 500; none
   * of these stores anything. Otherwise the code is mailed, the pending
   * record keyed by username is upserted with a ten-minute expiry, and 200
   * is answered with the record's id.
   */
  method RequestOtp(db: Database, username: Option<string>, email: Option<string>, password: Option<string>,
                    r: nat, mailSent: bool, hashedPassword: string, now: int)
    returns (status: nat, id: Option<ObjectId>, mailedCode: Option<string>)
    requires r < 900000
    requires db.Valid()
    modifies db
    ensures db.Valid()
    ensures !(Truthy(username) && Truthy(email) && Truthy(password)) ==> status == 400 && id.None? && mailedCode.None? && unchanged(db)
    ensures Truthy(username) && Truthy(email) && Truthy(password) ==>
      if UserByEmail(old(db.users), email.value).Some? then status == 400 && id.None? && mailedCode.None? && unchanged(db)
      else if !mailSent then status == 500 && id.None? && mailedCode == Some(OtpCode(r)) && unchanged(db)
      else
        && status == 200
        && mailedCode == Some(OtpCode(r))
        && db.pending == Upserted(old(db.pending), username.value, email.value, hashedPassword, OtpCode(r), now + OtpLifetimeMs, old(db.nextId))
        && id == Some(if PendingByName(old(db.pending), username.value).Some?
                      then old(db.pending)[PendingByName(old(db.pending), username.value).value].id
                      else old(db.nextId))
        && db.nextId == (if PendingByName(old(db.pending), username.value).Some? then old(db.nextId) else old(db.nextId) + 1)
        && db.users == old(db.users) && db.posts == old(db.posts) && db.comments == old(db.comments)
  {
    if !Truthy(username) || !Truthy(email) || !Truthy(password) {
      return 400, None, None;
    }
    if UserByEmail(db.users, email.value).Some? {
      return 400, None, None;
    }
    var otp := OtpCode(r);
    mailedCode := Some(otp);
    if !mailSent {
      return 500, None, mailedCode;
    }
    var data := PendingByName(db.pending, username.value);
    var expires := now + OtpLifetimeMs;
    if data.None? {
      id := Some(db.nextId);
      db.pending := db.pending + [PendingSignup(db.nextId, username.value, email.value, hashedPassword, otp, expires)];
      db.nextId := db.nextId + 1;
    } else {
      var keptId := db.pending[data.value].id;
      id := Some(keptId);
      db.pending := db.pending[data.value := PendingSignup(keptId, username.value, email.value, hashedPassword, otp, expires)];
    }
    status := 200;
  }

  // ---------------------------------------------------------------------
  // Verification

  /** `userData.otp === otp && userData.otpExpires > now` */
  predicate CodeAccepted(rec: PendingSignup, otp: Option<string>, now: int) {
    otp == Some(rec.otp) && rec.otpExpires > now
  }

  /** A record written by `/otp` at time `t` accepts its own code exactly before the ten minutes are up, and no other draw's code. */
  lemma FreshCodeAccepted(rec: PendingSignup, r: nat, r': nat, t: int, now: int)
    requires r < 900000 && r' < 900000
    requires rec.otp == OtpCode(r) && rec.otpExpires == t + OtpLifetimeMs
    ensures CodeAccepted(rec, Some(OtpCode(r)), now) <==> now < t + OtpLifetimeMs
    ensures r' != r ==> !CodeAccepted(rec, Some(OtpCode(r')), now)
  {
    OtpCodeRange(r, r');
  }

  /**
   * `/verify-otp`: 404 when no pending record has the id. When the code
   * matches and has not expired, a user with the record's name, email and
   * password hash is created, the record is deleted, and 200 is answered
   * with the email; otherwise 400 is answered and the record is kept.
   */
  method VerifyOtp(db: Database, otp: Option<string>, id: Option<ObjectId>, now: int) returns (status: nat, email: Option<string>)
    requires db.Valid()
    modifies db
    ensures db.Valid()
    ensures (id.None? || PendingById(old(db.pending), id.value).None?) ==> status == 404 && email.None? && unchanged(db)
    ensures id.Some? && PendingById(old(db.pending), id.value).Some? ==>
      var at := PendingById(old(db.pending), id.value).value;
      var rec := old(db.pending)[at];
      if CodeAccepted(rec, otp, now) then
        && status == 200 && email == Some(rec.email)
        && db.users == old(db.users) + [User(old(db.nextId), rec.name, rec.email, Some(rec.password), None)]
        && db.pending == old(db.pending)[..at] + old(db.pending)[at + 1..]
        && db.nextId == old(db.nextId) + 1
        && db.posts == old(db.posts) && db.comments == old(db.comments)
      else status == 400 && email.None? && unchanged(db)
  {
    if id.None? {
      return 404, None;
    }
    var found := PendingById(db.pending, id.value);
    if found.None? {
      return 404, None;
    }
    var at := found.value;
    var userData := db.pending[at];
    if !(otp == Some(userData.otp) && userData.otpExpires > now) {
      return 400, None;
    }
    db.users := db.users + [User(db.nextId, userData.name, userData.email, Some(userData.password), None)];
    db.nextId := db.nextId + 1;
    ghost var before := db.pending;
    db.pending := db.pending[..at] + db.pending[at + 1..];
    assert forall i :: 0 <= i < |db.pending| ==> db.pending[i] == (if i < at then before[i] else before[i + 1]);
    return 200, Some(userData.email);
  }

  // ---------------------------------------------------------------------
  // Sign-in and the external identity provider

  /**
   * `/signin`. `matches(password, hash)` is the hash comparison. An unknown
   * email answers 400; a user without a password hash (one created through
   * the identity provider) makes the comparison throw, 500; otherwise 200
   * with the email when the password matches and 400 when it does not.
   */
  method SignIn(db: Database, email: string, password: string, matches: (string, string) -> bool) returns (status: nat, signedIn: Option<string>)
    ensures UserByEmail(db.users, email).None? ==> status == 400 && signedIn.None?
    ensures UserByEmail(db.users, email).Some? ==>
      var user := db.users[UserByEmail(db.users, email).value];
      && (user.password.None? ==> status == 500 && signedIn.None?)
      && (user.password.Some? && matches(password, user.password.value) ==> status == 200 && signedIn == Some(email))
      && (user.password.Some? && !matches(password, user.password.value) ==> status == 400 && signedIn.None?)
    ensures signedIn.Some? <==> status == 200
  {
    var man := UserByEmail(db.users, email);
    if man.None? {
      return 400, None;
    }
    var hashPass := db.users[man.value].password;
    if hashPass.None? {
      return 500, None;
    }
    if matches(password, hashPass.value) {
      return 200, Some(email);
    }
    return 400, None;
  }

  /** No two users share an email. */
  ghost predicate EmailsUnique(users: seq<User>) {
    forall i, j :: 0 <= i < j < |users| ==> users[i].email != users[j].email
  }

  /**
   * `/clerk-auth`: 400 when a field is missing. A user with the email gets
   * the identity provider's id and the name (200); otherwise a user without
   * a password is created (201). Either way the email is answered.
   */
  method ClerkAuth(db: Database, clerkId: Option<string>, name: Option<string>, email: Option<string>) returns (status: nat, signedIn: Option<string>)
    requires db.Valid()
    modifies db
    ensures db.Valid()
    ensures !(Truthy(clerkId) && Truthy(name) && Truthy(email)) ==> status == 400 && signedIn.None? && unchanged(db)
    ensures Truthy(clerkId) && Truthy(name) && Truthy(email) ==>
      && signedIn == email
      && db.posts == old(db.posts) && db.comments == old(db.comments) && db.pending == old(db.pending)
      && match UserByEmail(old(db.users), email.value)
         case Some(at) =>
           && status == 200
           && db.users == old(db.users)[at := old(db.users)[at].(clerkId := clerkId, name := name.value)]
           && db.nextId == old(db.nextId)
         case None =>
           && status == 201
           && db.users == old(db.users) + [User(old(db.nextId), name.value, email.value, None, clerkId)]
           && db.nextId == old(db.nextId) + 1
    ensures EmailsUnique(old(db.users)) ==> EmailsUnique(db.users)
  {
    if !Truthy(clerkId) || !Truthy(name) || !Truthy(email) {
      return 400, None;
    }
    var user := UserByEmail(db.users, email.value);
    if user.Some? {
      db.users := db.users[user.value := db.users[user.value].(clerkId := clerkId, name := name.value)];
      return 200, email;
    }
    db.users := db.users + [User(db.nextId, name.value, email.value, None, clerkId)];
    db.nextId := db.nextId + 1;
    return 201, email;
  }
}
