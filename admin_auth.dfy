/** The separate admin sign-in of app/actions/admin-auth.ts: passwords
    stored as lowercase hex of a salted digest, a session cookie holding a
    random token and its creation time, and the 24-hour expiry. SHA-256 and
    the random source are foreign: the digest is a function parameter and
    the random bytes an argument. */
module AdminAuth {
  import opened Types
  import opened Store
  import Text
  import Forms

  type Byte = b: int | 0 <= b < 256

  predicate IsLowerHex(c: char) {
    Text.IsDigit(c) || 'a' <= c <= 'f'
  }

  /** `b.toString(16).padStart(2, "0")`. */
  function ByteHex(b: Byte): (s: string)
    ensures |s| == 2 && IsLowerHex(s[0]) && IsLowerHex(s[1])
  {
    [Text.HexDigit(b / 16), Text.HexDigit(b % 16)]
  }

  /** `bytes.map(b => b.toString(16).padStart(2, "0")).join("")`
      (app/actions/admin-auth.ts:13, 25-27). */
  function ToHex(bytes: seq<Byte>): (s: string)
    ensures |s| == 2 * |bytes|
    ensures forall i :: 0 <= i < |s| ==> IsLowerHex(s[i])
  {
    if bytes == [] then [] else ByteHex(bytes[0]) + ToHex(bytes[1..])
  }

  /** The inverse reading: pairs of lowercase hex digits back to bytes. */
  function FromHex(s: string): Option<seq<Byte>>
    decreases |s|
  {
    if s == [] then Some([])
    else if |s| == 1 || !IsLowerHex(s[0]) || !IsLowerHex(s[1]) then None
    else
      match FromHex(s[2..])
      case None => None
      case Some(rest) => Some([(Text.HexValue(s[0]) * 16 + Text.HexValue(s[1])) as Byte] + rest)
  }

  lemma {:induction false} ByteHexValue(b: Byte)
    ensures Text.HexValue(ByteHex(b)[0]) * 16 + Text.HexValue(ByteHex(b)[1]) == b
  {
    Text.HexDigitValue(b / 16);
    Text.HexDigitValue(b % 16);
  }

  /** Reading the hex back gives the bytes. */
  lemma {:induction false} HexRoundTrip(bytes: seq<Byte>)
    ensures FromHex(ToHex(bytes)) == Some(bytes)
  {
    if bytes != [] {
      var s := ToHex(bytes);
      HexRoundTrip(bytes[1..]);
      ByteHexValue(bytes[0]);
      assert s[..2] == ByteHex(bytes[0]);
      assert s[2..] == ToHex(bytes[1..]);
      assert FromHex(s) == Some([bytes[0]] + bytes[1..]);
      assert [bytes[0]] + bytes[1..] == bytes;
    }
  }

  /** Every text that reads as bytes is the hex of those bytes, so two
      digests are equal exactly when their hex texts are. */
  lemma {:induction false} HexCanonical(s: string, bytes: seq<Byte>)
    requires FromHex(s) == Some(bytes)
    ensures ToHex(bytes) == s
    decreases |s|
  {
    if s != [] {
      var rest := FromHex(s[2..]).value;
      HexCanonical(s[2..], rest);
      var b := bytes[0];
      assert b == Text.HexValue(s[0]) * 16 + Text.HexValue(s[1]);
      HexDigitOf(s[0]);
      HexDigitOf(s[1]);
      assert ByteHex(b) == s[..2];
      assert bytes[1..] == rest;
      assert s == s[..2] + s[2..];
    }
  }

  lemma {:induction false} HexDigitOf(c: char)
    requires IsLowerHex(c)
    ensures Text.HexDigit(Text.HexValue(c)) == c
  {
  }

  lemma {:induction false} ToHexInjective(a: seq<Byte>, b: seq<Byte>)
    ensures ToHex(a) == ToHex(b) ==> a == b
  {
    HexRoundTrip(a);
    HexRoundTrip(b);
  }

  /** `password + process.env.ADMIN_PASSWORD_SALT`: an unset salt is
      concatenated as the text "undefined". */
  function Salted(password: string, salt: Option<string>): string {
    password + if salt.Some? then salt.value else "undefined"
  }

  /** hashPassword (app/actions/admin-auth.ts:8-14). */
  function HashPassword(digest: string -> seq<Byte>, salt: Option<string>, password: string): (h: string)
    ensures FromHex(h) == Some(digest(Salted(password, salt)))
  {
    HexRoundTrip(digest(Salted(password, salt)));
    ToHex(digest(Salted(password, salt)))
  }

  /** verifyPassword (app/actions/admin-auth.ts:16-19): equal hex texts,
      which is equal digests when the stored text is well-formed hex. */
  predicate VerifyPassword(digest: string -> seq<Byte>, salt: Option<string>, password: string, stored: string) {
    HashPassword(digest, salt, password) == stored
  }

  lemma {:induction false} VerifyMeansSameDigest(digest: string -> seq<Byte>, salt: Option<string>, password: string, stored: string)
    ensures VerifyPassword(digest, salt, password, stored) <==> FromHex(stored) == Some(digest(Salted(password, salt)))
  {
    if FromHex(stored) == Some(digest(Salted(password, salt))) {
      HexCanonical(stored, digest(Salted(password, salt)));
    }
  }

  /** generateSessionToken (app/actions/admin-auth.ts:22-28): a 32-byte
      array filled in place by `crypto.getRandomValues`, whose bytes are
      `random` here, then written out as hex. */
  method GenerateSessionToken(random: seq<Byte>) returns (token: string)
    requires |random| == 32
    ensures token == ToHex(random)
    ensures |token| == 64 && forall i :: 0 <= i < |token| ==> IsLowerHex(token[i])
  {
    var buffer := new Byte[32];
    var i := 0;
    while i < 32
      invariant 0 <= i <= 32
      invariant buffer[..i] == random[..i]
    {
      buffer[i] := random[i];
      i := i + 1;
    }
    assert buffer[..] == random;
    token := ToHex(buffer[..]);
  }

  /** The session record kept in the cookie (app/actions/admin-auth.ts:66-73).
      `createdAt` is None when the parsed value lacks it. */
  datatype Session = Session(adminId: Id, email: string, fullName: string, role: string, token: string,
                             createdAt: Option<int>)

  /** A cookie's value: the JSON of a session, or text JSON.parse refuses. */
  datatype CookieValue = SessionJson(session: Session) | Unparsable(text: string)

  datatype Cookie = Cookie(value: CookieValue, maxAgeSeconds: int)

  const SessionCookieName := "admin_session"

  /** `maxAge: 60 * 60 * 24` and `60 * 60 * 24 * 1000`
      (app/actions/admin-auth.ts:81, 107). */
  const CookieMaxAgeSeconds := 60 * 60 * 24
  const SessionMaxAgeMs := 60 * 60 * 24 * 1000

  /** The cookie's lifetime and the in-code window are the same 24 hours. */
  lemma {:induction false} WindowsAgree()
    ensures SessionMaxAgeMs == CookieMaxAgeSeconds * 1000 == 86400000
  {
  }

  /** `sessionAge > maxAge`. With createdAt missing the age is NaN and the
      comparison is false, so such a session never expires. */
  predicate Expired(s: Session, now: int) {
    s.createdAt.Some? && now - s.createdAt.value > SessionMaxAgeMs
  }

  /** The cookies of one browser. */
  class CookieStore {
    var jar: map<string, Cookie>

    constructor (initial: map<string, Cookie>)
      ensures jar == initial
    {
      jar := initial;
    }

    method Set(name: string, c: Cookie)
      modifies this
      ensures jar == old(jar)[name := c]
    {
      jar := jar[name := c];
    }

    method Delete(name: string)
      modifies this
      ensures jar == old(jar) - {name}
    {
      jar := jar - {name};
    }
  }

  /** The users the login lookup matches: lowercased email, active
      (app/actions/admin-auth.ts:40-45). */
  function LoginMatches(users: map<Id, AdminUser>, email: string): (r: set<Id>)
    ensures forall id :: id in r <==> id in users && users[id].email == Text.Lower(email) && users[id].isActive
  {
    set id | id in users && users[id].email == Text.Lower(email) && users[id].isActive
  }

  /** The login decision without its writes: an error text, or the one
      matching user whose password verifies. */
  function LoginDecision(users: map<Id, AdminUser>, email: Option<string>, password: Option<string>,
                         digest: string -> seq<Byte>, salt: Option<string>): (r: Result<Id>)
    ensures !Forms.Truthy(email) || !Forms.Truthy(password) ==> r == Err("Email and password are required")
    ensures r.Ok? ==> Forms.Truthy(email) && Forms.Truthy(password) && LoginMatches(users, email.value) == {r.value}
                      && VerifyPassword(digest, salt, password.value, users[r.value].passwordHash)
    ensures forall id :: (Forms.Truthy(email) && Forms.Truthy(password) && LoginMatches(users, email.value) == {id}
                          && VerifyPassword(digest, salt, password.value, users[id].passwordHash)) ==> r == Ok(id)
    ensures r.Err? && Forms.Truthy(email) && Forms.Truthy(password) ==> r == Err("Invalid email or password")
  {
    if !Forms.Truthy(email) || !Forms.Truthy(password) then Err("Email and password are required")
    else
      var matches := LoginMatches(users, email.value);
      if |matches| != 1 then Err("Invalid email or password")
      else
        var id := OnlyElement(matches);
        if VerifyPassword(digest, salt, password.value, users[id].passwordHash) then Ok(id)
        else Err("Invalid email or password")
  }

  function OnlyElement(s: set<Id>): (x: Id)
    requires |s| == 1
    ensures s == {x}
  {
    var x :| x in s;
    assert |s - {x}| == 0;
    assert s - {x} == {};
    assert s == {x};
    x
  }

  datatype Result<T> = Ok(value: T) | Err(error: string)

  /** adminLogin (app/actions/admin-auth.ts:30-86). On success the user's
      last_login becomes `now` and the session cookie is set with a fresh
      token and `now` as its creation time. */
  method AdminLogin(db: Database, cookies: CookieStore, email: Option<string>, password: Option<string>,
                    digest: string -> seq<Byte>, salt: Option<string>, now: nat, random: seq<Byte>)
    returns (res: ActionResult)
    requires |random| == 32
    modifies db, cookies
    ensures var d := LoginDecision(old(db.adminUsers), email, password, digest, salt);
            (d.Err? ==> res == Failure(d.error) && db.Snapshot() == old(db.Snapshot()) && cookies.jar == old(cookies.jar))
            && (d.Ok? ==>
                  var u := old(db.adminUsers)[d.value];
                  res == Success(None)
                  && db.Snapshot() == old(db.Snapshot()).(adminUsers := old(db.adminUsers)[d.value := u.(lastLogin := Some(now))])
                  && cookies.jar == old(cookies.jar)[SessionCookieName :=
                       Cookie(SessionJson(Session(d.value, u.email, u.fullName, u.role, ToHex(random), Some(now))),
                              CookieMaxAgeSeconds)])
  {
    var d := LoginDecision(db.adminUsers, email, password, digest, salt);
    if d.Err? {
      return Failure(d.error);
    }
    var u := db.adminUsers[d.value];
    db.adminUsers := db.adminUsers[d.value := u.(lastLogin := Some(now))];
    var token := GenerateSessionToken(random);
    var session := Session(d.value, u.email, u.fullName, u.role, token, Some(now));
    cookies.Set(SessionCookieName, Cookie(SessionJson(session), CookieMaxAgeSeconds));
    res := Success(None);
  }

  /** getAdminSession (app/actions/admin-auth.ts:94-119): no cookie or an
      unparsable one gives null; an expired one is deleted and gives null. */
  method GetAdminSession(cookies: CookieStore, now: int) returns (s: Option<Session>)
    modifies cookies
    ensures SessionCookieName !in old(cookies.jar) ==> s.None? && cookies.jar == old(cookies.jar)
    ensures SessionCookieName in old(cookies.jar) && old(cookies.jar)[SessionCookieName].value.Unparsable? ==>
              s.None? && cookies.jar == old(cookies.jar)
    ensures SessionCookieName in old(cookies.jar) && old(cookies.jar)[SessionCookieName].value.SessionJson? ==>
              var session := old(cookies.jar)[SessionCookieName].value.session;
              (Expired(session, now) ==> s.None? && cookies.jar == old(cookies.jar) - {SessionCookieName})
              && (!Expired(session, now) ==> s == Some(session) && cookies.jar == old(cookies.jar))
  {
    if SessionCookieName !in cookies.jar {
      return None;
    }
    match cookies.jar[SessionCookieName].value
    case Unparsable(_) =>
      s := None;
    case SessionJson(session) =>
      if Expired(session, now) {
        cookies.Delete(SessionCookieName);
        s := None;
      } else {
        s := Some(session);
      }
  }

  /** A session written by a login at time `t` is accepted exactly while
      at most 24 hours have passed. */
  lemma {:induction false} LoginSessionLifetime(session: Session, t: int, now: int)
    requires session.createdAt == Some(t)
    ensures !Expired(session, now) <==> now - t <= 86400000
  {
  }

  /** The role createAdminUser stores: the argument, or "admin" when the
      caller leaves it out (app/actions/admin-auth.ts:125). */
  function RoleOrDefault(role: Option<string>): string {
    if role.Some? then role.value else "admin"
  }

  /** The admin user createAdminUser inserts (app/actions/admin-auth.ts:130-141).
      The insert does not write is_active, so the row takes the column's
      default, `activeDefault`. */
  function NewAdminUser(email: string, password: string, fullName: string, role: Option<string>,
                        digest: string -> seq<Byte>, salt: Option<string>, activeDefault: bool): (u: AdminUser)
    ensures u.email == Text.Lower(email) && u.fullName == fullName && u.lastLogin.None?
    ensures u.isActive == activeDefault
    ensures role.None? ==> u.role == "admin"
    ensures role.Some? ==> u.role == role.value
    ensures VerifyPassword(digest, salt, password, u.passwordHash)
  {
    AdminUser(Text.Lower(email), HashPassword(digest, salt, password), fullName, RoleOrDefault(role), activeDefault, None)
  }

  /** createAdminUser: `dbError` is the message of the database's error;
      `data` is the inserted row that `.select().single()` returns. */
  method CreateAdminUser(db: Database, email: string, password: string, fullName: string, role: Option<string>,
                         digest: string -> seq<Byte>, salt: Option<string>, activeDefault: bool, dbError: Option<string>)
    returns (res: ActionResult, data: Option<AdminUser>, ghost newId: Option<Id>)
    modifies db
    ensures dbError.Some? ==>
              res == Failure(dbError.value) && data.None? && db.Snapshot() == old(db.Snapshot()) && newId.None?
    ensures dbError.None? ==>
              res == Success(None) && newId.Some? && newId.value !in old(db.adminUsers)
              && data == Some(NewAdminUser(email, password, fullName, role, digest, salt, activeDefault))
              && db.Snapshot() == old(db.Snapshot()).(adminUsers := old(db.adminUsers)[newId.value := data.value])
  {
    newId := None;
    if dbError.Some? {
      return Failure(dbError.value), None, newId;
    }
    var row := NewAdminUser(email, password, fullName, role, digest, salt, activeDefault);
    FreshIdExists(db.adminUsers);
    var created :| created !in db.adminUsers;
    db.adminUsers := db.adminUsers[created := row];
    newId := Some(created);
    res, data := Success(None), Some(row);
  }

  lemma {:induction false} LowerIdempotent(s: string)
    ensures Text.Lower(Text.Lower(s)) == Text.Lower(s)
  {
    var once := Text.Lower(s);
    assert forall i :: 0 <= i < |once| ==> Text.Lower(once)[i] == once[i];
  }

  /** An admin created with some email can sign in with any spelling of it
      that lowercases to the same text, and the right password, as long as
      the is_active default is true and no other active admin has that
      email. */
  lemma {:induction false} CreatedAdminCanLogIn(users: map<Id, AdminUser>, id: Id, email: string, typed: string, password: string,
                             fullName: string, role: Option<string>, digest: string -> seq<Byte>, salt: Option<string>)
    requires id in users && users[id] == NewAdminUser(email, password, fullName, role, digest, salt, true)
    requires forall k :: k in users && k != id && users[k].isActive ==> users[k].email != users[id].email
    requires Text.Lower(typed) == Text.Lower(email) && typed != "" && password != ""
    ensures LoginDecision(users, Some(typed), Some(password), digest, salt) == Ok(id)
  {
    assert LoginMatches(users, typed) == {id};
  }

  /** With any other is_active default, the created admin can never sign
      in, whatever is typed. */
  lemma {:induction false} InactiveAdminCannotLogIn(users: map<Id, AdminUser>, id: Id, email: string, password: string,
                             fullName: string, role: Option<string>, digest: string -> seq<Byte>, salt: Option<string>,
                             typed: Option<string>, typedPassword: Option<string>)
    requires id in users && users[id] == NewAdminUser(email, password, fullName, role, digest, salt, false)
    ensures LoginDecision(users, typed, typedPassword, digest, salt) != Ok(id)
  {
    if Forms.Truthy(typed) && Forms.Truthy(typedPassword) {
      assert id !in LoginMatches(users, typed.value);
    }
  }
}
