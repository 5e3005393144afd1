/**
 * The in-memory user store the handler tests run against. It knows one user,
 * Bob (id 1, "bob@example.com", password "password"), and treats
 * "dupe@example.com" as an address already taken. Every operation is a pure
 * function of its arguments.
 */
module mocks {
  import opened GoTypes
  import opened models

  const DupeEmail: string := "dupe@example.com"
  const BobID: Int := 1
  const BobName: string := "Bob Jones"
  const BobEmail: string := "bob@example.com"
  const BobPassword: string := "password"

  /** Signing up fails with ErrDuplicateEmail for the taken address, and succeeds otherwise. */
  function Insert(name: string, email: string, password: string): (err: Option<ModelError>)
    ensures err.Some? <==> email == DupeEmail
    ensures err.Some? ==> err.value == ErrDuplicateEmail
  {
    if email == DupeEmail then Some(ErrDuplicateEmail) else None
  }

  /** Bob's credentials yield his id; anything else yields ErrInvalidCredentials. */
  function Authenticate(email: string, password: string): (r: (Int, Option<ModelError>))
    ensures r.1.None? <==> email == BobEmail && password == BobPassword
    ensures r.1.None? ==> r.0 == BobID
    ensures r.1.Some? ==> r.0 == 0 && r.1.value == ErrInvalidCredentials
  {
    if email == BobEmail && password == BobPassword then (BobID, None)
    else (0, Some(ErrInvalidCredentials))
  }

  /** Only id 1 exists; the lookup itself never fails. */
  function Exists(id: Int): (r: (bool, Option<ModelError>))
    ensures r.1.None?
    ensures r.0 <==> id == BobID
  {
    if id == 1 then (true, None) else (false, None)
  }

  /** Fetches Bob for id 1, stamped with the current time now; other ids yield a nil user and ErrNoRecord. */
  function Get(id: Int, now: Time): (r: (Option<User>, Option<ModelError>))
    ensures r.0.Some? <==> id == BobID
    ensures r.0.Some? ==> r.1.None? && r.0.value == User(BobID, BobName, BobEmail, [], now)
    ensures r.0.None? ==> r.1 == Some(ErrNoRecord)
  {
    if id == 1 then (Some(User(1, "Bob Jones", "bob@example.com", [], now)), None)
    else (None, Some(ErrNoRecord))
  }

  /** Changing a password always succeeds, whatever the current password given. */
  function CompareAndUpdatePassword(id: Int, currentPassword: string, newPassword: string): (r: (bool, Option<ModelError>))
    ensures r.0 && r.1.None?
  {
    (true, None)
  }

  /**
   * Failed logins are indistinguishable: an unknown address and a known
   * address with the wrong password give identical results.
   */
  lemma UnknownEmailLooksLikeWrongPassword(email: string, password: string, wrongPassword: string)
    requires email != BobEmail
    requires wrongPassword != BobPassword
    ensures Authenticate(email, password) == Authenticate(BobEmail, wrongPassword)
    ensures Authenticate(email, password) == (0, Some(ErrInvalidCredentials))
  {
  }

  /** Any two failed logins return the same pair. */
  lemma FailedLoginsAgree(e1: string, p1: string, e2: string, p2: string)
    requires Authenticate(e1, p1).1.Some? && Authenticate(e2, p2).1.Some?
    ensures Authenticate(e1, p1) == Authenticate(e2, p2)
  {
  }

  /** Exists reports exactly the ids that Get can fetch. */
  lemma ExistsIffGet(id: Int, now: Time)
    ensures Exists(id).0 <==> Get(id, now).1.None?
    ensures Exists(id).0 <==> Get(id, now).0.Some?
  {
  }

  /** A successful login names a user that exists and whose record carries the address used. */
  lemma AuthenticatedUserExists(email: string, password: string, now: Time)
    requires Authenticate(email, password).1.None?
    ensures Exists(Authenticate(email, password).0) == (true, None)
    ensures Get(Authenticate(email, password).0, now).0.Some?
    ensures Get(Authenticate(email, password).0, now).0.value.email == email
  {
  }
}
