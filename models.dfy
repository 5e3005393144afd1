/** The data-access layer's shared types: the user record and the sentinel errors. */
module models {
  import opened GoTypes

  /** A point in time, as handed in by the caller (for instance `time.Now()`). */
  datatype Time = Time(unixNanos: int)

  /** A registered user. */
  datatype User = User(id: Int, name: string, email: string, hashedPassword: seq<Byte>, created: Time)

  /** The sentinel errors; callers tell them apart by identity (`errors.Is`). */
  datatype ModelError = ErrNoRecord | ErrInvalidCredentials | ErrDuplicateEmail

  /** The text each sentinel error carries. */
  function Message(e: ModelError): (m: string)
    ensures |m| > 8 && m[..8] == "models: "
  {
    match e
    case ErrNoRecord => "models: no matching record found"
    case ErrInvalidCredentials => "models: invalid credentials"
    case ErrDuplicateEmail => "models: duplicate email"
  }

  /** Distinct sentinels carry distinct texts. */
  lemma MessageInjective(a: ModelError, b: ModelError)
    requires Message(a) == Message(b)
    ensures a == b
  {
  }
}
