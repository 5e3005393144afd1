# snippetbox: form validation and the test user store, in Dafny

This project models two parts of the snippetbox web application, a tutorial
site for sharing short text snippets:

- **The form-validation package** (`validator.dfy`, module `validator`).
  It has the stand-alone checks that the handlers apply to submitted form
  fields: `NotBlank`, `MaxChars`, `MinChars` and `PermittedInt`. It also has
  the `Validator` accumulator. A `Validator` keeps at most one message per
  field, and the first failure recorded for a field wins. It also keeps an
  ordered list of form-level messages. A form is valid iff both are empty.
  `Validator` is a class whose methods update its two fields in place. Its
  state has a value-level counterpart, the datatype `Errors`. Each method
  states its new state as a function of the old one. Lemmas about `Replay`
  follow a whole sequence of calls. They prove that field messages keep the
  first failure, that form-level messages stay in call order, and that a
  validator that has recorded anything stays invalid.
- **The in-memory user store used by the handler tests** (`mocks.dfy`,
  module `mocks`). It returns the sentinel errors of the models package
  (`models.dfy`, module `models`). These are pure functions of their
  arguments. Lemmas connect them: a successful login names a user that
  exists, `Exists` agrees with `Get`, and a login with an unknown address
  fails exactly like one with the wrong password.

`gotypes.dfy` (module `GoTypes`) holds Go's 64-bit `int`, its bytes, and an
`Option` for nil pointers and nil errors. The library calls the validator
makes are modelled in modules named after their Go packages: `unicode.dfy`
(`unicode.IsSpace`), `strings.dfy` (`strings.TrimLeftFunc`,
`strings.TrimRightFunc`, `strings.TrimFunc` and `strings.TrimSpace`) and
`utf8.dfy` (`utf8.RuneCountInString`).

Strings are sequences of Unicode code points, so `utf8.RuneCountInString`
is the length of the sequence. `IsSpace` is written out as Go's table: a
fixed list for Latin-1 (tab, newline, vertical tab, form feed, carriage
return, space, U+0085, U+00A0), and Unicode's White_Space ranges above it
(U+1680, U+2000–U+200A, U+2028, U+2029, U+202F, U+205F and U+3000).
`strings.TrimSpace` trims leading code points first and then trailing ones,
as `TrimFunc` does.

## Model

| member | source | states |
|---|---|---|
| `unicode.IsSpaceIsWhiteSpace` | internal/validator/validator.go:45 | the whitespace test used by `strings.TrimSpace` holds exactly for Unicode's White_Space code points: Go's Latin-1 list agrees with the White_Space table below U+0100 |
| `strings.TrimStart` | internal/validator/validator.go:45 | the number of leading code points satisfying the predicate: all before it satisfy it, and the one at it (if any) does not |
| `strings.TrimEnd` | internal/validator/validator.go:45 | the end of the string without its trailing code points satisfying the predicate: all from it on satisfy it, and the one before it (if any) does not |
| `strings.TrimFunc` | internal/validator/validator.go:45 | the result is the slice of the input that starts after its leading run of predicate-satisfying code points and drops only such code points at the end; it has no such code point at either end; it is empty iff every code point of the input satisfies the predicate |
| `strings.TrimSpace` | internal/validator/validator.go:45 | the result is the slice of the input with exactly its leading and trailing whitespace removed, no whitespace at either end, and it is empty iff the input is all whitespace |
| `utf8.RuneCount` | internal/validator/validator.go:48-56 | the number of code points, counted one by one, equals the length of the code-point sequence |
| `validator.NotBlank` | internal/validator/validator.go:43-46 | true iff the value holds at least one non-whitespace code point, so it is false for the empty string and for whitespace-only strings |
| `validator.MaxChars` | internal/validator/validator.go:48-51 | true iff the code-point count is at most n |
| `validator.MinChars` | internal/validator/validator.go:53-56 | true iff the code-point count is at least n |
| `validator.MaxCharsIsNotMinCharsPlusOne` | internal/validator/validator.go:48-56 | MaxChars(v, n) == !MinChars(v, n + 1) whenever n + 1 is still a Go int |
| `validator.PermittedInt` | internal/validator/validator.go:58-66 | returns true iff the value occurs among the permitted values, so false for an empty list |
| `validator.AddNonField` | internal/validator/validator.go:21-23 | appends the message after all earlier ones, which keep their order; the field messages are unchanged; the result is not error-free |
| `validator.AddField` | internal/validator/validator.go:25-34 | the key has a message afterwards, which is the one it had before if any, otherwise the new one; no other key gains a message, every existing message is kept, and form-level messages are unchanged |
| `validator.Check` | internal/validator/validator.go:36-41 | a passing check changes nothing; a failing check has exactly the effect of AddField |
| `validator.ReplayNonField` | internal/validator/validator.go:21-41 | after any sequence of calls, the form-level messages are the old ones followed by the messages of the AddNonFieldError calls, in call order |
| `validator.ReplayField` | internal/validator/validator.go:25-41 | after any sequence of calls, a field keeps the message it had, and otherwise holds the message of the first call that recorded one for it (none if no call did) |
| `validator.ReplayNoErrors` | internal/validator/validator.go:17-41 | after any sequence of calls, the errors are empty iff they were empty before and no call recorded a message |
| `validator.ReplayStaysInvalid` | internal/validator/validator.go:17-41 | once anything has been recorded, no sequence of further calls makes the validator valid again |
| `validator.Validator.constructor` | internal/validator/validator.go:12-15 | the zero value holds no messages and is valid |
| `validator.Validator.Valid` | internal/validator/validator.go:17-19 | true iff there is no form-level message and no field has a message |
| `validator.Validator.AddNonFieldError` | internal/validator/validator.go:21-23 | the form-level list becomes the old list plus the message at its end; field messages are unchanged; the validator is invalid afterwards |
| `validator.Validator.AddFieldError` | internal/validator/validator.go:25-34 | an existing message for the key stays; otherwise the key maps to the new message; other keys and the form-level list are unchanged; the validator is invalid afterwards |
| `validator.Validator.CheckField` | internal/validator/validator.go:36-41 | a passing check leaves both fields unchanged; a failing one has the same effect as AddFieldError and leaves the validator invalid |
| `models.Message` | internal/models/errors.go:8-12 | each sentinel error's text starts with "models: " |
| `models.MessageInjective` | internal/models/errors.go:8-12 | distinct sentinel errors have distinct texts |
| `mocks.Insert` | internal/models/mocks/users.go:10-17 | fails iff the email is "dupe@example.com", and the failure is ErrDuplicateEmail |
| `mocks.Authenticate` | internal/models/mocks/users.go:19-25 | returns (1, nil) iff the email is "bob@example.com" and the password is "password"; otherwise returns (0, ErrInvalidCredentials) |
| `mocks.Exists` | internal/models/mocks/users.go:27-34 | never errors, and reports true iff the id is 1 |
| `mocks.Get` | internal/models/mocks/users.go:36-48 | for id 1 returns Bob's record (id 1, "Bob Jones", "bob@example.com", created at the given time) and no error; for any other id returns no user and ErrNoRecord |
| `mocks.CompareAndUpdatePassword` | internal/models/mocks/users.go:50-52 | always returns (true, nil) |
| `mocks.UnknownEmailLooksLikeWrongPassword` | internal/models/mocks/users.go:19-25 | a login with an unknown address returns exactly what a login with Bob's address and a wrong password returns |
| `mocks.FailedLoginsAgree` | internal/models/mocks/users.go:19-25 | any two failed logins return the same pair, so a failure reveals nothing about which credential was wrong |
| `mocks.ExistsIffGet` | internal/models/mocks/users.go:27-48 | Exists(id) is true iff Get(id) returns a user and no error |
| `mocks.AuthenticatedUserExists` | internal/models/mocks/users.go:19-48 | the id returned by a successful login exists, and Get for it returns the user with the address used to log in |

## Left out

- `Matches` and `EmailRX` (internal/validator/validator.go:10, 68-70) are not modelled. They only call Go's regular-expression engine.
- `validator.NotBlank`, `validator.MaxChars`, `validator.MinChars`, `strings.TrimSpace`: strings are code-point sequences. Go strings that are not valid UTF-8 are not modelled. For those, `RuneCountInString` counts each bad byte as one rune, and `TrimSpace` never trims such bytes.
- `validator.Validator.AddFieldError`: Go's lazy allocation of a nil `FieldErrors` map is not modelled as a separate state. A nil map and an empty map read alike and have the same length, so the model uses one empty map for both.
- `mocks.Get`: `time.Now()` becomes the parameter `now`. The hashed password of the returned user is empty, matching the nil byte slice in the source.
- `mocks.CompareAndUpdatePassword`: the mock ignores the id and both passwords and always returns (true, nil). The SQL-backed store in this revision (internal/models/users.go) has no such method, so there is no real password check to model.
- `validator.Validator`: Go's `Validator` is a value type embedded in each form struct. A copy of a form shares the `FieldErrors` map once it has been allocated, and may share the backing array of `NonFieldErrors`; a copy taken before the first `AddFieldError` gets a map of its own. A Dafny class is a single reference, so this sharing between copies is not modelled. No code in this revision copies a validator and then changes it.
- The real SQL-backed models (internal/models/snippets.go, internal/models/users.go) are not part of this model. They are database calls and bcrypt hashing, and their read methods are empty stubs.
- The HTTP handlers, routing, middleware, sessions, CSRF protection, templates and server start-up are not part of this model. They are request and response plumbing over external libraries.
