/** The login endpoint: a form with an identifier and a password is answered with a JSON error and
    an HTTP status, or with a redirect to the home page once the identity service accepts the
    credentials. An identifier that looks like an e-mail address is used as such; any other is taken
    as a profile name or Discord id and resolved to the address of that profile's account. The three
    calls into the backend are parameters: the profile lookup, the account lookup and the sign-in. */
module Login {
  import opened Js
  import Users

  // ---------------------------------------------------------------------------------------------
  // isEmailLike: /.+@.+\..+/.test(s)

  /** The characters a regular-expression `.` does not match. */
  predicate IsLineTerminator(c: char) {
    c == '\n' || c == '\r' || c == '\U{2028}' || c == '\U{2029}'
  }

  /** s[i..j] is a non-empty run that `.+` matches. */
  predicate DotRun(s: string, i: int, j: int)
    requires 0 <= i <= j <= |s|
  {
    i < j && forall k :: i <= k < j ==> !IsLineTerminator(s[k])
  }

  /** `.+@.+\..+` matches s[p..q], with its `@` at `a` and its `\.` at `d`. */
  predicate MatchAt(s: string, p: int, a: int, d: int, q: int) {
    0 <= p < a < d < q <= |s| && s[a] == '@' && s[d] == '.'
    && DotRun(s, p, a) && DotRun(s, a + 1, d) && DotRun(s, d + 1, q)
  }

  /** What `test` decides: the pattern matches somewhere in s. */
  ghost predicate RegexMatches(s: string) {
    exists p, a, d, q :: MatchAt(s, p, a, d, q)
  }

  /** The shortest match around an `@` at `a` and a `.` at `d`: one character before the `@`,
      at least one between them, one after the dot, none of them a line terminator. */
  predicate Witness(s: string, a: int, d: int) {
    1 <= a && a + 1 < d && d + 1 < |s| && s[a] == '@' && s[d] == '.'
    && !IsLineTerminator(s[a - 1]) && DotRun(s, a + 1, d) && !IsLineTerminator(s[d + 1])
  }

  /** isEmailLike. A string that looks like an address has at least five characters, an "@" and a ".". */
  predicate IsEmailLike(s: string): (b: bool)
    ensures b ==> 5 <= |s| && '@' in s && '.' in s
  {
    exists a, d | 0 <= a < d < |s| :: Witness(s, a, d)
  }

  /** isEmailLike decides exactly what the regular expression matches. */
  lemma EmailLikeIff(s: string)
    ensures IsEmailLike(s) <==> RegexMatches(s)
  {
    if IsEmailLike(s) {
      var a, d :| 0 <= a < d < |s| && Witness(s, a, d);
      assert MatchAt(s, a - 1, a, d, d + 2);
    }
    if RegexMatches(s) {
      var p, a, d, q :| MatchAt(s, p, a, d, q);
      assert !IsLineTerminator(s[a - 1]) && !IsLineTerminator(s[d + 1]);
      assert Witness(s, a, d);
    }
  }

  /** On a single line, looking like an address means an `@` with at least one character before it,
      then, at least two places later, a `.` with at least one character after it. */
  lemma EmailLikeOnOneLine(s: string)
    requires forall k :: 0 <= k < |s| ==> !IsLineTerminator(s[k])
    ensures IsEmailLike(s) <==>
      exists a, d | 0 <= a < d < |s| :: 1 <= a && a + 1 < d && d + 1 < |s| && s[a] == '@' && s[d] == '.'
  {
    if exists a, d | 0 <= a < d < |s| :: 1 <= a && a + 1 < d && d + 1 < |s| && s[a] == '@' && s[d] == '.' {
      var a, d :| 0 <= a < d < |s| && 1 <= a && a + 1 < d && d + 1 < |s| && s[a] == '@' && s[d] == '.';
      assert Witness(s, a, d);
    }
  }

  lemma EmailLikeExamples()
    ensures IsEmailLike("ana@mail.com")
    ensures !IsEmailLike("ana") && !IsEmailLike("@mail.com") && !IsEmailLike("ana@.com")
    ensures !IsEmailLike("ana@mail.") && !IsEmailLike("ana.mail@com")
  {
    assert Witness("ana@mail.com", 3, 8);
  }

  /** A line break between the `@` and the dot defeats the match. */
  lemma LineBreakDefeatsMatch()
    ensures !IsEmailLike("a@b\nc.d")
  {
    forall a, d | 0 <= a < d < 7 ensures !Witness("a@b\nc.d", a, d) {
      if a == 1 && d == 5 {
        assert "a@b\nc.d"[3] == '\n';
      }
    }
  }

  /** A slug, a dash and a non-empty id, followed by the synthetic domain, look like an address. */
  lemma DomainMakesEmailLike(slug: string, suffix: string)
    requires suffix != [] && suffix[|suffix| - 1] in Users.ID_ALPHABET
    ensures IsEmailLike(slug + "-" + suffix + Users.SYNTHETIC_DOMAIN)
  {
    var e := slug + "-" + suffix + Users.SYNTHETIC_DOMAIN;
    var at := |slug| + 1 + |suffix|;
    assert e[at - 1] == suffix[|suffix| - 1];
    assert forall k :: at <= k < |e| ==> e[k] == Users.SYNTHETIC_DOMAIN[k - at];
    assert Witness(e, at, at + 6);
  }

  /** The address createUser invents for an account without one looks like an address, so its
      owner can log in with it directly. */
  lemma SyntheticEmailIsEmailLike(name: string, suffixRolls: seq<nat>)
    requires Users.ValidRolls(suffixRolls) && |suffixRolls| == Users.EMAIL_ID_LENGTH
    ensures IsEmailLike(Users.SyntheticEmail(name, Users.Pick(suffixRolls)))
  {
    DomainMakesEmailLike(Users.Slugify(name), Users.Pick(suffixRolls));
  }

  // ---------------------------------------------------------------------------------------------
  // POST

  /** The answer of the endpoint. */
  datatype Response = Json(status: int, error: string) | RedirectHome

  /** A thrown value: Some(message) for an Error, None for anything else. */
  type Thrown = Option<string>

  /** The profile query by name or Discord id: an error (which is thrown), the id of the first
      matching row (possibly empty), or no row (or a row whose id is NULL). */
  datatype ProfileLookup = ProfileFailed(thrown: Thrown) | ProfileRow(id: string) | NoProfileRow

  /** getUserById: a thrown exception, or the reply, carrying the account's address unless it
      returned an error, no user or a user without an address. */
  datatype AccountLookup = AccountThrew(thrown: Thrown) | AccountReply(email: Option<string>)

  /** signInWithPassword: accepted, refused with a message, or thrown. */
  datatype SignInReply = SignedIn | Refused(message: string) | SignInThrew(thrown: Thrown)

  const MISSING_FIELDS: string := "Faltan datos"
  const USER_NOT_FOUND: string := "Usuario no encontrado"
  const NO_EMAIL_FOR_USER: string := "No se encontró email para el usuario"
  const UNKNOWN_ERROR: string := "Error desconocido"

  /** The catch block: status 500 with the Error's message, or a generic message for another value. */
  function ServerError(t: Thrown): (r: Response)
    ensures r.Json? && r.status == 500
    ensures r.error == (if t.Some? then t.value else UNKNOWN_ERROR)
  {
    Json(500, if t.Some? then t.value else UNKNOWN_ERROR)
  }

  /** Where the address to sign in with comes from, or the answer when it cannot be found. */
  datatype Resolution = Address(email: string) | Answer(response: Response)

  /** The address for an identifier: the identifier itself when it looks like one, else the address of
      the account of the first profile whose name or Discord id it is. */
  function Resolve(identifier: string, findProfile: string -> ProfileLookup, accountEmail: string -> AccountLookup): (r: Resolution)
    ensures IsEmailLike(identifier) ==> r == Address(identifier)
    ensures r.Address? && !IsEmailLike(identifier) ==>
      findProfile(identifier).ProfileRow? && findProfile(identifier).id != ""
      && accountEmail(findProfile(identifier).id) == AccountReply(Some(r.email)) && r.email != ""
    ensures r == Answer(Json(404, USER_NOT_FOUND)) <==>
      !IsEmailLike(identifier) && (findProfile(identifier) == NoProfileRow || findProfile(identifier) == ProfileRow(""))
    ensures !IsEmailLike(identifier) && findProfile(identifier).ProfileFailed? ==>
      r == Answer(ServerError(findProfile(identifier).thrown))
    ensures !IsEmailLike(identifier) && findProfile(identifier).ProfileRow? && findProfile(identifier).id != "" ==>
      var account := accountEmail(findProfile(identifier).id);
      && (account.AccountThrew? ==> r == Answer(ServerError(account.thrown)))
      && (account.AccountReply? && (account.email.None? || account.email == Some("")) ==> r == Answer(Json(404, NO_EMAIL_FOR_USER)))
      && (account.AccountReply? && account.email.Some? && account.email.value != "" ==> r == Address(account.email.value))
    ensures r.Answer? ==> r.response.Json? && r.response.status in {404, 500}
  {
    if IsEmailLike(identifier) then Address(identifier)
    else
      match findProfile(identifier)
      case ProfileFailed(t) => Answer(ServerError(t))
      case NoProfileRow => Answer(Json(404, USER_NOT_FOUND))
      case ProfileRow(id) =>
        if id == "" then Answer(Json(404, USER_NOT_FOUND))
        else
          match accountEmail(id)
          case AccountThrew(t) => Answer(ServerError(t))
          case AccountReply(email) =>
            if email.None? || email.value == "" then Answer(Json(404, NO_EMAIL_FOR_USER))
            else Address(email.value)
  }

  /** The try block of POST for a non-empty identifier and password: resolve the address, then sign in. */
  function SignInAs(identifier: string, password: string, findProfile: string -> ProfileLookup,
                    accountEmail: string -> AccountLookup, signIn: (string, string) -> SignInReply): (r: Response)
    ensures r.RedirectHome? <==>
      Resolve(identifier, findProfile, accountEmail).Address?
      && signIn(Resolve(identifier, findProfile, accountEmail).email, password) == SignedIn
    ensures r.Json? ==> r.status in {401, 404, 500}
    ensures r.Json? && r.status == 401 <==>
      Resolve(identifier, findProfile, accountEmail).Address?
      && signIn(Resolve(identifier, findProfile, accountEmail).email, password).Refused?
    ensures r.Json? && r.status == 401 ==>
      r.error == signIn(Resolve(identifier, findProfile, accountEmail).email, password).message
    ensures Resolve(identifier, findProfile, accountEmail).Answer? ==>
      r == Resolve(identifier, findProfile, accountEmail).response
    ensures (Resolve(identifier, findProfile, accountEmail).Address?
             && signIn(Resolve(identifier, findProfile, accountEmail).email, password).SignInThrew?) ==>
      r == ServerError(signIn(Resolve(identifier, findProfile, accountEmail).email, password).thrown)
  {
    match Resolve(identifier, findProfile, accountEmail)
    case Answer(response) => response
    case Address(email) =>
      match signIn(email, password)
      case SignedIn => RedirectHome
      case Refused(message) => Json(401, message)
      case SignInThrew(t) => ServerError(t)
  }

  /** POST: the identifier is trimmed, the password is taken as typed; both are required, and only
      then is anything looked up. */
  function Post(identifierField: Option<string>, passwordField: Option<string>,
                findProfile: string -> ProfileLookup, accountEmail: string -> AccountLookup,
                signIn: (string, string) -> SignInReply): (r: Response)
    ensures var identifier, password := Trim(FieldText(identifierField)), FieldText(passwordField);
      && (r == Json(400, MISSING_FIELDS) <==> identifier == "" || password == "")
      && (r.Json? && r.status == 400 ==> r.error == MISSING_FIELDS)
      && (r.RedirectHome? <==>
            identifier != "" && password != "" && SignInAs(identifier, password, findProfile, accountEmail, signIn).RedirectHome?)
      && (r.Json? ==> r.status in {400, 401, 404, 500})
      && (identifier != "" && password != "" ==> r == SignInAs(identifier, password, findProfile, accountEmail, signIn))
  {
    var identifier := Trim(FieldText(identifierField));
    var password := FieldText(passwordField);
    if identifier == "" || password == "" then Json(400, MISSING_FIELDS)
    else SignInAs(identifier, password, findProfile, accountEmail, signIn)
  }

  /** An identifier that looks like an address is signed in with as it stands: the answer is the
      redirect exactly when the service accepts that address and password, and never a 404. */
  lemma EmailLikeSignsInDirectly(identifierField: Option<string>, passwordField: Option<string>,
                                 findProfile: string -> ProfileLookup, accountEmail: string -> AccountLookup,
                                 signIn: (string, string) -> SignInReply)
    requires FieldText(passwordField) != ""
    requires IsEmailLike(Trim(FieldText(identifierField)))
    ensures var r := Post(identifierField, passwordField, findProfile, accountEmail, signIn);
      && (r.RedirectHome? <==> signIn(Trim(FieldText(identifierField)), FieldText(passwordField)) == SignedIn)
      && (r.Json? ==> r.status in {401, 500})
  {
    var identifier := Trim(FieldText(identifierField));
    assert identifier != "";
    assert Resolve(identifier, findProfile, accountEmail) == Address(identifier);
  }

  /** A name or Discord id that no profile has is answered with 404 "Usuario no encontrado", and that
      answer comes from nothing else. */
  lemma UnknownNameIsNotFound(identifierField: Option<string>, passwordField: Option<string>,
                              findProfile: string -> ProfileLookup, accountEmail: string -> AccountLookup,
                              signIn: (string, string) -> SignInReply)
    ensures var identifier := Trim(FieldText(identifierField));
      Post(identifierField, passwordField, findProfile, accountEmail, signIn) == Json(404, USER_NOT_FOUND)
      <==> identifier != "" && FieldText(passwordField) != "" && !IsEmailLike(identifier)
           && (findProfile(identifier) == NoProfileRow || findProfile(identifier) == ProfileRow(""))
  {
    var identifier := Trim(FieldText(identifierField));
    var password := FieldText(passwordField);
    if identifier != "" && password != "" {
      var res := Resolve(identifier, findProfile, accountEmail);
      if res.Address? {
        var reply := signIn(res.email, password);
        assert reply.SignInThrew? ==> ServerError(reply.thrown).status == 500;
      }
    }
  }

  /** For an identifier that looks like an address the profile and account lookups are never consulted. */
  lemma AddressSkipsLookups(identifierField: Option<string>, passwordField: Option<string>,
                            f1: string -> ProfileLookup, f2: string -> ProfileLookup,
                            e1: string -> AccountLookup, e2: string -> AccountLookup,
                            signIn: (string, string) -> SignInReply)
    requires IsEmailLike(Trim(FieldText(identifierField)))
    ensures Post(identifierField, passwordField, f1, e1, signIn) == Post(identifierField, passwordField, f2, e2, signIn)
  {
    var identifier := Trim(FieldText(identifierField));
    assert Resolve(identifier, f1, e1) == Resolve(identifier, f2, e2);
  }

  /** A refused sign-in is answered with 401 and the service's own message. */
  lemma RefusalIsReported(identifierField: Option<string>, passwordField: Option<string>,
                          findProfile: string -> ProfileLookup, accountEmail: string -> AccountLookup,
                          signIn: (string, string) -> SignInReply, message: string)
    requires Trim(FieldText(identifierField)) != "" && FieldText(passwordField) != ""
    requires Resolve(Trim(FieldText(identifierField)), findProfile, accountEmail).Address?
    requires signIn(Resolve(Trim(FieldText(identifierField)), findProfile, accountEmail).email, FieldText(passwordField)) == Refused(message)
    ensures Post(identifierField, passwordField, findProfile, accountEmail, signIn) == Json(401, message)
  {
  }
}
