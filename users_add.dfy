/** The logic of `app/users/add.tsx`: the checks an Admin's new-account form must
    pass before the account request is handed to the user store. */
module UsersAdd {
  import opened Wrappers
  import opened Types
  import opened Text
  import opened AuthContext

  /** A character the class `[^\s@]` accepts. */
  predicate EmailChar(c: char) {
    !IsSpace(c) && c != '@'
  }

  predicate AllEmailChars(s: string) {
    forall i :: 0 <= i < |s| ==> EmailChar(s[i])
  }

  /** `^[^\s@]+@[^\s@]+\.[^\s@]+$` matches `s` with its '@' at `at` and its
      literal '.' at `dot`. */
  predicate MatchesAt(s: string, at: int, dot: int) {
    0 < at && at + 1 < dot && dot + 1 < |s| && s[at] == '@' && s[dot] == '.' &&
    AllEmailChars(s[..at]) && AllEmailChars(s[at + 1..dot]) && AllEmailChars(s[dot + 1..])
  }

  /** The e-mail regular expression of the form matches `s`. */
  ghost predicate MatchesEmailPattern(s: string) {
    exists at, dot :: MatchesAt(s, at, dot)
  }

  /** The same test read off the string directly: exactly one '@', no white
      space, a non-empty part before the '@', and a '.' in the domain with at
      least one character on each side of it. */
  predicate IsValidEmail(s: string) {
    '@' in s &&
    var at := IndexOf(s, '@');
    var domain := s[at + 1..];
    at > 0 && AllEmailChars(s[..at]) && AllEmailChars(domain) &&
    |domain| >= 3 && '.' in domain[1..|domain| - 1]
  }

  /** Every string the direct check accepts, the pattern matches. */
  lemma EmailCheckIsSound(s: string)
    requires IsValidEmail(s)
    ensures MatchesEmailPattern(s)
  {
    var at := IndexOf(s, '@');
    var domain := s[at + 1..];
    var j := IndexOf(domain[1..|domain| - 1], '.');
    var dot := at + 2 + j;
    assert s[dot] == domain[j + 1];
    assert s[at + 1..dot] == domain[..j + 1];
    assert s[dot + 1..] == domain[j + 2..];
    assert MatchesAt(s, at, dot);
  }

  /** A run of `[^\s@]` characters holds no '@'. */
  lemma EmailCharsHaveNoAt(t: string)
    requires AllEmailChars(t)
    ensures '@' !in t
  {
  }

  /** Two runs of `[^\s@]` characters joined by a '.' form one run. */
  lemma EmailCharsAroundDot(a: string, b: string)
    requires AllEmailChars(a) && AllEmailChars(b)
    ensures AllEmailChars(a + ['.'] + b)
  {
  }

  /** Every string the pattern matches, the direct check accepts. */
  lemma EmailCheckIsComplete(s: string)
    requires MatchesEmailPattern(s)
    ensures IsValidEmail(s)
  {
    var at, dot :| MatchesAt(s, at, dot);
    EmailCharsHaveNoAt(s[..at]);
    IndexOfIsFirst(s, '@', at);
    var domain := s[at + 1..];
    assert domain == s[at + 1..dot] + ['.'] + s[dot + 1..];
    EmailCharsAroundDot(s[at + 1..dot], s[dot + 1..]);
    assert domain[1..|domain| - 1][dot - at - 2] == '.';
  }

  lemma EmailCheckMatchesPattern(s: string)
    ensures IsValidEmail(s) <==> MatchesEmailPattern(s)
  {
    if IsValidEmail(s) { EmailCheckIsSound(s); }
    if MatchesEmailPattern(s) { EmailCheckIsComplete(s); }
  }

  datatype UserFormError = MissingRequiredField | PasswordTooShort | InvalidEmail

  /** The checks `handleSave` makes, in order: required fields, then password
      length, then the e-mail pattern. */
  function ValidateNewUser(fullName: string, email: string, password: string): (r: Option<UserFormError>)
    ensures r == Some(MissingRequiredField) <==> fullName == "" || email == "" || password == ""
    ensures r == Some(PasswordTooShort) <==> fullName != "" && email != "" && password != "" && |password| < 6
    ensures r == Some(InvalidEmail) <==>
      fullName != "" && email != "" && |password| >= 6 && !MatchesEmailPattern(email)
    ensures r.None? <==> fullName != "" && |password| >= 6 && MatchesEmailPattern(email)
  {
    EmailCheckMatchesPattern(email);
    if fullName == "" || email == "" || password == "" then Some(MissingRequiredField)
    else if |password| < 6 then Some(PasswordTooShort)
    else if !IsValidEmail(email) then Some(InvalidEmail)
    else None
  }

  /** The object `handleSave` passes to `addUser`. */
  datatype NewUserRequest = NewUserRequest(
    fullName: string,
    email: string,
    password: string,
    phoneNumber: string,
    role: UserRole,
    avatar: string,
    createdBy: string)

  class AddUserForm {
    var fullName: string
    var email: string
    var password: string
    var phoneNumber: string
    var role: UserRole
    var avatar: string

    /** The form starts empty, with the Staff role selected. */
    constructor ()
      ensures fullName == "" && email == "" && password == "" && phoneNumber == "" && avatar == ""
      ensures role == Staff
    {
      fullName, email, password, phoneNumber, avatar := "", "", "", "", "";
      role := Staff;
    }

    /** `handleSave`, reachable only past the Admin gate: either the first failing
        check, or the request for `addUser`, carrying the form's values and the
        signed-in Admin as creator. */
    method HandleSave(currentUser: Option<User>) returns (r: Result<NewUserRequest, UserFormError>)
      requires AdminGate(currentUser)
      ensures r.Failure? <==> ValidateNewUser(fullName, email, password).Some?
      ensures r.Failure? ==> ValidateNewUser(fullName, email, password) == Some(r.error)
      ensures r.Success? ==> |r.value.password| >= 6 && MatchesEmailPattern(r.value.email)
      ensures r.Success? ==> r.value == NewUserRequest(
        fullName, email, password, phoneNumber, role, avatar, currentUser.value.id)
    {
      var problem := ValidateNewUser(fullName, email, password);
      if problem.Some? {
        return Failure(problem.value);
      }
      r := Success(NewUserRequest(fullName, email, password, phoneNumber, role, avatar, currentUser.value.id));
    }
  }
}
