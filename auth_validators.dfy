/**
 * Custom request validation run by the authentication handlers
 * (backend/internal/validators/auth_validators.go). Every validator answers `None` (Go's nil)
 * or `Some(message)`, the text of the first guard that fires.
 */
module AuthValidators {
  import opened Base
  import opened Text
  import opened Models

  const NameRequired := "name is required"
  const NameTooShort := "name must be at least 2 characters long"
  const NameTooLong := "name must be no more than 50 characters long"
  const UsernameRequired := "username is required"
  const UsernameTooShort := "username must be at least 3 characters long"
  const UsernameTooLong := "username must be no more than 30 characters long"
  const UsernameCharset := "username can only contain letters, numbers, and underscores"
  const EmailRequired := "email is required"
  const EmailInvalid := "invalid email"
  const EmailTooLong := "email must be no more than 100 characters long"
  const PasswordRequired := "password is required"
  const PasswordTooShort := "password must be at least 6 characters long"
  const PasswordTooLong := "password must be no more than 100 characters long"

  /** A character of the class [a-zA-Z0-9_]. */
  predicate IsWordChar(c: char) {
    IsAsciiLetter(c) || IsDigit(c) || c == '_'
  }

  /** `^[a-zA-Z0-9_]+$`. */
  predicate MatchesUsernamePattern(s: string) {
    s != [] && forall i :: 0 <= i < |s| ==> IsWordChar(s[i])
  }

  predicate NoPerlSpace(s: string) {
    forall i :: 0 <= i < |s| ==> !IsPerlSpace(s[i])
  }

  /** `^\S+@\S+$` under RE2: no \s character anywhere and an '@' with at least one character on each side. */
  predicate MatchesEmailPattern(s: string) {
    NoPerlSpace(s) && exists i :: 0 < i < |s| - 1 && s[i] == '@'
  }

  /** The regular expression's own reading: one or more non-space characters, '@', one or more non-space characters. */
  lemma EmailPatternFromParts(local: string, domain: string)
    requires local != [] && domain != [] && NoPerlSpace(local) && NoPerlSpace(domain)
    ensures MatchesEmailPattern(local + "@" + domain)
  {
    var s := local + "@" + domain;
    assert s[|local|] == '@';
    forall i | 0 <= i < |s| ensures !IsPerlSpace(s[i]) {
      if i < |local| { assert s[i] == local[i]; }
      else if i > |local| { assert s[i] == domain[i - |local| - 1]; }
    }
  }

  /** ... and every match splits that way. */
  lemma EmailPatternParts(s: string) returns (local: string, domain: string)
    requires MatchesEmailPattern(s)
    ensures s == local + "@" + domain
    ensures local != [] && domain != [] && NoPerlSpace(local) && NoPerlSpace(domain)
  {
    var i :| 0 < i < |s| - 1 && s[i] == '@';
    local, domain := s[..i], s[i + 1..];
    assert s == local + "@" + domain;
    assert forall k :: 0 <= k < |local| ==> local[k] == s[k];
    assert forall k :: 0 <= k < |domain| ==> domain[k] == s[i + 1 + k];
  }

  /** validateName: trimmed, non-empty, 2..50 bytes. */
  function ValidateName(name: string): (err: Option<string>)
    ensures err == None <==> 2 <= |TrimSpace(name)| <= 50
    ensures err == Some(NameRequired) <==> AllSpace(name)
    ensures err == Some(NameTooShort) <==> |TrimSpace(name)| == 1
    ensures err == Some(NameTooLong) <==> |TrimSpace(name)| > 50
  {
    var n := TrimSpace(name);
    if n == "" then Some(NameRequired)
    else if |n| < 2 then Some(NameTooShort)
    else if |n| > 50 then Some(NameTooLong)
    else None
  }

  /** validateUsername: trimmed, non-empty, 3..30 bytes, then only [a-zA-Z0-9_]. */
  function ValidateUsername(username: string): (err: Option<string>)
    ensures err == None <==> 3 <= |TrimSpace(username)| <= 30 && MatchesUsernamePattern(TrimSpace(username))
    ensures err == Some(UsernameRequired) <==> AllSpace(username)
    ensures err == Some(UsernameTooShort) <==> 1 <= |TrimSpace(username)| < 3
    ensures err == Some(UsernameTooLong) <==> |TrimSpace(username)| > 30
    ensures err == Some(UsernameCharset) <==>
      3 <= |TrimSpace(username)| <= 30 && !MatchesUsernamePattern(TrimSpace(username))
  {
    var u := TrimSpace(username);
    if u == "" then Some(UsernameRequired)
    else if |u| < 3 then Some(UsernameTooShort)
    else if |u| > 30 then Some(UsernameTooLong)
    else if !MatchesUsernamePattern(u) then Some(UsernameCharset)
    else None
  }

  /** validateEmail: trimmed, non-empty, the pattern, and only then at most 100 bytes. */
  function ValidateEmail(email: string): (err: Option<string>)
    ensures err == None <==> MatchesEmailPattern(TrimSpace(email)) && |TrimSpace(email)| <= 100
    ensures err == Some(EmailRequired) <==> AllSpace(email)
    ensures err == Some(EmailInvalid) <==> !AllSpace(email) && !MatchesEmailPattern(TrimSpace(email))
    ensures err == Some(EmailTooLong) <==> MatchesEmailPattern(TrimSpace(email)) && |TrimSpace(email)| > 100
  {
    var e := TrimSpace(email);
    if e == "" then Some(EmailRequired)
    else if !MatchesEmailPattern(e) then Some(EmailInvalid)
    else if |e| > 100 then Some(EmailTooLong)
    else None
  }

  /** validatePassword: NOT trimmed; non-empty and 6..100 bytes. */
  function ValidatePassword(password: string): (err: Option<string>)
    ensures err == None <==> 6 <= |password| <= 100
    ensures err == Some(PasswordRequired) <==> password == ""
    ensures err == Some(PasswordTooShort) <==> 1 <= |password| < 6
    ensures err == Some(PasswordTooLong) <==> |password| > 100
  {
    if password == "" then Some(PasswordRequired)
    else if |password| < 6 then Some(PasswordTooShort)
    else if |password| > 100 then Some(PasswordTooLong)
    else None
  }

  /** ValidateRegisterRequest: name, then username, then email, then password; the first failure wins. */
  function ValidateRegisterRequest(req: RegisterRequest): (err: Option<string>)
    ensures err == None <==>
      ValidateName(req.name) == None && ValidateUsername(req.username) == None &&
      ValidateEmail(req.email) == None && ValidatePassword(req.password) == None
    ensures ValidateName(req.name) != None ==> err == ValidateName(req.name)
    ensures ValidateName(req.name) == None && ValidateUsername(req.username) != None ==>
      err == ValidateUsername(req.username)
    ensures (ValidateName(req.name) == None && ValidateUsername(req.username) == None &&
             ValidateEmail(req.email) != None) ==> err == ValidateEmail(req.email)
    ensures (ValidateName(req.name) == None && ValidateUsername(req.username) == None &&
             ValidateEmail(req.email) == None) ==> err == ValidatePassword(req.password)
  {
    var nameErr := ValidateName(req.name);
    if nameErr != None then nameErr
    else
      var usernameErr := ValidateUsername(req.username);
      if usernameErr != None then usernameErr
      else
        var emailErr := ValidateEmail(req.email);
        if emailErr != None then emailErr
        else ValidatePassword(req.password)
  }

  /**
   * ValidateLoginRequest: a blank username or password is "required" before any length check;
   * the length checks then count the untrimmed bytes.
   */
  function ValidateLoginRequest(req: LoginRequest): (err: Option<string>)
    ensures err == None <==>
      !AllSpace(req.username) && !AllSpace(req.password) && |req.username| >= 3 && |req.password| >= 6
    ensures err == Some(UsernameRequired) <==> AllSpace(req.username)
    ensures err == Some(PasswordRequired) <==> !AllSpace(req.username) && AllSpace(req.password)
    ensures err == Some(UsernameTooShort) <==>
      !AllSpace(req.username) && !AllSpace(req.password) && |req.username| < 3
    ensures err == Some(PasswordTooShort) <==>
      !AllSpace(req.username) && !AllSpace(req.password) && |req.username| >= 3 && |req.password| < 6
  {
    if TrimSpace(req.username) == "" then Some(UsernameRequired)
    else if TrimSpace(req.password) == "" then Some(PasswordRequired)
    else if |req.username| < 3 then Some(UsernameTooShort)
    else if |req.password| < 6 then Some(PasswordTooShort)
    else None
  }

  /** Every registration check is insensitive to surrounding white space, except the password's. */
  lemma {:induction false} RegisterValidationIgnoresSurroundingSpace(req: RegisterRequest)
    ensures ValidateRegisterRequest(req) ==
      ValidateRegisterRequest(RegisterRequest(TrimSpace(req.name), TrimSpace(req.username), TrimSpace(req.email), req.password))
  {
    TrimIdempotent(req.name);
    TrimIdempotent(req.username);
    TrimIdempotent(req.email);
  }

  /**
   * Credentials that registration accepts pass login validation too, except when the password is all
   * white space: such a password is stored at registration but login refuses it as "password is required".
   */
  lemma RegisteredCredentialsPassLoginValidation(req: RegisterRequest)
    requires ValidateRegisterRequest(req) == None
    ensures ValidateLoginRequest(LoginRequest(req.username, req.password)) == None <==> !AllSpace(req.password)
  {
    assert |TrimSpace(req.username)| <= |req.username|;
  }

  /** A six-space password is a witness: registration accepts it, login refuses it. */
  lemma BlankPasswordRegistersButCannotLogIn()
    ensures ValidatePassword("      ") == None
    ensures ValidateLoginRequest(LoginRequest("johndoe", "      ")) == Some(PasswordRequired)
  {
    assert AllSpace("      ");
    assert !AllSpace("johndoe") by { assert !IsSpace("johndoe"[0]); }
  }
}
