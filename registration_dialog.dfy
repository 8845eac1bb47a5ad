/** The registration form of the first client
    (src/client/RegistrationDialog.java): the ordered checks on the entered
    account details, the e-mail pattern and the sex code. The dialog
    windows, the combo boxes and the date arithmetic of `Calendar` are not
    part of this model; the date of birth arrives as its millisecond
    value. */
module Registration {
  import opened JavaLang

  const MIN_USERNAME_LENGTH := 3
  const MAX_USERNAME_LENGTH := 20
  const MIN_PASSWORD_LENGTH := 4

  // ---------------------------------------------------------------------
  // The e-mail pattern ^[A-Za-z0-9+_.-]+@[A-Za-z0-9.-]+$
  // ---------------------------------------------------------------------

  predicate IsAsciiLetterOrDigit(c: char)
  {
    'A' <= c <= 'Z' || 'a' <= c <= 'z' || '0' <= c <= '9'
  }

  /** The class [A-Za-z0-9+_.-] before the '@'. */
  predicate IsEmailLocalChar(c: char)
  {
    IsAsciiLetterOrDigit(c) || c == '+' || c == '_' || c == '.' || c == '-'
  }

  /** The class [A-Za-z0-9.-] after the '@'. */
  predicate IsEmailDomainChar(c: char)
  {
    IsAsciiLetterOrDigit(c) || c == '.' || c == '-'
  }

  /** One or more characters of the local class. */
  predicate IsLocalPart(s: string)
  {
    |s| >= 1 && forall i :: 0 <= i < |s| ==> IsEmailLocalChar(s[i])
  }

  /** One or more characters of the domain class. */
  predicate IsDomainPart(s: string)
  {
    |s| >= 1 && forall i :: 0 <= i < |s| ==> IsEmailDomainChar(s[i])
  }

  /** `email.matches(...)`: the whole string is a local part, an '@' and
      a domain part. */
  predicate MatchesEmailPattern(s: string)
  {
    exists i :: 0 <= i < |s| && s[i] == '@' && IsLocalPart(s[..i]) && IsDomainPart(s[i + 1..])
  }

  /** Neither class holds '@', so any '@' of the address decides the
      match: the address matches exactly when what precedes that '@' is a
      local part and what follows it is a domain part. */
  lemma EmailPatternAt(s: string, i: int)
    requires 0 <= i < |s| && s[i] == '@'
    ensures MatchesEmailPattern(s) <==> IsLocalPart(s[..i]) && IsDomainPart(s[i + 1..])
  {
    if MatchesEmailPattern(s) {
      var j :| 0 <= j < |s| && s[j] == '@' && IsLocalPart(s[..j]) && IsDomainPart(s[j + 1..]);
      assert i == j;
    }
  }

  // ---------------------------------------------------------------------
  // The validation chain
  // ---------------------------------------------------------------------

  /** The checks, in the order the dialog runs them. */
  datatype RegistrationError =
    | EmptyCredentials
    | PasswordMismatch
    | BadUsernameLength
    | PasswordTooShort
    | InvalidEmail

  /** The message the dialog shows for each failed check. */
  function Message(e: RegistrationError): string
  {
    match e
    case EmptyCredentials => "Username and password cannot be empty"
    case PasswordMismatch => "Passwords do not match"
    case BadUsernameLength => "Username must be between 3 and 20 characters"
    case PasswordTooShort => "Password must be at least 4 characters long"
    case InvalidEmail => "Please enter a valid email address"
  }

  /** The first check the (already trimmed) username and e-mail and the raw
      passwords fail, or None when they pass them all. */
  function Validate(username: string, password: string, confirmPassword: string, email: string)
    : Option<RegistrationError>
  {
    if username == [] || password == [] then Some(EmptyCredentials)
    else if password != confirmPassword then Some(PasswordMismatch)
    else if |username| < MIN_USERNAME_LENGTH || |username| > MAX_USERNAME_LENGTH then Some(BadUsernameLength)
    else if |password| < MIN_PASSWORD_LENGTH then Some(PasswordTooShort)
    else if email != [] && !MatchesEmailPattern(email) then Some(InvalidEmail)
    else None
  }

  /** All of the account conditions the dialog demands. */
  predicate Acceptable(username: string, password: string, confirmPassword: string, email: string)
  {
    username != [] && password != [] && password == confirmPassword
    && MIN_USERNAME_LENGTH <= |username| <= MAX_USERNAME_LENGTH
    && |password| >= MIN_PASSWORD_LENGTH
    && (email == [] || MatchesEmailPattern(email))
  }

  /** The chain passes exactly the acceptable details, and a failure names
      a check that fails while every earlier check passed. */
  lemma ValidateMeaning(username: string, password: string, confirmPassword: string, email: string)
    ensures Validate(username, password, confirmPassword, email) == None
            <==> Acceptable(username, password, confirmPassword, email)
    ensures Validate(username, password, confirmPassword, email) == Some(PasswordMismatch) ==>
              username != [] && password != [] && password != confirmPassword
    ensures Validate(username, password, confirmPassword, email) == Some(BadUsernameLength) ==>
              username != [] && password == confirmPassword && password != []
              && (|username| < MIN_USERNAME_LENGTH || |username| > MAX_USERNAME_LENGTH)
    ensures Validate(username, password, confirmPassword, email) == Some(PasswordTooShort) ==>
              MIN_USERNAME_LENGTH <= |username| <= MAX_USERNAME_LENGTH && password == confirmPassword
              && 1 <= |password| < MIN_PASSWORD_LENGTH
    ensures Validate(username, password, confirmPassword, email) == Some(InvalidEmail) ==>
              Acceptable(username, password, confirmPassword, []) && email != [] && !MatchesEmailPattern(email)
  {
  }

  /** The sex code for the selected option: "Male" is M, "Female" is F,
      anything else (no selection included) is O. */
  function SexCode(option: Option<string>): (code: string)
    ensures code == "M" || code == "F" || code == "O"
    ensures code == "M" <==> option == Some("Male")
    ensures code == "F" <==> option == Some("Female")
  {
    if option == Some("Male") then "M"
    else if option == Some("Female") then "F"
    else "O"
  }

  /** The dialog's result fields. */
  class RegistrationDialog {
    var username: Option<string>
    var password: Option<string>
    var email: Option<string>
    var sex: Option<string>
    var dateOfBirth: Option<int>
    var registered: bool

    constructor ()
      ensures username == None && password == None && email == None
      ensures sex == None && dateOfBirth == None && !registered
    {
      username, password, email := None, None, None;
      sex, dateOfBirth := None, None;
      registered := false;
    }

    /** `handleRegister`: the fields take the entered values (username and
        e-mail trimmed, passwords as typed) before any check runs; the
        checks then run in order and stop at the first failure, whose
        error is returned; only a clean pass sets `registered`. */
    method HandleRegister(usernameText: string, passwordText: string, confirmText: string, emailText: string,
                          sexOption: Option<string>, birthDate: int)
      returns (error: Option<RegistrationError>)
      modifies this
      ensures username == Some(Trim(usernameText)) && password == Some(passwordText)
      ensures email == Some(Trim(emailText)) && sex == Some(SexCode(sexOption))
      ensures dateOfBirth == Some(birthDate)
      ensures error == Validate(Trim(usernameText), passwordText, confirmText, Trim(emailText))
      ensures registered <==> old(registered) || Acceptable(Trim(usernameText), passwordText, confirmText, Trim(emailText))
    {
      var name := Trim(usernameText);
      var mail := Trim(emailText);
      username := Some(name);
      password := Some(passwordText);
      email := Some(mail);
      if sexOption == Some("Male") {
        sex := Some("M");
      } else if sexOption == Some("Female") {
        sex := Some("F");
      } else {
        sex := Some("O");
      }
      dateOfBirth := Some(birthDate);
      ValidateMeaning(name, passwordText, confirmText, mail);
      if name == [] || passwordText == [] {
        return Some(EmptyCredentials);
      }
      if passwordText != confirmText {
        return Some(PasswordMismatch);
      }
      if |name| < MIN_USERNAME_LENGTH || |name| > MAX_USERNAME_LENGTH {
        return Some(BadUsernameLength);
      }
      if |passwordText| < MIN_PASSWORD_LENGTH {
        return Some(PasswordTooShort);
      }
      if mail != [] && !MatchesEmailPattern(mail) {
        return Some(InvalidEmail);
      }
      registered := true;
      return None;
    }
  }
}
