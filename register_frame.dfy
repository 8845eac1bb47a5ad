/** The registration form of the second client
    (doanltudm/client/RegisterFrame.java): the checks it makes before
    contacting the server, its e-mail pattern, and how it reads the
    server's reply. Date parsing, the socket exchange and the windows are
    not part of this model. */
module RegisterForm {
  import opened JavaLang
  import Registration

  // ---------------------------------------------------------------------
  // The e-mail pattern ^[A-Za-z0-9+_.-]+@(.+)$
  // ---------------------------------------------------------------------

  /** The characters a regex `.` does not match by default. */
  predicate IsLineTerminator(c: char)
  {
    c == '\n' || c == '\r' || c == '\U{85}' || c == '\U{2028}' || c == '\U{2029}'
  }

  /** One or more characters a `.` matches. */
  predicate IsAnyLine(s: string)
  {
    |s| >= 1 && forall i :: 0 <= i < |s| ==> !IsLineTerminator(s[i])
  }

  /** `isValidEmail`: a local part of the first form's class, an '@', and
      then at least one character up to the end, none a line terminator. */
  predicate IsValidEmail(s: string)
  {
    exists i :: 0 <= i < |s| && s[i] == '@' && Registration.IsLocalPart(s[..i]) && IsAnyLine(s[i + 1..])
  }

  /** The local class holds no '@', so the split is at the first '@':
      what follows may itself hold more '@'s. */
  lemma ValidEmailAtFirstAt(s: string, i: int)
    requires 0 <= i < |s| && s[i] == '@' && '@' !in s[..i]
    ensures IsValidEmail(s) <==> Registration.IsLocalPart(s[..i]) && IsAnyLine(s[i + 1..])
  {
    if IsValidEmail(s) {
      var j :| 0 <= j < |s| && s[j] == '@' && Registration.IsLocalPart(s[..j]) && IsAnyLine(s[j + 1..]);
      assert i == j;
    }
  }

  /** Every address the first client's form accepts, this form accepts
      too; the converse fails (see SecondFormOnlyEmail). */
  lemma FirstFormEmailIsValid(s: string)
    requires Registration.MatchesEmailPattern(s)
    ensures IsValidEmail(s)
  {
    var i :| 0 <= i < |s| && s[i] == '@' && Registration.IsLocalPart(s[..i]) && Registration.IsDomainPart(s[i + 1..]);
    assert IsAnyLine(s[i + 1..]);
  }

  /** "a@b@c" passes this form's check but not the first form's. */
  lemma SecondFormOnlyEmail()
    ensures IsValidEmail("a@b@c") && !Registration.MatchesEmailPattern("a@b@c")
  {
    var s := "a@b@c";
    assert s[..1] == "a" && s[2..] == "b@c";
    assert Registration.IsLocalPart(s[..1]) && IsAnyLine(s[2..]);
    Registration.EmailPatternAt(s, 1);
    assert s[2..][1] == '@';
  }

  // ---------------------------------------------------------------------
  // The checks before the request
  // ---------------------------------------------------------------------

  datatype FormError = EmptyField | BadEmail | PasswordMismatch

  /** The message shown for each failed check. */
  function Message(e: FormError): string
  {
    match e
    case EmptyField => "Please fill in all fields!"
    case BadEmail => "Email không đúng định dạng!"
    case PasswordMismatch => "Mật khẩu không khớp!"
  }

  /** `handleRegister` up to the date parsing: every field, both passwords
      included, is trimmed; then an empty field, a malformed address and
      differing passwords are reported in that order. None lets the
      request go ahead. */
  function CheckFields(emailText: string, passwordText: string, confirmText: string, birthDateText: string)
    : Option<FormError>
  {
    var email := Trim(emailText);
    var password := Trim(passwordText);
    var confirm := Trim(confirmText);
    var birthDate := Trim(birthDateText);
    if email == [] || password == [] || confirm == [] || birthDate == [] then Some(EmptyField)
    else if !IsValidEmail(email) then Some(BadEmail)
    else if password != confirm then Some(PasswordMismatch)
    else None
  }

  /** An empty field is reported whatever else is wrong; a bad address is
      reported before differing passwords; and the request goes ahead
      exactly when all four trimmed fields are filled, the address is
      valid and the trimmed passwords agree. */
  lemma CheckFieldsOrder(emailText: string, passwordText: string, confirmText: string, birthDateText: string)
    ensures Trim(emailText) == [] || Trim(passwordText) == [] || Trim(confirmText) == [] || Trim(birthDateText) == [] ==>
              CheckFields(emailText, passwordText, confirmText, birthDateText) == Some(EmptyField)
    ensures CheckFields(emailText, passwordText, confirmText, birthDateText) == Some(PasswordMismatch) ==>
              IsValidEmail(Trim(emailText)) && Trim(passwordText) != Trim(confirmText)
    ensures CheckFields(emailText, passwordText, confirmText, birthDateText) == None <==>
              Trim(emailText) != [] && Trim(passwordText) != [] && Trim(birthDateText) != []
              && IsValidEmail(Trim(emailText)) && Trim(passwordText) == Trim(confirmText)
  {
  }

  /** Passwords that differ only in surrounding blanks are taken as equal. */
  lemma PasswordsCompareTrimmed(email: string, password: string, birthDate: string)
    requires Trim(password) != [] && Trim(email) != [] && Trim(birthDate) != [] && IsValidEmail(Trim(email))
    ensures CheckFields(email, " " + password, password + " ", birthDate) == None
  {
    TrimBlankEnds(password);
  }

  /** A blank on either side of `s` changes nothing after trimming. */
  lemma TrimBlankEnds(s: string)
    ensures Trim(" " + s) == Trim(s) && Trim(s + " ") == Trim(s)
  {
    assert (" " + s)[1..] == s;
    assert TrimStart(" " + s) == TrimStart(s);
    TrimEndBlank(s);
    TrimStartAppendBlank(s);
  }

  lemma TrimEndBlank(s: string)
    ensures TrimEnd(s + " ") == TrimEnd(s)
  {
    assert (s + " ")[..|s|] == s;
  }

  /** Trimming the front and then the back of `s + " "` gives the same as
      for `s`. */
  lemma {:induction false} TrimStartAppendBlank(s: string)
    ensures TrimEnd(TrimStart(s + " ")) == TrimEnd(TrimStart(s))
    decreases |s|
  {
    if s == [] {
      assert TrimStart(" ") == TrimStart([]);
    } else if IsBlank(s[0]) {
      assert (s + " ")[1..] == s[1..] + " ";
      TrimStartAppendBlank(s[1..]);
    } else {
      assert TrimStart(s + " ") == s + " ";
      TrimEndBlank(s);
    }
  }

  // ---------------------------------------------------------------------
  // The server's reply
  // ---------------------------------------------------------------------

  const REGISTER_SUCCESS := "REGISTER_SUCCESS"
  const REGISTER_FAILED := "REGISTER_FAILED:"

  datatype Outcome = Registered | Failed(message: string)

  /** The reply handling: success only on the exact success word;
      otherwise the failure message with every "REGISTER_FAILED:" removed
      from the reply. */
  function ReplyOutcome(response: string): Outcome
  {
    if response == REGISTER_SUCCESS then Registered
    else Failed("Registration failed: " + RemoveAll(response, REGISTER_FAILED))
  }

  /** A failure reply "REGISTER_FAILED:" + reason shows the reason itself. */
  lemma FailureShowsReason(reason: string)
    requires !Contains(reason, REGISTER_FAILED)
    ensures ReplyOutcome(REGISTER_FAILED + reason) == Failed("Registration failed: " + reason)
  {
    assert (REGISTER_FAILED + reason)[9] != REGISTER_SUCCESS[9];
    RemoveAllPrefix(REGISTER_FAILED, reason);
  }
}
