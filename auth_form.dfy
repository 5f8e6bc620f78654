/** The login/registration dialog: a mode flag, four text fields, and the
    submit handler that trims the fields, checks the password confirmation in
    registration mode and calls the parent's `onLogin` or `onRegister`. The
    callbacks issued are recorded in order, as are the mismatch alerts. */
module AuthForm {
  import opened Text

  /** What a submit does. */
  datatype Submission =
    | Login(username: string, password: string)
    | Register(username: string, password: string, email: string)
    | Mismatch

  /** `handleSubmit` on the current form contents. */
  function Submit(isLoginMode: bool, username: string, password: string, email: string, confirmPassword: string)
    : (s: Submission)
    ensures isLoginMode <==> s.Login?
    ensures s.Login? ==> s == Login(Trim(username), Trim(password))
    ensures !isLoginMode ==> (s.Mismatch? <==> Trim(password) != Trim(confirmPassword))
    ensures s.Register? ==>
      s == Register(Trim(username), Trim(password), Trim(email)) && s.password == Trim(confirmPassword)
  {
    var cleanUser := Trim(username);
    var cleanPass := Trim(password);
    var cleanEmail := Trim(email);
    if isLoginMode then Login(cleanUser, cleanPass)
    else if cleanPass != Trim(confirmPassword) then Mismatch
    else Register(cleanUser, cleanPass, cleanEmail)
  }

  /** What reaches the callbacks has no surrounding whitespace left: trimming
      it again changes nothing. */
  lemma SubmittedFieldsAreTrimmed(isLoginMode: bool, username: string, password: string, email: string, confirmPassword: string)
    ensures var s := Submit(isLoginMode, username, password, email, confirmPassword);
      && (s.Login? ==> Trim(s.username) == s.username && Trim(s.password) == s.password)
      && (s.Register? ==>
            Trim(s.username) == s.username && Trim(s.password) == s.password && Trim(s.email) == s.email)
  {
    TrimIdempotent(username);
    TrimIdempotent(password);
    TrimIdempotent(email);
  }

  datatype Callback =
    | OnLogin(username: string, password: string)
    | OnRegister(username: string, password: string, email: string)

  datatype Field = Username | Password | Email | ConfirmPassword

  class AuthModal {
    var isLoginMode: bool
    var username: string
    var password: string
    var email: string
    var confirmPassword: string
    /** The callbacks issued so far, oldest first. */
    var calls: seq<Callback>
    /** The "passwords do not match" alerts shown so far. */
    var alerts: nat

    predicate Empty()
      reads this
    {
      username == "" && password == "" && email == "" && confirmPassword == ""
    }

    constructor ()
      ensures isLoginMode && Empty() && calls == [] && alerts == 0
    {
      isLoginMode := true;
      username, password, email, confirmPassword := "", "", "", "";
      calls := [];
      alerts := 0;
    }

    /** An input's `onChange`. */
    method Edit(f: Field, value: string)
      modifies this`username, this`password, this`email, this`confirmPassword
      ensures username == (if f == Username then value else old(username))
      ensures password == (if f == Password then value else old(password))
      ensures email == (if f == Email then value else old(email))
      ensures confirmPassword == (if f == ConfirmPassword then value else old(confirmPassword))
    {
      match f {
        case Username => username := value;
        case Password => password := value;
        case Email => email := value;
        case ConfirmPassword => confirmPassword := value;
      }
    }

    /** Issues exactly one callback, or, on a mismatch in registration mode,
        only an alert. The form itself is left as it is. */
    method HandleSubmit()
      modifies this`calls, this`alerts
      ensures var s := Submit(isLoginMode, username, password, email, confirmPassword);
        && (s.Login? ==> calls == old(calls) + [OnLogin(s.username, s.password)] && alerts == old(alerts))
        && (s.Register? ==> calls == old(calls) + [OnRegister(s.username, s.password, s.email)] && alerts == old(alerts))
        && (s.Mismatch? ==> calls == old(calls) && alerts == old(alerts) + 1)
    {
      var s := Submit(isLoginMode, username, password, email, confirmPassword);
      if s.Login? {
        calls := calls + [OnLogin(s.username, s.password)];
      } else if s.Register? {
        calls := calls + [OnRegister(s.username, s.password, s.email)];
      } else {
        alerts := alerts + 1;
      }
    }

    /** Empties the four fields. */
    method ResetForm()
      modifies this`username, this`password, this`email, this`confirmPassword
      ensures Empty()
    {
      username, password, email, confirmPassword := "", "", "", "";
    }

    /** Switches between login and registration and empties the form. */
    method ToggleMode()
      modifies this`isLoginMode, this`username, this`password, this`email, this`confirmPassword
      ensures isLoginMode == !old(isLoginMode) && Empty()
    {
      isLoginMode := !isLoginMode;
      ResetForm();
    }
  }

  /** Toggling twice restores the mode and leaves the form empty. */
  method ToggleTwice(m: AuthModal)
    modifies m
    ensures m.isLoginMode == old(m.isLoginMode) && m.Empty()
    ensures m.calls == old(m.calls) && m.alerts == old(m.alerts)
  {
    m.ToggleMode();
    m.ToggleMode();
  }
}
