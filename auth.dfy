/**
 * pages/Auth.tsx: the login/signup form. Validation runs in a fixed order and the first failure
 * wins the message; login checks the single account saved under `rt_user_db` and the built-in
 * administrator; signup overwrites that saved account. The email pattern is not modelled: its
 * verdict on the lower-cased address is the parameter `emailValid`.
 */
module AuthPage {
  import opened Types
  import opened Text
  import opened StoreState
  import Store

  const EmailRequired := "Email address is required"
  const EmailInvalid := "Please enter a valid business email address"
  const PasswordRequired := "Password is required"
  const PasswordTooShort := "Password must be at least 6 characters"
  const NameRequired := "Full name is required for registration"
  const InvalidCredentials := "Invalid administrative credentials"

  const DefaultEmail := "admin@righttutor.com"
  const DefaultPassword := "admin123"
  const AvatarBase := "https://api.dicebear.com/7.x/avataaars/svg?seed="

  /**
   * `validatePassword`: at least six UTF-16 code units, so three characters outside the Basic
   * Multilingual Plane already pass.
   */
  function ValidatePassword(pass: string): (ok: bool)
    ensures |pass| >= 6 ==> ok
    ensures ok ==> |pass| >= 3
    ensures (forall i :: 0 <= i < |pass| ==> pass[i] < '\U{10000}') ==> (ok <==> |pass| >= 6)
  {
    Utf16Length(pass) >= 6
  }

  /** Three emoji make a long enough password; five letters or two emoji do not. */
  lemma AstralPasswordAccepted()
    ensures ValidatePassword("\U{1F600}\U{1F600}\U{1F600}")
    ensures !ValidatePassword("\U{1F600}\U{1F600}")
    ensures !ValidatePassword("abcde")
  {
    var smile := "\U{1F600}\U{1F600}\U{1F600}";
    assert smile[1..] == "\U{1F600}\U{1F600}" && smile[2..] == "\U{1F600}";
  }

  /** The per-field error flags. */
  datatype FieldErrors = FieldErrors(email: bool, password: bool, name: bool)

  const NoFieldErrors := FieldErrors(false, false, false)

  /** The form's local state. */
  datatype AuthView = AuthView(isLogin: bool, name: string, email: string, password: string,
                               error: string, fieldErrors: FieldErrors)

  /** The failed checks' messages in the order the form makes them: email, password, then name (signup only). */
  function Failures(v: AuthView, emailValid: bool): seq<string> {
    (if v.email == "" then [EmailRequired] else if !emailValid then [EmailInvalid] else [])
    + (if v.password == "" then [PasswordRequired] else if !ValidatePassword(v.password) then [PasswordTooShort] else [])
    + (if !v.isLogin && AllSpace(v.name) then [NameRequired] else [])
  }

  /**
   * The validation block of `handleSubmit`: every check sets its field's flag, and only the first
   * one to fail sets the message.
   */
  method Validate(v: AuthView, emailValid: bool) returns (hasError: bool, error: string, flags: FieldErrors)
    ensures hasError <==> Failures(v, emailValid) != []
    ensures error == if hasError then Failures(v, emailValid)[0] else ""
    ensures flags.email <==> v.email == "" || !emailValid
    ensures flags.password <==> !ValidatePassword(v.password)
    ensures flags.name <==> !v.isLogin && AllSpace(v.name)
  {
    hasError, error, flags := false, "", NoFieldErrors;
    if v.email == "" {
      flags := flags.(email := true);
      error := EmailRequired;
      hasError := true;
    } else if !emailValid {
      flags := flags.(email := true);
      error := EmailInvalid;
      hasError := true;
    }
    if v.password == "" {
      flags := flags.(password := true);
      if !hasError { error := PasswordRequired; }
      hasError := true;
    } else if !ValidatePassword(v.password) {
      flags := flags.(password := true);
      if !hasError { error := PasswordTooShort; }
      hasError := true;
    }
    TrimEmptyIff(v.name);
    if !v.isLogin && Trim(v.name) == "" {
      flags := flags.(name := true);
      if !hasError { error := NameRequired; }
      hasError := true;
    }
  }

  /** The account `rt_user_db` holds, if any. */
  function SavedAccount(storage: map<Key, Stored>): Option<AdminUser> {
    if UserDbKey in storage && storage[UserDbKey].UserRecord? then Some(storage[UserDbKey].user) else None
  }

  function DefaultAdmin(email: string): AdminUser {
    AdminUser("Default Admin", email, AvatarBase + "admin", "", None)
  }

  /**
   * The simulated login check: the saved account when its email and password are exactly the ones
   * typed (an account without a password never matches), otherwise the built-in administrator. The
   * saved account is tried first, so it wins even with the administrator's credentials.
   */
  function SignIn(storage: map<Key, Stored>, email: string, password: string): (u: Option<AdminUser>)
    ensures u.Some? <==>
      (SavedAccount(storage).Some? && SavedAccount(storage).value.email == email && SavedAccount(storage).value.password == Some(password))
      || (email == DefaultEmail && password == DefaultPassword)
    ensures u.Some? && u.value != DefaultAdmin(email) ==> u == SavedAccount(storage)
    ensures var saved := SavedAccount(storage);
      saved.Some? && saved.value.email == email && saved.value.password == Some(password) ==> u == saved
  {
    var saved := SavedAccount(storage);
    if saved.Some? && saved.value.email == email && saved.value.password == Some(password) then saved
    else if email == DefaultEmail && password == DefaultPassword then Some(DefaultAdmin(email))
    else None
  }

  /** The account signup saves. */
  function NewAccount(v: AuthView): AdminUser {
    AdminUser(v.name, v.email, AvatarBase + v.name, "", Some(v.password))
  }

  /**
   * `handleSubmit`. A validation failure shows the first message and the flags and changes nothing
   * else; a login signs in (user, then session flag) or reports invalid credentials; a signup
   * saves the account, switches to login and clears the three fields.
   */
  method HandleSubmit(st: Store.AdminStore, v: AuthView, emailValid: bool) returns (v': AuthView)
    requires st.Valid()
    modifies st
    ensures Failures(v, emailValid) != [] ==>
      && v' == v.(error := Failures(v, emailValid)[0],
                  fieldErrors := FieldErrors(v.email == "" || !emailValid, !ValidatePassword(v.password), !v.isLogin && AllSpace(v.name)))
      && st.Model() == old(st.Model())
    ensures Failures(v, emailValid) == [] && v.isLogin ==>
      var u := SignIn(old(st.storage), v.email, v.password);
      if u.Some? then
        st.Model() == AuthSet(UserSet(old(st.Model()), u.value), true) && v' == v.(error := "", fieldErrors := NoFieldErrors)
      else
        st.Model() == old(st.Model()) && v' == v.(error := InvalidCredentials, fieldErrors := FieldErrors(true, true, false))
    ensures Failures(v, emailValid) == [] && !v.isLogin ==>
      && st.Model() == old(st.Model()).(storage := old(st.storage)[UserDbKey := UserRecord(NewAccount(v))])
      && v' == AuthView(true, "", "", "", "", NoFieldErrors)
    ensures st.Valid()
  {
    v' := v.(error := "", fieldErrors := NoFieldErrors);
    var hasError, error, flags := Validate(v, emailValid);
    if hasError {
      v' := v'.(error := error, fieldErrors := flags);
      return;
    }
    if v.isLogin {
      var u := SignIn(st.storage, v.email, v.password);
      if u.Some? {
        st.SetUser(u.value);
        st.SetAuth(true);
      } else {
        v' := v'.(error := InvalidCredentials, fieldErrors := FieldErrors(true, true, false));
      }
    } else {
      AccountSavedConsistent(st.Model(), NewAccount(v));
      st.storage := st.storage[UserDbKey := UserRecord(NewAccount(v))];
      v' := AuthView(true, "", "", "", "", NoFieldErrors);
    }
  }

  /** The built-in administrator can always sign in, whatever account is saved. */
  lemma DefaultAdminSignsIn(storage: map<Key, Stored>)
    ensures SignIn(storage, DefaultEmail, DefaultPassword).Some?
    ensures SavedAccount(storage).None? ==> SignIn(storage, DefaultEmail, DefaultPassword) == Some(DefaultAdmin(DefaultEmail))
  {
  }

  /**
   * Signup then login: an accepted signup's credentials pass login validation and sign in as the
   * account just saved.
   */
  lemma SignupThenLogin(storage: map<Key, Stored>, v: AuthView, emailValid: bool)
    requires !v.isLogin && Failures(v, emailValid) == []
    ensures var login := AuthView(true, "", v.email, v.password, "", NoFieldErrors);
      && Failures(login, emailValid) == []
      && SignIn(storage[UserDbKey := UserRecord(NewAccount(v))], v.email, v.password) == Some(NewAccount(v))
  {
    assert v.email != "" && emailValid;
    assert v.password != "" && ValidatePassword(v.password);
    SavedAccountSignsIn(storage, v);
  }

  /** The account signup saves signs in with its own email and password, whatever was saved before. */
  lemma SavedAccountSignsIn(storage: map<Key, Stored>, v: AuthView)
    ensures SignIn(storage[UserDbKey := UserRecord(NewAccount(v))], v.email, v.password) == Some(NewAccount(v))
  {
  }

  /** A second signup replaces the first: the earlier account's password no longer signs in. */
  lemma SignupReplacesAccount(storage: map<Key, Stored>, first: AuthView, second: AuthView)
    requires first.email == second.email && first.password != second.password
    requires first.email != DefaultEmail
    ensures var after := storage[UserDbKey := UserRecord(NewAccount(first))][UserDbKey := UserRecord(NewAccount(second))];
      SignIn(after, first.email, first.password).None?
  {
  }
}
