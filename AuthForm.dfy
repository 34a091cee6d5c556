/**
 * The sign-in / registration dialog: its two tabs, the form's field
 * validation, editing, and the hand-over to the account directory on submit.
 */
module AuthForm {
  import opened Options
  import opened Text
  import opened Auth

  datatype Tab = LoginTab | RegisterTab

  /** The text inputs of the dialog (name and confirmation only on the register tab). */
  datatype AuthField = Name | Email | Password | Confirm

  datatype Credentials = Credentials(name: string, email: string, password: string, confirm: string)

  /** The form as it opens and after a reset: every field empty. */
  const Blank := Credentials("", "", "", "")

  const NameRequired := "Full name is required."
  const EmailRequired := "Email is required."
  const EmailInvalid := "Enter a valid email."
  const PasswordRequired := "Password is required."
  const PasswordShort := "Password must be at least 6 characters."
  const ConfirmMismatch := "Passwords do not match."

  /** The shortest password the register tab accepts. */
  const MinPassword := 6

  /** A character of the class `[^\s@]`: neither whitespace nor '@'. */
  predicate Plain(c: char) {
    !IsSpace(c) && c != '@'
  }

  /**
   * The sign-in email pattern: a non-empty local part, one '@', and a
   * domain with a '.' that has at least one character on either side;
   * every character other than the '@' is plain.
   */
  predicate EmailPattern(s: string) {
    exists i, j :: 0 < i && i + 1 < j < |s| - 1 && s[i] == '@' && s[j] == '.' &&
                   forall k :: 0 <= k < |s| && k != i ==> Plain(s[k])
  }

  /** An address the pattern accepts has no whitespace, so trimming leaves it as it is. */
  lemma EmailPatternTrimmed(s: string)
    requires EmailPattern(s)
    ensures NoSpace(s) && Trim(s) == s
  {
    var i, j :| 0 < i && i + 1 < j < |s| - 1 && s[i] == '@' && s[j] == '.' &&
                forall k :: 0 <= k < |s| && k != i ==> Plain(s[k]);
    assert forall k :: 0 <= k < |s| ==> !IsSpace(s[k]) by {
      forall k | 0 <= k < |s| ensures !IsSpace(s[k]) {
        if k != i { assert Plain(s[k]); }
      }
    }
    TrimNoSpace(s);
  }

  /** A blank email never matches the pattern. */
  lemma EmailPatternNotBlank(s: string)
    ensures EmailPattern(s) ==> !AllSpace(s)
  {
    if EmailPattern(s) {
      var i, j :| 0 < i && i + 1 < j < |s| - 1 && s[i] == '@' && s[j] == '.' &&
                  forall k :: 0 <= k < |s| && k != i ==> Plain(s[k]);
      assert Plain(s[0]);
    }
  }

  /** An address the pattern accepts holds exactly one '@'. */
  lemma EmailPatternOneAt(s: string)
    requires EmailPattern(s)
    ensures exists i :: 0 < i < |s| && s[i] == '@' && forall k :: 0 <= k < |s| && s[k] == '@' ==> k == i
  {
    var i, j :| 0 < i && i + 1 < j < |s| - 1 && s[i] == '@' && s[j] == '.' &&
                forall k :: 0 <= k < |s| && k != i ==> Plain(s[k]);
    assert forall k :: 0 <= k < |s| && s[k] == '@' ==> k == i by {
      forall k | 0 <= k < |s| && s[k] == '@' ensures k == i {
        assert !Plain(s[k]);
      }
    }
  }

  lemma EmailPatternExamples()
    ensures EmailPattern("a@b.c")
    ensures !EmailPattern("a@b")
    ensures !EmailPattern("@b.c")
    ensures !EmailPattern("a@.c")
    ensures !EmailPattern("a b@c.d")
  {
    var s := "a@b.c";
    assert s[1] == '@' && s[3] == '.';
    assert forall k :: 0 <= k < |s| && k != 1 ==> Plain(s[k]);
    var t := "a b@c.d";
    assert !Plain(t[1]);
  }

  /**
   * The error of one field on tab `tab`, if any. On both tabs the email
   * must be present after trimming and must then match the pattern as
   * typed, and the password must be present; the register tab also wants
   * a name that is not blank, a password of at least six characters, and
   * a confirmation equal to the password.
   */
  function ErrorOf(tab: Tab, c: Credentials, f: AuthField): (r: Option<string>)
    ensures r.Some? ==> r.value != ""
    ensures tab == LoginTab && (f == Name || f == Confirm) ==> r.None?
    ensures f == Email ==> (r.None? <==> EmailPattern(c.email))
    ensures f == Email && r.Some? ==> r.value == if AllSpace(c.email) then EmailRequired else EmailInvalid
    ensures f == Password && tab == LoginTab ==> (r.None? <==> c.password != "")
    ensures f == Password && tab == RegisterTab ==> (r.None? <==> |c.password| >= MinPassword)
    ensures f == Password && r.Some? ==> r.value == if c.password == "" then PasswordRequired else PasswordShort
    ensures f == Name && tab == RegisterTab ==> (r.None? <==> !AllSpace(c.name))
    ensures f == Confirm && tab == RegisterTab ==> (r.None? <==> c.password == c.confirm)
  {
    TrimEmptyIffBlank(c.name);
    TrimEmptyIffBlank(c.email);
    EmailPatternNotBlank(c.email);
    match f
    case Name =>
      if tab == RegisterTab && Trim(c.name) == [] then Some(NameRequired) else None
    case Email =>
      if Trim(c.email) == [] then Some(EmailRequired)
      else if !EmailPattern(c.email) then Some(EmailInvalid)
      else None
    case Password =>
      if c.password == "" then Some(PasswordRequired)
      else if tab == RegisterTab && |c.password| < MinPassword then Some(PasswordShort)
      else None
    case Confirm =>
      if tab == RegisterTab && c.password != c.confirm then Some(ConfirmMismatch) else None
  }

  /** The fields the form checks, in the order it checks them. */
  const Checked: seq<AuthField> := [Name, Email, Password, Confirm]

  /** The errors of the fields in `fields`, each under its own field. */
  function Collect(tab: Tab, c: Credentials, fields: seq<AuthField>): map<AuthField, string>
  {
    if fields == [] then map[]
    else
      var rest := Collect(tab, c, fields[1..]);
      match ErrorOf(tab, c, fields[0])
      case Some(m) => rest[fields[0] := m]
      case None => rest
  }

  lemma {:induction false} CollectSpec(tab: Tab, c: Credentials, fields: seq<AuthField>)
    ensures forall f :: f in Collect(tab, c, fields) <==> f in fields && ErrorOf(tab, c, f).Some?
    ensures forall f :: f in Collect(tab, c, fields) ==> Collect(tab, c, fields)[f] == ErrorOf(tab, c, f).value
  {
    if fields != [] {
      CollectSpec(tab, c, fields[1..]);
      assert forall f :: f in fields <==> f == fields[0] || f in fields[1..];
    }
  }

  /** The errors of the form: one entry per failing field. */
  function Validate(tab: Tab, c: Credentials): map<AuthField, string>
  {
    Collect(tab, c, Checked)
  }

  /** A field has an entry exactly when it fails, and the entry is its message. */
  lemma ValidateSpec(tab: Tab, c: Credentials)
    ensures forall f :: f in Validate(tab, c) <==> ErrorOf(tab, c, f).Some?
    ensures forall f :: f in Validate(tab, c) ==> Validate(tab, c)[f] == ErrorOf(tab, c, f).value
  {
    CollectSpec(tab, c, Checked);
    assert Checked[0] == Name && Checked[1] == Email && Checked[2] == Password && Checked[3] == Confirm;
  }

  /** What each tab accepts, stated apart from the per-field checks. */
  predicate Acceptable(tab: Tab, c: Credentials) {
    EmailPattern(c.email) &&
    match tab
    case LoginTab => c.password != ""
    case RegisterTab => !AllSpace(c.name) && |c.password| >= MinPassword && c.confirm == c.password
  }

  /** The form has no errors exactly when the tab accepts it. */
  lemma ValidateEmptyIff(tab: Tab, c: Credentials)
    ensures Validate(tab, c) == map[] <==> Acceptable(tab, c)
  {
    var e := Validate(tab, c);
    ValidateSpec(tab, c);
    if Acceptable(tab, c) {
      forall f ensures f !in e {
        assert ErrorOf(tab, c, f).None?;
      }
    } else {
      if !EmailPattern(c.email) {
        assert Email in e;
      } else if tab == LoginTab {
        assert Password in e;
      } else if AllSpace(c.name) {
        assert Name in e;
      } else if |c.password| < MinPassword {
        assert Password in e;
      } else {
        assert Confirm in e;
      }
    }
  }

  /**
   * A registration the form lets through carries an email with no
   * surrounding whitespace, which is what keeps the directory's emails
   * unique (the duplicate check looks at the email as typed).
   */
  lemma AcceptedEmailTrimmed(tab: Tab, c: Credentials)
    requires Validate(tab, c) == map[]
    ensures Trim(c.email) == c.email && !AllSpace(c.email)
  {
    ValidateEmptyIff(tab, c);
    EmailPatternTrimmed(c.email);
    TrimEmptyIffBlank(c.email);
  }

  /**
   * A registration the form lets through, with a fresh id and an email not
   * yet taken, keeps the directory's invariants and backs the new session.
   */
  lemma AcceptedRegistrationKeepsValid(users: seq<User>, session: Option<Session>, c: Credentials, id: string, now: int)
    requires DirectoryValid(users, session) && !IdTaken(users, id)
    requires Validate(RegisterTab, c) == map[] && !EmailTaken(users, c.email)
    ensures var u := LocalUser(c.name, c.email, c.password, id, now);
            DirectoryValid(users + [u], Some(PasswordSession(u)))
  {
    AcceptedEmailTrimmed(RegisterTab, c);
    RegisterKeepsValid(users, c.name, c.email, c.password, id, now);
  }

  class AuthModal {
    var tab: Tab
    var form: Credentials
    var errors: map<AuthField, string>
    var apiError: string

    constructor (defaultTab: Tab)
      ensures tab == defaultTab && form == Blank && errors == map[] && apiError == ""
    {
      tab := defaultTab;
      form := Blank;
      errors := map[];
      apiError := "";
    }

    /** Opening the dialog resets it to the requested tab with an empty form. */
    method Open(defaultTab: Tab)
      modifies this
      ensures tab == defaultTab && form == Blank && errors == map[] && apiError == ""
    {
      tab := defaultTab;
      form := Blank;
      errors := map[];
      apiError := "";
    }

    /** Choosing a tab (the tab buttons and the switch link) clears the errors but keeps what was typed. */
    method SelectTab(t: Tab)
      modifies this
      ensures tab == t && form == old(form) && errors == map[] && apiError == ""
    {
      tab := t;
      errors := map[];
      apiError := "";
    }

    /** The link under the form switches to the other tab. */
    method SwitchTab()
      modifies this
      ensures tab != old(tab) && form == old(form) && errors == map[] && apiError == ""
    {
      SelectTab(if tab == LoginTab then RegisterTab else LoginTab);
    }

    /** Typing into a field stores it, blanks that field's error and clears the account error. */
    method Change(f: AuthField, v: string)
      modifies this
      ensures tab == old(tab) && errors == old(errors)[f := ""] && apiError == ""
      ensures form == match f
                      case Name => old(form).(name := v)
                      case Email => old(form).(email := v)
                      case Password => old(form).(password := v)
                      case Confirm => old(form).(confirm := v)
    {
      match f {
        case Name => form := form.(name := v);
        case Email => form := form.(email := v);
        case Password => form := form.(password := v);
        case Confirm => form := form.(confirm := v);
      }
      errors := errors[f := ""];
      apiError := "";
    }

    /** A Google failure shows its message, or a generic one when there is none. */
    method GoogleError(msg: Option<string>)
      modifies this
      ensures apiError == msg.GetOr(GoogleFailed)
      ensures tab == old(tab) && form == old(form) && errors == old(errors)
    {
      apiError := msg.GetOr(GoogleFailed);
    }

    /**
     * Submitting: a form with errors shows them and nothing else happens;
     * otherwise the login tab signs in and the register tab creates the
     * account. `done` says the dialog reported success (and closes); on a
     * refusal the directory's message is shown.
     */
    method Submit(store: AuthStore, newId: string, now: int) returns (done: bool)
      modifies this, store
      ensures tab == old(tab) && form == old(form)
      ensures Validate(tab, form) != map[] ==>
                !done && errors == Validate(tab, form) && apiError == old(apiError) &&
                store.users == old(store.users) && store.session == old(store.session)
      ensures done ==> Acceptable(tab, form) && store.session.Some?
      ensures done ==> errors == old(errors) && apiError == old(apiError)
      ensures !done ==> store.users == old(store.users)
      ensures Validate(tab, form) == map[] && !done ==>
                errors == old(errors) && apiError != "" && store.session == old(store.session)
      ensures tab == LoginTab ==> store.users == old(store.users) && (old(store.Valid()) ==> store.Valid())
      ensures Acceptable(tab, form) && !done ==>
                apiError == (if tab == LoginTab then BadCredentials else DuplicateEmail)
      ensures tab == LoginTab && Acceptable(tab, form) ==>
                (done <==> exists i :: 0 <= i < |old(store.users)| &&
                                       CredentialsAre(form.email, form.password)(old(store.users)[i]))
      ensures done && tab == LoginTab ==>
                exists i :: 0 <= i < |old(store.users)| &&
                            CredentialsAre(form.email, form.password)(old(store.users)[i]) &&
                            store.session == Some(PasswordSession(old(store.users)[i])) &&
                            forall j :: 0 <= j < i ==> !CredentialsAre(form.email, form.password)(old(store.users)[j])
      ensures tab == RegisterTab && Acceptable(tab, form) ==>
                (done <==> !EmailTaken(old(store.users), form.email))
      ensures done && tab == RegisterTab ==>
                var u := LocalUser(form.name, form.email, form.password, newId, now);
                store.users == old(store.users) + [u] && store.session == Some(PasswordSession(u))
    {
      var t, c := tab, form;
      var errs := Validate(t, c);
      ValidateEmptyIff(t, c);
      if errs != map[] {
        errors := errs;
        return false;
      }
      var r: AuthResult;
      if t == LoginTab {
        r := store.Login(c.email, c.password);
      } else {
        r := store.Register(c.name, c.email, c.password, newId, now);
      }
      if r.Err? {
        apiError := r.error;
        return false;
      }
      done := true;
    }
  }
}
