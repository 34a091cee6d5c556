/**
 * The identity store: the directory of registered users and the active
 * session (the public projection of one user). Emails are compared
 * case-insensitively; the session always points at a user of the directory.
 * Ids and creation times, drawn from a random generator and the clock in the
 * application, are parameters here.
 */
module Auth {
  import opened Options
  import opened Text
  import opened Seqs

  datatype User = User(
    id: string,
    name: string,
    email: string,
    password: Option<string>,
    avatar: Option<string>,
    googleSub: Option<string>,
    provider: Option<string>,
    createdAt: int)

  /** What the application keeps as "the signed-in user". */
  datatype Session = Session(id: string, name: string, email: string, avatar: Option<string>)

  /** `{ ok: true }` or `{ ok: false, error }`. */
  datatype AuthResult = Ok | Err(error: string)

  /** The fields of an identity-provider profile the store reads. */
  datatype GoogleProfile = GoogleProfile(sub: string, name: Option<string>, email: string, picture: Option<string>)

  /** A decoded sign-in credential: the profile and its `email_verified` flag. */
  datatype DecodedCredential = DecodedCredential(profile: GoogleProfile, emailVerified: bool)

  const DuplicateEmail := "An account with this email already exists."
  const BadCredentials := "Invalid email or password."
  const GoogleFailed := "Google sign-in failed. Please try again."
  const GoogleUnverified := "Google account email is not verified."

  function EmailIs(email: string): User -> bool {
    (u: User) => Lower(u.email) == Lower(email)
  }

  function CredentialsAre(email: string, password: string): User -> bool {
    (u: User) => Lower(u.email) == Lower(email) && u.password == Some(password)
  }

  predicate EmailTaken(users: seq<User>, email: string) {
    exists i :: 0 <= i < |users| && Lower(users[i].email) == Lower(email)
  }

  predicate IdTaken(users: seq<User>, id: string) {
    exists i :: 0 <= i < |users| && users[i].id == id
  }

  predicate UniqueEmails(users: seq<User>) {
    forall i, j :: 0 <= i < j < |users| ==> Lower(users[i].email) != Lower(users[j].email)
  }

  predicate UniqueUserIds(users: seq<User>) {
    forall i, j :: 0 <= i < j < |users| ==> users[i].id != users[j].id
  }

  /** The session names an existing user and carries that user's id, name and email. */
  predicate SessionBacked(users: seq<User>, session: Option<Session>) {
    session.Some? ==>
      exists i :: 0 <= i < |users| && users[i].id == session.value.id &&
        users[i].name == session.value.name && users[i].email == session.value.email
  }

  /** The directory invariant: unique emails (ignoring case), unique ids, and a session that names a registered user. */
  predicate DirectoryValid(users: seq<User>, session: Option<Session>) {
    UniqueEmails(users) && UniqueUserIds(users) && SessionBacked(users, session)
  }

  /** JavaScript truthiness of an optional string (`!existing.provider` is its negation). */
  predicate Truthy(s: Option<string>) {
    s.Some? && s.value != ""
  }

  /** The session `register` and `login` establish: no avatar. */
  function PasswordSession(u: User): (s: Session)
    ensures s.id == u.id && s.name == u.name && s.email == u.email && s.avatar.None?
  {
    Session(u.id, u.name, u.email, None)
  }

  /** The session the identity-provider login establishes: with the user's avatar. */
  function ProviderSession(u: User): (s: Session)
    ensures s.id == u.id && s.name == u.name && s.email == u.email && s.avatar == u.avatar
  {
    Session(u.id, u.name, u.email, u.avatar)
  }

  /** The account `register` creates: trimmed name, trimmed and lower-cased email, the password as typed. */
  function LocalUser(name: string, email: string, password: string, id: string, now: int): (u: User)
    ensures u.name == Trim(name) && u.email == Lower(Trim(email)) && u.password == Some(password)
    ensures u.avatar.None? && u.provider.None? && u.googleSub.None?
  {
    User(id, Trim(name), Lower(Trim(email)), Some(password), None, None, None, now)
  }

  /** The account a first identity-provider login creates: no password, name falling back to the email's local part. */
  function ProviderUser(p: GoogleProfile, id: string, now: int): (u: User)
    ensures u.email == Lower(p.email) && u.password.None? && u.provider == Some("google")
    ensures p.name.Some? ==> u.name == p.name.value
    ensures p.name.None? ==> u.name == Split(p.email, '@')[0]
    ensures u.avatar == p.picture && u.googleSub == Some(p.sub)
  {
    User(id, p.name.GetOr(Split(p.email, '@')[0]), Lower(p.email), None, p.picture, Some(p.sub), Some("google"), now)
  }

  /** The directory with every account whose id is `id` replaced by `v`. */
  function ReplaceById(users: seq<User>, id: string, v: User): (r: seq<User>)
    ensures |r| == |users|
    ensures forall i :: 0 <= i < |users| ==> r[i] == if users[i].id == id then v else users[i]
  {
    seq(|users|, i requires 0 <= i < |users| => if users[i].id == id then v else users[i])
  }

  /** The directory with every account whose id is `id` renamed to `name`. */
  function RenameById(users: seq<User>, id: string, name: string): (r: seq<User>)
    ensures |r| == |users|
    ensures forall i :: 0 <= i < |users| ==> r[i] == if users[i].id == id then users[i].(name := name) else users[i]
  {
    seq(|users|, i requires 0 <= i < |users| => if users[i].id == id then users[i].(name := name) else users[i])
  }

  lemma LowerIdempotent(s: string)
    ensures Lower(Lower(s)) == Lower(s)
  {
  }

  /** Appending a user whose email is not yet taken keeps emails unique. */
  lemma AppendKeepsUniqueEmails(users: seq<User>, u: User)
    requires UniqueEmails(users) && !EmailTaken(users, u.email)
    ensures UniqueEmails(users + [u])
  {
    var r := users + [u];
    forall i, j | 0 <= i < j < |r| ensures Lower(r[i].email) != Lower(r[j].email) {
      if j == |users| {
        assert r[i] == users[i];
      } else {
        assert r[i] == users[i] && r[j] == users[j];
      }
    }
  }

  /** An email without surrounding whitespace that is not taken stays untaken once stored trimmed and lower-cased. */
  lemma StoredEmailFree(users: seq<User>, email: string)
    requires !EmailTaken(users, email) && Trim(email) == email
    ensures !EmailTaken(users, Lower(Trim(email)))
  {
    LowerIdempotent(email);
  }

  /**
   * The duplicate check of `register` compares the input before trimming, while
   * the stored email is trimmed: an input with a leading space gets past the
   * check and stores an email that is already registered.
   */
  lemma PaddedEmailPassesCheck(stored: User, e: string, name: string, password: string, id: string, now: int)
    requires NoSpace(e) && stored.email == Lower(e)
    ensures !EmailTaken([stored], " " + e)
    ensures !UniqueEmails([stored] + [LocalUser(name, " " + e, password, id, now)])
  {
    var u := LocalUser(name, " " + e, password, id, now);
    assert u.email == stored.email by {
      PaddedTrim(e);
    }
    assert !EmailTaken([stored], " " + e) by {
      assert |Lower(stored.email)| == |e| && |Lower(" " + e)| == |e| + 1;
    }
    var r := [stored] + [u];
    assert r[0].email == r[1].email;
  }

  /** A leading space is all that trimming removes from a string without whitespace. */
  lemma PaddedTrim(e: string)
    requires NoSpace(e)
    ensures Trim(" " + e) == e
  {
    TrimNoSpace(e);
    PaddedTrimStart(e);
  }

  lemma PaddedTrimStart(e: string)
    requires NoSpace(e)
    ensures TrimStart(" " + e) == e && TrimStart(e) == e
  {
    var padded := " " + e;
    assert padded[1..] == e && IsSpace(padded[0]);
    assert e != [] ==> !IsSpace(e[0]);
  }

  /** Appending a user with a fresh id keeps ids unique. */
  lemma AppendKeepsUniqueIds(users: seq<User>, u: User)
    requires UniqueUserIds(users) && !IdTaken(users, u.id)
    ensures UniqueUserIds(users + [u])
  {
    var r := users + [u];
    forall i, j | 0 <= i < j < |r| ensures r[i].id != r[j].id {
      if j == |users| {
        assert r[i] == users[i];
      } else {
        assert r[i] == users[i] && r[j] == users[j];
      }
    }
  }

  /**
   * A successful `register` with an email that has no surrounding whitespace and
   * a fresh id keeps the directory's invariants and backs the new session.
   */
  lemma RegisterKeepsValid(users: seq<User>, name: string, email: string, password: string, id: string, now: int)
    requires UniqueEmails(users) && UniqueUserIds(users)
    requires !IdTaken(users, id) && !EmailTaken(users, email) && Trim(email) == email
    ensures var u := LocalUser(name, email, password, id, now);
            DirectoryValid(users + [u], Some(PasswordSession(u)))
  {
    var u := LocalUser(name, email, password, id, now);
    StoredEmailFree(users, email);
    AppendKeepsUniqueEmails(users, u);
    AppendKeepsUniqueIds(users, u);
    assert (users + [u])[|users|] == u;
  }

  /** A first identity-provider login with a fresh id keeps the directory's invariants and backs the new session. */
  lemma ProviderSignUpKeepsValid(users: seq<User>, p: GoogleProfile, id: string, now: int)
    requires UniqueEmails(users) && UniqueUserIds(users)
    requires !IdTaken(users, id) && !EmailTaken(users, p.email)
    ensures var u := ProviderUser(p, id, now);
            DirectoryValid(users + [u], Some(ProviderSession(u)))
  {
    var u := ProviderUser(p, id, now);
    LowerIdempotent(p.email);
    AppendKeepsUniqueEmails(users, u);
    AppendKeepsUniqueIds(users, u);
    assert (users + [u])[|users|] == u;
  }

  /**
   * What a provider sign-in with profile `p` does to directory `before`: an
   * unknown email (ignoring case) appends a provider account and signs it in;
   * otherwise the first account with that email is signed in, after gaining
   * the avatar and subject id when it has no provider tag.
   */
  predicate ProfileLoginOutcome(before: seq<User>, after: seq<User>, session: Option<Session>,
                                p: GoogleProfile, newId: string, now: int)
  {
    (!EmailTaken(before, p.email) ==>
       after == before + [ProviderUser(p, newId, now)] &&
       session == Some(ProviderSession(ProviderUser(p, newId, now)))) &&
    (EmailTaken(before, p.email) ==>
       exists k :: 0 <= k < |before| &&
         Lower(before[k].email) == Lower(p.email) &&
         (forall j :: 0 <= j < k ==> Lower(before[j].email) != Lower(p.email)) &&
         (Truthy(before[k].provider) ==>
            after == before && session == Some(ProviderSession(before[k]))) &&
         (!Truthy(before[k].provider) ==>
            var merged := before[k].(avatar := p.picture, googleSub := Some(p.sub));
            after == ReplaceById(before, before[k].id, merged) &&
            session == Some(ProviderSession(merged))))
  }

  class AuthStore {
    var users: seq<User>
    var session: Option<Session>

    /** Every registered email is unique (ignoring case), ids are unique, and the session names a registered user. */
    ghost predicate Valid()
      reads this
    {
      DirectoryValid(users, session)
    }

    /** Starts from the directory and session restored from storage. */
    constructor (savedUsers: seq<User>, savedSession: Option<Session>)
      ensures users == savedUsers && session == savedSession
    {
      users := savedUsers;
      session := savedSession;
    }

    method Register(name: string, email: string, password: string, newId: string, now: int)
      returns (r: AuthResult)
      modifies this
      ensures EmailTaken(old(users), email) ==>
        r == Err(DuplicateEmail) && users == old(users) && session == old(session)
      ensures !EmailTaken(old(users), email) ==>
        r == Ok && users == old(users) + [LocalUser(name, email, password, newId, now)] &&
        session == Some(PasswordSession(LocalUser(name, email, password, newId, now)))
      ensures old(Valid()) && !IdTaken(old(users), newId) && Trim(email) == email ==> Valid()
    {
      var found := FindIndex(users, EmailIs(email));
      if found.Some? {
        assert EmailIs(email)(users[found.value]);
        return Err(DuplicateEmail);
      }
      assert !EmailTaken(users, email) by {
        forall i | 0 <= i < |users| ensures Lower(users[i].email) != Lower(email) {
          assert !EmailIs(email)(users[i]);
        }
      }
      var newUser := LocalUser(name, email, password, newId, now);
      ghost var before := users;
      ghost var keeps := Valid() && !IdTaken(users, newId) && Trim(email) == email;
      users := users + [newUser];
      session := Some(PasswordSession(newUser));
      r := Ok;
      if keeps {
        RegisterKeepsValid(before, name, email, password, newId, now);
      }
    }

    method Login(email: string, password: string) returns (r: AuthResult)
      modifies this
      ensures users == old(users)
      ensures r == Ok <==> exists i :: 0 <= i < |users| && CredentialsAre(email, password)(users[i])
      ensures r.Err? ==> r == Err(BadCredentials) && session == old(session)
      ensures r == Ok ==>
                (exists i :: 0 <= i < |users| && CredentialsAre(email, password)(users[i]) &&
                             session == Some(PasswordSession(users[i])) &&
                             forall j :: 0 <= j < i ==> !CredentialsAre(email, password)(users[j]))
      ensures old(Valid()) ==> Valid()
    {
      match FindIndex(users, CredentialsAre(email, password))
      case None =>
        r := Err(BadCredentials);
      case Some(k) =>
        session := Some(PasswordSession(users[k]));
        r := Ok;
    }

    method Logout()
      modifies this
      ensures users == old(users) && session.None?
      ensures old(Valid()) ==> Valid()
    {
      session := None;
    }

    /**
     * Signs in with an identity-provider profile. An existing account (same
     * email, ignoring case) that has no provider tag gains the avatar and
     * subject id and keeps everything else, password included; one with a
     * provider tag is left as it is. An unknown email creates a provider
     * account. The session always becomes that account, with its avatar.
     */
    method LoginWithGoogleProfile(p: GoogleProfile, newId: string, now: int) returns (r: AuthResult)
      modifies this
      ensures r == Ok
      ensures ProfileLoginOutcome(old(users), users, session, p, newId, now)
      ensures old(Valid()) && !IdTaken(old(users), newId) ==> Valid()
    {
      r := Ok;
      match FindIndex(users, EmailIs(p.email))
      case Some(k) =>
        var existing := users[k];
        if !Truthy(existing.provider) {
          var merged := existing.(avatar := p.picture, googleSub := Some(p.sub));
          if Valid() {
            MergeKeepsValid(users, k, merged, session);
          }
          users := ReplaceById(users, existing.id, merged);
          existing := merged;
        }
        session := Some(ProviderSession(existing));
        if UniqueUserIds(users) {
          assert users[k] == existing;
        }
      case None =>
        var created := ProviderUser(p, newId, now);
        if Valid() && !IdTaken(users, newId) {
          ProviderSignUpKeepsValid(users, p, newId, now);
        }
        users := users + [created];
        session := Some(ProviderSession(created));
    }

    /** Signs in from a decoded credential: nothing decoded or an unverified email is refused, anything else is delegated. */
    method LoginWithGoogle(decoded: Option<DecodedCredential>, newId: string, now: int) returns (r: AuthResult)
      modifies this
      ensures decoded.None? ==> r == Err(GoogleFailed) && users == old(users) && session == old(session)
      ensures decoded.Some? && !decoded.value.emailVerified ==>
        r == Err(GoogleUnverified) && users == old(users) && session == old(session)
      ensures decoded.Some? && decoded.value.emailVerified ==>
                r == Ok && ProfileLoginOutcome(old(users), users, session, decoded.value.profile, newId, now)
      ensures decoded.Some? && decoded.value.emailVerified ==>
                session.Some? && Lower(session.value.email) == Lower(decoded.value.profile.email)
      ensures old(Valid()) && !IdTaken(old(users), newId) ==> Valid()
    {
      if decoded.None? {
        return Err(GoogleFailed);
      }
      if !decoded.value.emailVerified {
        return Err(GoogleUnverified);
      }
      r := LoginWithGoogleProfile(decoded.value.profile, newId, now);
      LowerIdempotent(decoded.value.profile.email);
    }

    /** Renames the signed-in user, in the directory and in the session alike. */
    method UpdateName(newName: string)
      requires session.Some?
      modifies this
      ensures users == RenameById(old(users), old(session).value.id, newName)
      ensures session == Some(old(session).value.(name := newName))
      ensures old(Valid()) ==> Valid()
    {
      users := RenameById(users, session.value.id, newName);
      session := Some(session.value.(name := newName));
    }
  }

  /** Merging provider data onto account `k` keeps the directory's invariants. */
  lemma MergeKeepsValid(users: seq<User>, k: nat, merged: User, session: Option<Session>)
    requires UniqueEmails(users) && UniqueUserIds(users) && SessionBacked(users, session) && k < |users|
    requires merged.id == users[k].id && merged.email == users[k].email && merged.name == users[k].name
    ensures ReplaceById(users, users[k].id, merged) == users[k := merged]
    ensures UniqueEmails(users[k := merged]) && UniqueUserIds(users[k := merged])
    ensures SessionBacked(users[k := merged], session)
  {
    if session.Some? {
      var i :| 0 <= i < |users| && users[i].id == session.value.id &&
        users[i].name == session.value.name && users[i].email == session.value.email;
      assert users[k := merged][i].id == session.value.id;
    }
  }
}
