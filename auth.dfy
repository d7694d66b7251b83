/** The authentication context: the signed-in session, the profile row,
    the loading flag, and the session kept under one key of local storage.
    Passwords are stored as the hexadecimal text of a derived key; the key
    derivation and the random identifiers are parameters of the model, and
    every backend reply is a parameter of the operation that awaits it. */
module AuthContext {
  import opened Common
  import opened Records
  import opened PasswordHex

  /** The local-storage key the session is kept under. */
  const StorageKey: string := "mathsolve_session"

  /** The text stored under `StorageKey`: a serialised session, or text that
      does not parse as one. */
  datatype StoredSession = Saved(session: Session) | Garbage(text: string)

  /** Key derivation from (password, salt) to key bytes; in the source,
      PBKDF2 with SHA-256 over 100000 iterations, 256 bits long. */
  type Kdf = (string, string) -> seq<byte>

  /** The length, in bytes, of the derived key. */
  const KeyBytes: nat := 32

  /** `hashPassword`: the derived key as lowercase hexadecimal text, two
      digits per byte. */
  function HashPassword(kdf: Kdf, password: string, salt: string): (h: string)
    ensures |h| == 2 * |kdf(password, salt)|
    ensures forall i :: 0 <= i < |h| ==> IsHexChar(h[i])
    ensures HexDecode(h) == Some(kdf(password, salt))
  {
    HexEncodeAlphabet(kdf(password, salt));
    HexRoundTrip(kdf(password, salt));
    HexEncode(kdf(password, salt))
  }

  /** A 256-bit key prints as 64 characters. */
  lemma HashLength(kdf: Kdf, password: string, salt: string)
    requires |kdf(password, salt)| == KeyBytes
    ensures |HashPassword(kdf, password, salt)| == 64
  {
  }

  /** Two stored hashes are equal exactly when the derived keys are. */
  lemma HashesEqualIffKeysEqual(kdf: Kdf, p1: string, s1: string, p2: string, s2: string)
    ensures HashPassword(kdf, p1, s1) == HashPassword(kdf, p2, s2) <==> kdf(p1, s1) == kdf(p2, s2)
  {
    HexEncodeInjective(kdf(p1, s1), kdf(p2, s2));
  }

  /** Why a sign-up or sign-in is refused. `Rejected` is a backend call that
      threw; it carries the client library's own error, not one of ours. */
  datatype AuthError = AlreadyExists | NoAccount | NoPasswordHash | WrongPassword | StoreError(message: string) | Rejected {
    /** The message of the `Error` the context throws. */
    function Message(): string
      requires !Rejected?
    {
      match this
      case AlreadyExists => "An account with this email already exists. Please sign in instead."
      case NoAccount => "No account found with this email address."
      case NoPasswordHash => "This account was created with a different method. Please contact support."
      case WrongPassword => "Incorrect password. Please try again."
      case StoreError(m) => m
    }
  }

  datatype Result<T> = Ok(value: T) | Err(error: AuthError)

  /** The row `signUp` inserts: a fresh account with no points and the
      starting rating. */
  function NewProfileRow(kdf: Kdf, userId: string, email: string, username: string,
                         password: string, salt: string): (row: ProfileRow)
    ensures row.userId == userId && row.email == email && row.username == username && row.salt == salt
    ensures row.passwordHash == Some(HashPassword(kdf, password, salt))
    ensures row.totalScore == 0 && row.eloRating == 1000
  {
    ProfileRow(userId, email, username, Some(HashPassword(kdf, password, salt)), salt, 0, 1000)
  }

  /** The session kept after signing in: the row's user id and user name, and
      the email as the user typed it. */
  function SessionFor(row: ProfileRow, email: string): (s: Session)
    ensures s.userId == row.userId && s.username == row.username && s.email == email
  {
    Session(row.userId, email, row.username)
  }

  /** A stored password hash that can be checked; `!password_hash` also
      rejects the empty text. */
  predicate HasPassword(row: ProfileRow) {
    row.passwordHash.Some? && row.passwordHash.value != ""
  }

  /** What `signIn` makes of the lookup by email: the store's error first,
      then a missing row, a row without a password hash, a hash that does not
      match; otherwise the row. */
  function SignInDecision(password: string, lookup: Outcome<ProfileRow>, kdf: Kdf): (r: Result<ProfileRow>)
    ensures lookup.Threw? ==> r == Err(Rejected)
    ensures lookup.Replied? && lookup.error.Some? ==> r == Err(StoreError(lookup.error.value))
    ensures r.Ok? ==> lookup.Replied? && lookup.data == Some(r.value)
  {
    match lookup
    case Threw => Err(Rejected)
    case Replied(error, data) =>
      if error.Some? then Err(StoreError(error.value))
      else if data.None? then Err(NoAccount)
      else if !HasPassword(data.value) then Err(NoPasswordHash)
      else if HashPassword(kdf, password, data.value.salt) != data.value.passwordHash.value then Err(WrongPassword)
      else Ok(data.value)
  }

  /** Signing in succeeds exactly when the lookup answered without error with
      a row whose stored hash is the nonempty hash of the typed password under
      the row's salt; each refusal has its own cause. */
  lemma SignInSucceedsIff(password: string, lookup: Outcome<ProfileRow>, kdf: Kdf)
    ensures SignInDecision(password, lookup, kdf).Ok? <==>
      && lookup.Replied? && lookup.error.None? && lookup.data.Some?
      && HashPassword(kdf, password, lookup.data.value.salt) != ""
      && lookup.data.value.passwordHash == Some(HashPassword(kdf, password, lookup.data.value.salt))
    ensures lookup.Replied? && lookup.error.None? && lookup.data.None? ==>
      SignInDecision(password, lookup, kdf) == Err(NoAccount)
    ensures lookup.Replied? && lookup.error.None? && lookup.data.Some? && !HasPassword(lookup.data.value) ==>
      SignInDecision(password, lookup, kdf) == Err(NoPasswordHash)
    ensures
      && lookup.Replied? && lookup.error.None? && lookup.data.Some? && HasPassword(lookup.data.value)
      && HashPassword(kdf, password, lookup.data.value.salt) != lookup.data.value.passwordHash.value
      ==> SignInDecision(password, lookup, kdf) == Err(WrongPassword)
  {
  }

  /** The four fixed refusals each carry their own message, and a store
      error passes the store's message on unchanged. */
  lemma RefusalMessages(m: string)
    ensures forall e: AuthError, f: AuthError ::
      !e.Rejected? && !e.StoreError? && !f.Rejected? && !f.StoreError? && e != f ==> e.Message() != f.Message()
    ensures StoreError(m).Message() == m
  {
    assert |AlreadyExists.Message()| == 66 && |NoAccount.Message()| == 41;
    assert |NoPasswordHash.Message()| == 73 && |WrongPassword.Message()| == 37;
  }

  /** An account made by `signUp` accepts exactly the passwords whose derived
      key, under the stored salt, is the one the sign-up password gave. */
  lemma SignUpThenSignIn(kdf: Kdf, userId: string, email: string, username: string,
                         password: string, salt: string, attempt: string)
    requires |kdf(password, salt)| == KeyBytes
    ensures var row := NewProfileRow(kdf, userId, email, username, password, salt);
      SignInDecision(attempt, Replied(None, Some(row)), kdf).Ok? <==> kdf(attempt, salt) == kdf(password, salt)
    ensures var row := NewProfileRow(kdf, userId, email, username, password, salt);
      SignInDecision(password, Replied(None, Some(row)), kdf) == Ok(row)
  {
    HashesEqualIffKeysEqual(kdf, attempt, salt, password, salt);
  }

  class AuthProvider {
    var user: Option<Session>
    var profile: Option<ProfileRow>
    var loading: bool
    /** `localStorage[StorageKey]`. */
    var stored: Option<StoredSession>

    /** A signed-in session is always the one kept in local storage. */
    ghost predicate Valid()
      reads this
    {
      user.Some? ==> stored == Some(Saved(user.value))
    }

    /** The provider as mounted, before the stored session is read. */
    constructor (stored: Option<StoredSession>)
      ensures user == None && profile == None && loading
      ensures this.stored == stored
      ensures Valid()
    {
      user := None;
      profile := None;
      loading := true;
      this.stored := stored;
    }

    /** The mount effect. A stored session becomes the user and its profile is
        queried (the id queried is returned); unparsable text is removed; an
        absent or empty entry only ends loading. */
    method RestoreSession(reply: Outcome<ProfileRow>) returns (queried: Option<string>)
      requires Valid()
      modifies this`user, this`profile, this`loading, this`stored
      ensures Valid()
      ensures old(stored).Some? && old(stored).value.Saved? ==>
        && user == Some(old(stored).value.session)
        && queried == Some(old(stored).value.session.userId)
        && stored == old(stored)
        && (reply.Replied? ==> profile == reply.data && !loading)
        && (reply.Threw? ==> profile == old(profile) && loading == old(loading))
      ensures old(stored).Some? && old(stored).value.Garbage? && old(stored).value.text != "" ==>
        stored == None && user == old(user) && profile == old(profile) && !loading && queried == None
      ensures (old(stored).None? || old(stored) == Some(Garbage(""))) ==>
        stored == old(stored) && user == old(user) && profile == old(profile) && !loading && queried == None
    {
      queried := None;
      if stored.Some? && stored != Some(Garbage("")) {
        match stored.value
        case Saved(session) =>
          user := Some(session);
          queried := Some(session.userId);
          FetchProfile(reply);
        case Garbage(_) =>
          stored := None;
          loading := false;
      } else {
        loading := false;
      }
    }

    /** `fetchProfile`: the reply's data, absent on an error, becomes the
        profile and loading ends; a call that throws changes nothing. */
    method FetchProfile(reply: Outcome<ProfileRow>)
      modifies this`profile, this`loading
      ensures reply.Replied? ==> profile == reply.data && !loading
      ensures reply.Threw? ==> profile == old(profile) && loading == old(loading)
    {
      if reply.Replied? {
        profile := reply.data;
        loading := false;
      }
    }

    /** `signUp`. The lookup's data decides whether the email is taken (its
        error is not looked at); nothing is inserted for a taken email. After
        the insert the session is stored and the profile refetched. The row
        sent to the store is returned in `inserted`. */
    method SignUp(kdf: Kdf, email: string, password: string, username: string,
                  lookup: Outcome<string>, salt: string, userId: string,
                  insertReply: Outcome<()>, profileReply: Outcome<ProfileRow>)
      returns (r: Result<Session>, inserted: Option<ProfileRow>)
      requires Valid()
      modifies this`user, this`profile, this`loading, this`stored
      ensures Valid()
      ensures lookup.Threw? ==> r == Err(Rejected) && inserted == None
      ensures lookup.Replied? && lookup.data.Some? ==> r == Err(AlreadyExists) && inserted == None
      ensures lookup.Replied? && lookup.data.None? ==>
        inserted == Some(NewProfileRow(kdf, userId, email, username, password, salt))
      ensures lookup.Replied? && lookup.data.None? && insertReply.Threw? ==> r == Err(Rejected)
      ensures lookup.Replied? && lookup.data.None? && insertReply.Replied? && insertReply.error.Some? ==>
        r == Err(StoreError(insertReply.error.value))
      ensures r.Ok? ==> r.value == Session(userId, email, username)
      ensures var session := Session(userId, email, username);
        if lookup.Replied? && lookup.data.None? && insertReply.Replied? && insertReply.error.None? then
          && stored == Some(Saved(session)) && user == Some(session)
          && (profileReply.Replied? ==> r == Ok(session) && profile == profileReply.data && !loading)
          && (profileReply.Threw? ==> r == Err(Rejected) && profile == old(profile) && loading == old(loading))
        else
          stored == old(stored) && user == old(user) && profile == old(profile) && loading == old(loading)
    {
      inserted := None;
      if lookup.Threw? {
        return Err(Rejected), inserted;
      }
      if lookup.data.Some? {
        return Err(AlreadyExists), inserted;
      }
      inserted := Some(NewProfileRow(kdf, userId, email, username, password, salt));
      if insertReply.Threw? {
        return Err(Rejected), inserted;
      }
      if insertReply.error.Some? {
        return Err(StoreError(insertReply.error.value)), inserted;
      }
      var session := Session(userId, email, username);
      stored := Some(Saved(session));
      user := Some(session);
      FetchProfile(profileReply);
      if profileReply.Threw? {
        return Err(Rejected), inserted;
      }
      r := Ok(session);
    }

    /** `signIn`: on success the session is stored, becomes the user, and
        the looked-up row becomes the profile; on a refusal nothing changes. */
    method SignIn(kdf: Kdf, email: string, password: string, lookup: Outcome<ProfileRow>)
      returns (r: Result<Session>)
      requires Valid()
      modifies this`user, this`profile, this`stored
      ensures Valid()
      ensures var d := SignInDecision(password, lookup, kdf);
        if d.Ok? then
          && r == Ok(SessionFor(d.value, email))
          && stored == Some(Saved(r.value)) && user == Some(r.value) && profile == Some(d.value)
        else
          r == Err(d.error) && stored == old(stored) && user == old(user) && profile == old(profile)
    {
      var d := SignInDecision(password, lookup, kdf);
      if d.Err? {
        return Err(d.error);
      }
      var session := SessionFor(d.value, email);
      stored := Some(Saved(session));
      user := Some(session);
      profile := Some(d.value);
      r := Ok(session);
    }

    /** `signOut`: the stored session, the user and the profile are all cleared. */
    method SignOut()
      requires Valid()
      modifies this`user, this`profile, this`stored
      ensures Valid()
      ensures stored == None && user == None && profile == None
    {
      stored := None;
      user := None;
      profile := None;
    }
  }

  /** Signing up and then signing in with the same password, on a store that
      answers as the first sign-up expects, leaves the same session signed in. */
  method SignUpSignInScenario(kdf: Kdf, email: string, password: string, username: string,
                              salt: string, userId: string)
    returns (first: Result<Session>, second: Result<Session>)
    requires |kdf(password, salt)| == KeyBytes
    ensures first == Ok(Session(userId, email, username))
    ensures second == first
  {
    var auth := new AuthProvider(None);
    var row := NewProfileRow(kdf, userId, email, username, password, salt);
    var inserted;
    first, inserted := auth.SignUp(kdf, email, password, username, Replied(None, None), salt, userId,
                                   Replied(None, None), Replied(None, Some(row)));
    auth.SignOut();
    SignUpThenSignIn(kdf, userId, email, username, password, salt, password);
    second := auth.SignIn(kdf, email, password, Replied(None, Some(row)));
  }
}
