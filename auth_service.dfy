/** Mock identity service: string checks plus the persisted user record (services/authService.ts). */
module AuthService {
  import opened Types
  import opened KeyValueStore

  const USER_KEY := "lenscraft_user"
  const MIN_PASSWORD_LENGTH: nat := 6
  const GOOGLE_NAME := "Google User"
  const GOOGLE_EMAIL := "user@gmail.com"

  datatype AuthError = InvalidEmail | PasswordTooShort

  /** The user getCurrentUser reads: the stored one, none when the key is absent. */
  function StoredUser(m: map<string, Entry>): (u: Option<User>)
    ensures USER_KEY !in m ==> u == None
    ensures USER_KEY in m && m[USER_KEY].UserEntry? ==> u == Some(m[USER_KEY].user)
  {
    match Lookup(m, USER_KEY)
    case Some(UserEntry(stored)) => Some(stored)
    case _ => None
  }

  /** The text before the first '@', as email.split('@')[0] gives it. */
  function LocalPart(s: string): (r: string)
    ensures r <= s
    ensures '@' !in r
    ensures '@' in s ==> |r| < |s| && s[|r|] == '@'
    ensures '@' !in s ==> r == s
  {
    if s == [] || s[0] == '@' then [] else [s[0]] + LocalPart(s[1..])
  }

  /** The display name of "a@b.com" is "a": whatever precedes the first '@'. */
  lemma LocalPartOfAddress(a: string, domain: string)
    requires '@' !in a
    ensures LocalPart(a + "@" + domain) == a
  {
    var s := a + "@" + domain;
    var r := LocalPart(s);
    assert s[|a|] == '@';
    assert forall i :: 0 <= i < |a| ==> s[i] == a[i];
    assert forall i :: 0 <= i < |r| ==> r[i] == s[i];
    assert r == s[..|r|] == a;
  }

  method Login(store: Store, email: string, password: string, stamp: string) returns (r: Result<User, AuthError>)
    modifies store
    ensures r.Success? <==> '@' in email
    ensures r.Failure? ==> r.error == InvalidEmail && store.entries == old(store.entries)
    ensures r.Success? ==> r.value == User("user_" + stamp, LocalPart(email), email)
    ensures r.Success? ==> store.entries == old(store.entries)[USER_KEY := UserEntry(r.value)]
    ensures r.Success? ==> StoredUser(store.entries) == Some(r.value)
  {
    if '@' !in email {
      return Failure(InvalidEmail);
    }
    var user := User("user_" + stamp, LocalPart(email), email);
    store.SetItem(USER_KEY, UserEntry(user));
    return Success(user);
  }

  method Signup(store: Store, name: string, email: string, password: string, stamp: string)
    returns (r: Result<User, AuthError>)
    modifies store
    ensures '@' !in email ==> r == Failure(InvalidEmail)
    ensures '@' in email && |password| < MIN_PASSWORD_LENGTH ==> r == Failure(PasswordTooShort)
    ensures r.Success? <==> '@' in email && |password| >= MIN_PASSWORD_LENGTH
    ensures r.Failure? ==> store.entries == old(store.entries)
    ensures r.Success? ==> r.value == User("user_" + stamp, name, email)
    ensures r.Success? ==> store.entries == old(store.entries)[USER_KEY := UserEntry(r.value)]
    ensures r.Success? ==> StoredUser(store.entries) == Some(r.value)
  {
    if '@' !in email {
      return Failure(InvalidEmail);
    }
    if |password| < MIN_PASSWORD_LENGTH {
      return Failure(PasswordTooShort);
    }
    var user := User("user_" + stamp, name, email);
    store.SetItem(USER_KEY, UserEntry(user));
    return Success(user);
  }

  method LoginWithGoogle(store: Store, stamp: string) returns (u: User)
    modifies store
    ensures u == User("google_" + stamp, GOOGLE_NAME, GOOGLE_EMAIL)
    ensures store.entries == old(store.entries)[USER_KEY := UserEntry(u)]
    ensures StoredUser(store.entries) == Some(u)
  {
    u := User("google_" + stamp, GOOGLE_NAME, GOOGLE_EMAIL);
    store.SetItem(USER_KEY, UserEntry(u));
  }

  method Logout(store: Store)
    modifies store
    ensures store.entries == old(store.entries) - {USER_KEY}
    ensures StoredUser(store.entries) == None
  {
    store.RemoveItem(USER_KEY);
  }

  /** Logging out a second time changes nothing. */
  lemma LogoutIdempotent(m: map<string, Entry>)
    ensures (m - {USER_KEY}) - {USER_KEY} == m - {USER_KEY}
    ensures StoredUser(m - {USER_KEY}) == None
  {
  }
}
