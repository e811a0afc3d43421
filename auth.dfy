/**
  The credentials sign-in callback (`authorize`): normalise the email the way
  registration does, look the user up, check the password against the stored
  bcrypt token and return the public identity, or nothing. It only reads the
  collection.
 */
module Auth {
  import opened Wrappers
  import opened Text
  import Bcrypt
  import opened Accounts

  /** The submitted sign-in form; either field may be absent. */
  datatype Credentials = Credentials(email: Option<string>, password: Option<string>)

  /** What a successful sign-in hands to the session: never the hash. */
  datatype Identity = Identity(id: UserId, email: string, name: Option<string>)

  /** `(creds?.email || "").toLowerCase().trim()`. */
  function LookupKey(creds: Credentials): (key: string)
    ensures IsNormalized(key)
    ensures creds.email.Some? ==> key == NormalizeEmail(creds.email.value)
    ensures creds.email.None? ==> key == ""
  {
    NormalizeEmail(creds.email.GetOr(""))
  }

  /** `authorize(creds)` over the current contents of the collection. An absent
      password makes `bcrypt.compare` throw, which ends the sign-in like a
      wrong password does. */
  function Authenticate(users: map<string, UserRecord>, creds: Credentials, digest: Bcrypt.DigestFunction)
    : (r: Option<Identity>)
    ensures r.Some? <==>
              && LookupKey(creds) in users
              && creds.password.Some?
              && Bcrypt.Verify(digest, creds.password.value, users[LookupKey(creds)].passwordHash)
    ensures r.Some? ==>
              var user := users[LookupKey(creds)];
              && r.value.id == user.id
              && r.value.email == user.email
              && r.value.name == (if user.name == Some("") then None else user.name)
  {
    var key := LookupKey(creds);
    if key !in users then None
    else
      var user := users[key];
      if creds.password.None? then None
      else if !Bcrypt.Verify(digest, creds.password.value, user.passwordHash) then None
      else Some(Identity(user.id, user.email, if user.name.Some? && user.name.value != "" then user.name else None))
  }

  /** An unknown email and a wrong password give the same answer. */
  lemma FailuresIndistinguishable(users: map<string, UserRecord>, unknown: Credentials,
                                  wrong: Credentials, digest: Bcrypt.DigestFunction)
    requires LookupKey(unknown) !in users
    requires LookupKey(wrong) in users && wrong.password.Some?
    requires !Bcrypt.Verify(digest, wrong.password.value, users[LookupKey(wrong)].passwordHash)
    ensures Authenticate(users, unknown, digest) == Authenticate(users, wrong, digest) == None
  {
  }

  /** Round trip: after a successful registration the same password signs in
      under any spelling of the email with the same normalisation, and the
      identity carries the inserted id, the stored email and the stored name. */
  lemma RegisterThenAuthenticate(users: map<string, UserRecord>, id: UserId, req: RegisterRequest,
                                 digest: Bcrypt.DigestFunction, salt: Bcrypt.Salt, email: string)
    requires !IsFalsy(req.email) && !IsFalsy(req.password)
    requires NormalizeEmail(email) == NormalizeEmail(req.email.value)
    ensures var key := NormalizeEmail(req.email.value);
            var stored := users[key := UserRecord(id, StoredName(req.name), key,
                                  Bcrypt.Hash(digest, req.password.value, BcryptCost, salt))];
            Authenticate(stored, Credentials(Some(email), req.password), digest)
              == Some(Identity(id, key, StoredName(req.name)))
  {
    var key := NormalizeEmail(req.email.value);
    var rec := UserRecord(id, StoredName(req.name), key, Bcrypt.Hash(digest, req.password.value, BcryptCost, salt));
    var stored := users[key := rec];
    var creds := Credentials(Some(email), req.password);
    assert LookupKey(creds) == key;
    assert stored[key] == rec;
    Bcrypt.VerifyHashed(digest, req.password.value, BcryptCost, salt);
    assert StoredName(req.name) != Some("");
  }

  /** A registration leaves every other sign-in as it was. */
  lemma RegisterKeepsOtherSignIns(users: map<string, UserRecord>, key: string, rec: UserRecord,
                                  creds: Credentials, digest: Bcrypt.DigestFunction)
    requires LookupKey(creds) != key
    ensures Authenticate(users[key := rec], creds, digest) == Authenticate(users, creds, digest)
  {
  }

  lemma AliceEmailNormalized()
    ensures NormalizeEmail("alice@example.com") == "alice@example.com"
  {
    NormalizeOfNormalized("alice@example.com");
  }

  /** Register alice twice, then sign in with each password. The second
      password fails unless it collides with the first under the first salt. */
  method AliceScenario(digest: Bcrypt.DigestFunction, salt1: Bcrypt.Salt, salt2: Bcrypt.Salt)
    returns (first: RegisterResponse, second: RegisterResponse,
             login1: Option<Identity>, login2: Option<Identity>)
    requires digest("pw2", salt1, BcryptCost) != digest("pw1", salt1, BcryptCost)
    ensures first == Created(0, "alice@example.com")
    ensures second == EmailInUse
    ensures login1 == Some(Identity(0, "alice@example.com", None))
    ensures login2 == None
  {
    var store := new UserStore();
    var alice := "alice@example.com";
    AliceEmailNormalized();
    first := store.Register(RegisterRequest(None, Some(alice), Some("pw1")), digest, salt1);
    var token := Bcrypt.Hash(digest, "pw1", BcryptCost, salt1);
    assert store.users == map[alice := UserRecord(0, None, alice, token)];
    second := store.Register(RegisterRequest(None, Some(alice), Some("pw2")), digest, salt2);
    assert store.users == map[alice := UserRecord(0, None, alice, token)];
    Bcrypt.VerifyHashed(digest, "pw1", BcryptCost, salt1);
    login1 := Authenticate(store.users, Credentials(Some(alice), Some("pw1")), digest);
    login2 := Authenticate(store.users, Credentials(Some(alice), Some("pw2")), digest);
  }

  /** A whitespace-only email registers under the empty key, and a sign-in that
      sends no email at all looks up that same key. */
  lemma BlankEmailSignsInWithoutEmail(users: map<string, UserRecord>, id: UserId, password: string,
                                      digest: Bcrypt.DigestFunction, salt: Bcrypt.Salt)
    requires password != ""
    ensures var req := RegisterRequest(None, Some("   "), Some(password));
            var stored := users["" := UserRecord(id, None, "", Bcrypt.Hash(digest, password, BcryptCost, salt))];
            && !IsFalsy(req.email) && NormalizeEmail(req.email.value) == ""
            && Authenticate(stored, Credentials(None, Some(password)), digest) == Some(Identity(id, "", None))
  {
    BlankEmailStoredEmpty();
  }
}
