/**
  Account registration (`POST /api/auth/register`): the user collection as a
  map from normalised email to user record, and the handler that validates
  the request, normalises the email, refuses a duplicate and inserts one
  record holding the bcrypt hash of the password.
 */
module Accounts {
  import opened Wrappers
  import opened Text
  import Bcrypt

  /** The store-generated id of a user document. */
  type UserId = nat

  /** The bcrypt cost factor the handler passes to `bcrypt.hash`. */
  const BcryptCost: nat := 12

  datatype UserRecord = UserRecord(
    id: UserId,
    name: Option<string>,
    email: string,
    passwordHash: Bcrypt.HashToken)

  /** The JSON body; every field may be absent. */
  datatype RegisterRequest = RegisterRequest(
    name: Option<string>,
    email: Option<string>,
    password: Option<string>)

  /** The JSON reply: `{id, email}`, or an error with its HTTP status. */
  datatype RegisterResponse =
    | Created(id: UserId, email: string)
    | Rejected(status: nat, error: string)

  const MissingFields: RegisterResponse := Rejected(400, "Missing fields")
  const EmailInUse: RegisterResponse := Rejected(409, "Email already in use")

  /** JavaScript's `!x` on an optional string: absent, or the empty string. */
  predicate IsFalsy(x: Option<string>) {
    x.None? || x.value == ""
  }

  /** An email in the form the collection stores: lower case, trimmed. */
  predicate IsNormalized(e: string) {
    IsTrimmed(e) && forall i :: 0 <= i < |e| ==> !IsUpper(e[i])
  }

  /** `email.toLowerCase().trim()`. */
  function NormalizeEmail(email: string): (r: string)
    ensures IsNormalized(r)
    ensures r == "" <==> IsBlank(email)
  {
    LowerThenTrim(email);
    Trim(Lower(email))
  }

  lemma LowerThenTrim(email: string)
    ensures IsNormalized(Trim(Lower(email)))
    ensures IsBlank(Lower(email)) <==> IsBlank(email)
  {
    var low := Lower(email);
    var r := Trim(low);
    forall i | 0 <= i < |r| ensures !IsUpper(r[i]) {
      assert r[i] in r;
      var j :| 0 <= j < |low| && low[j] == r[i];
    }
    assert forall i :: 0 <= i < |email| ==> (IsWhitespace(low[i]) <==> IsWhitespace(email[i]));
  }

  lemma NormalizeOfNormalized(e: string)
    requires IsNormalized(e)
    ensures NormalizeEmail(e) == e
  {
    assert Lower(e) == e;
    TrimOfTrimmed(e);
  }

  /** Normalising twice is normalising once. */
  lemma NormalizeIdempotent(e: string)
    ensures NormalizeEmail(NormalizeEmail(e)) == NormalizeEmail(e)
  {
    NormalizeOfNormalized(NormalizeEmail(e));
  }

  /** `name?.trim() || null`: the trimmed name, or absent when it is blank. */
  function StoredName(name: Option<string>): (r: Option<string>)
    ensures r.None? <==> name.None? || IsBlank(name.value)
    ensures r.Some? ==> r.value == Trim(name.value) && r.value != "" && IsTrimmed(r.value)
  {
    if name.Some? && Trim(name.value) != "" then Some(Trim(name.value)) else None
  }

  /** The collection invariant: each record sits under its own normalised
      email, names are absent or non-empty, and ids are below the id counter
      and distinct. */
  ghost predicate WellFormed(users: map<string, UserRecord>, nextId: UserId) {
    && (forall e | e in users ::
          users[e].email == e && IsNormalized(e) && users[e].id < nextId
          && (users[e].name.Some? ==> users[e].name.value != ""))
    && (forall e1, e2 | e1 in users && e2 in users && users[e1].id == users[e2].id :: e1 == e2)
  }

  /** Inserting a fresh, normalised key with a fresh id keeps the invariant
      and adds exactly one record. */
  lemma InsertKeepsWellFormed(users: map<string, UserRecord>, nextId: UserId, key: string, rec: UserRecord)
    requires WellFormed(users, nextId)
    requires key !in users && IsNormalized(key)
    requires rec.email == key && rec.id == nextId && (rec.name.Some? ==> rec.name.value != "")
    ensures WellFormed(users[key := rec], nextId + 1)
    ensures |users[key := rec]| == |users| + 1
  {
    var users' := users[key := rec];
    forall e1, e2 | e1 in users' && e2 in users' && users'[e1].id == users'[e2].id
      ensures e1 == e2
    {
      if e1 != key && e2 != key {
        assert users[e1].id == users[e2].id;
      }
    }
  }

  /** The `users` collection. The map's keys are the unique index on `email`. */
  class UserStore {
    var users: map<string, UserRecord>
    var nextId: UserId

    ghost predicate Valid()
      reads this
    {
      WellFormed(users, nextId)
    }

    constructor ()
      ensures Valid()
      ensures users == map[] && nextId == 0
    {
      users := map[];
      nextId := 0;
    }

    /** The registration handler. */
    method Register(req: RegisterRequest, digest: Bcrypt.DigestFunction, salt: Bcrypt.Salt)
      returns (res: RegisterResponse)
      requires Valid()
      modifies this
      ensures Valid()
      ensures IsFalsy(req.email) || IsFalsy(req.password) ==>
                res == MissingFields && users == old(users) && nextId == old(nextId)
      ensures !IsFalsy(req.email) && !IsFalsy(req.password)
              && NormalizeEmail(req.email.value) in old(users) ==>
                res == EmailInUse && users == old(users) && nextId == old(nextId)
      ensures !IsFalsy(req.email) && !IsFalsy(req.password)
              && NormalizeEmail(req.email.value) !in old(users) ==>
                var key := NormalizeEmail(req.email.value);
                && res == Created(old(nextId), key)
                && key !in old(users)
                && users == old(users)[key := UserRecord(old(nextId), StoredName(req.name), key,
                                          Bcrypt.Hash(digest, req.password.value, BcryptCost, salt))]
                && |users| == |old(users)| + 1
                && nextId == old(nextId) + 1
    {
      if IsFalsy(req.email) || IsFalsy(req.password) {
        return MissingFields;
      }
      var emailNorm := NormalizeEmail(req.email.value);
      if emailNorm in users {
        return EmailInUse;
      }
      var passwordHash := Bcrypt.Hash(digest, req.password.value, BcryptCost, salt);
      var insertedId := nextId;
      InsertKeepsWellFormed(users, nextId, emailNorm,
        UserRecord(insertedId, StoredName(req.name), emailNorm, passwordHash));
      users := users[emailNorm := UserRecord(insertedId, StoredName(req.name), emailNorm, passwordHash)];
      nextId := nextId + 1;
      res := Created(insertedId, emailNorm);
    }
  }

  /** The missing-field test is on the raw email: a whitespace-only email is
      accepted and stored under the empty key. */
  lemma BlankEmailStoredEmpty()
    ensures !IsFalsy(Some("   ")) && NormalizeEmail("   ") == ""
  {
    var s := "   ";
    assert IsBlank(s) by {
      forall i | 0 <= i < |s| ensures IsWhitespace(s[i]) {
        assert s[i] == ' ';
      }
    }
  }

  lemma TrimPaddedTestEmail()
    ensures Trim("test@example.com  ") == "test@example.com"
  {
    var e, w := "test@example.com", "  ";
    assert e + w == "test@example.com  ";
    TrimPadded(e, w);
  }

  lemma NormalizeMixedCaseTestEmail()
    ensures NormalizeEmail("TEST@Example.com  ") == "test@example.com"
  {
    var s, t := "TEST@Example.com  ", "test@example.com  ";
    assert Lower(s) == t by {
      forall i | 0 <= i < |s| ensures Lower(s)[i] == t[i] {
        assert Lower(s)[i] == LowerChar(s[i]);
      }
    }
    TrimPaddedTestEmail();
  }

  lemma NormalizeTestEmail()
    ensures NormalizeEmail("test@example.com") == "test@example.com"
  {
    NormalizeOfNormalized("test@example.com");
  }

  /** Both spellings of the test account's email look up the same record. */
  lemma MixedCaseEmailSameKey()
    ensures NormalizeEmail("TEST@Example.com  ") == NormalizeEmail("test@example.com")
  {
    NormalizeMixedCaseTestEmail();
    NormalizeTestEmail();
  }
}
