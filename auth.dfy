/** The mock identity provider: registered users, one-time codes per email,
    the signed-in user and the per-user storage keys. Codes are issued,
    checked and consumed; sign-in looks users up by email; deleting an
    account clears that user's data keys; a profile update merges fields. */
module Auth {
  import opened Common

  datatype User = User(
    id: string,
    fullName: string,
    email: string,
    mobile: Option<string>,
    primaryCraft: string,
    profilePicture: Option<string>,
    story: Option<string>)

  /** A user's details before an id is assigned. */
  datatype UserData = UserData(
    fullName: string,
    email: string,
    mobile: Option<string>,
    primaryCraft: string,
    profilePicture: Option<string>,
    story: Option<string>)

  /** `{ ...data, id }`. */
  function WithId(data: UserData, id: string): (u: User)
    ensures u.id == id && u.email == data.email && u.fullName == data.fullName
    ensures u.mobile == data.mobile && u.primaryCraft == data.primaryCraft
    ensures u.profilePicture == data.profilePicture && u.story == data.story
  {
    User(id, data.fullName, data.email, data.mobile, data.primaryCraft, data.profilePicture, data.story)
  }

  /** A partial user record: every present field replaces the user's. */
  datatype ProfileUpdate = ProfileUpdate(
    id: Option<string>,
    fullName: Option<string>,
    email: Option<string>,
    mobile: Option<string>,
    primaryCraft: Option<string>,
    profilePicture: Option<string>,
    story: Option<string>)

  const NoChanges := ProfileUpdate(None, None, None, None, None, None, None)

  /** `{ ...user, ...updates }`: present fields of the update win, absent
      ones keep the user's value. */
  function Merge(u: User, p: ProfileUpdate): (r: User)
    ensures p.id.Some? ==> r.id == p.id.value
    ensures p.id.None? ==> r.id == u.id
    ensures p.fullName.Some? ==> r.fullName == p.fullName.value
    ensures p.fullName.None? ==> r.fullName == u.fullName
    ensures p.email.Some? ==> r.email == p.email.value
    ensures p.email.None? ==> r.email == u.email
    ensures p.mobile.Some? ==> r.mobile == p.mobile
    ensures p.mobile.None? ==> r.mobile == u.mobile
    ensures p.primaryCraft.Some? ==> r.primaryCraft == p.primaryCraft.value
    ensures p.primaryCraft.None? ==> r.primaryCraft == u.primaryCraft
    ensures p.profilePicture.Some? ==> r.profilePicture == p.profilePicture
    ensures p.profilePicture.None? ==> r.profilePicture == u.profilePicture
    ensures p.story.Some? ==> r.story == p.story
    ensures p.story.None? ==> r.story == u.story
  {
    User(
      p.id.GetOr(u.id),
      p.fullName.GetOr(u.fullName),
      p.email.GetOr(u.email),
      if p.mobile.Some? then p.mobile else u.mobile,
      p.primaryCraft.GetOr(u.primaryCraft),
      if p.profilePicture.Some? then p.profilePicture else u.profilePicture,
      if p.story.Some? then p.story else u.story)
  }

  /** An empty update changes nothing, and applying an update twice is
      applying it once. */
  lemma MergeProperties(u: User, p: ProfileUpdate)
    ensures Merge(u, NoChanges) == u
    ensures Merge(Merge(u, p), p) == Merge(u, p)
  {
  }

  // ---------------------------------------------------------------------
  // One-time codes
  // ---------------------------------------------------------------------

  /** `Math.floor(100000 + r * 900000).toString()` for r = Math.random():
      always six digits, between 100000 and 999999. */
  function GenerateOTP(r: real): (otp: string)
    requires 0.0 <= r < 1.0
    ensures |otp| == 6 && AllDigits(otp)
    ensures 100000 <= DigitsValue(otp) <= 999999
  {
    var n: nat := (100000.0 + r * 900000.0).Floor;
    assert Pow10(5) == 100000 && Pow10(6) == 1000000;
    NatToStringLength(n, 5);
    NatToStringRoundTrip(n);
    NatToString(n)
  }

  /** The stored code for the email exists, is not empty (`!correctOTP`),
      and equals the one typed. */
  predicate OtpAccepted(otps: map<string, string>, email: string, otp: string)
  {
    email in otps && otps[email] != "" && otps[email] == otp
  }

  // ---------------------------------------------------------------------
  // Lookups in the users list
  // ---------------------------------------------------------------------

  /** `users.find(u => u.email === email)`. */
  function FirstWithEmail(users: seq<User>, email: string): (r: Option<User>)
    ensures r.None? <==> forall u :: u in users ==> u.email != email
    ensures r.Some? ==> r.value.email == email
    ensures r.Some? ==>
      exists i :: 0 <= i < |users| && users[i] == r.value && forall j :: 0 <= j < i ==> users[j].email != email
  {
    match FirstIndex(users, (u: User) => u.email == email)
    case None => None
    case Some(i) => Some(users[i])
  }

  /** `users.findIndex(u => u.id === id)`. */
  function IndexWithId(users: seq<User>, id: string): (r: Option<nat>)
    ensures r.None? <==> forall u :: u in users ==> u.id != id
    ensures r.Some? ==> r.value < |users| && users[r.value].id == id
    ensures r.Some? ==> forall j :: 0 <= j < r.value ==> users[j].id != id
  {
    FirstIndex(users, (u: User) => u.id == id)
  }

  /** `users.filter(u => u.id !== id)`. */
  function WithoutUser(users: seq<User>, id: string): (r: seq<User>)
    ensures |r| <= |users|
    ensures forall u :: u in r <==> u in users && u.id != id
    ensures (forall u :: u in users ==> u.id != id) ==> r == users
  {
    if users == [] then []
    else if users[0].id == id then WithoutUser(users[1..], id)
    else [users[0]] + WithoutUser(users[1..], id)
  }

  /** Filtering distributes over concatenation, so the users that stay keep
      their relative order and number: a later sign-in by email still finds
      the earliest remaining user. */
  lemma {:induction false} WithoutUserConcat(a: seq<User>, b: seq<User>, id: string)
    ensures WithoutUser(a + b, id) == WithoutUser(a, id) + WithoutUser(b, id)
  {
    if a != [] {
      assert (a + b)[1..] == a[1..] + b;
      WithoutUserConcat(a[1..], b, id);
    } else {
      assert a + b == b;
    }
  }

  // ---------------------------------------------------------------------
  // Storage keys
  // ---------------------------------------------------------------------

  /** A stored value, kept as its serialised text. */
  type Blob = string

  function ProductsKey(id: string): string { "kalahasta_products_" + id }
  function RecordingsKey(id: string): string { "kalahasta_recordings_" + id }
  function CertificationsKey(id: string): string { "kalahasta_certifications_" + id }
  function DeleteBinKey(id: string): string { "kalahasta_delete_bin_" + id }

  /** The keys an account deletion clears. */
  function UserDataKeys(id: string): (keys: set<string>)
    ensures |keys| == 3
    ensures forall other :: DeleteBinKey(other) !in keys
  {
    KeysDiffer(id, id);
    forall other ensures DeleteBinKey(other) !in {ProductsKey(id), RecordingsKey(id), CertificationsKey(id)} {
      KeysDiffer(other, id);
    }
    {ProductsKey(id), RecordingsKey(id), CertificationsKey(id)}
  }

  /** The four key families never collide: after the common "kalahasta_"
      prefix they start with different letters. */
  lemma KeysDiffer(a: string, b: string)
    ensures DeleteBinKey(a) != ProductsKey(b)
    ensures DeleteBinKey(a) != RecordingsKey(b)
    ensures DeleteBinKey(a) != CertificationsKey(b)
    ensures ProductsKey(a) != RecordingsKey(b) && ProductsKey(a) != CertificationsKey(b)
    ensures RecordingsKey(a) != CertificationsKey(b)
  {
    assert DeleteBinKey(a)[10] == 'd';
    assert ProductsKey(a)[10] == 'p' && ProductsKey(b)[10] == 'p';
    assert RecordingsKey(a)[10] == 'r' && RecordingsKey(b)[10] == 'r';
    assert CertificationsKey(b)[10] == 'c';
  }

  // ---------------------------------------------------------------------
  // The provider
  // ---------------------------------------------------------------------

  /** The provider's state: the registered users (the stored users list),
      the codes sent per email, the signed-in user (also stored) and the
      per-user data keys of the browser store. */
  class AuthStore {
    var users: seq<User>
    var otps: map<string, string>
    var session: Option<User>
    var store: map<string, Blob>

    constructor (savedUsers: seq<User>, savedSession: Option<User>, savedStore: map<string, Blob>)
      ensures users == savedUsers && session == savedSession && store == savedStore
      ensures otps == map[]
    {
      users := savedUsers;
      session := savedSession;
      store := savedStore;
      otps := map[];
    }

    /** Issues a fresh code for the email from the random draw r, replacing
        any earlier one; the mobile number is not used. */
    method SendOTP(email: string, mobile: Option<string>, r: real) returns (ok: bool)
      requires 0.0 <= r < 1.0
      modifies this
      ensures ok
      ensures otps == old(otps)[email := GenerateOTP(r)]
      ensures email in otps && |otps[email]| == 6
      ensures users == old(users) && session == old(session) && store == old(store)
    {
      otps := otps[email := GenerateOTP(r)];
      ok := true;
    }

    /** Registers a user when the code matches: the user, with an id taken
        from the clock, is appended and signed in, and the code is consumed
        so it cannot be used again. A wrong or missing code changes nothing. */
    method CreateAccount(data: UserData, otp: string, now: nat) returns (ok: bool)
      modifies this
      ensures ok == OtpAccepted(old(otps), data.email, otp)
      ensures !ok ==> unchanged(this)
      ensures ok ==> var u := WithId(data, NatToString(now));
        && users == old(users) + [u]
        && session == Some(u)
        && otps == old(otps) - {data.email}
        && data.email !in otps
        && store == old(store)
    {
      if !OtpAccepted(otps, data.email, otp) {
        return false;
      }
      var newUser := WithId(data, NatToString(now));
      users := users + [newUser];
      session := Some(newUser);
      otps := otps - {data.email};
      ok := true;
    }

    /** Signs in the first user with the email; the password is ignored. */
    method Login(email: string, password: Option<string>) returns (ok: bool)
      modifies this
      ensures ok <==> exists u :: u in users && u.email == email
      ensures ok ==> session == FirstWithEmail(users, email)
      ensures !ok ==> session == old(session)
      ensures users == old(users) && otps == old(otps) && store == old(store)
    {
      var found := FirstWithEmail(users, email);
      if found.None? {
        return false;
      }
      session := found;
      ok := true;
    }

    /** Signs in with a code: needs both an accepted code and a registered
        email; only a successful sign-in consumes the code. */
    method LoginWithOTP(email: string, otp: string) returns (ok: bool)
      modifies this
      ensures ok <==> OtpAccepted(old(otps), email, otp) && exists u :: u in users && u.email == email
      ensures ok ==> session == FirstWithEmail(users, email) && otps == old(otps) - {email}
      ensures !ok ==> unchanged(this)
      ensures users == old(users) && store == old(store)
    {
      if !OtpAccepted(otps, email, otp) {
        return false;
      }
      var found := FirstWithEmail(users, email);
      if found.None? {
        return false;
      }
      session := found;
      otps := otps - {email};
      ok := true;
    }

    method Logout()
      modifies this
      ensures session.None?
      ensures users == old(users) && otps == old(otps) && store == old(store)
    {
      session := None;
    }

    /** Without a session nothing happens. Otherwise every user with the
        session's id is removed, the session ends, and that user's products,
        recordings and certifications keys are cleared; the delete-bin key
        (anyone's) is left as it was. */
    method DeleteAccount()
      modifies this
      ensures old(session).None? ==> unchanged(this)
      ensures old(session).Some? ==> var id := old(session).value.id;
        && users == WithoutUser(old(users), id)
        && (forall u :: u in users ==> u.id != id)
        && session.None?
        && store == old(store) - UserDataKeys(id)
        && ProductsKey(id) !in store && RecordingsKey(id) !in store && CertificationsKey(id) !in store
      ensures forall other :: DeleteBinKey(other) in store <==> DeleteBinKey(other) in old(store)
      ensures forall other :: DeleteBinKey(other) in store ==> store[DeleteBinKey(other)] == old(store)[DeleteBinKey(other)]
      ensures otps == old(otps)
    {
      if session.None? {
        return;
      }
      var id := session.value.id;
      users := WithoutUser(users, id);
      store := store - UserDataKeys(id);
      session := None;
    }

    /** Without a session nothing happens. Otherwise the merged record
        replaces the first user with the session's id (the list is unchanged
        when there is none) and always becomes the session. */
    method UpdateProfile(updates: ProfileUpdate)
      modifies this
      ensures old(session).None? ==> unchanged(this)
      ensures old(session).Some? ==> var merged := Merge(old(session).value, updates);
        && session == Some(merged)
        && match IndexWithId(old(users), old(session).value.id)
           case None => users == old(users)
           case Some(i) => users == old(users)[i := merged]
      ensures |users| == old(|users|)
      ensures otps == old(otps) && store == old(store)
    {
      if session.None? {
        return;
      }
      var updatedUser := Merge(session.value, updates);
      var userIndex := IndexWithId(users, session.value.id);
      if userIndex.Some? {
        users := users[userIndex.value := updatedUser];
      }
      session := Some(updatedUser);
    }
  }
}
