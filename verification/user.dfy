/** `UserModel`: the signed-in user's profile document, built from the
    authentication record, and its analytics parameters. */
module User {
  import opened Wrappers
  import opened EventParams

  /** `UserAuthInfo`: what authentication knows about a user. */
  datatype UserAuthInfo = UserAuthInfo(
    uid: string,
    email: Option<string>,
    isAnonymous: bool,
    creationDate: Option<int>,
    lastSignInDate: Option<int>)

  datatype UserModel = UserModel(
    userId: string,
    email: Option<string>,
    isAnonymous: Option<bool>,
    creationDate: Option<int>,
    creationVersion: Option<string>,
    lastSignInDate: Option<int>,
    didCompleteOnboarding: Option<bool>,
    profileColorHex: Option<string>)
  {
    /** `id`, for `Identifiable`. */
    function Id(): string {
      userId
    }
  }

  /** The memberwise `init`: every field but the id may be left out, and is
      then nil. */
  function Memberwise(userId: string, email: Option<string> := None, isAnonymous: Option<bool> := None,
                      creationDate: Option<int> := None, creationVersion: Option<string> := None,
                      lastSignInDate: Option<int> := None, didCompleteOnboarding: Option<bool> := None,
                      profileColorHex: Option<string> := None): UserModel {
    UserModel(userId, email, isAnonymous, creationDate, creationVersion, lastSignInDate,
              didCompleteOnboarding, profileColorHex)
  }

  /** `init(auth:creationVersion:)`: the authentication fields are copied,
      the creation version is the one given, and the onboarding fields are
      left unset. */
  function FromAuth(auth: UserAuthInfo, creationVersion: Option<string>): (r: UserModel)
    ensures r.Id() == auth.uid
    ensures r.email == auth.email && r.isAnonymous == Some(auth.isAnonymous)
    ensures r.creationDate == auth.creationDate && r.lastSignInDate == auth.lastSignInDate
    ensures r.creationVersion == creationVersion
    ensures r.didCompleteOnboarding == None && r.profileColorHex == None
  {
    Memberwise(auth.uid, email := auth.email, isAnonymous := Some(auth.isAnonymous),
               creationDate := auth.creationDate, creationVersion := creationVersion,
               lastSignInDate := auth.lastSignInDate)
  }

  datatype CodingKey =
    | UserIdKey | EmailKey | IsAnonymousKey | CreationDateKey | CreationVersionKey
    | LastSignInDateKey | DidCompleteOnboardingKey | ProfileColorHexKey

  /** The stored name of each field. */
  function RawValue(k: CodingKey): string {
    match k
    case UserIdKey => "user_id"
    case EmailKey => "email"
    case IsAnonymousKey => "is_anonymous"
    case CreationDateKey => "creation_date"
    case CreationVersionKey => "creation_version"
    case LastSignInDateKey => "last_sign_in_date"
    case DidCompleteOnboardingKey => "did_complete_onboarding"
    case ProfileColorHexKey => "profile_color_hex"
  }

  /** No two fields share a stored name. */
  lemma RawValueIsInjective(a: CodingKey, b: CodingKey)
    requires RawValue(a) == RawValue(b)
    ensures a == b
  {
  }

  /** The analytics key of a field. */
  function Key(k: CodingKey): string {
    "user_" + RawValue(k)
  }

  /** The lines of the `eventParameters` literal, in source order. */
  function Entries(u: UserModel): (r: seq<Entry>)
    ensures DistinctKeys(r)
  {
    [ (RawValue(UserIdKey), Some(Text(u.userId))),
      (RawValue(EmailKey), Lift(u.email)),
      (RawValue(IsAnonymousKey), LiftFlag(u.isAnonymous)),
      (RawValue(CreationDateKey), LiftInstant(u.creationDate)),
      (RawValue(CreationVersionKey), Lift(u.creationVersion)),
      (RawValue(LastSignInDateKey), LiftInstant(u.lastSignInDate)),
      (RawValue(DidCompleteOnboardingKey), LiftFlag(u.didCompleteOnboarding)),
      (RawValue(ProfileColorHexKey), Lift(u.profileColorHex)) ]
  }

  /** Every key the literal can produce is the key of one of the fields. */
  lemma KeysAreFieldKeys(u: UserModel, s: string)
    requires s in KeySet("user_", Entries(u))
    ensures exists c :: s == Key(c)
  {
    var e := Entries(u);
    KeySetMembers("user_", e, s);
    var i :| 0 <= i < |e| && s == "user_" + e[i].0;
    var c := [UserIdKey, EmailKey, IsAnonymousKey, CreationDateKey, CreationVersionKey,
              LastSignInDateKey, DidCompleteOnboardingKey, ProfileColorHexKey][i];
    assert s == Key(c);
  }

  /** `eventParameters`: the id always, every other field under its key when
      it is not nil, and no other keys. */
  function EventParameters(u: UserModel): (r: map<string, Value>)
    ensures Reports(r, Key(UserIdKey), Some(Text(u.userId)))
    ensures Reports(r, Key(EmailKey), Lift(u.email))
    ensures Reports(r, Key(IsAnonymousKey), LiftFlag(u.isAnonymous))
    ensures Reports(r, Key(CreationDateKey), LiftInstant(u.creationDate))
    ensures Reports(r, Key(CreationVersionKey), Lift(u.creationVersion))
    ensures Reports(r, Key(LastSignInDateKey), LiftInstant(u.lastSignInDate))
    ensures Reports(r, Key(DidCompleteOnboardingKey), LiftFlag(u.didCompleteOnboarding))
    ensures Reports(r, Key(ProfileColorHexKey), Lift(u.profileColorHex))
    ensures forall s :: s in r ==> exists c :: s == Key(c)
  {
    var e := Entries(u);
    var r := Build("user_", e);
    assert Reports(r, "user_" + e[0].0, e[0].1);
    assert Reports(r, "user_" + e[1].0, e[1].1);
    assert Reports(r, "user_" + e[2].0, e[2].1);
    assert Reports(r, "user_" + e[3].0, e[3].1);
    assert Reports(r, "user_" + e[4].0, e[4].1);
    assert Reports(r, "user_" + e[5].0, e[5].1);
    assert Reports(r, "user_" + e[6].0, e[6].1);
    assert Reports(r, "user_" + e[7].0, e[7].1);
    forall s | s in r
      ensures exists c :: s == Key(c)
    {
      KeysAreFieldKeys(u, s);
    }
    r
  }

  /** A user just built from authentication always reports its id and
      whether it is anonymous, and never reports onboarding. */
  lemma FromAuthParameters(auth: UserAuthInfo, creationVersion: Option<string>)
    ensures EventParameters(FromAuth(auth, creationVersion))[Key(UserIdKey)] == Text(auth.uid)
    ensures EventParameters(FromAuth(auth, creationVersion))[Key(IsAnonymousKey)] == Flag(auth.isAnonymous)
    ensures Key(DidCompleteOnboardingKey) !in EventParameters(FromAuth(auth, creationVersion))
    ensures Key(ProfileColorHexKey) !in EventParameters(FromAuth(auth, creationVersion))
  {
  }

  /** A user built from its id alone reports its id and nothing else. */
  lemma IdOnlyUserReportsOnlyItsId(userId: string)
    ensures EventParameters(Memberwise(userId)) == map[Key(UserIdKey) := Text(userId)]
  {
    var u := Memberwise(userId);
    var r := EventParameters(u);
    assert forall c :: c != UserIdKey ==> Key(c) !in r;
    forall s | s in r
      ensures s == Key(UserIdKey)
    {
      var c :| s == Key(c);
    }
  }
}
