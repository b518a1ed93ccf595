/** `MockUserService`: the in-memory store of the signed-in user's profile
    used in previews and mock builds. Its user stream is left out. */
module MockUserService {
  import opened Wrappers
  import opened User
  import opened EventParams

  datatype MockUserService = MockUserService(currentUser: Option<UserModel>)

  /** `init(user:)`. */
  function NewMockUserService(user: Option<UserModel> := None): (r: MockUserService)
    ensures r.currentUser == user
  {
    MockUserService(user)
  }

  /** `saveUser(user:)`: the user replaces whatever was stored. */
  function SaveUser(s: MockUserService, user: UserModel): (r: MockUserService)
    ensures r.currentUser == Some(user)
  {
    MockUserService(Some(user))
  }

  /** `deleteUser(userId:)`: the stored user is removed, whichever id is
      passed. */
  function DeleteUser(s: MockUserService, userId: string): (r: MockUserService)
    ensures r.currentUser.None?
  {
    MockUserService(None)
  }

  /** `markOnboardingCOmpleted(userId:profileColorHex:)`: throws when no user
      is stored; otherwise the stored user is rebuilt with onboarding done
      and the given colour, and every other field kept. The id passed is
      not consulted. */
  function MarkOnboardingCompleted(s: MockUserService, userId: string, profileColorHex: string): (r: Result<MockUserService, Error>)
    ensures r.Err? <==> s.currentUser.None?
    ensures r.Ok? ==> r.value.currentUser.Some?
    ensures r.Ok? ==> r.value.currentUser.value.didCompleteOnboarding == Some(true)
                      && r.value.currentUser.value.profileColorHex == Some(profileColorHex)
    ensures r.Ok? ==> r.value.currentUser.value.(didCompleteOnboarding := s.currentUser.value.didCompleteOnboarding,
                                                 profileColorHex := s.currentUser.value.profileColorHex)
                      == s.currentUser.value
  {
    match s.currentUser
    case None => Err(Error)
    case Some(u) =>
      Ok(MockUserService(Some(UserModel(u.userId, u.email, u.isAnonymous, u.creationDate, u.creationVersion,
                                        u.lastSignInDate, Some(true), Some(profileColorHex)))))
  }

  /** Neither call looks at the user id it is given. */
  lemma UserIdIsIgnored(s: MockUserService, a: string, b: string, profileColorHex: string)
    ensures MarkOnboardingCompleted(s, a, profileColorHex) == MarkOnboardingCompleted(s, b, profileColorHex)
    ensures DeleteUser(s, a) == DeleteUser(s, b)
  {
  }

  /** Marking twice with the same colour is the same as marking once, and
      the last colour marked wins. */
  lemma MarkIsIdempotentAndLastColourWins(s: MockUserService, userId: string, first: string, second: string)
    requires s.currentUser.Some?
    ensures MarkOnboardingCompleted(MarkOnboardingCompleted(s, userId, first).value, userId, first)
         == MarkOnboardingCompleted(s, userId, first)
    ensures MarkOnboardingCompleted(MarkOnboardingCompleted(s, userId, first).value, userId, second)
         == MarkOnboardingCompleted(s, userId, second)
  {
  }

  /** A deleted user cannot be marked. */
  lemma CannotMarkAfterDelete(s: MockUserService, userId: string, profileColorHex: string)
    ensures MarkOnboardingCompleted(DeleteUser(s, userId), userId, profileColorHex).Err?
  {
  }

  /** A user saved straight from authentication reports no onboarding;
      once marked, it reports onboarding done and the colour, under the
      same id. */
  lemma MarkedUserReportsOnboarding(s: MockUserService, auth: UserAuthInfo, creationVersion: Option<string>,
                                    profileColorHex: string)
    ensures var saved := SaveUser(s, FromAuth(auth, creationVersion));
      var marked := MarkOnboardingCompleted(saved, auth.uid, profileColorHex);
      Key(DidCompleteOnboardingKey) !in User.EventParameters(saved.currentUser.value)
      && marked.Ok?
      && User.EventParameters(marked.value.currentUser.value)[Key(DidCompleteOnboardingKey)] == Flag(true)
      && User.EventParameters(marked.value.currentUser.value)[Key(ProfileColorHexKey)] == Text(profileColorHex)
      && User.EventParameters(marked.value.currentUser.value)[Key(UserIdKey)] == Text(auth.uid)
  {
    FromAuthParameters(auth, creationVersion);
  }
}
