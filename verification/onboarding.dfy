/** The onboarding flow: welcome, intro, the community screen when the
    onboarding-community test is on, colour choice, and completion. The
    welcome screen owns the navigation path; every later screen appends to
    it through a binding.

    `updateAppState(showTabBarView:)` is recorded as the value it was called
    with, nil when it was not called. */
module Onboarding {
  import opened Wrappers
  import opened Routing
  import MockUserService

  // ------------------------------------------------------------ welcome

  datatype WelcomeState = WelcomeState(imageName: string, showSignInView: bool, path: seq<OnBoardingPathOption>)

  /** A new welcome screen: `Constants.randomImage` is given; the sign-in
      sheet is closed and the path empty. */
  function WelcomeInitial(randomImage: string): WelcomeState {
    WelcomeState(randomImage, false, [])
  }

  /** `onGetStartedPressed()`: goes to the intro. */
  function OnGetStartedPressed(s: WelcomeState): (r: WelcomeState)
    ensures r.path == s.path + [IntroView]
    ensures r.(path := s.path) == s
  {
    s.(path := s.path + [IntroView])
  }

  /** `onSignInPressed()`: opens the sign-in sheet and leaves the path. */
  function OnSignInPressed(s: WelcomeState): (r: WelcomeState)
    ensures r.showSignInView
    ensures r.(showSignInView := s.showSignInView) == s
  {
    s.(showSignInView := true)
  }

  /** `handleDidSignIn(isNewUser:)`: a returning user goes straight to the
      tab bar; a new user stays to go through onboarding. */
  function HandleDidSignIn(isNewUser: bool): (updateAppState: Option<bool>)
    ensures isNewUser ==> updateAppState.None?
    ensures !isNewUser ==> updateAppState == Some(true)
  {
    if isNewUser then None else Some(true)
  }

  // ------------------------------------------------- intro and community

  /** `OnboardingIntroViewModel.onContinueButtonPressed(path:)`: to the
      community screen when the test is on, to the colours otherwise. */
  function IntroContinue(path: seq<OnBoardingPathOption>, onboardingCommunityTest: bool): (r: seq<OnBoardingPathOption>)
    ensures |r| == |path| + 1 && r[..|path|] == path
    ensures onboardingCommunityTest ==> r[|path|] == CommunityView
    ensures !onboardingCommunityTest ==> r[|path|] == ColorView
  {
    path + [if onboardingCommunityTest then CommunityView else ColorView]
  }

  /** The intro never sends the user back to itself or straight to the end. */
  lemma IntroNeverSkipsToTheEnds(path: seq<OnBoardingPathOption>, onboardingCommunityTest: bool)
    ensures IntroContinue(path, onboardingCommunityTest)[|path|] != IntroView
    ensures !IntroContinue(path, onboardingCommunityTest)[|path|].CompletedView?
  {
  }

  /** `OnboardingCommunityViewModel.onContinueButtonPressed(path:)`: always
      to the colours; the screen consults no test. */
  function CommunityContinue(path: seq<OnBoardingPathOption>): (r: seq<OnBoardingPathOption>)
    ensures |r| == |path| + 1 && r[..|path|] == path
    ensures r[|path|] == ColorView
  {
    path + [ColorView]
  }

  // -------------------------------------------------------------- colour

  /** `profileColors`, in order. */
  const ProfileColors: seq<Color> := [Red, Green, Orange, Blue, Mint, Purple, Cyan, Teal, Indigo]

  /** The palette offers nine pairwise-different colours. Of the standard
      named colours it leaves out yellow, pink, brown, gray, black and white,
      and it offers no colour outside the standard ones. */
  lemma PaletteIsNineStandardColours(c: Color)
    ensures |ProfileColors| == 9
    ensures forall i, j :: 0 <= i < j < |ProfileColors| ==> ProfileColors[i] != ProfileColors[j]
    ensures c in ProfileColors <==> !(c.OtherColor? || c.Yellow? || c.Pink? || c.Brown? || c.Gray? || c.Black? || c.White?)
  {
  }

  /** The colour screen: nothing is selected at first. */
  datatype ColorState = ColorState(selectedColor: Option<Color>)

  const ColorInitial: ColorState := ColorState(None)

  /** `onColorPressed(color:)`. */
  function OnColorPressed(s: ColorState, color: Color): (r: ColorState)
    ensures r.selectedColor == Some(color)
  {
    ColorState(Some(color))
  }

  /** The last colour pressed is the one selected. */
  lemma LastColourPressedWins(s: ColorState, first: Color, second: Color)
    ensures OnColorPressed(OnColorPressed(s, first), second) == OnColorPressed(s, second)
  {
  }

  /** `OnboardingColorViewModel.onContinueButtonPressed(path:)`: without a
      selection nothing happens; with one, on to completion with it. */
  function ColorContinue(s: ColorState, path: seq<OnBoardingPathOption>): (r: seq<OnBoardingPathOption>)
    ensures s.selectedColor.None? ==> r == path
    ensures s.selectedColor.Some? ==> r == path + [CompletedView(s.selectedColor.value)]
  {
    match s.selectedColor
    case None => path
    case Some(c) => path + [CompletedView(c)]
  }

  /** The walk from the welcome screen: get started, continue on the intro,
      continue on the community screen when the test shows it, pick a colour
      and continue. The path lists every screen visited, and the
      completion screen carries the colour picked. */
  lemma OnboardingJourney(randomImage: string, onboardingCommunityTest: bool, color: Color)
    ensures var afterIntro := IntroContinue(OnGetStartedPressed(WelcomeInitial(randomImage)).path, onboardingCommunityTest);
      var beforeColor := if onboardingCommunityTest then CommunityContinue(afterIntro) else afterIntro;
      ColorContinue(OnColorPressed(ColorInitial, color), beforeColor)
        == [IntroView] + (if onboardingCommunityTest then [CommunityView] else []) + [ColorView, CompletedView(color)]
  {
  }

  /** Without a colour picked the flow cannot reach completion. */
  lemma NoCompletionWithoutColour(path: seq<OnBoardingPathOption>)
    ensures ColorContinue(ColorInitial, path) == path
  {
  }

  // ---------------------------------------------------------- completion

  /** The completion screen. `showAlert` is kept as whether an alert is up. */
  datatype CompletedState = CompletedState(isCompletingProfileSetup: bool, showAlert: bool)

  const CompletedInitial: CompletedState := CompletedState(false, false)

  /** What pressing Finish did: the screen's state, the hex handed to
      `markOnboardingCompleted`, and the `updateAppState` call. */
  datatype FinishEffects = FinishEffects(state: CompletedState, profileColorHex: string, updateAppState: Option<bool>)

  /** `onFinishButtonPressed(selectedColor:)`, from press to the end of its
      task. The colour's hex comes from `toHex`, which is not part of this
      model, falling back to `Constants.accentColorHex`. On success the
      spinner stops and the tab bar is shown; on failure an alert is raised
      and the spinner is never stopped. */
  function OnFinishButtonPressed(s: CompletedState, selectedColor: Color, toHex: Color -> Option<string>,
                                 accentColorHex: string, markOnboardingCompleted: string -> Outcome<Error>): (r: FinishEffects)
    ensures toHex(selectedColor).Some? ==> r.profileColorHex == toHex(selectedColor).value
    ensures toHex(selectedColor).None? ==> r.profileColorHex == accentColorHex
    ensures r.updateAppState.Some? <==> markOnboardingCompleted(r.profileColorHex).Pass?
    ensures r.updateAppState.Some? ==> r.updateAppState == Some(true) && !r.state.isCompletingProfileSetup
                                       && r.state.showAlert == s.showAlert
    ensures r.updateAppState.None? ==> r.state.isCompletingProfileSetup && r.state.showAlert
  {
    var hex := toHex(selectedColor).GetOr(accentColorHex);
    var started := s.(isCompletingProfileSetup := true);
    match markOnboardingCompleted(hex)
    case Pass => FinishEffects(started.(isCompletingProfileSetup := false), hex, Some(true))
    case Fail(_) => FinishEffects(started.(showAlert := true), hex, None)
  }

  /** Completion backed by the mock user store, whose
      `markOnboardingCOmpleted` stands for the interactor's: with a stored
      user the tab bar is shown and the user is marked with the chosen
      colour's hex; without one the alert is raised, the store is left
      alone and the tab bar is not shown. */
  lemma FinishWithMockStore(s: CompletedState, selectedColor: Color, toHex: Color -> Option<string>,
                            accentColorHex: string, store: MockUserService.MockUserService, userId: string)
    ensures var mark := (hex: string) =>
              if MockUserService.MarkOnboardingCompleted(store, userId, hex).Ok? then Pass else Fail(Error);
      var r := OnFinishButtonPressed(s, selectedColor, toHex, accentColorHex, mark);
      (r.updateAppState == Some(true) <==> store.currentUser.Some?)
      && (store.currentUser.Some? ==>
            MockUserService.MarkOnboardingCompleted(store, userId, r.profileColorHex).value.currentUser.value.profileColorHex
              == Some(toHex(selectedColor).GetOr(accentColorHex)))
      && (store.currentUser.None? ==> r.state.showAlert && r.state.isCompletingProfileSetup)
  {
  }
}
