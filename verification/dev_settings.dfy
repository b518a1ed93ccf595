/** The developer settings screen (`DevSettingsViewModel`): four controls
    mirror the active A/B tests, and changing one overrides that test.

    A control is bound to its property, so by the time a `handle*Change`
    handler runs the property already holds the new value. The handler
    compares the new value with the saved one and, when they differ, asks
    the interactor to override the tests; if that throws, the property is
    set back to the saved value. */
module DevSettings {
  import opened Wrappers
  import opened ABTests

  datatype DevSettingsState = DevSettingsState(
    createAccountTest: bool,
    onboardingCommunityTest: bool,
    categoryRowTest: CategoryRowTestOption,
    paywallTest: PaywallTestOption)

  /** A new view model: flags off, options at their defaults. */
  const Initial: DevSettingsState := DevSettingsState(false, false, DefaultCategoryRow, DefaultPaywall)

  /** The screen shows exactly the given tests. */
  predicate InSync(s: DevSettingsState, tests: ActiveABTests) {
    s.createAccountTest == tests.createAccountTest
    && s.onboardingCommunityTest == tests.onboardingCommunityTest
    && s.categoryRowTest == tests.categoryRowTest
    && s.paywallTest == tests.paywallTest
  }

  /** `loadABTests()`: all four controls take the active tests' values. */
  function LoadABTests(s: DevSettingsState, activeTests: ActiveABTests): (r: DevSettingsState)
    ensures InSync(r, activeTests)
  {
    DevSettingsState(activeTests.createAccountTest, activeTests.onboardingCommunityTest,
                     activeTests.categoryRowTest, activeTests.paywallTest)
  }

  /** What a handler did: the screen's new state, and the tests handed to
      `override`, when it was called. */
  datatype Handled = Handled(state: DevSettingsState, overridden: Option<ActiveABTests>)

  /** `updateTest(property:newValue:savedValue:updateAction:)`: returns the
      property's new value and the tests handed to `override`. An unchanged
      value calls nothing; a failed override rolls the property back. */
  function UpdateTest<V(==)>(property: V, newValue: V, savedValue: V, updatedTests: ActiveABTests,
                             override: ActiveABTests -> Outcome<Error>): (r: (V, Option<ActiveABTests>))
    ensures newValue == savedValue ==> r == (property, None)
    ensures newValue != savedValue ==> r.1 == Some(updatedTests)
    ensures newValue != savedValue && override(updatedTests).Fail? ==> r.0 == savedValue
    ensures newValue != savedValue && override(updatedTests).Pass? ==> r.0 == property
  {
    if newValue != savedValue then
      match override(updatedTests)
      case Pass => (property, Some(updatedTests))
      case Fail(_) => (savedValue, Some(updatedTests))
    else (property, None)
  }

  /** `handleCreateAccountChange(oldVlalue:newValue:)`. */
  function HandleCreateAccountChange(s: DevSettingsState, newValue: bool, activeTests: ActiveABTests,
                                     override: ActiveABTests -> Outcome<Error>): (r: Handled)
    ensures newValue == activeTests.createAccountTest ==> r == Handled(s, None)
    ensures newValue != activeTests.createAccountTest ==> r.overridden == Some(activeTests.(createAccountTest := newValue))
    ensures r.overridden.Some? && override(r.overridden.value).Fail? ==> r.state.createAccountTest == activeTests.createAccountTest
    ensures r.state.(createAccountTest := s.createAccountTest) == s
  {
    var (v, o) := UpdateTest(s.createAccountTest, newValue, activeTests.createAccountTest,
                             activeTests.(createAccountTest := newValue), override);
    Handled(s.(createAccountTest := v), o)
  }

  /** `handleOnbCommunityTestChange(oldVlalue:newValue:)`. */
  function HandleOnboardingCommunityChange(s: DevSettingsState, newValue: bool, activeTests: ActiveABTests,
                                           override: ActiveABTests -> Outcome<Error>): (r: Handled)
    ensures newValue == activeTests.onboardingCommunityTest ==> r == Handled(s, None)
    ensures newValue != activeTests.onboardingCommunityTest ==>
      r.overridden == Some(activeTests.(onboardingCommunityTest := newValue))
    ensures r.overridden.Some? && override(r.overridden.value).Fail? ==>
      r.state.onboardingCommunityTest == activeTests.onboardingCommunityTest
    ensures r.state.(onboardingCommunityTest := s.onboardingCommunityTest) == s
  {
    var (v, o) := UpdateTest(s.onboardingCommunityTest, newValue, activeTests.onboardingCommunityTest,
                             activeTests.(onboardingCommunityTest := newValue), override);
    Handled(s.(onboardingCommunityTest := v), o)
  }

  /** `handleOnbCategoryRowOptionChange(oldVlalue:newValue:)`. */
  function HandleCategoryRowChange(s: DevSettingsState, newValue: CategoryRowTestOption, activeTests: ActiveABTests,
                                   override: ActiveABTests -> Outcome<Error>): (r: Handled)
    ensures newValue == activeTests.categoryRowTest ==> r == Handled(s, None)
    ensures newValue != activeTests.categoryRowTest ==> r.overridden == Some(activeTests.(categoryRowTest := newValue))
    ensures r.overridden.Some? && override(r.overridden.value).Fail? ==> r.state.categoryRowTest == activeTests.categoryRowTest
    ensures r.state.(categoryRowTest := s.categoryRowTest) == s
  {
    var (v, o) := UpdateTest(s.categoryRowTest, newValue, activeTests.categoryRowTest,
                             activeTests.(categoryRowTest := newValue), override);
    Handled(s.(categoryRowTest := v), o)
  }

  /** `handlePaywallOptionChange(oldVlalue:newValue:)`. */
  function HandlePaywallChange(s: DevSettingsState, newValue: PaywallTestOption, activeTests: ActiveABTests,
                               override: ActiveABTests -> Outcome<Error>): (r: Handled)
    ensures newValue == activeTests.paywallTest ==> r == Handled(s, None)
    ensures newValue != activeTests.paywallTest ==> r.overridden == Some(activeTests.(paywallTest := newValue))
    ensures r.overridden.Some? && override(r.overridden.value).Fail? ==> r.state.paywallTest == activeTests.paywallTest
    ensures r.state.(paywallTest := s.paywallTest) == s
  {
    var (v, o) := UpdateTest(s.paywallTest, newValue, activeTests.paywallTest,
                             activeTests.(paywallTest := newValue), override);
    Handled(s.(paywallTest := v), o)
  }

  /** A change made with one of the four controls. */
  datatype Change =
    | CreateAccount(flag: bool)
    | OnboardingCommunity(flag: bool)
    | CategoryRow(row: CategoryRowTestOption)
    | Paywall(paywall: PaywallTestOption)

  /** What the control's binding writes before its handler runs. */
  function Bind(s: DevSettingsState, c: Change): DevSettingsState {
    match c
    case CreateAccount(v) => s.(createAccountTest := v)
    case OnboardingCommunity(v) => s.(onboardingCommunityTest := v)
    case CategoryRow(v) => s.(categoryRowTest := v)
    case Paywall(v) => s.(paywallTest := v)
  }

  /** The `onChange` handler the control triggers. */
  function Handle(s: DevSettingsState, c: Change, activeTests: ActiveABTests,
                  override: ActiveABTests -> Outcome<Error>): Handled {
    match c
    case CreateAccount(v) => HandleCreateAccountChange(s, v, activeTests, override)
    case OnboardingCommunity(v) => HandleOnboardingCommunityChange(s, v, activeTests, override)
    case CategoryRow(v) => HandleCategoryRowChange(s, v, activeTests, override)
    case Paywall(v) => HandlePaywallChange(s, v, activeTests, override)
  }

  /** The interactor's `override`, backed by the mock test service: it
      stores the tests when the call succeeds and leaves the service as it
      was when it throws. The interactor's own code is not part of this
      model. */
  function Store(service: MockABTestService, h: Handled, override: ActiveABTests -> Outcome<Error>): MockABTestService {
    match h.overridden
    case Some(tests) => if override(tests).Pass? then SaveUpdatedConfig(service, tests) else service
    case None => service
  }

  /** A screen that shows the service's tests keeps showing them after any
      change, whether the override succeeds or throws: success stores the
      new value, and failure rolls the control back. */
  lemma ChangesKeepScreenInSync(s: DevSettingsState, service: MockABTestService, c: Change,
                                override: ActiveABTests -> Outcome<Error>)
    requires InSync(s, service.activeTests)
    ensures var h := Handle(Bind(s, c), c, service.activeTests, override);
      InSync(h.state, FetchUpdatedConfig(Store(service, h, override)))
  {
  }

  /** A change that fails to override leaves both the screen and the
      service as they were before the control moved. */
  lemma FailedChangeIsUndone(s: DevSettingsState, service: MockABTestService, c: Change,
                             override: ActiveABTests -> Outcome<Error>)
    requires InSync(s, service.activeTests)
    requires forall t :: override(t).Fail?
    ensures Handle(Bind(s, c), c, service.activeTests, override).state == s
    ensures Store(service, Handle(Bind(s, c), c, service.activeTests, override), override) == service
  {
  }
}
