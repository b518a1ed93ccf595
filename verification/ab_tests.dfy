/** The A/B tests the app runs, and the in-memory test service used in
    previews and mock builds.

    `ActiveABTests.swift` is not part of this model; its four fields are the
    ones `MockABTestService.init` fills. */
module ABTests {
  import opened Wrappers

  /** `CategoryRowTestOption`: where the Explore screen puts its categories. */
  datatype CategoryRowTestOption = Original | Top | Hidden

  /** `CategoryRowTestOption.default`. */
  const DefaultCategoryRow: CategoryRowTestOption := Original

  /** `PaywallTestOption`: which paywall is shown. */
  datatype PaywallTestOption = StoreKit | Custom | RevenueCat

  /** `PaywallTestOption.default`. */
  const DefaultPaywall: PaywallTestOption := StoreKit

  /** The stored raw value of a category-row option. */
  function CategoryRowRawValue(o: CategoryRowTestOption): string {
    match o
    case Original => "original"
    case Top => "top"
    case Hidden => "hidden"
  }

  /** `CategoryRowTestOption(rawValue:)`: nil for anything but the three
      raw values. */
  function CategoryRowFromRawValue(s: string): (r: Option<CategoryRowTestOption>)
    ensures r.Some? ==> CategoryRowRawValue(r.value) == s
  {
    if s == "original" then Some(Original)
    else if s == "top" then Some(Top)
    else if s == "hidden" then Some(Hidden)
    else None
  }

  /** The stored raw value of a paywall option. */
  function PaywallRawValue(o: PaywallTestOption): string {
    match o
    case StoreKit => "storeKit"
    case Custom => "custom"
    case RevenueCat => "revenueCat"
  }

  /** `PaywallTestOption(rawValue:)`. */
  function PaywallFromRawValue(s: string): (r: Option<PaywallTestOption>)
    ensures r.Some? ==> PaywallRawValue(r.value) == s
  {
    if s == "storeKit" then Some(StoreKit)
    else if s == "custom" then Some(Custom)
    else if s == "revenueCat" then Some(RevenueCat)
    else None
  }

  /** Every option survives encoding to its raw value and back, so a stored
      configuration decodes to the options that were saved. */
  lemma RawValuesRoundTrip(c: CategoryRowTestOption, p: PaywallTestOption)
    ensures CategoryRowFromRawValue(CategoryRowRawValue(c)) == Some(c)
    ensures PaywallFromRawValue(PaywallRawValue(p)) == Some(p)
  {
  }

  datatype ActiveABTests = ActiveABTests(
    createAccountTest: bool,
    onboardingCommunityTest: bool,
    categoryRowTest: CategoryRowTestOption,
    paywallTest: PaywallTestOption)

  /** `MockABTestService`: it holds the active tests in memory. */
  datatype MockABTestService = MockABTestService(activeTests: ActiveABTests)

  /** `init(...)`: each argument that is given is kept; an omitted flag is
      off and an omitted option is its type's default. */
  function NewMockABTestService(createAccountTest: Option<bool> := None,
                                onboardingCommunityTest: Option<bool> := None,
                                categoryRowTest: Option<CategoryRowTestOption> := None,
                                paywallTest: Option<PaywallTestOption> := None): (r: MockABTestService)
    ensures createAccountTest.Some? ==> r.activeTests.createAccountTest == createAccountTest.value
    ensures createAccountTest.None? ==> !r.activeTests.createAccountTest
    ensures onboardingCommunityTest.Some? ==> r.activeTests.onboardingCommunityTest == onboardingCommunityTest.value
    ensures onboardingCommunityTest.None? ==> !r.activeTests.onboardingCommunityTest
    ensures categoryRowTest.Some? ==> r.activeTests.categoryRowTest == categoryRowTest.value
    ensures categoryRowTest.None? ==> r.activeTests.categoryRowTest == Original
    ensures paywallTest.Some? ==> r.activeTests.paywallTest == paywallTest.value
    ensures paywallTest.None? ==> r.activeTests.paywallTest == StoreKit
  {
    MockABTestService(ActiveABTests(
      createAccountTest.GetOr(false),
      onboardingCommunityTest.GetOr(false),
      categoryRowTest.GetOr(DefaultCategoryRow),
      paywallTest.GetOr(DefaultPaywall)))
  }

  /** `saveUpdatedConfig(updatedTests:)`: the whole configuration is
      replaced; it never throws. */
  function SaveUpdatedConfig(s: MockABTestService, updatedTests: ActiveABTests): MockABTestService {
    MockABTestService(updatedTests)
  }

  /** `fetchUpdatedConfig()`: the tests held now. */
  function FetchUpdatedConfig(s: MockABTestService): ActiveABTests {
    s.activeTests
  }

  /** A fetch returns what the last save stored, whatever was there before,
      and does not change the service. */
  lemma SaveThenFetchRoundTrips(s: MockABTestService, first: ActiveABTests, second: ActiveABTests)
    ensures FetchUpdatedConfig(SaveUpdatedConfig(s, first)) == first
    ensures FetchUpdatedConfig(SaveUpdatedConfig(SaveUpdatedConfig(s, first), second)) == second
    ensures SaveUpdatedConfig(s, FetchUpdatedConfig(s)) == s
  {
  }

  /** With no arguments every test is off or at its default. */
  lemma DefaultMockIsAllDefaults()
    ensures FetchUpdatedConfig(NewMockABTestService()) == ActiveABTests(false, false, Original, StoreKit)
  {
  }
}
