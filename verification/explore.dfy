/** The Explore tab (`ExploreViewModel` and the layout logic of
    `ExploreView`): two avatar lists loaded once each, the order of the
    screen's sections under the category-row A/B test, deep links into a
    category, and the navigation path.

    `CharacterOption` is kept as its raw value. The view model's
    `categories` is `CharacterOption.allCases` and is never reassigned, so it
    also serves as the set of raw values `CharacterOption(rawValue:)`
    accepts. */
module Explore {
  import opened Wrappers
  import opened Avatar
  import opened User
  import opened ABTests
  import opened Routing

  datatype ExploreState = ExploreState(
    categories: seq<string>,
    featuredAvatars: seq<AvatarModel>,
    popularAvatars: seq<AvatarModel>,
    isLoadingFeatured: bool,
    isLoadingPopular: bool,
    showNotificationButton: bool,
    showDevSetting: bool,
    showPushNotificationModal: bool,
    showCreateAccountView: bool,
    path: seq<TabbarPathOption>)

  /** A new view model: no avatars yet, both lists loading, nothing shown.
      Whatever the category-row test, the screen opens on the spinner alone. */
  function Initial(allCategories: seq<string>): (r: ExploreState)
    ensures forall test :: Sections(r, test) == [LoadingIndicator]
    ensures r.categories == allCategories && r.path == []
  {
    ExploreState(allCategories, [], [], true, true, false, false, false, false, [])
  }

  // ------------------------------------------------------------ layout

  /** The rows of `ExploreView`'s list. */
  datatype Section = LoadingIndicator | ErrorMessage | CategoriesSection | FeaturedSection | PopularSection

  /** `body`: a spinner or an error view while both lists are empty, the
      categories first under `.top`, the featured list, then the categories
      under `.original`, then the popular list. Categories are shown only
      next to a non-empty popular list. The body lists the outcome of the
      view's four `if`s case by case. */
  function Sections(s: ExploreState, test: CategoryRowTestOption): (r: seq<Section>)
    ensures LoadingIndicator in r <==>
      s.featuredAvatars == [] && s.popularAvatars == [] && (s.isLoadingFeatured || s.isLoadingPopular)
    ensures ErrorMessage in r <==>
      s.featuredAvatars == [] && s.popularAvatars == [] && !s.isLoadingFeatured && !s.isLoadingPopular
    ensures FeaturedSection in r <==> s.featuredAvatars != []
    ensures PopularSection in r <==> s.popularAvatars != []
    ensures CategoriesSection in r <==> s.popularAvatars != [] && test != Hidden
    ensures multiset(r)[CategoriesSection] <= 1
  {
    if s.popularAvatars == [] then
      if s.featuredAvatars != [] then [FeaturedSection]
      else if s.isLoadingFeatured || s.isLoadingPopular then [LoadingIndicator]
      else [ErrorMessage]
    else if s.featuredAvatars == [] then
      if test == Hidden then [PopularSection] else [CategoriesSection, PopularSection]
    else
      match test
      case Top => [CategoriesSection, FeaturedSection, PopularSection]
      case Original => [FeaturedSection, CategoriesSection, PopularSection]
      case Hidden => [FeaturedSection, PopularSection]
  }

  /** Section `a` is shown somewhere above section `b`. */
  ghost predicate Above(r: seq<Section>, a: Section, b: Section) {
    exists i, j :: 0 <= i < j < |r| && r[i] == a && r[j] == b
  }

  /** Where the categories go: above the featured list exactly under `.top`
      (when both lists are shown), between featured and popular exactly
      under `.original`, and always right above the popular list. */
  lemma CategoryPlacement(s: ExploreState, test: CategoryRowTestOption)
    ensures Above(Sections(s, test), CategoriesSection, FeaturedSection) <==>
      s.popularAvatars != [] && s.featuredAvatars != [] && test == Top
    ensures Above(Sections(s, test), FeaturedSection, CategoriesSection) <==>
      s.popularAvatars != [] && s.featuredAvatars != [] && test == Original
    ensures CategoriesSection in Sections(s, test) ==>
      Sections(s, test)[|Sections(s, test)| - 1] == PopularSection
      && (test == Original ==> Sections(s, test)[|Sections(s, test)| - 2] == CategoriesSection)
  {
    var r := Sections(s, test);
    if s.popularAvatars != [] && s.featuredAvatars != [] && test == Top {
      assert r == [CategoriesSection, FeaturedSection, PopularSection];
      assert r[0] == CategoriesSection && r[1] == FeaturedSection;
    } else if s.popularAvatars != [] && s.featuredAvatars != [] && test == Original {
      assert r == [FeaturedSection, CategoriesSection, PopularSection];
      assert r[0] == FeaturedSection && r[1] == CategoriesSection;
    }
  }

  /** The position of the first avatar of a category, if any. */
  function FirstOfCategory(avatars: seq<AvatarModel>, category: string): (r: Option<nat>)
    ensures r.Some? ==> r.value < |avatars| && avatars[r.value].characterOption == Some(category)
                        && forall j :: 0 <= j < r.value ==> avatars[j].characterOption != Some(category)
    ensures r.None? ==> forall j :: 0 <= j < |avatars| ==> avatars[j].characterOption != Some(category)
    decreases |avatars|
  {
    if |avatars| == 0 then None
    else if avatars[0].characterOption == Some(category) then Some(0)
    else
      match FirstOfCategory(avatars[1..], category)
      case None => None
      case Some(i) => Some(i + 1)
  }

  /** The position of the last avatar of a category, if any. */
  function LastOfCategory(avatars: seq<AvatarModel>, category: string): (r: Option<nat>)
    ensures r.Some? ==> r.value < |avatars| && avatars[r.value].characterOption == Some(category)
                        && forall j :: r.value < j < |avatars| ==> avatars[j].characterOption != Some(category)
    ensures r.None? ==> forall j :: 0 <= j < |avatars| ==> avatars[j].characterOption != Some(category)
    decreases |avatars|
  {
    if |avatars| == 0 then None
    else if avatars[|avatars| - 1].characterOption == Some(category) then Some(|avatars| - 1)
    else LastOfCategory(avatars[..|avatars| - 1], category)
  }

  /** The image a category cell shows: the last popular avatar of that
      category's image, when there is such an avatar and it has an image. */
  function CellImage(popular: seq<AvatarModel>, category: string): Option<string> {
    match LastOfCategory(popular, category)
    case None => None
    case Some(i) => popular[i].profileImageName
  }

  /** `categoriesSection`: one cell per category, in order, for each
      category that has an image to show. */
  function CategoryCells(categories: seq<string>, popular: seq<AvatarModel>): (r: seq<(string, string)>)
    ensures |r| <= |categories|
    ensures forall cell :: cell in r <==> cell.0 in categories && CellImage(popular, cell.0) == Some(cell.1)
  {
    if |categories| == 0 then []
    else
      var rest := CategoryCells(categories[1..], popular);
      assert forall c :: c in categories <==> c == categories[0] || c in categories[1..];
      match CellImage(popular, categories[0])
      case Some(image) => [(categories[0], image)] + rest
      case None => rest
  }

  /** A category with no popular avatar gets no cell. */
  lemma NoCellWithoutAvatar(categories: seq<string>, popular: seq<AvatarModel>, category: string, image: string)
    requires forall j :: 0 <= j < |popular| ==> popular[j].characterOption != Some(category)
    ensures (category, image) !in CategoryCells(categories, popular)
  {
  }

  // --------------------------------------------------------- deep links

  /** A `URLQueryItem`. */
  datatype QueryItem = QueryItem(name: string, value: Option<string>)

  /** The loop's condition: the item is named "category" and its value is
      the raw value of a category. */
  predicate IsCategoryItem(q: QueryItem, categories: seq<string>) {
    q.name == "category" && q.value.Some? && q.value.value in categories
  }

  /** The first item that passes the loop's condition. */
  function FirstCategoryItem(items: seq<QueryItem>, categories: seq<string>): (r: Option<nat>)
    ensures r.Some? ==> r.value < |items| && IsCategoryItem(items[r.value], categories)
                        && forall j :: 0 <= j < r.value ==> !IsCategoryItem(items[j], categories)
    ensures r.None? ==> forall j :: 0 <= j < |items| ==> !IsCategoryItem(items[j], categories)
    decreases |items|
  {
    if |items| == 0 then None
    else if IsCategoryItem(items[0], categories) then Some(0)
    else
      match FirstCategoryItem(items[1..], categories)
      case None => None
      case Some(i) => Some(i + 1)
  }

  /** The image a deep link opens a category with: the first popular avatar
      of that category's image, or the random image when there is no such
      avatar or it has no image. */
  function DeepLinkImage(popular: seq<AvatarModel>, category: string, randomImage: string): (r: string)
    ensures FirstOfCategory(popular, category).None? ==> r == randomImage
    ensures FirstOfCategory(popular, category).Some? ==>
      r == popular[FirstOfCategory(popular, category).value].profileImageName.GetOr(randomImage)
  {
    match FirstOfCategory(popular, category)
    case None => randomImage
    case Some(i) => popular[i].profileImageName.GetOr(randomImage)
  }

  /** The event a deep link ends with. */
  datatype DeepLinkOutcome = DeeplinkNoQueryItems | DeeplinkCategory(category: string) | DeeplinkUnknown

  /** `handleDeepLink(url:)`. The URL is given as its query items, nil when
      it has none or cannot be parsed. `Constants.randomImage` is a
      parameter. Only the path can change. */
  function HandleDeepLink(s: ExploreState, queryItems: Option<seq<QueryItem>>, randomImage: string): (r: (ExploreState, DeepLinkOutcome))
    ensures r.0.(path := s.path) == s
    ensures queryItems.None? <==> r.1 == DeeplinkNoQueryItems
    ensures r.1.DeeplinkCategory? <==>
      queryItems.Some? && exists j :: 0 <= j < |queryItems.value| && IsCategoryItem(queryItems.value[j], s.categories)
    ensures r.1.DeeplinkCategory? ==>
      exists j :: 0 <= j < |queryItems.value| && IsCategoryItem(queryItems.value[j], s.categories)
        && (forall k :: 0 <= k < j ==> !IsCategoryItem(queryItems.value[k], s.categories))
        && queryItems.value[j].value == Some(r.1.category)
    ensures r.1.DeeplinkCategory? ==>
      r.0.path == s.path + [CategoryPath(r.1.category, DeepLinkImage(s.popularAvatars, r.1.category, randomImage))]
    ensures !r.1.DeeplinkCategory? ==> r.0.path == s.path
  {
    match queryItems
    case None => (s, DeeplinkNoQueryItems)
    case Some(items) =>
      match FirstCategoryItem(items, s.categories)
      case None => (s, DeeplinkUnknown)
      case Some(j) =>
        var category := items[j].value.value;
        (s.(path := s.path + [CategoryPath(category, DeepLinkImage(s.popularAvatars, category, randomImage))]),
         DeeplinkCategory(category))
  }

  /** The deep link picks the first avatar of the category while the cell
      for the same category shows the last one, so the two can open the
      same category with different images. */
  lemma DeepLinkAndCellCanShowDifferentImages(s: ExploreState, randomImage: string)
    requires s.categories == ["alien"]
    requires s.popularAvatars == [
      AvatarModel("1", None, Some("alien"), None, None, Some("first.png"), None, None, None),
      AvatarModel("2", None, Some("alien"), None, None, Some("second.png"), None, None, None)]
    ensures HandleDeepLink(s, Some([QueryItem("category", Some("alien"))]), randomImage).0.path
         == s.path + [CategoryPath("alien", "first.png")]
    ensures CategoryCells(s.categories, s.popularAvatars) == [("alien", "second.png")]
  {
    assert IsCategoryItem(QueryItem("category", Some("alien")), s.categories);
  }

  // ------------------------------------------------------------ loading

  /** The two lists the screen loads. */
  datatype AvatarList = Featured | Popular

  function Other(list: AvatarList): AvatarList {
    match list
    case Featured => Popular
    case Popular => Featured
  }

  function Avatars(s: ExploreState, list: AvatarList): seq<AvatarModel> {
    match list
    case Featured => s.featuredAvatars
    case Popular => s.popularAvatars
  }

  function IsLoading(s: ExploreState, list: AvatarList): bool {
    match list
    case Featured => s.isLoadingFeatured
    case Popular => s.isLoadingPopular
  }

  /** Sets one list's avatars and loading flag. */
  function WithList(s: ExploreState, list: AvatarList, avatars: seq<AvatarModel>, loading: bool): (r: ExploreState)
    ensures Avatars(r, list) == avatars && IsLoading(r, list) == loading
    ensures Avatars(r, Other(list)) == Avatars(s, Other(list)) && IsLoading(r, Other(list)) == IsLoading(s, Other(list))
    ensures r.(featuredAvatars := s.featuredAvatars, popularAvatars := s.popularAvatars,
               isLoadingFeatured := s.isLoadingFeatured, isLoadingPopular := s.isLoadingPopular) == s
  {
    match list
    case Featured => s.(featuredAvatars := avatars, isLoadingFeatured := loading)
    case Popular => s.(popularAvatars := avatars, isLoadingPopular := loading)
  }

  /** The analytics events of the two loads. */
  datatype LoadEvent = LoadStart(list: AvatarList) | LoadSuccess(list: AvatarList, count: nat) | LoadFail(list: AvatarList)

  /** The `eventName` of each load event. */
  function EventName(e: LoadEvent): string {
    match e
    case LoadStart(Featured) => "ExploreView_LoadFeaturedAvatars_Start"
    case LoadSuccess(Featured, _) => "ExploreView_LoadFeaturedAvatars_Success"
    case LoadFail(Featured) => "ExploreView_LoadFeaturedAvatars_Fail"
    case LoadStart(Popular) => "ExploreView_LoadPopularAvatars_Start"
    case LoadSuccess(Popular, _) => "ExploreView_LoadPopularAvatars_Success"
    case LoadFail(Popular) => "ExploreView_LoadPopularAvatars_Fail"
  }

  /** Two load events share a name exactly when they are of the same kind
      for the same list: the name tells the lists and the outcomes apart,
      and the success count is not part of it. */
  lemma EventNamesAreDistinct(a: LoadEvent, b: LoadEvent)
    ensures EventName(a) == EventName(b)
        <==> a.list == b.list && a.LoadStart? == b.LoadStart? && a.LoadSuccess? == b.LoadSuccess?
  {
  }

  /** `loadFeaturedAvatars()` and `loadPopularAvatars()` as the source has
      them: a failed fetch is logged under the other list's failure event. */
  function LoadAvatarsAsWritten(s: ExploreState, list: AvatarList, fetched: Result<seq<AvatarModel>, Error>): (r: (ExploreState, seq<LoadEvent>))
    ensures r.0 == LoadAvatars(s, list, fetched).0
  {
    if Avatars(s, list) != [] then (s, [])
    else
      match fetched
      case Ok(avatars) => (WithList(s, list, avatars, false), [LoadStart(list), LoadSuccess(list, |avatars|)])
      case Err(_) => (WithList(s, list, [], false), [LoadStart(list), LoadFail(Other(list))])
  }

  /** A failed featured load is reported as a failed popular load, and the
      other way round. */
  lemma AsWrittenFailureNamesTheOtherList(s: ExploreState)
    requires s.featuredAvatars == [] && s.popularAvatars == []
    ensures EventName(LoadAvatarsAsWritten(s, Featured, Err(Error)).1[1]) == "ExploreView_LoadPopularAvatars_Fail"
    ensures EventName(LoadAvatarsAsWritten(s, Popular, Err(Error)).1[1]) == "ExploreView_LoadFeaturedAvatars_Fail"
  {
  }

  /** `loadFeaturedAvatars()` and `loadPopularAvatars()` with each failure
      logged under its own list. A list that already holds avatars is not
      fetched again. Otherwise the list takes the fetched avatars on success
      and stays empty on failure, and its loading flag ends false either
      way. Nothing else changes, and every event names the list loaded. */
  function LoadAvatars(s: ExploreState, list: AvatarList, fetched: Result<seq<AvatarModel>, Error>): (r: (ExploreState, seq<LoadEvent>))
    ensures Avatars(s, list) != [] ==> r == (s, [])
    ensures Avatars(s, list) == [] ==> !IsLoading(r.0, list)
    ensures Avatars(s, list) == [] ==> Avatars(r.0, list) == (if fetched.Ok? then fetched.value else [])
    ensures Avatars(r.0, Other(list)) == Avatars(s, Other(list)) && IsLoading(r.0, Other(list)) == IsLoading(s, Other(list))
    ensures r.0.(featuredAvatars := s.featuredAvatars, popularAvatars := s.popularAvatars,
                 isLoadingFeatured := s.isLoadingFeatured, isLoadingPopular := s.isLoadingPopular) == s
    ensures forall e :: e in r.1 ==> e.list == list
    ensures Avatars(s, list) == [] ==>
      |r.1| == 2 && r.1[0] == LoadStart(list) && (r.1[1].LoadFail? <==> fetched.Err?)
      && (fetched.Ok? ==> r.1[1] == LoadSuccess(list, |fetched.value|))
  {
    if Avatars(s, list) != [] then (s, [])
    else
      match fetched
      case Ok(avatars) => (WithList(s, list, avatars, false), [LoadStart(list), LoadSuccess(list, |avatars|)])
      case Err(_) => (WithList(s, list, [], false), [LoadStart(list), LoadFail(list)])
  }

  /** `onTryAgainPressed()`: both loading flags are set; nothing else
      changes until the loads run. */
  function OnTryAgainPressed(s: ExploreState): (r: ExploreState)
    ensures r.isLoadingFeatured && r.isLoadingPopular
    ensures r.(isLoadingFeatured := s.isLoadingFeatured, isLoadingPopular := s.isLoadingPopular) == s
  {
    s.(isLoadingFeatured := true, isLoadingPopular := true)
  }

  /** The retry button sits in the error view. From there, pressing it shows
      the spinner, and once both loads have run, in either order, the screen
      is in the same state, shows no spinner, and holds what was fetched. */
  lemma TryAgainFromErrorView(s: ExploreState, test: CategoryRowTestOption,
                              featured: Result<seq<AvatarModel>, Error>, popular: Result<seq<AvatarModel>, Error>)
    requires ErrorMessage in Sections(s, test)
    ensures LoadingIndicator in Sections(OnTryAgainPressed(s), test)
    ensures LoadAvatars(LoadAvatars(OnTryAgainPressed(s), Featured, featured).0, Popular, popular).0
         == LoadAvatars(LoadAvatars(OnTryAgainPressed(s), Popular, popular).0, Featured, featured).0
    ensures LoadingIndicator !in Sections(LoadAvatars(LoadAvatars(OnTryAgainPressed(s), Featured, featured).0, Popular, popular).0, test)
  {
  }

  /** Outside the error view a retry would leave a loaded list's flag set:
      its load returns before clearing it. */
  lemma TryAgainKeepsLoadedListLoading(s: ExploreState, list: AvatarList, fetched: Result<seq<AvatarModel>, Error>)
    requires Avatars(s, list) != []
    ensures IsLoading(LoadAvatars(OnTryAgainPressed(s), list, fetched).0, list)
  {
  }

  // --------------------------------------------------------- navigation

  /** `onAvatarPressed(avatar:)`: opens a new chat with the avatar. */
  function OnAvatarPressed(s: ExploreState, avatar: AvatarModel): (r: ExploreState)
    ensures r.path == s.path + [ChatPath(avatar.avatarId, None)]
    ensures r.(path := s.path) == s
  {
    s.(path := s.path + [ChatPath(avatar.avatarId, None)])
  }

  /** `onCategoryPressed(category:imageName:)`. */
  function OnCategoryPressed(s: ExploreState, category: string, imageName: string): (r: ExploreState)
    ensures r.path == s.path + [CategoryPath(category, imageName)]
    ensures r.(path := s.path) == s
  {
    s.(path := s.path + [CategoryPath(category, imageName)])
  }

  /** Pressing a category cell opens that category with the image the cell
      shows, which belongs to the last popular avatar of the category. */
  lemma CellPressOpensItsCategory(s: ExploreState, k: nat)
    requires k < |CategoryCells(s.categories, s.popularAvatars)|
    ensures var cell := CategoryCells(s.categories, s.popularAvatars)[k];
      cell.0 in s.categories
      && LastOfCategory(s.popularAvatars, cell.0).Some?
      && OnCategoryPressed(s, cell.0, cell.1).path
         == s.path + [CategoryPath(cell.0, s.popularAvatars[LastOfCategory(s.popularAvatars, cell.0).value].profileImageName.value)]
  {
    var cell := CategoryCells(s.categories, s.popularAvatars)[k];
    assert cell in CategoryCells(s.categories, s.popularAvatars);
  }

  // -------------------------------------------------------------- flags

  /** The guard of `showCreateAccountScreenIfNeeded()` (the two-second
      delay before it is left out): the sign-up sheet opens only for an
      anonymous user in the create-account test, and nothing else changes. */
  function ShowCreateAccountScreenIfNeeded(s: ExploreState, auth: Option<UserAuthInfo>, createAccountTest: bool): (r: ExploreState)
    ensures r.showCreateAccountView <==>
      s.showCreateAccountView || (auth.Some? && auth.value.isAnonymous && createAccountTest)
    ensures r.(showCreateAccountView := s.showCreateAccountView) == s
  {
    if auth.Some? && auth.value.isAnonymous && createAccountTest then s.(showCreateAccountView := true) else s
  }

  /** `onPushNotificationPressed()`: opens the permission modal. */
  function OnPushNotificationPressed(s: ExploreState): (r: ExploreState)
    ensures r.showPushNotificationModal
    ensures r.(showPushNotificationModal := s.showPushNotificationModal) == s
  {
    s.(showPushNotificationModal := true)
  }

  /** `onCanclePushNotificationPressed()`: closes it. */
  function OnCancelPushNotificationPressed(s: ExploreState): (r: ExploreState)
    ensures !r.showPushNotificationModal
    ensures r.(showPushNotificationModal := s.showPushNotificationModal) == s
  {
    s.(showPushNotificationModal := false)
  }

  /** `onEnablePushNotificationPressed()`: closes the modal; when the
      authorization request returns, the button shows whether authorization
      can still be requested. A request that throws ends the `Task` before
      that. */
  function OnEnablePushNotificationPressed(s: ExploreState, authorized: Result<bool, Error>, canRequestAuthorization: bool): (r: ExploreState)
    ensures !r.showPushNotificationModal
    ensures r.showNotificationButton == (if authorized.Ok? then canRequestAuthorization else s.showNotificationButton)
    ensures r.(showPushNotificationModal := s.showPushNotificationModal, showNotificationButton := s.showNotificationButton) == s
  {
    var closed := s.(showPushNotificationModal := false);
    if authorized.Ok? then closed.(showNotificationButton := canRequestAuthorization) else closed
  }

  /** Opening the modal and cancelling it returns to the state before, but
      with the modal closed. */
  lemma PushModalRoundTrip(s: ExploreState)
    ensures OnCancelPushNotificationPressed(OnPushNotificationPressed(s)) == s.(showPushNotificationModal := false)
    ensures OnCancelPushNotificationPressed(OnPushNotificationPressed(s)) == OnCancelPushNotificationPressed(s)
  {
  }

  /** `onDevSettingPressed()`. */
  function OnDevSettingPressed(s: ExploreState): (r: ExploreState)
    ensures r.showDevSetting
    ensures r.(showDevSetting := s.showDevSetting) == s
  {
    s.(showDevSetting := true)
  }
}
