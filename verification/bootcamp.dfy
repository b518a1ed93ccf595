/** The architecture bootcamp: a `DataManager` and a `UserManager` registered
    in a dependency container, a `CoreInteractor` that resolves both, and two
    view models that load through it.

    The bootcamp declares its own `DependencyContainer`, identical to the
    app's, so the generic container module serves for both. */
module Bootcamp {
  import opened Wrappers
  import DC = DependencyContainer

  datatype Product = Product(id: string, title: string)

  /** `DataService`: what its `getProducts()` call produces. */
  datatype DataService = DataService(products: Result<seq<Product>, Error>)

  datatype DataManager = DataManager(service: DataService)

  /** `getProducts()` hands the call to the service. */
  function GetProducts(d: DataManager): (r: Result<seq<Product>, Error>)
    ensures r == d.service.products
  {
    d.service.products
  }

  /** `getMovies()` never fails and always lists "MovieA". */
  function GetMovies(d: DataManager): (r: Result<seq<string>, Error>)
    ensures r == Ok(["MovieA"])
  {
    Ok(["MovieA"])
  }

  datatype UserManager = UserManager

  /** `getUser()` never fails and returns the empty string. */
  function GetUser(u: UserManager): (r: Result<string, Error>)
    ensures r == Ok("")
  {
    Ok("")
  }

  /** What the container stores: either kind of manager. */
  datatype Service = DataManagerService(dataManager: DataManager) | UserManagerService(userManager: UserManager)

  const DataManagerTypeName: string := "DataManager"
  const UserManagerTypeName: string := "UserManager"

  /** `as? DataManager`. */
  function AsDataManager(s: Service): (r: Option<DataManager>)
    ensures r.Some? <==> s.DataManagerService?
    ensures r.Some? ==> s == DataManagerService(r.value)
  {
    match s
    case DataManagerService(d) => Some(d)
    case UserManagerService(_) => None
  }

  /** `as? UserManager`. */
  function AsUserManager(s: Service): (r: Option<UserManager>)
    ensures r.Some? <==> s.UserManagerService?
  {
    match s
    case UserManagerService(u) => Some(u)
    case DataManagerService(_) => None
  }

  datatype CoreInteractor = CoreInteractor(dataManager: DataManager, userManager: UserManager)

  /** `init(container:)`: both managers are force-unwrapped out of the
      container, so a missing or mistyped registration crashes, which is
      `None` here. */
  function NewCoreInteractor(c: DC.Container<Service>): (r: Option<CoreInteractor>)
    ensures r.Some? <==> (DC.Resolve(c, DataManagerTypeName, AsDataManager).Some?
                          && DC.Resolve(c, UserManagerTypeName, AsUserManager).Some?)
    ensures r.Some? ==> Some(r.value.dataManager) == DC.Resolve(c, DataManagerTypeName, AsDataManager)
  {
    match (DC.Resolve(c, DataManagerTypeName, AsDataManager), DC.Resolve(c, UserManagerTypeName, AsUserManager))
    case (Some(d), Some(u)) => Some(CoreInteractor(d, u))
    case _ => None
  }

  /** `ContentViewModelInteractor` and `HomeViewModelInteractor`: the outcomes
      of the calls a view model makes. */
  datatype ContentInteractor = ContentInteractor(user: Result<string, Error>, products: Result<seq<Product>, Error>)
  datatype HomeInteractor = HomeInteractor(user: Result<string, Error>, movies: Result<seq<string>, Error>)

  /** The `CoreInteractor` conformances: every call goes to its manager. */
  function AsContentInteractor(i: CoreInteractor): (r: ContentInteractor)
    ensures r.user == Ok("") && r.products == i.dataManager.service.products
  {
    ContentInteractor(GetUser(i.userManager), GetProducts(i.dataManager))
  }

  function AsHomeInteractor(i: CoreInteractor): (r: HomeInteractor)
    ensures r.user == Ok("") && r.movies == Ok(["MovieA"])
  {
    HomeInteractor(GetUser(i.userManager), GetMovies(i.dataManager))
  }

  /** `ContentViewModel.loadData()`: the user is fetched first and its result
      dropped; the products are then fetched and stored. Any failure is
      swallowed and leaves the products as they were. */
  function LoadProducts(products: seq<Product>, i: ContentInteractor): (r: seq<Product>)
    ensures i.user.Ok? && i.products.Ok? ==> r == i.products.value
    ensures i.user.Err? || i.products.Err? ==> r == products
  {
    match i.user
    case Err(_) => products
    case Ok(_) =>
      match i.products
      case Err(_) => products
      case Ok(p) => p
  }

  /** `HomeViewModel.loadData()`, the same shape for movies. */
  function LoadMovies(movies: seq<string>, i: HomeInteractor): (r: seq<string>)
    ensures i.user.Ok? && i.movies.Ok? ==> r == i.movies.value
    ensures i.user.Err? || i.movies.Err? ==> r == movies
  {
    match i.user
    case Err(_) => movies
    case Ok(_) =>
      match i.movies
      case Err(_) => movies
      case Ok(m) => m
  }

  /** The preview's wiring: both managers registered under their type names. */
  function PreviewContainer(service: DataService): (r: DC.Container<Service>)
    ensures DC.Resolve(r, DataManagerTypeName, AsDataManager) == Some(DataManager(service))
    ensures DC.Resolve(r, UserManagerTypeName, AsUserManager) == Some(UserManager)
  {
    DC.Register(DC.Register(DC.Empty(), DataManagerTypeName, DataManagerService(DataManager(service))),
                UserManagerTypeName, UserManagerService(UserManager))
  }

  /** Wired as in the preview, the interactor is built, the content screen
      ends with whatever the data service gives (or keeps its products when
      the service fails), and the home screen always shows ["MovieA"]. */
  lemma PreviewLoads(service: DataService, products: seq<Product>, movies: seq<string>)
    ensures NewCoreInteractor(PreviewContainer(service)).Some?
    ensures LoadProducts(products, AsContentInteractor(NewCoreInteractor(PreviewContainer(service)).value))
         == (if service.products.Ok? then service.products.value else products)
    ensures LoadMovies(movies, AsHomeInteractor(NewCoreInteractor(PreviewContainer(service)).value)) == ["MovieA"]
  {
    var c := PreviewContainer(service);
    DC.RegisterIsLocal(DC.Register(DC.Empty(), DataManagerTypeName, DataManagerService(DataManager(service))),
                       UserManagerTypeName, DataManagerTypeName, UserManagerService(UserManager), AsDataManager);
  }

  /** Registering a user manager under the data manager's type name makes the
      interactor crash, whatever else the container holds. When the user
      manager's own name still resolves, the failed `as? DataManager` cast is
      the only cause. */
  lemma MistypedRegistrationCrashes(c: DC.Container<Service>, u: UserManager)
    ensures NewCoreInteractor(DC.Register(c, DataManagerTypeName, UserManagerService(u))).None?
    ensures DC.Resolve(c, UserManagerTypeName, AsUserManager).Some?
            ==> DC.Resolve(DC.Register(c, DataManagerTypeName, UserManagerService(u)), UserManagerTypeName, AsUserManager).Some?
  {
  }

  /** The preview's wiring with the data manager's slot mistyped: the user
      manager is registered under both names, and the interactor crashes. */
  lemma MistypedPreviewCrashes(u: UserManager)
    ensures var c := DC.Register(DC.Register(DC.Empty(), DataManagerTypeName, UserManagerService(u)),
                                 UserManagerTypeName, UserManagerService(u));
            DC.Resolve(c, UserManagerTypeName, AsUserManager) == Some(u)
            && NewCoreInteractor(c).None?
  {
  }
}
