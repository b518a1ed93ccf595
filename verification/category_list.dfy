/** A category's avatar list (`CategoryListViewModel`). */
module CategoryList {
  import opened Wrappers
  import opened Avatar
  import opened Routing

  /** `showAlert` is kept as whether an alert is up. */
  datatype CategoryListState = CategoryListState(avatars: seq<AvatarModel>, isLoading: bool, showAlert: bool)

  /** A new view model: no avatars, loading, no alert. */
  const Initial: CategoryListState := CategoryListState([], true, false)

  /** `loadAvatars(category:)`: the avatars of the category on success; on
      failure the list is left as it was and an alert is raised. Loading
      ends either way. */
  function LoadAvatars(s: CategoryListState, category: string,
                       getAvatarsForCategory: string -> Result<seq<AvatarModel>, Error>): (r: CategoryListState)
    ensures !r.isLoading
    ensures getAvatarsForCategory(category).Ok? ==>
      r.avatars == getAvatarsForCategory(category).value && r.showAlert == s.showAlert
    ensures getAvatarsForCategory(category).Err? ==> r.avatars == s.avatars && r.showAlert
  {
    match getAvatarsForCategory(category)
    case Ok(avatars) => s.(avatars := avatars, isLoading := false)
    case Err(_) => s.(showAlert := true, isLoading := false)
  }

  /** From a fresh screen, a load either shows the fetched avatars with no
      alert or shows no avatars and an alert, and it is never still loading. */
  lemma FirstLoadShowsAvatarsOrAlert(category: string, getAvatarsForCategory: string -> Result<seq<AvatarModel>, Error>)
    ensures var r := LoadAvatars(Initial, category, getAvatarsForCategory);
      !r.isLoading && (r.showAlert <==> getAvatarsForCategory(category).Err?)
      && (r.showAlert ==> r.avatars == [])
  {
  }

  /** `onAvatarPressed(avatar:path:)`: opens a new chat with the avatar on
      the path it is handed. */
  function OnAvatarPressed(path: seq<TabbarPathOption>, avatar: AvatarModel): (r: seq<TabbarPathOption>)
    ensures |r| == |path| + 1 && r[..|path|] == path
    ensures r[|path|] == ChatPath(avatar.avatarId, None)
  {
    path + [ChatPath(avatar.avatarId, None)]
  }
}
