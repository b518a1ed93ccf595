/** The destinations pushed onto the two navigation stacks: the tab bar's
    (`TabbarPathOption`) and the onboarding flow's (`OnBoardingPathOption`). */
module Routing {
  import opened Wrappers
  import opened Chat

  /** `TabbarPathOption`. A category is kept as its raw value. */
  datatype TabbarPathOption =
    | ChatPath(avatarId: string, chat: Option<ChatModel>)
    | CategoryPath(category: string, imageName: string)

  /** A SwiftUI `Color`: one of the standard named colours (`.red` to
      `.white`), or any other colour, such as `.primary` or one built from
      components, kept by name. */
  datatype Color =
    | Red | Green | Orange | Blue | Mint | Purple | Cyan | Teal | Indigo
    | Yellow | Pink | Brown | Gray | Black | White
    | OtherColor(name: string)

  /** `OnBoardingPathOption`. */
  datatype OnBoardingPathOption =
    | ColorView
    | CommunityView
    | IntroView
    | CompletedView(selectedColor: Color)
}
