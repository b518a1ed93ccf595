/** The create-avatar screen (`CreateAvatarViewModel`): generate a picture
    from the chosen character, then save the avatar under a validated name.

    A generated `UIImage` is kept as an identifier. `AvatarDescriptionBuidlder`
    is not part of this model: the prompt it builds from the option, action
    and location is a parameter. */
module CreateAvatar {
  import opened Wrappers
  import opened Avatar
  import opened TextValidation

  /** A generated picture. */
  type Image = string

  /** `showAlert` is kept as whether an alert is up. */
  datatype CreateAvatarState = CreateAvatarState(
    isGenerating: bool,
    generatedImage: Option<Image>,
    isSaving: bool,
    characterOption: string,
    characterAction: string,
    characterLocation: string,
    showAlert: bool,
    avatarName: string)

  /** A new view model. The three character enums' defaults are not part of
      this model and are given. */
  function Initial(defaultOption: string, defaultAction: string, defaultLocation: string): (r: CreateAvatarState)
    ensures r.avatarName == "" && !r.showAlert && !r.isGenerating
    ensures forall authId, createAvatar, uuid, now ::
      OnSavePressed(r, authId, createAvatar, uuid, now) == SaveEffects(r, false, None, false)
  {
    CreateAvatarState(false, None, false, defaultOption, defaultAction, defaultLocation, false, "")
  }

  /** The synchronous part of `onGeneratingImagePressed()`. */
  function StartGenerating(s: CreateAvatarState): (r: CreateAvatarState)
    ensures r.isGenerating
    ensures r.(isGenerating := s.isGenerating) == s
  {
    s.(isGenerating := true)
  }

  /** The `Task` that `onGeneratingImagePressed()` starts: the image replaces the
      previous one only when generation succeeds, and generating ends either
      way. */
  function FinishGenerating(s: CreateAvatarState, generated: Result<Image, Error>): (r: CreateAvatarState)
    ensures !r.isGenerating
    ensures generated.Ok? ==> r.generatedImage == Some(generated.value)
    ensures generated.Err? ==> r.generatedImage == s.generatedImage
    ensures r.(isGenerating := s.isGenerating, generatedImage := s.generatedImage) == s
  {
    match generated
    case Ok(image) => s.(generatedImage := Some(image), isGenerating := false)
    case Err(_) => s.(isGenerating := false)
  }

  /** `onGeneratingImagePressed()` from press to completion: the prompt is
      built from the chosen character, and the screen is generating in
      between. */
  lemma GeneratingRunsThenEnds(s: CreateAvatarState, describe: (string, string, string) -> string,
                               generateImage: string -> Result<Image, Error>)
    ensures StartGenerating(s).isGenerating
    ensures var r := FinishGenerating(StartGenerating(s),
                                      generateImage(describe(s.characterOption, s.characterAction, s.characterLocation)));
      !r.isGenerating
      && (r.generatedImage != s.generatedImage ==>
            generateImage(describe(s.characterOption, s.characterAction, s.characterLocation)).Ok?)
  {
  }

  /** What a press of Save did besides changing the screen: whether the
      signed-in user's id was asked for, the avatar and image handed to
      `createAvatar`, and whether the screen was dismissed. */
  datatype SaveEffects = SaveEffects(
    state: CreateAvatarState,
    askedForAuthId: bool,
    created: Option<(AvatarModel, Image)>,
    dismissed: bool)

  /** The minimum name length the save enforces. */
  const MinimumNameLength: int := 3

  /** `onSavePressed(onDismiss:)`, from press to the end of its task: without
      a generated image nothing happens. Otherwise the name is validated,
      the user's id read, the avatar built with `newAvatar` and handed to
      `createAvatar` with the image; success dismisses the screen and any
      failure raises an alert instead. Saving ends on every path. The fresh
      UUID and the current time are parameters. */
  function OnSavePressed(s: CreateAvatarState, authId: Result<string, Error>,
                         createAvatar: (AvatarModel, Image) -> Outcome<Error>,
                         uuid: string, now: int): (r: SaveEffects)
    ensures s.generatedImage.None? ==> r == SaveEffects(s, false, None, false)
    ensures s.generatedImage.Some? ==> !r.state.isSaving
    ensures r.askedForAuthId <==> s.generatedImage.Some? && CheckIfTextIsValid(s.avatarName, MinimumNameLength).Pass?
    ensures r.created.Some? <==> r.askedForAuthId && authId.Ok?
    ensures r.created.Some? ==>
      r.created.value == (NewAvatar(s.avatarName, s.characterOption, s.characterAction, s.characterLocation,
                                    authId.value, uuid, now),
                          s.generatedImage.value)
    ensures r.dismissed <==> r.created.Some? && createAvatar(r.created.value.0, r.created.value.1).Pass?
    ensures r.state.showAlert <==> s.showAlert || (s.generatedImage.Some? && !r.dismissed)
    ensures r.state.(isSaving := s.isSaving, showAlert := s.showAlert) == s
  {
    match s.generatedImage
    case None => SaveEffects(s, false, None, false)
    case Some(image) =>
      var failed := s.(showAlert := true, isSaving := false);
      if CheckIfTextIsValid(s.avatarName, MinimumNameLength).Fail? then SaveEffects(failed, false, None, false)
      else
        match authId
        case Err(_) => SaveEffects(failed, true, None, false)
        case Ok(uid) =>
          var avatar := NewAvatar(s.avatarName, s.characterOption, s.characterAction, s.characterLocation, uid, uuid, now);
          match createAvatar(avatar, image)
          case Pass => SaveEffects(s.(isSaving := false), true, Some((avatar, image)), true)
          case Fail(_) => SaveEffects(failed, true, Some((avatar, image)), false)
  }

  /** The screen closes exactly when every step succeeds, and what is saved
      is a new avatar of the signed-in user with no image name yet. */
  lemma SaveDismissesIffEveryStepSucceeds(s: CreateAvatarState, authId: Result<string, Error>,
                                          createAvatar: (AvatarModel, Image) -> Outcome<Error>,
                                          uuid: string, now: int)
    ensures var r := OnSavePressed(s, authId, createAvatar, uuid, now);
      r.dismissed <==>
        s.generatedImage.Some? && |s.avatarName| >= MinimumNameLength && Lowercased(s.avatarName) !in BadWords
        && authId.Ok?
        && createAvatar(NewAvatar(s.avatarName, s.characterOption, s.characterAction, s.characterLocation,
                                  authId.value, uuid, now), s.generatedImage.value).Pass?
    ensures var r := OnSavePressed(s, authId, createAvatar, uuid, now);
      r.created.Some? ==> r.created.value.0.authorId == Some(authId.value)
                          && r.created.value.0.profileImageName.None?
                          && r.created.value.0.Id() == uuid
  {
  }

  /** A long-enough name that lowercases to a blocked word is never saved,
      however it is capitalised, and the user is shown an alert. */
  lemma BlockedNameIsNeverSaved(s: CreateAvatarState, authId: Result<string, Error>,
                                createAvatar: (AvatarModel, Image) -> Outcome<Error>, uuid: string, now: int)
    requires s.generatedImage.Some?
    requires |s.avatarName| >= MinimumNameLength && Lowercased(s.avatarName) in BadWords
    ensures var r := OnSavePressed(s, authId, createAvatar, uuid, now);
      r.created.None? && !r.askedForAuthId && !r.dismissed && r.state.showAlert
  {
  }

  /** "Ass" is such a name. */
  lemma CapitalisedBlockedName()
    ensures |"Ass"| >= MinimumNameLength && Lowercased("Ass") in BadWords
  {
    assert Lowercased("Ass") == "ass";
  }
}
