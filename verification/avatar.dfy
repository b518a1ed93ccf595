/** `AvatarModel`: an AI character, its constructor for a freshly created
    avatar, the one mutation it allows, and its analytics parameters.

    `CharacterOption`, `CharacterAction` and `CharacterLocation` are `String`
    raw-value enums; the model keeps their raw values. */
module Avatar {
  import opened Wrappers
  import opened EventParams

  datatype AvatarModel = AvatarModel(
    avatarId: string,
    name: Option<string>,
    characterOption: Option<string>,
    characterAction: Option<string>,
    characterLocation: Option<string>,
    profileImageName: Option<string>,
    authorId: Option<string>,
    dateCreated: Option<int>,
    clickCount: Option<int>)
  {
    /** `id`, for `Identifiable`. */
    function Id(): string {
      avatarId
    }
  }

  datatype CodingKey =
    | AvatarIdKey | NameKey | CharacterOptionKey | CharacterActionKey | CharacterLocationKey
    | ProfileImageNameKey | AuthorIdKey | DateCreatedKey | ClickCountKey

  /** The stored name of each field. */
  function RawValue(k: CodingKey): string {
    match k
    case AvatarIdKey => "avatar_id"
    case NameKey => "name"
    case CharacterOptionKey => "character_option"
    case CharacterActionKey => "character_action"
    case CharacterLocationKey => "character_location"
    case ProfileImageNameKey => "profile_image_name"
    case AuthorIdKey => "author_id"
    case DateCreatedKey => "date_created"
    case ClickCountKey => "click_count"
  }

  /** No two fields share a stored name, so decoding can tell them apart. */
  lemma RawValueIsInjective(a: CodingKey, b: CodingKey)
    requires RawValue(a) == RawValue(b)
    ensures a == b
  {
  }

  /** The lines of the `eventParameters` literal, in source order. */
  function Entries(a: AvatarModel): (r: seq<Entry>)
    ensures DistinctKeys(r)
  {
    [ (RawValue(AvatarIdKey), Some(Text(a.avatarId))),
      (RawValue(NameKey), Lift(a.name)),
      (RawValue(CharacterOptionKey), Lift(a.characterOption)),
      (RawValue(CharacterActionKey), Lift(a.characterAction)),
      (RawValue(CharacterLocationKey), Lift(a.characterLocation)),
      (RawValue(ProfileImageNameKey), Lift(a.profileImageName)),
      (RawValue(AuthorIdKey), Lift(a.authorId)),
      (RawValue(DateCreatedKey), LiftInstant(a.dateCreated)),
      (RawValue(ClickCountKey), LiftCount(a.clickCount)) ]
  }

  /** The analytics key of a field. */
  function Key(k: CodingKey): string {
    "avatar_" + RawValue(k)
  }

  /** Every key the literal can produce is the key of one of the fields. */
  lemma KeysAreFieldKeys(a: AvatarModel, s: string)
    requires s in KeySet("avatar_", Entries(a))
    ensures exists c :: s == Key(c)
  {
    var e := Entries(a);
    KeySetMembers("avatar_", e, s);
    var i :| 0 <= i < |e| && s == "avatar_" + e[i].0;
    var c := [AvatarIdKey, NameKey, CharacterOptionKey, CharacterActionKey, CharacterLocationKey,
              ProfileImageNameKey, AuthorIdKey, DateCreatedKey, ClickCountKey][i];
    assert s == Key(c);
  }

  /** `eventParameters`: the id always, every other field under its key when
      it is not nil. */
  function EventParameters(a: AvatarModel): (r: map<string, Value>)
    ensures Reports(r, Key(AvatarIdKey), Some(Text(a.avatarId)))
    ensures Reports(r, Key(NameKey), Lift(a.name))
    ensures Reports(r, Key(CharacterOptionKey), Lift(a.characterOption))
    ensures Reports(r, Key(CharacterActionKey), Lift(a.characterAction))
    ensures Reports(r, Key(CharacterLocationKey), Lift(a.characterLocation))
    ensures Reports(r, Key(ProfileImageNameKey), Lift(a.profileImageName))
    ensures Reports(r, Key(AuthorIdKey), Lift(a.authorId))
    ensures Reports(r, Key(DateCreatedKey), LiftInstant(a.dateCreated))
    ensures Reports(r, Key(ClickCountKey), LiftCount(a.clickCount))
    ensures forall s :: s in r ==> exists c :: s == Key(c)
  {
    var e := Entries(a);
    var r := Build("avatar_", e);
    assert Reports(r, "avatar_" + e[0].0, e[0].1);
    assert Reports(r, "avatar_" + e[1].0, e[1].1);
    assert Reports(r, "avatar_" + e[2].0, e[2].1);
    assert Reports(r, "avatar_" + e[3].0, e[3].1);
    assert Reports(r, "avatar_" + e[4].0, e[4].1);
    assert Reports(r, "avatar_" + e[5].0, e[5].1);
    assert Reports(r, "avatar_" + e[6].0, e[6].1);
    assert Reports(r, "avatar_" + e[7].0, e[7].1);
    assert Reports(r, "avatar_" + e[8].0, e[8].1);
    forall s | s in r
      ensures exists c :: s == Key(c)
    {
      KeysAreFieldKeys(a, s);
    }
    r
  }

  /** `newAvatar(name:option:action:location:authorId:)`. The fresh UUID and
      the current time are parameters. */
  function NewAvatar(name: string, option: string, action: string, location: string, authorId: string,
                     uuid: string, now: int): (r: AvatarModel)
    ensures r.Id() == uuid
    ensures r.name == Some(name) && r.authorId == Some(authorId) && r.dateCreated == Some(now)
    ensures r.characterOption == Some(option) && r.characterAction == Some(action) && r.characterLocation == Some(location)
    ensures r.profileImageName == None
    ensures r.clickCount == Some(0)
  {
    AvatarModel(uuid, Some(name), Some(option), Some(action), Some(location), None, Some(authorId), Some(now), Some(0))
  }

  /** `updateProfileImage(imageName:)`: sets the image and nothing else. */
  function UpdateProfileImage(a: AvatarModel, imageName: string): (r: AvatarModel)
    ensures r.profileImageName == Some(imageName)
    ensures r.(profileImageName := a.profileImageName) == a
  {
    a.(profileImageName := Some(imageName))
  }

  /** The last image set wins. */
  lemma UpdateProfileImageLastWins(a: AvatarModel, first: string, second: string)
    ensures UpdateProfileImage(UpdateProfileImage(a, first), second) == UpdateProfileImage(a, second)
  {
  }

  /** Setting the image changes the analytics parameters at the image key
      and nowhere else. */
  lemma UpdateProfileImageReportsOnlyTheImage(a: AvatarModel, imageName: string)
    ensures EventParameters(UpdateProfileImage(a, imageName))
         == EventParameters(a)[Key(ProfileImageNameKey) := Text(imageName)]
  {
    BuildChangeOne("avatar_", Entries(a), Entries(UpdateProfileImage(a, imageName)), 5);
  }

  /** A new avatar reports every field but the image, which it does not have yet. */
  lemma NewAvatarHasNoImageParameter(name: string, option: string, action: string, location: string,
                                     authorId: string, uuid: string, now: int)
    ensures Key(ProfileImageNameKey) !in EventParameters(NewAvatar(name, option, action, location, authorId, uuid, now))
    ensures EventParameters(NewAvatar(name, option, action, location, authorId, uuid, now))[Key(ClickCountKey)] == Count(0)
  {
  }
}
