# AIChat course app: a Dafny model of its deterministic core

The repository is an iOS chat app built with SwiftUI, written three times
over. AIChatCourse uses environment objects, AIChatCourse-MVVM uses view
models, and AIChatCourse-VIPER uses view models behind an interactor and a
router. A small ArchitectureBootcamp project sits next to them. Users talk
to AI "avatars". This model covers the parts that are logic rather than
screens or vendor SDKs:

- **Domain records.** `AvatarModel`, `UserModel`, `ChatModel`,
  `ChatMessageModel` and `ChatReportModel` with their constructors and the
  composite chat id `userId_avatarId`. Also the `eventParameters`
  dictionaries each record sends to analytics: prefixed keys, with nil
  fields dropped.
- **Helpers.**
  - text validation;
  - the `String`, `Array`, `Dictionary` and `Date` extensions, including the
    64-bit wrapping djb2 `stableHashValue`;
  - the `Binding(ifNotNil:)` lens;
  - the one-shot `onFirstAppear` latch.
- **Dependency containers.** The app's container (a map from type name to
  service) and the bootcamp's copy of it, with the bootcamp's
  `CoreInteractor` and its two view models.
- **View-model state machines.**
  - the Explore tab: section layout under the category-row A/B test, deep
    links, the two avatar loads and the push-notification modal;
  - the chat list and the chat row;
  - the category list;
  - the developer settings screen, which overrides A/B tests and rolls back
    on failure, together with the mock A/B and user stores it writes to;
  - the create-avatar screen;
  - onboarding: welcome, intro, optional community, colour, completed.

Each view model is a state record. Each handler is a pure function from the
state, plus the results of the service calls it makes, to the new state and
the effects the model tracks: analytics events where they matter, the
navigation path, alerts, and dismissal. A service call's result is an input:
a `Result`, an `Outcome`, or a function from the call's argument to one.
`try?` becomes `ToOption`. `UUID()`, `.now`, `Constants.randomImage`,
`Constants.accentColorHex` and `Color.toHex()` are parameters. Dates are
whole seconds since the reference date. An alert is a flag. A thrown error
is the single value `Error`, because which error was thrown never changes
the state.

Where the view models are written more than once (VIPER, MVVM and the
environment version), the model follows the file named in the table. The
other copies apply the same rules.

## Model

| member | source | states |
|---|---|---|
| TextValidation.Lowercased | AIChatCourse/AIChatCourse/Utilities/TextValidationHelper.swift:21 | lowercasing keeps the length and maps each character on its own |
| TextValidation.CheckIfTextIsValid | AIChatCourse/AIChatCourse/Utilities/TextValidationHelper.swift:12-24 | too short a text fails with `notEnoughCharacter` carrying the requested minimum (default 4), exactly when it is shorter; a long-enough text fails with `hasBadWords` exactly when its lowercase form is in the blocklist; otherwise it passes |
| TextValidation.BadWordsAreShort | AIChatCourse/AIChatCourse/Utilities/TextValidationHelper.swift:17-23 | a worked example of the guard order, beside CheckIfTextIsValid: with a minimum above five, the blocklist can never fire |
| TextValidation.LengthIsCheckedFirst | AIChatCourse/AIChatCourse/Utilities/TextValidationHelper.swift:13-23 | with the default minimum, "ass" fails for its length and not its content |
| TextValidation.BlocklistIsWholeStringAndCaseInsensitive | AIChatCourse/AIChatCourse/Utilities/TextValidationHelper.swift:17-23 | with a minimum of 3, "ASS" is blocked and "class" passes: the blocklist compares the whole lowercased string |
| StringExt.Clipped | AIChatCourse/AIChatCourse/Extensions/String+EXT.swift:38-40 | for a non-negative limit n, the result is a prefix of the string, of length min(n, count) |
| StringExt.ClippedIsIdempotent | AIChatCourse/AIChatCourse/Extensions/String+EXT.swift:38-40 | clipping twice equals clipping once |
| StringExt.ClippedUnchangedIff | AIChatCourse/AIChatCourse/Extensions/String+EXT.swift:38-40 | clipping leaves a string unchanged exactly when it is no longer than the limit |
| StringExt.ReplaceSpacesWithUnderscores | AIChatCourse/AIChatCourse/Extensions/String+EXT.swift:42-44 | the length is kept, no space is left, each space becomes "_" and every other character stays in place |
| StringExt.ReplaceSpacesFixesSpaceFreeStrings | AIChatCourse/AIChatCourse/Extensions/String+EXT.swift:42-44 | the replacement changes nothing exactly when the string has no space, so it is idempotent |
| StringExt.Wrap64 | AIChatCourse/AIChatCourse/Extensions/String+EXT.swift:51 | the wrapping operators leave a signed 64-bit value congruent to the exact one modulo 2^64 |
| StringExt.HashStepIsWrappedMultiplyAdd | AIChatCourse/AIChatCourse/Extensions/String+EXT.swift:51 | one step `(h << 5) &+ h &+ c` equals 33·h + c wrapped to 64 bits |
| StringExt.StableHashValueIsWrappedDjb2 | AIChatCourse/AIChatCourse/Extensions/String+EXT.swift:49-52 | the hash is the unwrapped djb2 polynomial reduced once to a signed 64-bit value; "" hashes to 5381 |
| StringExt.StableHashValue | AIChatCourse/AIChatCourse/Extensions/String+EXT.swift:49-52 | the hash is always a signed 64-bit `Int`: the wrapping operators never trap |
| StringExt.StableHashValueAppend | AIChatCourse/AIChatCourse/Extensions/String+EXT.swift:51 | appending a scalar advances the hash by one wrapping multiply-by-33-and-add |
| StringExt.ConvertToString | AIChatCourse/AIChatCourse/Extensions/String+EXT.swift:11-32 | a string converts to itself; an array converts to some ordering of its convertible elements' texts, nil ones dropped, sorted by string `<` and joined with ", " (`Join`, the model of `joined(separator:)`) |
| StringExt.CompactConvertPermutation | AIChatCourse/AIChatCourse/Extensions/String+EXT.swift:26 | dropping the elements that do not convert commutes with permuting the input, as multisets |
| StringExt.ArrayConversionIgnoresOrder | AIChatCourse/AIChatCourse/Extensions/String+EXT.swift:25-26 | an array's text does not depend on the order of its elements |
| Orderings.StringLessIsStrictTotalOrder | AIChatCourse/AIChatCourse/Extensions/String+EXT.swift:26 | the model's string order, lexicographic on Unicode scalars, is irreflexive, transitive and total on distinct strings, so in the model `sorted()` has one answer |
| Orderings.IntLessIsStrictTotalOrder | AIChatCourse-VIPER/AIChatCourse/Core/Chats/ChatsViewModel.swift:53 | `<` on dates (whole seconds) is a strict total order |
| ArrayExt.KeyedBeforeIsStrictOrder | AIChatCourse/AIChatCourse/Extensions/Array+EXT.swift:22-26 | comparing by key, ascending or descending, is a valid `sort(by:)` comparator whenever the key's `<` is |
| ArrayExt.SortWith | AIChatCourse-MVVM/AIChatCourse/Services/Chat/Models/ChatMessageModel.swift:49 | sorting returns a permutation of the input, ordered by the comparator |
| ArrayExt.SortedByKeyPath | AIChatCourse/AIChatCourse/Extensions/Array+EXT.swift:21-27 | the result is a permutation of the input, non-decreasing by key when ascending (the default) and non-increasing otherwise; arrays of at most one element come back unchanged |
| ArrayExt.SortByKeyPath | AIChatCourse/AIChatCourse/Extensions/Array+EXT.swift:12-18 | the in-place sort leaves a permutation with the same ordering guarantee |
| ArrayExt.SortedWithUnique | AIChatCourse/AIChatCourse/Extensions/Array+EXT.swift:21-27 | under a strict total order, two sorted permutations of the same elements are equal |
| ArrayExt.SortWithForgetsOrder | AIChatCourse/AIChatCourse/Extensions/String+EXT.swift:26 | sorting permutations of the same elements gives the same array |
| DictExt.Merge | AIChatCourse/AIChatCourse/Extensions/Dict+EXT.swift:30-35 | merging nil changes nothing; otherwise the keys are the union, unshared keys keep their values, and a shared key keeps the existing value unless `conflictTakeExisting` is false |
| DictExt.MergeIsIdempotent | AIChatCourse/AIChatCourse/Extensions/Dict+EXT.swift:30-35 | merging the same dictionary a second time changes nothing |
| DictExt.MergeDirectionsAreMirrors | AIChatCourse/AIChatCourse/Extensions/Dict+EXT.swift:32-34 | m merged with o keeping existing values equals o merged with m taking new values |
| DictExt.WalkRemovingAfter | AIChatCourse/AIChatCourse/Extensions/Dict+EXT.swift:17-24 | walking the keys in iteration order and removing every key after the first `maxItems` keeps exactly those first keys, with their values |
| DictExt.FirstUpTo | AIChatCourse/AIChatCourse/Extensions/Dict+EXT.swift:16-25 | `first(upTo:)` keeps min(count, max(k, 0)) original entries, the first in iteration order, and changes nothing when k ≥ count |
| DictExt.FirstUpToSize | AIChatCourse/AIChatCourse/Extensions/Dict+EXT.swift:16-25 | keeping the first k keys of an enumeration leaves min(count, max(k, 0)) entries, and all of them when k ≥ count |
| DictExt.Entries | AIChatCourse/AIChatCourse/Extensions/Dict+EXT.swift:11 | mapping a dictionary to pairs gives one pair per entry, with distinct keys and the entry's value |
| DictExt.SortedEntries | AIChatCourse/AIChatCourse/Extensions/Dict+EXT.swift:11 | sorting such pairs by key lists every entry exactly once, keys strictly increasing |
| DictExt.AsAlphabeticallyArray | AIChatCourse/AIChatCourse/Extensions/Dict+EXT.swift:10-12 | the array holds exactly the dictionary's pairs, keys strictly increasing |
| BindingExt.Get | AIChatCourse-VIPER/AIChatCourse/Extensions/Binding+EXT.swift:13-14 | the flag reads true exactly when the optional holds a value |
| BindingExt.Set | AIChatCourse-VIPER/AIChatCourse/Extensions/Binding+EXT.swift:15-18 | writing false clears the optional; writing true leaves it as it was |
| BindingExt.SetWhatWasRead | AIChatCourse-VIPER/AIChatCourse/Extensions/Binding+EXT.swift:12-20 | writing back the value read changes nothing |
| BindingExt.ReadAfterWrite | AIChatCourse-VIPER/AIChatCourse/Extensions/Binding+EXT.swift:12-20 | after a write, the flag reads true only if true was written onto a present value; false always reads back |
| BindingExt.LastWriteDecides | AIChatCourse-VIPER/AIChatCourse/Extensions/Binding+EXT.swift:15-18 | of two writes the second decides, except that a false write cannot be undone |
| FirstAppear.OnAppear | AIChatCourse/AIChatCourse/Components/ViewModifiers/OnFirstAppearViewModifier.swift:16-20 | after an appearance the latch is set, and the action ran exactly when it was not set before |
| FirstAppear.Run | AIChatCourse/AIChatCourse/Components/ViewModifiers/OnFirstAppearViewModifier.swift:11-20 | over any run of events, the latch ends set exactly when it was set or the view appeared; it never unsets, and the action runs at most once |
| FirstAppear.ActionRunsAtMostOnce | AIChatCourse/AIChatCourse/Components/ViewModifiers/OnFirstAppearViewModifier.swift:42-48 | for a fresh view (either helper installs the same modifier), the action runs once if the view ever appears and never otherwise |
| DependencyContainer.Empty | AIChatCourse-VIPER/AIChatCourse/AppRoot/DependencyContainer.swift:13 | a new container holds nothing |
| DependencyContainer.Register | AIChatCourse-VIPER/AIChatCourse/AppRoot/DependencyContainer.swift:15-18 | the service is stored under its type name; every other name keeps its service |
| DependencyContainer.RegisterFactory | AIChatCourse-VIPER/AIChatCourse/AppRoot/DependencyContainer.swift:20-23 | the closure's result is stored under the type name; every other name keeps its service |
| DependencyContainer.Resolve | AIChatCourse-VIPER/AIChatCourse/AppRoot/DependencyContainer.swift:25-28 | an unknown name resolves to nil; a known one to the stored service if it has the asked type |
| DependencyContainer.ResolveAfterRegister | AIChatCourse-VIPER/AIChatCourse/AppRoot/DependencyContainer.swift:15-28 | resolving right after registering returns the registered service |
| DependencyContainer.ResolveEmpty | AIChatCourse-VIPER/AIChatCourse/AppRoot/DependencyContainer.swift:25-28 | nothing resolves from a new container |
| DependencyContainer.RegisterIsLocal | AIChatCourse-VIPER/AIChatCourse/AppRoot/DependencyContainer.swift:16-17 | registering one name does not change what any other name resolves to |
| DependencyContainer.RegisterLastWins | AIChatCourse-VIPER/AIChatCourse/AppRoot/DependencyContainer.swift:17 | the later of two registrations under one name wins |
| DependencyContainer.RegistrationsCommute | AIChatCourse-VIPER/AIChatCourse/AppRoot/DependencyContainer.swift:15-18 | registrations under different names can happen in either order |
| DependencyContainer.FactoryIsEager | AIChatCourse-VIPER/AIChatCourse/AppRoot/DependencyContainer.swift:20-23 | registering a closure is registering its result, evaluated once |
| Bootcamp.GetProducts | ArchitectureBootcamp/ArchitectureBootcamp/Core/ContentView.swift:88-90 | the data manager passes on whatever its service produces, failure included |
| Bootcamp.GetMovies | ArchitectureBootcamp/ArchitectureBootcamp/Core/ContentView.swift:92-94 | movies never fail and are always ["MovieA"] |
| Bootcamp.GetUser | ArchitectureBootcamp/ArchitectureBootcamp/Core/ContentView.swift:73-75 | the user manager never fails and returns "" |
| Bootcamp.AsDataManager | ArchitectureBootcamp/ArchitectureBootcamp/Core/ContentView.swift:230 | `as? DataManager` succeeds exactly on a data manager, and returns it |
| Bootcamp.AsUserManager | ArchitectureBootcamp/ArchitectureBootcamp/Core/ContentView.swift:230 | `as? UserManager` succeeds exactly on a user manager |
| Bootcamp.NewCoreInteractor | ArchitectureBootcamp/ArchitectureBootcamp/Core/ContentView.swift:120-123 | the interactor exists (the force-unwraps do not trap) exactly when both managers resolve, and it holds the resolved managers |
| Bootcamp.LoadProducts | ArchitectureBootcamp/ArchitectureBootcamp/Core/ContentView.swift:149-156 | products become the fetched list when both calls succeed and stay as they were if either fails |
| Bootcamp.LoadMovies | ArchitectureBootcamp/ArchitectureBootcamp/Core/ContentView.swift:186-193 | the same rule for movies |
| Bootcamp.AsContentInteractor | ArchitectureBootcamp/ArchitectureBootcamp/Core/ContentView.swift:98-102 | through the core interactor the content screen's user call gives "" and its products call gives the data service's result |
| Bootcamp.AsHomeInteractor | ArchitectureBootcamp/ArchitectureBootcamp/Core/ContentView.swift:104-108 | through the core interactor the home screen's user call gives "" and its movies call gives ["MovieA"] |
| Bootcamp.PreviewContainer | ArchitectureBootcamp/ArchitectureBootcamp/Core/ContentView.swift:235-237 | the preview's container resolves the data manager built on the given service and the user manager |
| Bootcamp.PreviewLoads | ArchitectureBootcamp/ArchitectureBootcamp/Core/ContentView.swift:234-240 | wired as in the preview, the interactor is built, the content screen shows the service's products on success, and the home screen shows ["MovieA"] |
| Bootcamp.MistypedRegistrationCrashes | ArchitectureBootcamp/ArchitectureBootcamp/Core/ContentView.swift:120-123 | a user manager registered under the data manager's name makes the interactor trap in any container; when the user manager's own name still resolves, the failed `as? DataManager` cast is the only cause |
| Bootcamp.MistypedPreviewCrashes | ArchitectureBootcamp/ArchitectureBootcamp/Core/ContentView.swift:120-123 | with the user manager registered under both names, its own resolve succeeds and the interactor still traps |
| DateExt.OffsetSeconds | AIChatCourse-MVVM/AIChatCourse/Extensions/Date+EXT.swift:12 | when no intermediate product or sum overflows `Int`, the offset is the number of seconds in that many days, hours and minutes (60 s to a minute, 60 min to an hour, 24 h to a day), and it fits an `Int` |
| DateExt.AddingTimeInterval | AIChatCourse-MVVM/AIChatCourse/Extensions/Date+EXT.swift:11-14 | the date moves by exactly ((days·24 + hours)·60 + minutes)·60 seconds, negative components included; so non-negative components never move it back, and non-positive ones never move it forward |
| DateExt.DefaultsLeaveDateUnchanged | AIChatCourse-MVVM/AIChatCourse/Extensions/Date+EXT.swift:11-13 | with every component left at its default of 0 the date does not move |
| DateExt.UnitsAgree | AIChatCourse-MVVM/AIChatCourse/Extensions/Date+EXT.swift:12 | n days equal 24n hours wherever n days do not overflow, and n hours equal 60n minutes wherever n hours do not overflow |
| DateExt.ComponentsCompose | AIChatCourse-MVVM/AIChatCourse/Extensions/Date+EXT.swift:12 | adding days, hours and minutes together equals adding them one after another |
| DateExt.NegatedOffsetIsInverse | AIChatCourse-MVVM/AIChatCourse/Extensions/Date+EXT.swift:12 | negated components move the date back to where it started |
| DateExt.DayOverflowBoundary | AIChatCourse-MVVM/AIChatCourse/Extensions/Date+EXT.swift:12 | 106,751,991,167,300 days is the largest count whose offset does not overflow |
| EventParams.Literal | AIChatCourse/AIChatCourse/Services/Avatar/Models/AvatarModel.swift:62-72 | the `[String: Any?]` literal has exactly the prefixed coding keys, each holding its field, nil included |
| EventParams.CompactMapValues | AIChatCourse/AIChatCourse/Services/Avatar/Models/AvatarModel.swift:74 | exactly the non-nil entries survive, unwrapped |
| EventParams.Build | AIChatCourse/AIChatCourse/Services/Avatar/Models/AvatarModel.swift:61-75 | every field is reported under its prefixed key exactly when it is not nil, and no other key appears |
| EventParams.LiteralChangeOne | AIChatCourse/AIChatCourse/Services/Avatar/Models/AvatarModel.swift:62-72 | changing one field's value changes the literal at that field's key only |
| EventParams.BuildChangeOne | AIChatCourse/AIChatCourse/Services/Avatar/Models/AvatarModel.swift:61-75 | changing one field to a non-nil value changes the parameters at that key only |
| Avatar.RawValueIsInjective | AIChatCourse/AIChatCourse/Services/Avatar/Models/AvatarModel.swift:49-59 | no two fields share a coding key |
| Avatar.Entries | AIChatCourse/AIChatCourse/Services/Avatar/Models/AvatarModel.swift:62-72 | the literal's keys are distinct, so building it cannot trap |
| Avatar.KeysAreFieldKeys | AIChatCourse/AIChatCourse/Services/Avatar/Models/AvatarModel.swift:62-72 | every key of the literal is "avatar_" plus a coding key |
| Avatar.EventParameters | AIChatCourse/AIChatCourse/Services/Avatar/Models/AvatarModel.swift:61-75 | `avatar_avatar_id` is always present; every other field appears under "avatar_" plus its coding key exactly when it is not nil; there are no other keys |
| Avatar.NewAvatar | AIChatCourse/AIChatCourse/Services/Avatar/Models/AvatarModel.swift:77-89 | a new avatar has the given UUID as its id, copies the name, character, location and author, has no image and a click count of 0 |
| Avatar.UpdateProfileImage | AIChatCourse/AIChatCourse/Services/Avatar/Models/AvatarModel.swift:95-97 | the image is set and every other field is unchanged |
| Avatar.UpdateProfileImageLastWins | AIChatCourse/AIChatCourse/Services/Avatar/Models/AvatarModel.swift:95-97 | of two image updates the last wins |
| Avatar.UpdateProfileImageReportsOnlyTheImage | AIChatCourse/AIChatCourse/Services/Avatar/Models/AvatarModel.swift:61-97 | setting the image changes the analytics parameters at the image key and nowhere else |
| Avatar.NewAvatarHasNoImageParameter | AIChatCourse/AIChatCourse/Services/Avatar/Models/AvatarModel.swift:61-89 | a new avatar reports no image and a click count of 0 |
| User.FromAuth | AIChatCourse-MVVM/AIChatCourse/Services/User/Models/UserModel.swift:46-55 | the uid, email, anonymity and dates are copied from authentication, the creation version is the one given, and the onboarding fields stay nil |
| User.RawValueIsInjective | AIChatCourse-MVVM/AIChatCourse/Services/User/Models/UserModel.swift:57-66 | no two fields share a coding key |
| User.Entries | AIChatCourse-MVVM/AIChatCourse/Services/User/Models/UserModel.swift:76-85 | the literal's keys are distinct |
| User.KeysAreFieldKeys | AIChatCourse-MVVM/AIChatCourse/Services/User/Models/UserModel.swift:76-85 | every key of the literal is "user_" plus a coding key |
| User.EventParameters | AIChatCourse-MVVM/AIChatCourse/Services/User/Models/UserModel.swift:75-88 | `user_user_id` is always present; every other field appears under its key exactly when it is not nil; there are no other keys |
| User.FromAuthParameters | AIChatCourse-MVVM/AIChatCourse/Services/User/Models/UserModel.swift:46-88 | a user fresh from authentication reports its id and anonymity, and never reports onboarding or a colour |
| User.IdOnlyUserReportsOnlyItsId | AIChatCourse-MVVM/AIChatCourse/Services/User/Models/UserModel.swift:26-44 | the memberwise init (`Memberwise`) defaults every optional field to nil, so a user built from an id alone reports exactly its id |
| Chat.ChatId | AIChatCourse-VIPER/AIChatCourse/Services/Chat/Models/ChatModel.swift:27-29 | the id is the user id, then "_", then the avatar id |
| Chat.FirstUnderscore | AIChatCourse-VIPER/AIChatCourse/Services/Chat/Models/ChatModel.swift:28 | finds the first "_" in an id, or reports that there is none |
| Chat.SplitChatId | AIChatCourse-VIPER/AIChatCourse/Services/Chat/Models/ChatModel.swift:27-29 | an id splits exactly when it contains "_", and the pieces rebuild it |
| Chat.SplitChatIdRoundTrip | AIChatCourse-VIPER/AIChatCourse/Services/Chat/Models/ChatModel.swift:27-29 | for a user id without "_", the chat id gives back both ids |
| Chat.ChatIdIsAmbiguous | AIChatCourse-VIPER/AIChatCourse/Services/Chat/Models/ChatModel.swift:28 | ("a_b", "c") and ("a", "b_c") share a chat id |
| Chat.New | AIChatCourse-VIPER/AIChatCourse/Services/Chat/Models/ChatModel.swift:31-39 | a new chat's id is the composite id, the ids are stored unchanged, and both dates are now |
| Chat.NewChatIdNamesItsParties | AIChatCourse-VIPER/AIChatCourse/Services/Chat/Models/ChatModel.swift:31-39 | a new chat's id names its user and avatar, for user ids without "_" |
| Chat.Entries | AIChatCourse-VIPER/AIChatCourse/Services/Chat/Models/ChatModel.swift:42-48 | the literal's keys are distinct |
| Chat.KeysAreFieldKeys | AIChatCourse-VIPER/AIChatCourse/Services/Chat/Models/ChatModel.swift:42-48 | every key of the literal is one of the five chat keys |
| Chat.EventParameters | AIChatCourse-VIPER/AIChatCourse/Services/Chat/Models/ChatModel.swift:41-51 | exactly the five `chat_` keys are present, each with its field |
| ChatMessage.HasBeenSeenBy | AIChatCourse-MVVM/AIChatCourse/Services/Chat/Models/ChatMessageModel.swift:83-86 | false when no readers are recorded; otherwise true exactly for the recorded readers |
| ChatMessage.DateCreatedCalculated | AIChatCourse-MVVM/AIChatCourse/Services/Chat/Models/ChatMessageModel.swift:57-59 | the creation date, or the distant past when there is none |
| ChatMessage.NewUserMessage | AIChatCourse-MVVM/AIChatCourse/Services/Chat/Models/ChatMessageModel.swift:61-70 | written by the user, in the given chat, with the given content; its author, and no one else, has seen it |
| ChatMessage.NewAIMessage | AIChatCourse-MVVM/AIChatCourse/Services/Chat/Models/ChatMessageModel.swift:72-81 | written by the avatar, in the given chat, with the given content, seen by no one |
| ChatMessage.SeenByTextIgnoresOrder | AIChatCourse-MVVM/AIChatCourse/Services/Chat/Models/ChatMessageModel.swift:49 | the sorted, joined reader list does not depend on the order the readers were recorded in |
| ChatMessage.SeenByText | AIChatCourse-MVVM/AIChatCourse/Services/Chat/Models/ChatMessageModel.swift:49 | the reader text is some ordering of the recorded readers, sorted by string `<`, joined with ", " |
| ChatMessage.Entries | AIChatCourse-MVVM/AIChatCourse/Services/Chat/Models/ChatMessageModel.swift:45-51 | the literal's keys are distinct |
| ChatMessage.OwnLiteralKeys | AIChatCourse-MVVM/AIChatCourse/Services/Chat/Models/ChatMessageModel.swift:45-51 | the literal holds exactly the message's five own keys, nil or not |
| ChatMessage.EventParameters | AIChatCourse-MVVM/AIChatCourse/Services/Chat/Models/ChatMessageModel.swift:44-55 | each own field is reported under its `message_` key exactly when not nil; a content parameter appears unless its key is an own key; nothing else appears |
| ChatMessage.OwnNilFieldBlocksContentKey | AIChatCourse-MVVM/AIChatCourse/Services/Chat/Models/ChatMessageModel.swift:52-54 | a content parameter named like a nil own field is dropped, because the merge runs before nil entries are removed |
| ChatReport.RawValueIsInjective | AIChatCourse/AIChatCourse/Services/Chat/Models/ChatReportModel.swift:17-23 | no two fields share a coding key (the misspelled `dataCreated` is stored as "date_created") |
| ChatReport.New | AIChatCourse/AIChatCourse/Services/Chat/Models/ChatReportModel.swift:25-33 | a new report is active, keeps the chat and user ids, and takes its id from the UUID |
| ChatReport.NewReportsDifferByUuid | AIChatCourse/AIChatCourse/Services/Chat/Models/ChatReportModel.swift:27 | two reports of the same chat by the same user at the same time differ exactly when their UUIDs do |
| ChatRow.IsLoading | AIChatCourse-MVVM/AIChatCourse/Core/Chats/ChatRowCell/ChatRowCellViewModel.swift:73-78 | the row is loading until both loads have finished |
| ChatRow.HasNewChat | AIChatCourse-MVVM/AIChatCourse/Core/Chats/ChatRowCell/ChatRowCellViewModel.swift:80-83 | the badge shows exactly when there is a message and a user who has not seen it |
| ChatRow.Subheadline | AIChatCourse-MVVM/AIChatCourse/Core/Chats/ChatRowCell/ChatRowCellViewModel.swift:85-95 | a placeholder while loading; after loading, the error text when neither avatar nor message came back, else the message's text (nil when it has none) |
| ChatRow.LoadAvatar | AIChatCourse-MVVM/AIChatCourse/Core/Chats/ChatRowCell/ChatRowCellViewModel.swift:102-105 | the avatar fetched by the chat's avatar id, or nil on failure; the load counts as done either way, and the message side is untouched |
| ChatRow.LoadLastChatMessage | AIChatCourse-MVVM/AIChatCourse/Core/Chats/ChatRowCell/ChatRowCellViewModel.swift:107-110 | a message is kept exactly when the fetch succeeded with one; the load counts as done either way, and the avatar side is untouched |
| ChatRow.LoadsCommute | AIChatCourse-MVVM/AIChatCourse/Core/Chats/ChatRowCell/ChatRowCellViewModel.swift:102-110 | the two loads end in the same state in either order, and the row is then no longer loading |
| ChatRow.ErrorCaseIffBothLoadsCameBackEmpty | AIChatCourse-MVVM/AIChatCourse/Core/Chats/ChatRowCell/ChatRowCellViewModel.swift:90-110 | after both loads, the error text shows exactly when the avatar fetch failed and no message came back |
| ChatRow.OwnMessagesAreNeverNew | AIChatCourse-MVVM/AIChatCourse/Core/Chats/ChatRowCell/ChatRowCellViewModel.swift:80-83 | the user's own message never shows the badge; an avatar's message shows it to every user |
| ChatRow.BuilderBody | AIChatCourse/AIChatCourse/Components/Views/ChatRowCellView/ChatRowCellViewBuilder.swift:47-53 | while loading the headline is a placeholder and the badge is off; after loading they come from the avatar and the message |
| ChatRow.BuilderLoadAvatar | AIChatCourse/AIChatCourse/Components/Views/ChatRowCellView/ChatRowCellViewBuilder.swift:55-58 | the builder's first task stores the avatar and marks it loaded, leaving the message side alone |
| ChatRow.BuilderLoadLastChatMessage | AIChatCourse/AIChatCourse/Components/Views/ChatRowCellView/ChatRowCellViewBuilder.swift:59-62 | the builder's second task stores the message and marks it loaded, leaving the avatar side alone |
| ChatRow.BuilderAgreesWithViewModel | AIChatCourse/AIChatCourse/Components/Views/ChatRowCellView/ChatRowCellViewBuilder.swift:55-62 | the stand-alone builder reaches the view model's state when given what the view model's `try?` calls produce |
| ChatRow.NoBadgeWhileLoading | AIChatCourse/AIChatCourse/Components/Views/ChatRowCellView/ChatRowCellViewBuilder.swift:52 | the badge only shows after loading, and only for a message |
| ChatRow.DefaultUserIdSeesMessagesAsNew | AIChatCourse/AIChatCourse/Components/Views/ChatRowCellView/ChatRowCellViewBuilder.swift:12 | the default user id is "" rather than nil, so a loaded message shows the badge unless "" is among its readers, and always when no readers are recorded |
| ABTests.CategoryRowFromRawValue | AIChatCourse/AIChatCourse/Services/ABTests/Models/CategoryRowTestOption.swift:9-10 | parsing a raw value yields only an option with that raw value |
| ABTests.PaywallFromRawValue | AIChatCourse/AIChatCourse/Services/ABTests/Models/PaywallTestOption.swift:9-10 | parsing a raw value yields only an option with that raw value |
| ABTests.RawValuesRoundTrip | AIChatCourse/AIChatCourse/Services/ABTests/Models/CategoryRowTestOption.swift:9-10 | every option, of either test, parses back from its raw value (`CategoryRowRawValue`, `PaywallRawValue`) |
| ABTests.NewMockABTestService | AIChatCourse-MVVM/AIChatCourse/Services/ABTests/Services/MockABTestService.swift:13-25 | a given argument is kept; an omitted one defaults to false, false, `.original` and `.storeKit` |
| ABTests.SaveThenFetchRoundTrips | AIChatCourse-MVVM/AIChatCourse/Services/ABTests/Services/MockABTestService.swift:27-33 | for `SaveUpdatedConfig` and `FetchUpdatedConfig`: fetching returns what was last saved, and saving what was fetched changes nothing |
| ABTests.DefaultMockIsAllDefaults | AIChatCourse/AIChatCourse/Services/ABTests/Models/CategoryRowTestOption.swift:12-14 | a mock made without arguments holds every test's default |
| Explore.Sections | AIChatCourse-VIPER/AIChatCourse/Core/Explore/ExploreView.swift:21-46 | the spinner shows exactly while both lists are empty and one is loading, the error view exactly when both are empty and neither is loading; featured and popular show exactly when non-empty; categories show exactly when popular is non-empty and the test is not `.hidden`, and at most once |
| Explore.Initial | AIChatCourse-VIPER/AIChatCourse/Core/Explore/ExploreViewModel.swift:31-41 | a new Explore screen holds every category and an empty path, and under every category-row test shows only the spinner |
| Explore.CategoryPlacement | AIChatCourse-VIPER/AIChatCourse/Core/Explore/ExploreView.swift:32-45 | categories come above featured exactly under `.top`, and below it under `.original` when featured is shown; they always come above popular |
| Explore.FirstOfCategory | AIChatCourse-VIPER/AIChatCourse/Core/Explore/ExploreViewModel.swift:73 | finds the first avatar of a category, or reports that none has it |
| Explore.LastOfCategory | AIChatCourse-VIPER/AIChatCourse/Core/Explore/ExploreView.swift:180 | finds the last avatar of a category, or reports that none has it |
| Explore.CategoryCells | AIChatCourse-VIPER/AIChatCourse/Core/Explore/ExploreView.swift:179-189 | a category gets a cell exactly when the last popular avatar of that category has an image, and the cell shows that image |
| Explore.NoCellWithoutAvatar | AIChatCourse-VIPER/AIChatCourse/Core/Explore/ExploreView.swift:180-181 | a category with no popular avatar gets no cell |
| Explore.FirstCategoryItem | AIChatCourse-VIPER/AIChatCourse/Core/Explore/ExploreViewModel.swift:71-72 | finds the first query item named "category" whose value is a known category, or reports that there is none |
| Explore.DeepLinkImage | AIChatCourse-VIPER/AIChatCourse/Core/Explore/ExploreViewModel.swift:73 | the first popular avatar of the category supplies the image, falling back to the random image |
| Explore.HandleDeepLink | AIChatCourse-VIPER/AIChatCourse/Core/Explore/ExploreViewModel.swift:60-81 | only the path can change; with no query items, or when no item names a known category, it is unchanged; otherwise one category entry is appended for the first such item, with the deep-link image |
| Explore.DeepLinkAndCellCanShowDifferentImages | AIChatCourse-VIPER/AIChatCourse/Core/Explore/ExploreViewModel.swift:73 | with two avatars of one category, a deep link opens it with the first one's image while its cell shows the last one's |
| Explore.WithList | AIChatCourse-VIPER/AIChatCourse/Core/Explore/ExploreViewModel.swift:32-35 | setting one list and its flag leaves the other list, its flag and everything else alone |
| Explore.LoadAvatarsAsWritten | AIChatCourse-VIPER/AIChatCourse/Core/Explore/ExploreViewModel.swift:151-187 | the loads as written reach the same state as the corrected ones |
| Explore.EventNamesAreDistinct | AIChatCourse-VIPER/AIChatCourse/Core/Explore/ExploreViewModel.swift:213-218 | the six load events' `eventName` strings (`EventName`) coincide exactly for the same kind of event on the same list, so a failure logged under the other list's case is recorded under the other list's name |
| Explore.AsWrittenFailureNamesTheOtherList | AIChatCourse-VIPER/AIChatCourse/Core/Explore/ExploreViewModel.swift:162 | as written, a failed featured load is logged as a failed popular load, and the other way round (line 183) |
| Explore.LoadAvatars | AIChatCourse-VIPER/AIChatCourse/Core/Explore/ExploreViewModel.swift:151-187 | a list that holds avatars is not fetched again; otherwise it takes the fetched avatars on success and stays empty on failure, its flag ends false, nothing else changes, and exactly a start event and then a success or failure event for that list are logged |
| Explore.OnTryAgainPressed | AIChatCourse-VIPER/AIChatCourse/Core/Explore/ExploreViewModel.swift:138-140 | both loading flags are set and nothing else changes |
| Explore.TryAgainFromErrorView | AIChatCourse-VIPER/AIChatCourse/Core/Explore/ExploreViewModel.swift:138-187 | from the error view, retrying shows the spinner, and after both loads the spinner is gone whatever they return |
| Explore.TryAgainKeepsLoadedListLoading | AIChatCourse-VIPER/AIChatCourse/Core/Explore/ExploreViewModel.swift:138-176 | retrying when a list is already loaded leaves its flag set, because its load returns at the guard |
| Explore.OnAvatarPressed | AIChatCourse-VIPER/AIChatCourse/Core/Explore/ExploreViewModel.swift:107-110 | appends a new chat with the avatar to the path, and nothing else changes |
| Explore.OnCategoryPressed | AIChatCourse-VIPER/AIChatCourse/Core/Explore/ExploreViewModel.swift:112-115 | appends the category with its image to the path, and nothing else changes |
| Explore.CellPressOpensItsCategory | AIChatCourse-VIPER/AIChatCourse/Core/Explore/ExploreView.swift:186-188 | pressing a category cell opens that category with the image the cell shows |
| Explore.ShowCreateAccountScreenIfNeeded | AIChatCourse-VIPER/AIChatCourse/Core/Explore/ExploreViewModel.swift:93-99 | the create-account sheet is raised exactly when there is an anonymous user in the test, or it was already up; nothing else changes |
| Explore.OnPushNotificationPressed | AIChatCourse-VIPER/AIChatCourse/Core/Explore/ExploreViewModel.swift:133-136 | opens the permission modal and changes nothing else |
| Explore.OnCancelPushNotificationPressed | AIChatCourse-VIPER/AIChatCourse/Core/Explore/ExploreViewModel.swift:127-131 | closes the modal and changes nothing else |
| Explore.OnEnablePushNotificationPressed | AIChatCourse-VIPER/AIChatCourse/Core/Explore/ExploreViewModel.swift:118-126 | closes the modal; the notification button is refreshed only if the authorization request did not throw |
| Explore.PushModalRoundTrip | AIChatCourse-VIPER/AIChatCourse/Core/Explore/ExploreViewModel.swift:127-136 | opening the modal then cancelling it is the same as just closing it |
| Explore.OnDevSettingPressed | AIChatCourse-VIPER/AIChatCourse/Core/Explore/ExploreViewModel.swift:169-172 | opens the developer settings and changes nothing else |
| Chats.LoadRecentAvatars | AIChatCourse-VIPER/AIChatCourse/Core/Chats/ChatsViewModel.swift:35-45 | recent avatars become the fetched ones on success and are kept on failure; nothing else changes |
| Chats.NewestFirst | AIChatCourse-VIPER/AIChatCourse/Core/Chats/ChatsViewModel.swift:52-53 | the chats are a permutation of the fetched ones, most recently modified first |
| Chats.LoadChats | AIChatCourse-VIPER/AIChatCourse/Core/Chats/ChatsViewModel.swift:47-61 | loading ends on both paths; the chats become the user's fetched chats, newest first, when the id and the fetch succeed, and are kept otherwise |
| Chats.FirstRowIsMostRecent | AIChatCourse-VIPER/AIChatCourse/Core/Chats/ChatsViewModel.swift:52-53 | after a successful load no fetched chat was modified later than the first row |
| Chats.OnChatPressed | AIChatCourse-VIPER/AIChatCourse/Core/Chats/ChatsViewModel.swift:63-66 | appends the chat's avatar together with the chat, and nothing else changes |
| Chats.OnAvatarPressed | AIChatCourse-VIPER/AIChatCourse/Core/Chats/ChatsViewModel.swift:68-71 | appends a new chat with the avatar, and nothing else changes |
| Chats.PressedChatNamesItsAvatar | AIChatCourse-VIPER/AIChatCourse/Core/Chats/ChatsViewModel.swift:63-66 | for a chat made by `new`, the pushed avatar id is the one its id names |
| CategoryList.LoadAvatars | AIChatCourse-VIPER/AIChatCourse/Core/CategoryList/CategoryListViewModel.swift:32-43 | loading ends on both paths; the avatars become the category's on success; on failure they are kept and the alert is raised |
| CategoryList.FirstLoadShowsAvatarsOrAlert | AIChatCourse-VIPER/AIChatCourse/Core/CategoryList/CategoryListViewModel.swift:22-43 | from a fresh screen, one load shows either the category's avatars with no alert, or no avatars and the alert |
| CategoryList.OnAvatarPressed | AIChatCourse-VIPER/AIChatCourse/Core/CategoryList/CategoryListViewModel.swift:45-48 | appends exactly one new chat with the avatar to the bound path |
| DevSettings.LoadABTests | AIChatCourse-VIPER/AIChatCourse/Core/DevSettings/DevSettingsViewModel.swift:48-53 | the screen's four toggles match the active tests afterwards |
| DevSettings.UpdateTest | AIChatCourse-VIPER/AIChatCourse/Core/DevSettings/DevSettingsViewModel.swift:99-115 | an unchanged value calls no override and leaves the property alone; a changed one overrides with the updated tests and rolls the property back to the saved value if that throws |
| DevSettings.HandleCreateAccountChange | AIChatCourse-VIPER/AIChatCourse/Core/DevSettings/DevSettingsViewModel.swift:55-64 | overrides only the create-account test, only when it changes, and restores its toggle on failure; no other toggle moves |
| DevSettings.HandleOnboardingCommunityChange | AIChatCourse-VIPER/AIChatCourse/Core/DevSettings/DevSettingsViewModel.swift:66-75 | the same for the onboarding-community test |
| DevSettings.HandleCategoryRowChange | AIChatCourse-VIPER/AIChatCourse/Core/DevSettings/DevSettingsViewModel.swift:77-86 | the same for the category-row test |
| DevSettings.HandlePaywallChange | AIChatCourse-VIPER/AIChatCourse/Core/DevSettings/DevSettingsViewModel.swift:88-97 | the same for the paywall test |
| DevSettings.ChangesKeepScreenInSync | AIChatCourse-VIPER/AIChatCourse/Core/DevSettings/DevSettingsViewModel.swift:55-115 | backed by the mock store, a toggle change leaves the screen matching the stored tests whether the override succeeds or fails |
| DevSettings.FailedChangeIsUndone | AIChatCourse-VIPER/AIChatCourse/Core/DevSettings/DevSettingsViewModel.swift:111-113 | when every override throws, a toggle change leaves the screen and the store as they were |
| MockUserService.SaveUser | AIChatCourse-VIPER/AIChatCourse/Services/User/Services/Remote/MockUserService.swift:18-20 | saving replaces the current user |
| MockUserService.NewMockUserService | AIChatCourse-VIPER/AIChatCourse/Services/User/Services/Remote/MockUserService.swift:14-16 | the new mock holds the given user, none by default |
| MockUserService.DeleteUser | AIChatCourse-VIPER/AIChatCourse/Services/User/Services/Remote/MockUserService.swift:38-40 | deleting leaves no current user |
| MockUserService.MarkOnboardingCompleted | AIChatCourse-VIPER/AIChatCourse/Services/User/Services/Remote/MockUserService.swift:42-57 | throws exactly when there is no user; otherwise the user is marked onboarded with the given colour, and every other field is unchanged |
| MockUserService.UserIdIsIgnored | AIChatCourse-VIPER/AIChatCourse/Services/User/Services/Remote/MockUserService.swift:38-57 | marking and deleting do not depend on the user id passed |
| MockUserService.MarkIsIdempotentAndLastColourWins | AIChatCourse-VIPER/AIChatCourse/Services/User/Services/Remote/MockUserService.swift:47-56 | marking twice with one colour equals marking once, and with two colours the last wins |
| MockUserService.CannotMarkAfterDelete | AIChatCourse-VIPER/AIChatCourse/Services/User/Services/Remote/MockUserService.swift:38-45 | after deleting, marking throws |
| MockUserService.MarkedUserReportsOnboarding | AIChatCourse-VIPER/AIChatCourse/Services/User/Services/Remote/MockUserService.swift:42-57 | a user saved from authentication reports no onboarding; once marked, it reports onboarding done and the colour under the same id |
| CreateAvatar.StartGenerating | AIChatCourse-VIPER/AIChatCourse/Core/CreateAvatar/CreateAvatarViewModel.swift:44-46 | generation starts and nothing else changes |
| CreateAvatar.Initial | AIChatCourse-VIPER/AIChatCourse/Core/CreateAvatar/CreateAvatarViewModel.swift:24-32 | a new screen has an empty name, no alert and no generation running, and pressing save before an image exists does nothing |
| CreateAvatar.FinishGenerating | AIChatCourse-VIPER/AIChatCourse/Core/CreateAvatar/CreateAvatarViewModel.swift:57-64 | generation ends; the image changes only on success; nothing else changes |
| CreateAvatar.GeneratingRunsThenEnds | AIChatCourse-VIPER/AIChatCourse/Core/CreateAvatar/CreateAvatarViewModel.swift:44-66 | the screen is generating in between, not generating afterwards, and the image changes only when the prompt built from the chosen character generated one |
| CreateAvatar.OnSavePressed | AIChatCourse-VIPER/AIChatCourse/Core/CreateAvatar/CreateAvatarViewModel.swift:68-99 | with no image nothing happens; otherwise saving ends, the user id is asked for exactly when the name is valid, an avatar is created exactly when the id is known, the screen closes exactly when creation succeeds, and the alert is raised on every other path |
| CreateAvatar.SaveDismissesIffEveryStepSucceeds | AIChatCourse-VIPER/AIChatCourse/Core/CreateAvatar/CreateAvatarViewModel.swift:70-91 | the screen closes exactly when there is an image, the name is valid at minimum 3, the id is known and `createAvatar` succeeds; what is saved is a new avatar by that user with no image name |
| CreateAvatar.BlockedNameIsNeverSaved | AIChatCourse-VIPER/AIChatCourse/Core/CreateAvatar/CreateAvatarViewModel.swift:76 | a name of at least 3 characters whose lowercase form is blocked is refused before the id is asked for, nothing is saved and the alert is raised |
| CreateAvatar.CapitalisedBlockedName | AIChatCourse-VIPER/AIChatCourse/Core/CreateAvatar/CreateAvatarViewModel.swift:76 | a worked example for BlockedNameIsNeverSaved: "Ass" meets its precondition, long enough and blocked once lowercased |
| Onboarding.OnGetStartedPressed | AIChatCourse-MVVM/AIChatCourse/Core/Welcome/WelcomeViewModel.swift:32-34 | appends the intro and changes nothing else |
| Onboarding.OnSignInPressed | AIChatCourse-MVVM/AIChatCourse/Core/Welcome/WelcomeViewModel.swift:36-39 | opens sign-in and leaves the path alone |
| Onboarding.HandleDidSignIn | AIChatCourse-MVVM/AIChatCourse/Core/Welcome/WelcomeViewModel.swift:41-50 | a new user is left in onboarding; a returning user is sent to the tab bar |
| Onboarding.IntroContinue | AIChatCourse-VIPER/AIChatCourse/Core/Onboarding/IntroView/OnboardingIntroViewModel.swift:28-34 | appends exactly one entry, keeping the path before it: the community screen under the community test, the colour screen otherwise |
| Onboarding.IntroNeverSkipsToTheEnds | AIChatCourse-VIPER/AIChatCourse/Core/Onboarding/IntroView/OnboardingIntroViewModel.swift:28-34 | the intro never appends the intro or the completed screen |
| Onboarding.CommunityContinue | AIChatCourse-MVVM/AIChatCourse/Core/Onboarding/CommunityView/OnboardingCommunityViewModel.swift:24-26 | appends exactly the colour screen and keeps the path before it, whatever the tests say |
| Onboarding.PaletteIsNineStandardColours | AIChatCourse-VIPER/AIChatCourse/Core/Onboarding/ColorView/OnboardingColorViewModel.swift:21 | `profileColors` lists nine pairwise-different colours; of the standard named colours it leaves out yellow, pink, brown, gray, black and white, and it holds no other colour |
| Onboarding.OnColorPressed | AIChatCourse-VIPER/AIChatCourse/Core/Onboarding/ColorView/OnboardingColorViewModel.swift:29-31 | the pressed colour becomes the selection |
| Onboarding.LastColourPressedWins | AIChatCourse-VIPER/AIChatCourse/Core/Onboarding/ColorView/OnboardingColorViewModel.swift:29-31 | of two presses the last wins |
| Onboarding.ColorContinue | AIChatCourse-VIPER/AIChatCourse/Core/Onboarding/ColorView/OnboardingColorViewModel.swift:33-36 | with no selection the path is unchanged; otherwise exactly the completed screen with that colour is appended |
| Onboarding.OnboardingJourney | AIChatCourse-VIPER/AIChatCourse/Core/Onboarding/IntroView/OnboardingIntroViewModel.swift:28-34 | from a new welcome screen (`WelcomeInitial`: empty path, sign-in closed), the path reads intro, [community], colour, completed with the chosen colour, the community screen appearing exactly under the test |
| Onboarding.NoCompletionWithoutColour | AIChatCourse-VIPER/AIChatCourse/Core/Onboarding/ColorView/OnboardingColorViewModel.swift:22-34 | before any colour is pressed, continuing does nothing |
| Onboarding.OnFinishButtonPressed | AIChatCourse-MVVM/AIChatCourse/Core/Onboarding/CompletedView/OnboardingCompletedViewModel.swift:32-52 | the hex is the colour's, or the accent colour's; the tab bar is shown exactly when marking succeeds, and then the spinner stops; on failure the alert is raised and the spinner never stops |
| Onboarding.FinishWithMockStore | AIChatCourse-MVVM/AIChatCourse/Core/Onboarding/CompletedView/OnboardingCompletedViewModel.swift:36-51 | backed by the mock user store, finishing shows the tab bar exactly when a user is stored, and that user is marked with the chosen hex |

## Left out

- I/O, the network and every vendor SDK: Firebase, RevenueCat, StoreKit, OpenAI, push notifications and file persistence. Their calls are inputs to the handlers.
- Concurrency. Each `Task` is run to completion, and the two-second sleep before the create-account check is dropped. Interleavings are covered for the chat row, whose two loads are shown to commute, and for the Explore retry, whose featured and popular loads are shown to end in the same state in either order.
- The analytics `Event` enums and the `trackEvent` calls. The one exception is the Explore load events, whose names carry the mislabelled failure below.
- SwiftUI rendering: views, modifiers, sheets, alerts' texts, redaction, animations.
- Floating point. Dates are whole seconds, so `TimeInterval`, sub-second precision and `Date.formatted` are not modelled.
- `Color(hex:)`, `Color.toHex()` and `profileColorCalculated`, which depend on UIKit colour conversion. `toHex` is a parameter.
- `CharacterOption`, `CharacterAction` and `CharacterLocation` are not part of this model. They are kept as their raw-value strings, and the Explore list of categories stands for `CharacterOption.allCases`.
- `AIChatModel` is not part of this model. A message's content is its role, its text and the parameters it reports.
- `ActiveABTests`, `Constants`, `CoreInteractor.override` and `AvatarDescriptionBuidlder` are not part of this model. The tests are a record of four fields, the constants are parameters, the override is a function parameter, and the prompt builder is the `describe` parameter.
- `showDevSettingButton`: it depends on compile-time flags.
- `MockUserService.streamUser` and the other `AsyncStream` and Combine streams.
- The `AnyAppAlert` error text: an alert is a flag.
- Swift's `Dictionary` iteration order: `first(upTo:)` takes the order as a parameter.
- TextValidation.Lowercased: maps only A–Z. Swift's Unicode lowercasing is not modelled.
- TextValidation.CheckIfTextIsValid: a string is a sequence of Unicode scalars, so the length compared with the minimum counts scalars. Swift's `count` counts Characters (grapheme clusters), so a text such as two skin-toned emoji is 4 long here and 2 in Swift. Grapheme segmentation is not modelled.
- StringExt.Clipped: keeps the first n scalars, where Swift's `prefix` keeps the first n Characters, for the same reason. A negative limit traps in Swift's `prefix`; the model makes a non-negative limit a precondition.
- CreateAvatar.OnSavePressed: the name's length is counted in scalars, not Characters, as for TextValidation.CheckIfTextIsValid.
- CreateAvatar.SaveDismissesIffEveryStepSucceeds: the same scalar count stands for Swift's Character count in the minimum-length rule.
- Onboarding.PaletteIsNineStandardColours: a SwiftUI `Color` is one of the fifteen standard named colours or another colour kept by name. Colours are compared by that name, not by their components.
- Explore.CategoryCells: states which categories get a cell and with which image, not the order of the cells.
- Onboarding.OnFinishButtonPressed: `isCompletingProfileSetup` is set to true before the `Task` starts; the model states only its value at the end.
- StringExt.ConvertToString: only the `String` and array cases are modelled. Int, Double, Float, Bool, Date and `CustomStringConvertible` values are given by the text they render to.
- ArrayExt.SortedByKeyPath: Swift's sort is not stable. The model's insertion sort is one permitted outcome, and the contract states only what every outcome satisfies.
- DateExt.AddingTimeInterval: the `Int` to `TimeInterval` conversion and the `Double` addition are not modelled. The offset is exact, and overflow of its `Int` arithmetic is a precondition.
- Bootcamp.NewCoreInteractor: a trapping force-unwrap is modelled as no interactor.
- CreateAvatar.OnSavePressed: the `isSaving` flag is observable only while its `Task` runs, so the model states its final value only.
- Explore.ShowCreateAccountScreenIfNeeded: only the guard after the sleep is modelled.
- StringExt.ConvertToString: strings are compared as sequences of Unicode scalars, not by Swift's canonical equivalence, so the array case can order canonically equivalent spellings (such as "é" and "e\u{301}") differently from Swift's `sorted()`.
- Orderings.StringLess: lexicographic on Unicode scalars. Swift's `<` compares canonically equivalent strings as equal and orders by their normalised form; Unicode normalisation is not modelled.
- Orderings.StringLessIsStrictTotalOrder: proves totality of the model's scalar order, not of Swift's `<`, under which distinct but canonically equivalent strings are neither less nor greater than each other.
- ChatMessage.HasBeenSeenBy: membership compares user ids as scalar sequences, where Swift's `contains` uses `==` up to canonical equivalence.
- ChatMessage.SeenByText: sorted by the scalar order, not Swift's canonical-equivalence order.
- ChatMessage.EventParameters: the `message_seen_by_ids` text is sorted by the scalar order, as for ChatMessage.SeenByText.
- DictExt.Merge: keys are compared as scalar sequences, so canonically equivalent keys that Swift's `Dictionary` treats as one stay two keys here.
- DictExt.SortedEntries: "strictly increasing" is in the scalar order, not Swift's canonical-equivalence order.
- DictExt.AsAlphabeticallyArray: keys are ordered by the scalar order, as for DictExt.SortedEntries.
- The duplicate copies of the same rules in the other two app variants.

## Findings

| source | as written | input that shows it | evidently intended | confidence | as-written member | corrected member |
|---|---|---|---|---|---|---|
| AIChatCourse-VIPER/AIChatCourse/Core/Explore/ExploreViewModel.swift:162 | `loadFeaturedAvatars` logs `loadPopularAvatarsFail` when the featured fetch throws, and `loadPopularAvatars` logs `loadFeaturedAvatarsFail` (line 183) | both lists empty, and the featured fetch throws | each load logs its own list's failure event | not executed | Explore.LoadAvatarsAsWritten | Explore.LoadAvatars |
