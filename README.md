# eventpix decision rules in Dafny

eventpix is a photo-sharing app for events. Guests join an event by its
code and upload photos; hosts create and moderate events. It ships as a
Next.js web app and as an Ionic/Capacitor mobile app over a PocketBase
backend. It has no algorithmic subsystem of its own. What these modules
model are the small decision and string-building rules inside its React
components, lifted out of the JSX and the SDK calls:

- **PhotoCard** (`photo_card.dfy`): the loosely typed `likes` field is
  normalised into a duplicate-free list. From it come the liked flag, the
  count and the like toggle. Ownership decides who may edit or delete. The
  module also covers the owner label, the flash highlight, and the card's
  own UI state as a `Card` class.
- **UserProfile** (`user_profile.dfy`): the initials of the header menu,
  the badge shown when there is or is not a user, and the blank-name guard
  of the save handler.
- **Landing** (`landing.dfy`), the web landing page:
  - the typewriter headline as a state machine;
  - cover rotation;
  - merging the joined-event history;
  - the rule for pushing a guest's joined events to the account on sign-in;
  - the "my events" filter string;
  - joining by code;
  - the create-event payload;
  - sign-in and sign-out.

  The page's fields are a `LandingPage` class.
- **HostHome** (`host_home.dfy`): the mobile home page. It shares the
  rules above, with an owner-only filter and a smaller create payload.
- **CameraStreams** (`camera_streams.dfy`): the request-id guard shared by
  both camera modals, as a `StreamSession` class. It stops stale streams,
  suppresses stale errors and stops the held stream on close. The module
  also holds the cyclic device switch.
- **WebCamera** and **MobileCamera** (`web_camera.dfy`,
  `mobile_camera.dfy`): the capture geometry, that is, when the canvas is
  swapped and by how much the frame turns. They also cover the `getUserMedia`
  constraints, and for the mobile app the tilt-to-rotation bucketing and
  the native-platform short-circuits.
- **Search** (`search.dfy`): the filter, sort key and page size built from
  the search box, the loading flag, and the empty-list text.
- **Profile** (`profile.dfy`): the guest badge, the avatar priority and
  its fallback letter, linked providers and their labels, the save form,
  and the unlink guard.
- **Accounts**, **Strings**, **Arithmetic** and **Wrappers** hold what
  several pages share. Accounts has the `guest_` email rule and the
  auto-host rule. Strings has JavaScript's `trim`, `toUpperCase`, `split`,
  `join`, `filter` and `Array.from(new Set(…))`. Arithmetic has facts
  about `%`. Wrappers has `Option`.

Conventions:

- A JavaScript value that may be `null`, `undefined` or `''` is a
  `string`, with `""` standing for all three. In every expression the
  components use, they behave alike.
- The pages' handlers are `async`. Each is split into a method for the
  part before the backend call and a method for the part after it. The
  backend's reply is a parameter of the second method, and the request is a
  result of the first.
- The current time, ISO date conversion, the shuffle and the timers are
  parameters, or the caller decides when to invoke a step.

## Model

| member | source | states |
|---|---|---|
| PhotoCard.NormaliseLikes | apps/web-vite/src/components/PhotoCard.tsx:110-120 | The list never holds an id twice and holds exactly the ids the raw value mentions. A duplicate-free array is kept as it is. A non-blank string becomes a one-element list, and a blank string or any other value becomes the empty list. |
| PhotoCard.LikeView | apps/web-vite/src/components/PhotoCard.tsx:122-123 | Without a current user the photo is never liked. Otherwise it is liked iff the user is among the ids the backend sent. The count is the number of distinct ids sent, however often they repeat. |
| PhotoCard.DistinctCard | apps/web-vite/src/components/PhotoCard.tsx:120 | A duplicate-free list has as many elements as its set of elements. |
| PhotoCard.ToggleLike | apps/web-vite/src/components/PhotoCard.tsx:125-130 | No request without a current user. Otherwise the user's membership flips and every other id is kept. The not-liked case appends the user at the end. On a duplicate-free list the result stays duplicate-free, the count moves by exactly one, and unliking removes exactly the user's position, keeping the order of the rest. |
| PhotoCard.LikeThenUnlike | apps/web-vite/src/components/PhotoCard.tsx:128-130 | Liking and then unliking gives back the original list. |
| PhotoCard.PermissionsFor | apps/web-vite/src/components/PhotoCard.tsx:72-73 | Edit and delete rights coincide. They hold exactly when a non-empty current user id equals the photo's owner. |
| PhotoCard.EditRightsUnique | apps/web-vite/src/components/PhotoCard.tsx:25 | Nobody without an id may edit, and two users who may both edit are the same user. |
| PhotoCard.OwnerName | apps/web-vite/src/components/PhotoCard.tsx:25-26 | "You" for the owner, else the expanded name, else the expanded email, else "Guest". The label is never empty. |
| PhotoCard.ShouldFlash | apps/web-vite/src/components/PhotoCard.tsx:56 | The card flashes iff `updated` is present and differs from `created`. |
| PhotoCard.FreshPhotoDoesNotFlash | apps/web-vite/src/components/PhotoCard.tsx:55-56 | A record whose `updated` equals `created` never flashes. |
| PhotoCard.Card.constructor | apps/web-vite/src/components/PhotoCard.tsx:28-40 | The card starts not editing, with the photo's caption as draft, controls hidden, no delete confirmation and no highlight. |
| PhotoCard.Card.Tap | apps/web-vite/src/components/PhotoCard.tsx:148-155 | A tap toggles the controls. Opening them also sets the highlight, and nothing else changes. |
| PhotoCard.Card.PhotoChanged | apps/web-vite/src/components/PhotoCard.tsx:51-62 | The effect turns the highlight on exactly when the photo was edited (`updated` present and not `created`), and otherwise leaves it alone. So an edited photo flashes on mount, and a freshly created one never does. |
| PhotoCard.Card.EndHighlight | apps/web-vite/src/components/PhotoCard.tsx:58 | The highlight timer clears the highlight. |
| PhotoCard.Card.BeginEdit | apps/web-vite/src/components/PhotoCard.tsx:166-172 | Only an owner who is not already editing starts editing, and the draft is reset to the photo's caption. Otherwise nothing changes. |
| PhotoCard.Card.TypeCaption | apps/web-vite/src/components/PhotoCard.tsx:222 | Typing replaces the draft. |
| PhotoCard.Card.CancelEdit | apps/web-vite/src/components/PhotoCard.tsx:230 | Cancel ends editing. |
| PhotoCard.Card.SaveCaption | apps/web-vite/src/components/PhotoCard.tsx:95-103 | The draft is what is sent. Editing ends iff the backend accepted it. |
| PhotoCard.Card.RequestDelete | apps/web-vite/src/components/PhotoCard.tsx:181-186 | The confirmation opens only for an owner who is not editing. |
| PhotoCard.Card.ConfirmDelete | apps/web-vite/src/components/PhotoCard.tsx:84-93 | The confirmation closes whether or not the delete succeeded. A failure is reported. |
| PhotoCard.Card.CancelDelete | apps/web-vite/src/components/PhotoCard.tsx:262 | Cancel closes the confirmation. |
| UserProfile.InitialsSource | apps/web/src/components/UserProfile.tsx:63 | The name, else the email, else "?". Never empty. |
| UserProfile.Initials | apps/web/src/components/UserProfile.tsx:62-69 | One or two characters with no lower-case ASCII letter. With two or more space-separated words (empty pieces dropped) they are the capitals of the first two words' first letters. Otherwise they are the first two characters of the source, upper-cased. |
| UserProfile.FullNameInitials | apps/web/src/components/UserProfile.tsx:64-66 | A first and a last name give both capitals, whatever spaces lead or separate them. |
| UserProfile.SpacesHaveNoWords | apps/web/src/components/UserProfile.tsx:64 | Leading spaces add no words. |
| UserProfile.SingleWordInitials | apps/web/src/components/UserProfile.tsx:68 | A single word gives its first two characters, upper-cased. |
| UserProfile.EmailInitials | apps/web/src/components/UserProfile.tsx:63-68 | Without a name, the email's first two characters are used. |
| UserProfile.BadgeFor | apps/web/src/components/UserProfile.tsx:59-86 | Nothing is rendered exactly when there is no user. Otherwise the stored avatar is shown, or else the one-or-two-character initials. |
| UserProfile.HandleSave | apps/web/src/components/UserProfile.tsx:40-57 | A name that trims to empty changes nothing and sends nothing. Otherwise the untrimmed name is sent and loading ends false. Success replaces the user and closes the menu and the editor. Failure keeps user, menu and editor. |
| Accounts.ShouldAutoHost | apps/web/src/app/page.tsx:126-133 | Auto-switch to the dashboard iff authenticated with a user whose email is present and does not start with `guest_`. |
| Accounts.GuestNeverAutoHosts | apps/web-vite/src/pages/Home.tsx:54-61 | Every `guest_…` address is a guest address and is never auto-switched. |
| Accounts.NotGuestEmail | apps/web/src/app/profile/page.tsx:142 | An address that is too short, or that differs from `guest_` in one of its first six characters, is not a guest address. |
| Landing.CurrentWord | apps/web/src/app/page.tsx:93 | The current word is one of the words, and below the list length it is the word at that index. |
| Landing.CurrentWordPeriodic | apps/web/src/app/page.tsx:93 | The index wraps: one full pass shows the same word again. |
| Landing.Prefix | apps/web/src/app/page.tsx:107 | `substring(0, n)` with the end clamped into the string. |
| Landing.TypewriterStep | apps/web/src/app/page.tsx:92-112 | The text always stays a prefix of the current word. A fully typed word switches to deleting. A fully deleted one switches to typing with the word index up by exactly one. Otherwise the text grows (typing) or shrinks (deleting) by exactly one character. |
| Landing.RunSplit | apps/web/src/app/page.tsx:92-112 | Running a+b timer steps is running a steps, then b. |
| Landing.TypeUp | apps/web/src/app/page.tsx:107 | From any prefix, typing reaches the whole word in the remaining number of steps. |
| Landing.DeleteDown | apps/web/src/app/page.tsx:107 | From any prefix of length k, deleting reaches the empty text in k steps. |
| Landing.TypewriterCycle | apps/web/src/app/page.tsx:92-112 | From an empty headline, 2·\|word\|+2 steps type the word, delete it, and arrive empty at the next word index. |
| Landing.NextCover | apps/web/src/app/page.tsx:117 | The cover index is always in range and steps forward, wrapping from the last to the first. |
| Landing.CoversCycle | apps/web/src/app/page.tsx:117 | Four rotations return to the starting cover. |
| Landing.HistoryClauses | apps/web/src/app/page.tsx:177 | One `id="…"` clause per id, in order. |
| Landing.HistoryPlan | apps/web/src/app/page.tsx:169-177 | The history is cleared exactly when both id lists are empty. Otherwise the ids fetched are duplicate-free, are exactly the union of local and account ids, and the filter joins their clauses with `\|\|`. |
| Landing.HistoryLocalFirst | apps/web/src/app/page.tsx:169 | The merged ids begin with the local ids in first-occurrence order. |
| Landing.TransferUpdate | apps/web/src/app/page.tsx:229-254 | Nothing is written when the local list is empty. A write is longer than the account's list, duplicate-free, and the union of both lists. It happens whenever the merge is longer. |
| Landing.TransferWritesIffNew | apps/web/src/app/page.tsx:239-242 | When the account's list has no duplicates, the write happens iff some local id is missing from the account, and it keeps the account's ids in front. |
| Landing.TransferMissesNewIdAfterDuplicates | apps/web/src/app/page.tsx:242 | If the account's list repeats an id, a new local id can be skipped by the length test. |
| Landing.IdClauses | apps/web/src/app/page.tsx:213 | One `id = "…"` clause per joined id, in order. |
| Landing.MyEventsFilter | apps/web/src/app/page.tsx:211-214 | The owner clause alone without joined ids. Otherwise `(owner clause) \|\| (id clauses joined by ' \|\| ')`. |
| Landing.MyEventsFilterSnoc | apps/web/src/app/page.tsx:213-214 | One more joined id adds exactly one ` \|\| ` and its `id = "…"` clause before the closing parenthesis. |
| Landing.MyEventsQuery | apps/web/src/app/page.tsx:201-214 | No query exactly when there is no user. Otherwise the filter above for that user's id. |
| Landing.JoinPath | apps/web/src/app/page.tsx:256-261 | Navigation happens iff the code is not blank after trimming, to `/join/` plus the whole code upper-cased. |
| Landing.JoinPathIgnoresCase | apps/web/src/app/page.tsx:258-259 | A code and its upper-cased form lead to the same page. |
| Landing.PinFor | apps/web/src/app/page.tsx:327 | The typed PIN in "pin" mode, "" otherwise. |
| Landing.CreatePayload | apps/web/src/app/page.tsx:317-331 | The request has the name, the upper-cased code, the owner, the creation time, approval never required, and the visibility and join mode. It carries a non-empty PIN only in "pin" mode. The description is passed through, and each date is converted only when it is filled in. |
| Landing.PayloadCodeUpper | apps/web/src/app/page.tsx:321 | The code sent keeps its length and holds no lower-case ASCII letter. |
| Landing.LandingPage.constructor | apps/web/src/app/page.tsx:22-90 | The page starts in guest/login mode with empty fields, a private open event form and an empty headline at word 0. The words are the ten event words shuffled by the given choices. |
| Landing.FisherYates | apps/web/src/app/page.tsx:84-88 | Afterwards the array holds the shuffle of its old contents by the given choices. |
| Landing.ShufflePermutes | apps/web/src/app/page.tsx:84-88 | Whatever the choices, the shuffle is a permutation of its input. |
| Landing.ShuffleFromPermutes | apps/web/src/app/page.tsx:85-87 | The swaps still to do from any index down only reorder the sequence. |
| Landing.LandingPage.Tick | apps/web/src/app/page.tsx:92-112 | One headline step. The prefix invariant is kept. |
| Landing.LandingPage.RotateCover | apps/web/src/app/page.tsx:115-120 | One cover step. The index stays in range. |
| Landing.LandingPage.CheckAuth | apps/web/src/app/page.tsx:123-134 | Switches to host/dashboard and starts the fetch iff the auto-host rule holds, and otherwise changes nothing. |
| Landing.LandingPage.LoadHistory | apps/web/src/app/page.tsx:150-190 | Follows the history plan. Clearing empties the list at once, and a fetch leaves it for the reply. |
| Landing.LandingPage.ReceiveHistory | apps/web/src/app/page.tsx:183 | The fetched records become the history. |
| Landing.LandingPage.ReceiveMyEvents | apps/web/src/app/page.tsx:221 | The fetched records become the host's list. |
| Landing.LandingPage.Join | apps/web/src/app/page.tsx:256-261 | Joins with the code typed into the form. |
| Landing.LandingPage.SubmitCreate | apps/web/src/app/page.tsx:307-331 | Two filled dates with the end before the start are refused, and `creating` is reset. Otherwise the payload is sent and `creating` stays set. |
| Landing.LandingPage.CompleteCreate | apps/web/src/app/page.tsx:333-346 | Success starts `fetchMyEvents`, shows the dashboard and clears name, code, PIN, description and dates while keeping visibility and join mode. A failure fetches nothing. `creating` ends false either way. |
| Landing.LandingPage.BeginLogin | apps/web/src/app/page.tsx:263-284 | Loading starts. The password form also clears the error. |
| Landing.LandingPage.CompleteLogin | apps/web/src/app/page.tsx:263-304 | A refused sign-in shows its message. A signed-in user gets the guest-data transfer, the dashboard and the event fetch. Loading ends either way. |
| Landing.LandingPage.Logout | apps/web/src/app/page.tsx:349-356 | Back to guest/login, with email, password and the host's events cleared. |
| HostHome.OwnedEventsQuery | apps/web-vite/src/pages/Home.tsx:92-98 | No query without a user. Otherwise exactly the owner clause. |
| HostHome.OwnedEventsIsWebQueryWithoutJoins | apps/web-vite/src/pages/Home.tsx:97 | The mobile query equals the web query for an account with no joined events. |
| HostHome.HostCreatePayload | apps/web-vite/src/pages/Home.tsx:160-171 | The code is upper-cased, approval is never required, and the PIN is non-empty only in "pin" mode. |
| HostHome.PayloadsAgree | apps/web-vite/src/pages/Home.tsx:162-171 | Both apps send the same values for the fields they share. |
| HostHome.HostHomePage.constructor | apps/web-vite/src/pages/Home.tsx:13-35 | Starts in guest/login mode with empty fields and a private open form. |
| HostHome.HostHomePage.CheckAuth | apps/web-vite/src/pages/Home.tsx:51-62 | The same auto-host rule as on the web. |
| HostHome.HostHomePage.ReceivePublicEvents | apps/web-vite/src/pages/Home.tsx:75-79 | The public list is replaced by the reply. |
| HostHome.HostHomePage.ReceiveMyEvents | apps/web-vite/src/pages/Home.tsx:101 | The host's list is replaced by the reply. |
| HostHome.HostHomePage.Join | apps/web-vite/src/pages/Home.tsx:108-113 | The same join rule as on the web. |
| HostHome.HostHomePage.ShowSignIn | apps/web-vite/src/pages/Home.tsx:196-199 | The header button opens the host sign-in. |
| HostHome.HostHomePage.SwitchMode | apps/web-vite/src/pages/Home.tsx:218-224 | The guest/host switch sets the mode and keeps the sub-mode. |
| HostHome.HostHomePage.ShowSubMode | apps/web-vite/src/pages/Home.tsx:392 | The "+ New" and back buttons set the sub-mode. |
| HostHome.HostHomePage.BeginLogin | apps/web-vite/src/pages/Home.tsx:115-135 | Loading starts. The password form also clears the error. |
| HostHome.HostHomePage.CompleteLogin | apps/web-vite/src/pages/Home.tsx:115-155 | A refused sign-in shows its message. A signed-in user gets the dashboard and the fetch. Loading ends either way. |
| HostHome.HostHomePage.SubmitCreate | apps/web-vite/src/pages/Home.tsx:157-171 | `creating` is set and the payload is always sent. There is no date check. |
| HostHome.HostHomePage.CompleteCreate | apps/web-vite/src/pages/Home.tsx:172-183 | Success starts `fetchMyEvents`, shows the dashboard and clears name, code and PIN. A failure fetches nothing. `creating` ends false either way. |
| CameraStreams.FindIndex | apps/web/src/components/CameraModal.tsx:140 | -1 exactly when the id is absent. Otherwise the first position holding it. |
| CameraStreams.NextDeviceIndex | apps/web/src/components/CameraModal.tsx:129-142 | No switch under two devices. Otherwise the index is always in range: the one after the active device, wrapping around, or 0 for an unknown active id. |
| CameraStreams.SwitchCycles | apps/web-vite/src/components/CameraModal.tsx:169-176 | With distinct device ids, n presses move n places along the list, so every device is reached. |
| CameraStreams.StreamSession.constructor | apps/web/src/components/CameraModal.tsx:11-16 | No stream, request id 0, mounted, no devices. |
| CameraStreams.StreamSession.StopStored | apps/web/src/components/CameraModal.tsx:27-32 | The held stream is stopped and the reference cleared. With no stream held nothing changes. |
| CameraStreams.StreamSession.BeginStart | apps/web/src/components/CameraModal.tsx:35-42 | The request id goes up by exactly one, and the held stream is stopped. On the native platform nothing happens (web-vite CameraModal.tsx:96). |
| CameraStreams.StreamSession.ResolveStream | apps/web/src/components/CameraModal.tsx:58-65 | A stream is kept iff the modal is mounted and its request is the latest one. Otherwise it is stopped and nothing else changes. At most one stream ever runs. |
| CameraStreams.StreamSession.ResolveError | apps/web/src/components/CameraModal.tsx:70-75 | The error is shown only for the latest request while mounted. |
| CameraStreams.StreamSession.Unmount | apps/web/src/components/CameraModal.tsx:124-126 | Closing stops the held stream, so no stream runs afterwards. |
| CameraStreams.StreamSession.DevicesLoaded | apps/web/src/components/CameraModal.tsx:99-122 | Starts the default camera when inputs were found or when enumeration failed. It does nothing on the native platform (web-vite CameraModal.tsx:142). |
| CameraStreams.StreamSession.OrientationChanged | apps/web/src/components/CameraModal.tsx:80-86 | Restarts with the active device. |
| CameraStreams.StreamSession.Switch | apps/web/src/components/CameraModal.tsx:129-146 | Nothing under two devices. Otherwise the next device is activated and the camera restarts. |
| CameraStreams.AtMostOneLive | apps/web/src/components/CameraModal.tsx:58-65 | Whatever order requests settle in, at most one stream runs, and none after closing. |
| WebCamera.StartConstraints | apps/web/src/components/CameraModal.tsx:45-55 | The exact device when one was chosen. Otherwise the rear camera, with an ideal size of 1920x1080 in a landscape window and 1080x1920 in a portrait one. |
| WebCamera.StartCamera | apps/web/src/components/CameraModal.tsx:35-57 | A new request with those constraints. |
| WebCamera.PlanCapture | apps/web/src/components/CameraModal.tsx:148-182 | The canvas size is a permutation of the video size. It is swapped and turned iff the window is landscape and the stream portrait. The turn is +90 only for orientation -90 or "landscape-secondary" (orientation 90 or "landscape-primary" keeps -90), and -90 otherwise. A landscape window never gives a taller-than-wide picture. Nothing happens without video, canvas or context. |
| MobileCamera.GammaRotation | apps/web-vite/src/components/CameraModal.tsx:68-74 | Tilt above 45 gives 90, below -45 gives -90, otherwise 0. |
| MobileCamera.OrientationTracker.constructor | apps/web-vite/src/components/CameraModal.tsx:16 | Rotation starts at 0. |
| MobileCamera.OrientationTracker.HandleOrientation | apps/web-vite/src/components/CameraModal.tsx:59-86 | A missing tilt, or the native platform, leaves the rotation alone. Otherwise it becomes the bucket, always -90, 0 or 90. |
| MobileCamera.StartConstraints | apps/web-vite/src/components/CameraModal.tsx:103-107 | The exact device when one was chosen, otherwise the rear camera with no preferred size. |
| MobileCamera.StartCamera | apps/web-vite/src/components/CameraModal.tsx:95-126 | Nothing on the native platform. Otherwise a new request with those constraints. |
| MobileCamera.PlanCapture | apps/web-vite/src/components/CameraModal.tsx:178-203 | The canvas size is a permutation of the video size. It is swapped, and turned by the tracked rotation, iff the stream is portrait and the phone is held sideways. A sideways phone never gives a taller-than-wide picture. |
| Search.KindOf | apps/web/src/app/search/page.tsx:24 | A name search iff the query is not blank, on the trimmed query. |
| Search.KindIgnoresPadding | apps/web/src/app/search/page.tsx:24-25 | Surrounding blanks do not change what is searched for. |
| Search.BuildRequest | apps/web/src/app/search/page.tsx:19-33 | The filter always starts with the public clause. A name search adds `name ~ "<trimmed>"`, sorts by `-start_date` and asks for 50 events. Otherwise it adds `start_date >= "<now>"`, sorts by `start_date` and asks for 5. |
| Search.EmptyMessageAsWritten | apps/web/src/app/search/page.tsx:113 | The empty-list text follows the raw, untrimmed query. |
| Search.EmptyMessageMismatch | apps/web/src/app/search/page.tsx:113 | A one-space query lists upcoming events, but the empty text says no event matched the search. |
| Search.EmptyMessage | apps/web/src/app/search/page.tsx:113 | The empty-list text chosen by the same test as the request. |
| Search.EmptyMessagesAgreeOnTrimmed | apps/web/src/app/search/page.tsx:113 | Both texts agree on queries without surrounding blanks. |
| Search.SearchPage.constructor | apps/web/src/app/search/page.tsx:9-11 | Empty query, no events, loading. |
| Search.SearchPage.SetQuery | apps/web/src/app/search/page.tsx:82 | Typing sets the query. |
| Search.SearchPage.StartFetch | apps/web/src/app/search/page.tsx:15-38 | Loading is shown and the request for the current query is built. A non-blank query is a name search on the trimmed query: 50 events, newest first. A blank one lists 5 upcoming events from `nowIso`, soonest first. |
| Search.SearchPage.CompleteFetch | apps/web/src/app/search/page.tsx:40-45 | The reply replaces the list, a failure keeps it, and loading ends either way. |
| Search.SearchPage.View | apps/web/src/app/search/page.tsx:89-115 | Loading, else the events, else the corrected empty text (see Findings). On a query with no surrounding blanks it is exactly the text of line 113. |
| Profile.IsGuest | apps/web/src/app/profile/page.tsx:142 | Holds iff there is a user whose email starts with `guest_`. |
| Profile.FallbackLetter | apps/web/src/app/profile/page.tsx:175 | One upper-cased character: from the name, else the email, else "?". |
| Profile.AvatarFor | apps/web/src/app/profile/page.tsx:162-176 | The preview first, then the stored avatar, then the fallback letter. |
| Profile.LetterMatchesInitials | apps/web/src/app/profile/page.tsx:175 | For a one-word name, the letter is the first of the header menu's initials. |
| Profile.FindLink | apps/web/src/app/profile/page.tsx:123-124 | Finds an entry for the provider exactly when the provider counts as linked (`some`, line 253). |
| Profile.ProviderLabel | apps/web/src/app/profile/page.tsx:263 | Same length, the first character upper-cased, the rest unchanged. |
| Profile.ProviderLabelIdempotent | apps/web/src/app/profile/page.tsx:263 | Labelling a label changes nothing, and a name without a lower-case first letter is its own label. |
| Profile.BuildSavePayload | apps/web/src/app/profile/page.tsx:67-71 | The name first, then the avatar only when a file was picked. |
| Profile.ProfilePage.constructor | apps/web/src/app/profile/page.tsx:11-23 | No user, loading, nothing picked. |
| Profile.ProfilePage.Load | apps/web/src/app/profile/page.tsx:25-35 | A visitor who is not signed in is redirected and nothing changes. Without a user record nothing happens. Otherwise the user is shown and the name field starts from the stored name. |
| Profile.ProfilePage.ReceiveLinked | apps/web/src/app/profile/page.tsx:44-47 | The linked list is replaced by the reply. |
| Profile.ProfilePage.FileChange | apps/web/src/app/profile/page.tsx:54-60 | Picking a file selects it and shows its preview. Cancelling changes nothing. |
| Profile.ProfilePage.BeginSave | apps/web/src/app/profile/page.tsx:62-71 | Nothing without a user. Otherwise saving is shown and the request is built. |
| Profile.ProfilePage.CompleteSave | apps/web/src/app/profile/page.tsx:73-87 | Success shows the new record and clears the picked file and the preview. Failure keeps them. Saving ends either way. |
| Profile.ProfilePage.Unlink | apps/web/src/app/profile/page.tsx:121-129 | The unlink request is sent iff the provider is linked and the visitor confirmed. |
| Profile.ProfilePage.BeginLink | apps/web/src/app/profile/page.tsx:91 | Linking starts. |
| Profile.ProfilePage.CompleteLink | apps/web/src/app/profile/page.tsx:95-113 | The linked list is replaced as soon as it is fetched. The user is replaced only when its reload also succeeds, so a failing `getOne` leaves the new list with the old user. Linking ends either way. |
| Strings.Trim | apps/web/src/app/page.tsx:258 | `trim()`: a slice of the input with only ECMAScript whitespace cut, neither starting nor ending with whitespace, and empty exactly for blank input. |
| Strings.TrimIdempotent | apps/web/src/app/search/page.tsx:24-25 | Trimming twice is trimming once. |
| Strings.Upper | apps/web/src/app/page.tsx:259 | `toUpperCase()` on ASCII: same length, each character mapped. |
| Strings.UpperIdempotent | apps/web/src/app/page.tsx:259 | Upper-casing twice is upper-casing once. |
| Strings.UpperKeepsBlank | apps/web/src/app/page.tsx:258-259 | Upper-casing preserves blankness. |
| Strings.WordsAppend | apps/web/src/components/UserProfile.tsx:64 | Splitting on a space and dropping empty pieces distributes over joining two strings with a space. |
| Strings.WordsOfWord | apps/web/src/components/UserProfile.tsx:64 | A non-empty string without spaces is a single word. |
| Strings.WordsConcat | apps/web/src/components/UserProfile.tsx:64 | The words together are the input with its spaces removed. |
| Strings.JoinSnoc | apps/web/src/app/page.tsx:213 | Joining one more part adds exactly the separator and that part. |
| Strings.Dedup | apps/web/src/app/page.tsx:169 | `Array.from(new Set(…))`: duplicate-free, with the same elements as the input, and never longer. |
| Strings.DedupMembers | apps/web/src/app/page.tsx:169 | De-duplication keeps exactly the input's elements. |
| Strings.DedupOfDistinct | apps/web-vite/src/components/PhotoCard.tsx:120 | A duplicate-free list is kept as it is. |
| Strings.DedupPrefix | apps/web/src/app/page.tsx:239 | The de-duplication of a concatenation begins with the de-duplication of its first part. |
| Strings.RemoveAll | apps/web-vite/src/components/PhotoCard.tsx:129 | `filter(id => id !== x)`: drops x and keeps every other element. |
| Strings.RemoveAllAt | apps/web-vite/src/components/PhotoCard.tsx:129 | On a duplicate-free list, filtering out x removes exactly its position. |

## Left out

- All PocketBase traffic is left out: CRUD, authentication and OAuth2
  pop-ups, `listAuthMethods`, `listExternalAuths`, realtime and file URLs.
  Replies are parameters and requests are results. Every `catch` that
  only logs is not modelled.
- Time is left out: `setTimeout`, `setInterval`, the 500 ms search
  debounce and the typewriter delays. The caller decides when a step runs,
  so the two-second pause before deleting is folded into the typewriter
  step.
- `Math.random` is left out. The Fisher-Yates shuffle takes its choices
  as a parameter, one index in `[0, i]` for each position `i`.
- Dates are left out: `new Date`, `toISOString`, `toLocaleDateString`,
  and the end-before-start comparison. They are opaque strings, a
  conversion function, or a boolean parameter.
- localStorage and `JSON.parse` are left out. The joined-events lists are
  parameters.
- Strings.Upper: only ASCII letters are mapped. Unicode case mapping is
  not modelled.
- Search.SearchPage.View: for the empty-list text it uses the corrected
  Search.EmptyMessage, not the raw-query test of search/page.tsx:113. The
  two differ only for a query with blanks around it, and the page as
  written is kept in Search.EmptyMessageAsWritten (see Findings).
- UserProfile.Initials, Profile.FallbackLetter: characters are Unicode
  code points. JavaScript's `[0]` and `substring(0, 2)` count UTF-16 code
  units, so names that start with characters outside the Basic
  Multilingual Plane (an emoji, say) are not modelled as the browser
  shows them.
- Page sizes and sort keys of the list requests are left out of
  Landing.HistoryPlan (`getList(1, 20, {sort: '-created'})`),
  Landing.MyEventsQuery and HostHome.OwnedEventsQuery (`getList(1, 50,
  …)`). Only their filters are modelled. Search.BuildRequest does model
  all three.
- Landing.LandingPage.Logout, Profile.ProfilePage.Unlink: these model
  handlers that no control calls. Nothing in the landing page calls
  `handleLogout`, and the Disconnect button that would call
  `handleUnlink` is commented out. They describe the handler, not
  reachable behaviour.
- Filter strings are built by raw concatenation, as in the source. No
  escaping or injection safety is claimed.
- Media and DOM are left out: `getUserMedia`, `enumerateDevices`, the
  permission pre-flight stream (stopped at once), canvas drawing, JPEG
  encoding and radians. Only integer canvas sizes and rotations in
  degrees are modelled. Streams are named by integers, and each request
  settles once.
- The mobile app's native camera path (`Camera.getPhoto`, then the file
  handed to `onCapture`) is left out, because it is SDK I/O. The modal
  rendering nothing on the native platform is JSX and is not modelled.
  The native short-circuits of the stream code are modelled.
- Landing.TransferUpdate: the write rule is modelled exactly. Its
  correctness is proved only when the account's list has no duplicates.
  Landing.TransferMissesNewIdAfterDuplicates shows the case the length test
  misses. That case needs a corrupted account record, so it is not listed
  as a finding.
- JSX, CSS, routing and navigation calls (other than the paths they are
  given), `router.back`, the profile sign-out and the admin app are left
  out.

## Findings

| source | as written | input that shows it | evidently intended | confidence | as-written member | corrected member |
|---|---|---|---|---|---|---|
| apps/web/src/app/search/page.tsx:113 | The empty-list text tests the raw query (`query ? …`), while the request tests `query.trim()` (line 24). | The query " " (one space) fetches the upcoming events. If none come back, the page says "No events found matching your search." | The text follows the same blank test as the request: for a blank query, "No upcoming public events found." | medium, not executed | Search.EmptyMessageAsWritten (shown by Search.EmptyMessageMismatch) | Search.EmptyMessage (used by Search.SearchPage.View, see Left out; agreement proved by Search.EmptyMessagesAgreeOnTrimmed) |
