# Photo-sharing client: verified model of its view logic

This project models the logic inside the React views of a small photo-sharing
web client. The views are a user list, a user's photos and a user's comments.
They are held together by an application shell, a top bar and a hash router.
The model covers three pieces of that logic:

- **Aggregation.** The user list computes a table of per-user statistics (photos
  owned, comments written) from a snapshot of every user's photo list. The
  comments view builds a reverse index: the photos carrying a comment by one
  user, each listed once, in first-encounter order, each shown with only that
  user's comments.
- **Gallery and single-photo navigation.** The photo view resolves the routed
  photo id to an index. In advanced mode it steps to the previous or next photo
  and emits a route to the photo it lands on. Two effects redirect between the
  gallery and the single-photo view when the advanced-features flag changes. The
  shell's route wrappers record the current user and force the flag on. A
  `Session` class puts these together as a state machine whose events are route
  change, checkbox toggle, photos loaded and step.
- **Top-bar title.** A prefix comes from substring tests on the pathname. The
  title is then the application name on `/`, and otherwise the prefix plus the
  user's name once the user is known.

Files and modules:

- `entities.dfy` (`Entities`): users, comments, photos and routes, plus the
  folds the views share.
- `user_list.dfy` (`UserList`): the statistics table. The loops are proved
  against a closed form, `ExpectedStats`.
- `user_comments.dfy` (`UserComments`): the reverse index. The loops are proved
  against `Dedup(Commented(Flatten(...)))`.
- `user_photos.dfy` (`UserPhotos`): index resolution, stepping, the redirect
  effects and the view's state.
- `photo_share.dfy` (`PhotoShare`): the shell and the route wrappers' effects.
- `top_bar.dfy` (`TopBar`): prefix and title.
- `session.dfy` (`Session`): the navigation state machine and end-to-end
  scenarios.

Fetched collections are snapshots passed in as parameters. A failed fetch is an
`Option` that is `None`. Navigation is a `Route` value that an event returns.

## Model

| member | source | states |
|---|---|---|
| `UserList.SeedStats` | components/UserList/index.jsx:27-30 | the seed table has exactly the listed user ids as keys, each entry with zero photos and zero comments |
| `UserList.TallyComments` | components/UserList/index.jsx:48-57 | tallying one photo's comments adds every author as a key; each entry's comment count grows by exactly the comments that author wrote; an entry the tally creates has photo count 0 |
| `UserList.TallyPhotos` | components/UserList/index.jsx:47-58 | tallying a photo list is the tally of all of its comments in order, with the same guarantees |
| `UserList.ComputeUserStats` | components/UserList/index.jsx:27-59 | keys are the listed ids plus the comment authors; every photo count is the summed length of that id's photo lists; every comment count is the number of comments in the snapshot by that id; the table equals the closed form `ExpectedStats` |
| `UserList.UserListView.constructor` | components/UserList/index.jsx:8-10 | a mounted list has no users yet and an empty published table |
| `UserList.UserListView.UsersLoaded` | components/UserList/index.jsx:13-17 | the fetched users are stored; the published table is left as it was until the photo snapshot arrives |
| `UserList.UserListView.PhotosFetched` | components/UserList/index.jsx:32-64 | a complete snapshot publishes the closed-form table; a failed fetch leaves the previously published table (initially empty) in place |
| `UserList.DisplayedCounts` | components/UserList/index.jsx:85 | a user with a table entry shows that entry's counts; a user without one shows null counts, not 0 |
| `UserList.ListedBadge` | components/UserList/index.jsx:85 | with distinct user ids, a listed user's badge shows the length of their photo list and the number of comments they wrote; before any table is published it shows null counts |
| `UserList.ListedUserPhotoCount` | components/UserList/index.jsx:39-44 | with distinct user ids, every listed user has an entry whose photo count is the length of that user's photo list |
| `UserList.SynthesizedEntry` | components/UserList/index.jsx:53-56 | a comment author who is not a listed user gets an entry with photo count 0 and comment count at least 1 |
| `UserList.CommentConservation` | components/UserList/index.jsx:47-57 | the comment counts of the table add up to the number of comments in the snapshot: none is lost or counted twice |
| `UserList.OrderIndependent` | components/UserList/index.jsx:39-59 | exchanging two neighbouring users together with their photo lists gives the same table: no entry depends on the order in which users are listed |
| `UserComments.Commented` | components/UserComments/index.jsx:52-56 | the filter keeps exactly the photos that carry a comment by the user, in order |
| `UserComments.Dedup` | components/UserComments/index.jsx:55 | the result holds no photo twice and has exactly the elements of its input |
| `UserComments.ScanComments` | components/UserComments/index.jsx:53-58 | scanning one photo's comments appends the photo once if it has a comment by the user and is not yet listed, and otherwise changes nothing |
| `UserComments.ScanPhotos` | components/UserComments/index.jsx:52-59 | scanning one user's photos extends the reverse index of the photos scanned so far to the index of those photos followed by this list |
| `UserComments.FindCommentedPhotos` | components/UserComments/index.jsx:45-60 | the result is the photos with a comment by the user, deduplicated by first occurrence in scan order (users in order, each user's photos in order); no photo is listed twice; a photo is listed iff it was scanned and carries a comment by the user |
| `UserComments.UserCommentsView.constructor` | components/UserComments/index.jsx:7-11 | a mounted view for a user starts with an empty list of photos |
| `UserComments.UserCommentsView.UserIdChanged` | components/UserComments/index.jsx:7-11 | a new `userId` prop replaces the viewed user and keeps the list until the rescan it triggers completes |
| `UserComments.UserCommentsView.PhotosFetched` | components/UserComments/index.jsx:35-69 | a complete snapshot publishes the reverse index for the user the scan was issued for, even if the view's user has changed since; a failed fetch leaves the list as it was (initially empty) |
| `UserComments.SwitchUserWithFailedRescan` | components/UserComments/index.jsx:35-69 | after a move to another user whose rescan fails, the view shows the new user while the list is still the first user's reverse index |
| `UserComments.SwitchUserDuringScan` | components/UserComments/index.jsx:35-69 | when the view moves to another user while the first user's scan is in flight, that scan lists the first user's photos under the new user until the new user's own scan replaces them |
| `UserComments.CommentsBy` | components/UserComments/index.jsx:83 | the comments shown under a photo are exactly its comments by the user; their number is the user's comment count on that photo |
| `UserComments.UserCommentsView.ShownComments` | components/UserComments/index.jsx:81-83 | every comment shown under a listed photo is by the viewed user |
| `UserComments.SelectAuthoredAppend` | components/UserComments/index.jsx:83 | the per-photo filter keeps the comments' original order: filtering distributes over concatenation |
| `UserComments.CommentedPhotosOfDistinct` | components/UserComments/index.jsx:45-60 | when no photo occurs twice in the scan, the index is the plain filter of the scanned photos |
| `UserComments.ListedOnce` | components/UserComments/index.jsx:55-56 | a photo the user commented on is listed exactly once, however many comments the user left on it |
| `UserComments.DisplayedTotalIsCommentCount` | components/UserComments/index.jsx:81-83 | when no photo is scanned twice, the comments the view shows for a user add up to that user's comment count in the user list's table |
| `UserComments.RedirectWhenDisabled` | components/UserComments/index.jsx:18-22 | the view redirects to `/users/{userId}` exactly when the flag is off |
| `UserPhotos.FindIndex` | components/UserPhotos/index.jsx:21 | `findIndex`: the first position holding the id, or -1 exactly when no photo has it |
| `UserPhotos.ResolveIndex` | components/UserPhotos/index.jsx:20-23 | the selected index is the first position whose id matches, or 0 when none matches; it lies in `[0, len)` for a non-empty list |
| `UserPhotos.PrevStep` | components/UserPhotos/index.jsx:68-74 | at index 0 nothing changes and nothing is emitted; otherwise the index drops by exactly one and the route to the photo there is emitted; the index stays in range |
| `UserPhotos.NextStep` | components/UserPhotos/index.jsx:77-83 | at the last index nothing changes and nothing is emitted; otherwise the index rises by exactly one and the route to the photo there is emitted; the index stays in range |
| `UserPhotos.FirstPhotoRedirect` | components/UserPhotos/index.jsx:31-39 | with the flag on, photos loaded and no routed id, the view navigates to the first photo iff it exists and has a non-empty id, and that photo's route resolves to index 0 |
| `UserPhotos.GalleryRedirect` | components/UserPhotos/index.jsx:42-46 | with the flag off and a routed photo id, the view navigates to `/photos/{userId}`; in no other case |
| `UserPhotos.UserPhotosView.constructor` | components/UserPhotos/index.jsx:10-12 | a freshly mounted view has no photos and index 0 |
| `UserPhotos.UserPhotosView.Remount` | components/UserPhotos/index.jsx:7-12 | entering the view from another page resets photos and index |
| `UserPhotos.UserPhotosView.RouteParamsChanged` | components/UserPhotos/index.jsx:7-8 | new route parameters keep photos and index until the refetch completes |
| `UserPhotos.UserPhotosView.PhotosLoaded` | components/UserPhotos/index.jsx:15-23 | the photos are stored; with a photo id routed when the fetch was issued, the index is resolved against that id (in range for a non-empty list), even if the route has moved on since; without one the index is kept |
| `UserPhotos.UserPhotosView.Navigations` | components/UserPhotos/index.jsx:31-46 | at most one redirect is requested: the first photo's route with the flag on, photos loaded, no routed id and a first id; the gallery with the flag off and a routed id; nothing otherwise |
| `UserPhotos.UserPhotosView.CurrentPhoto` | components/UserPhotos/index.jsx:59 | the photo read is one of the loaded photos; after resolution of a routed id that exists, it is the photo with that id (callers must hold an in-range index) |
| `UserPhotos.UserPhotosView.PrevPhoto` | components/UserPhotos/index.jsx:68-74 | the view's index and emitted route follow `PrevStep`; photos and route parameters are untouched |
| `UserPhotos.UserPhotosView.NextPhoto` | components/UserPhotos/index.jsx:77-83 | the view's index and emitted route follow `NextStep`; photos and route parameters are untouched |
| `UserPhotos.ResolveOwnId` | components/UserPhotos/index.jsx:21-22 | with unique ids, resolving the id of the photo at `i` gives back `i` |
| `UserPhotos.StepRouteResolves` | components/UserPhotos/index.jsx:68-83 | with unique ids, the route either step emits names a photo whose id resolves back to the step's new index |
| `UserPhotos.StepsUndo` | components/UserPhotos/index.jsx:68-83 | a step forward followed by a step back (and vice versa) returns to the starting index |
| `PhotoShare.Shell.constructor` | photoShare.jsx:70-71 | the shell starts with no current user and the flag off |
| `PhotoShare.Shell.UserDetailRouteEffect` | photoShare.jsx:15-17 | the user-detail route records the user and never touches the flag |
| `PhotoShare.Shell.UserPhotosRouteEffect` | photoShare.jsx:32-39 | a photos route records the user; a routed photo id forces the flag on; without one the flag is unchanged |
| `PhotoShare.Shell.UserCommentsRouteEffect` | photoShare.jsx:53-58 | the comments route records the user and always forces the flag on |
| `PhotoShare.Shell.SetAdvancedFeaturesEnabled` | photoShare.jsx:71 | the setter stores exactly the given flag and leaves the user alone |
| `TopBar.Contains` | components/TopBar/index.jsx:15-17 | `includes`: true iff the pattern occurs at some position of the pathname |
| `TopBar.ViewingPrefix` | components/TopBar/index.jsx:14-22 | a pathname containing `/photos` gives "Photos of "; otherwise one containing `/comments` gives "Comments by "; otherwise the prefix is empty |
| `TopBar.RoutePrefix` | components/TopBar/index.jsx:14-22 | for hexadecimal ids, photos routes read "Photos of ", the comments route "Comments by ", every other route has no prefix |
| `TopBar.TopBarView.constructor` | components/TopBar/index.jsx:7-12 | no user, the application name as title, no prefix |
| `TopBar.TopBarView.LocationChanged` | components/TopBar/index.jsx:14-22 | the prefix is recomputed from the new pathname; nothing else changes |
| `TopBar.TopBarView.UserLoaded` | components/TopBar/index.jsx:27-30 | the fetched user is stored; nothing else changes |
| `TopBar.TopBarView.UpdateTitle` | components/TopBar/index.jsx:52-61 | on `/` the title is "Photosharing App"; elsewhere with a user it is prefix, first name, space, last name; elsewhere without a user it is left unchanged |
| `TopBar.CheckboxChanged` | components/TopBar/index.jsx:64-66 | the checkbox sets the flag to exactly the checked value and leaves the user alone; the session's toggle goes through it |
| `TopBar.TitleAfterNavigation` | components/TopBar/index.jsx:52-61 | after navigating to a route: the application name on `/` or while no user is known; otherwise "Photos of " / "Comments by " / no prefix before the user's full name |
| `Session.Session.constructor` | photoShare.jsx:70-71 | the session opens on `/` with no current user and the flag off |
| `Session.Session.RouteChanged` | photoShare.jsx:12-67 | the wrapper's effect updates the shell, the photo view is remounted or keeps its state, and the view's effects emit their redirects, seeing the previous flag in React's child-first order and the forced flag in wrapper-first order; a navigation to the current route changes nothing |
| `Session.Session.Toggle` | components/TopBar/index.jsx:64-66 | the checkbox handler sets the flag to the checked value; if it changed, the redirect effects of the view on screen run again with the new flag |
| `Session.Session.PhotosLoaded` | components/UserPhotos/index.jsx:15-39 | the photo view stores the photos and resolves the index against the photo id the fetch was issued for; only the first-photo redirect runs again, against the current route |
| `Session.Session.Prev` | components/UserPhotos/index.jsx:68-74 | a "<" click follows `PrevStep` and keeps the single-photo view on screen |
| `Session.Session.Next` | components/UserPhotos/index.jsx:77-83 | a ">" click follows `NextStep` and keeps the single-photo view on screen |
| `Session.DeepLinkAsWritten` | components/UserPhotos/index.jsx:15-46 | in React's order, a deep link to a photo with the flag off is redirected to the gallery route with the flag then on; the fetch issued for the linked id shows the linked photo there, and the first-photo route follows; once that route's fetch completes the view ends on the first photo, so the linked photo is not kept (with no usable first photo the linked index stays) |
| `Session.DeepLink` | photoShare.jsx:32-39 | with the wrapper's effect first, a deep link to a photo forces the flag on, requests no redirect, and after loading shows the linked photo (index 0 when the id matches none) |
| `Session.CommentsDeepLinkAsWritten` | components/UserComments/index.jsx:18-22 | in React's order, a deep link to a user's comments with the flag off is redirected to the user's detail page, where the session stays with the flag on |
| `Session.CommentsDeepLink` | photoShare.jsx:53-58 | with the wrapper's effect first, a deep link to a user's comments forces the flag on and requests no redirect |
| `Session.ToggleRoundTrip` | components/UserPhotos/index.jsx:31-46 | from the gallery, turning the flag on navigates to the first photo, which resolves to index 0; turning it off navigates back to the gallery, after which nothing more is requested |
| `Session.StepForward` | components/UserPhotos/index.jsx:77-83 | with unique ids, with the flag already on, a ">" click from a linked photo emits the next photo's route; following that route and refetching leaves the view on the next photo; the last photo has no next |

## Findings

| source | as written | input that shows it | evidently intended | confidence | as-written member | corrected member |
|---|---|---|---|---|---|---|
| components/UserPhotos/index.jsx:42-46 | on a deep link the view's gallery redirect runs before the route wrapper (photoShare.jsx:32-39) forces the flag on, because React runs a child's effects first | a fresh session with the flag off opens `/photos/u/p` where `p` is not the first photo's id: it goes to `/photos/u`, briefly shows `p` there, then moves to the first photo and stays | the linked photo is shown with the flag on | not executed; follows from React's child-first effect order | `Session.DeepLinkAsWritten` | `Session.DeepLink` |
| components/UserComments/index.jsx:18-22 | on a deep link the comments view's redirect runs before the route wrapper (photoShare.jsx:53-58) forces the flag on | a fresh session with the flag off opens `/comments/u`: it goes to `/users/u` with the flag on | the comments are shown with the flag on | not executed; follows from React's child-first effect order | `Session.CommentsDeepLinkAsWritten` | `Session.CommentsDeepLink` |

## Left out

- HTTP: every `axios.get` (users, photos, a single user, `/test/info`) is left out. The fetched data arrive as parameters, and a failed fetch is `None`. The version number is not modelled. `lib/fetchModelData.js` is not part of this model: it is entirely commented out.
- `Promise.all`: the per-user photo fetches are one atomic snapshot that either arrives complete or fails.
- React effect scheduling: one event runs the route wrapper's effect and the view's effects in the order an `EffectOrder` value names. Effects whose dependencies did not change are not re-run. The batching of state updates within one event is not modelled.
- Fetch completion: each completion event is given the route parameters its fetch was issued with (`issuedFor`). The model does not check that a fetch with those parameters was really issued, and the order in which several fetches in flight complete is chosen by the caller.
- `Session.DeepLinkAsWritten`: promises the final index 0 only when a first photo with a non-empty id exists. Otherwise no first-photo route follows, and the index the linked fetch resolved stays, as it does in the source.
- Route matching and `useParams`/`useNavigate`: routes are a datatype, and navigation is a returned value. Moving between `/photos/:userId` and `/photos/:userId/:photoId` is modelled as the same mounted view receiving new parameters.
- The user-detail view's fetch, rendering and button are not modelled. Only its route wrapper's effect on the shell is.
- Rendering, badges, cards and styling; the error state and its message strings; date formatting with `toLocaleString`.
- The user list's visibility switch on the flag (components/UserList/index.jsx:80) is not modelled: it only chooses what to render.
- Object identity: `includes` on photo objects (components/UserComments/index.jsx:55) is modelled as value equality of photos. Two distinct fetched objects with equal fields count as one photo.
- JavaScript object keys: the statistics table is a `map`. Ids that collide with inherited object properties (`constructor`, `__proto__`) are not modelled.
- `TopBar.RoutePrefix`, `TopBar.TitleAfterNavigation`: stated for hexadecimal ids only. An id containing `/photos` or `/comments` would change the prefix in the source.
- `UserPhotos.UserPhotosView.CurrentPhoto`: requires loaded photos and an in-range index. The source reads `photos[currentPhotoIndex]` without a guard and fails on an empty list, and that failure is not modelled.
- `UserComments.DisplayedTotalIsCommentCount`, `UserComments.CommentedPhotosOfDistinct`: they assume no photo value occurs twice in the scan.
- `Session.Session.Prev`, `Session.Session.Next`: they require the single-photo view to be on screen (flag on, photos loaded, index in range), because only then do the buttons exist.
- The top bar's user fetch is triggered by the shell's `userId` (components/TopBar/index.jsx:25-38). The session does not drive the top bar; `TopBar.TitleAfterNavigation` models one navigation followed by the user fetch.
