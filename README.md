# VermiMetrics core, modelled in Dafny

VermiMetrics is a web application for vermicomposting sites. A user signs up
with an e-mail address, chooses a location and the compost tanks they look
after, and then watches sensor alerts, reads and writes forum posts, and uses
a few rule-based estimators. This project models four parts of it and proves
properties about them:

- **Account bootstrap.** This covers:
  - the login/register form (`LoginForm`, in its two copies: the root app
    and the `vermi-backend` app);
  - the tank selection page (`TankSelectionPage`, also in both copies);
  - the registration helper `registerUserAndAssignTanks` and its sibling
    calls;
  - the session provider `UserProvider`;
  - the Express controllers for registration, login and tanks.
- **Sensor alerting.** The threshold table and `get_notification` of the
  sensor monitor, the insert loop of `check_and_notify`, and the
  notification inbox page.
- **Forum client logic.** This covers:
  - filtering and sorting of posts;
  - the `usePosts` and `useComments` hooks;
  - the like button and the post and reply forms;
  - the post list, the comment list and the avatar initials;
  - the page title of the top bar.
- **Rule-based estimators.** The weather impact, nutrient deficiency,
  compost simulator and plant readiness pages.

Where the source changes state step by step, the model is imperative:

- React components and hooks become classes whose fields are the component's
  state.
- The browser's `localStorage`, router history and `alert` calls live in one
  shared `WebStorage.Browser` object.
- An event handler becomes a method with a `modifies` clause. Its `ensures`
  clauses give the whole new state in terms of the old one.

Where the source only computes, the model is functional: datatypes,
functions and lemmas.

Every call into code the model cannot see is an oracle whose answer is a
parameter. This covers the Supabase auth and data calls, `fetch`, bcrypt,
JWT signing, PostgreSQL and `encodeURIComponent`.

- An answer is a `Base.Result<T>`: a value, or what it threw.
- What a `catch` block receives is a `Base.Thrown`: an object with a
  string message (`isError` marks an `Error` instance), a value without a
  `message` (a thrown string or plain object), or `null`.
- The methods return the requests they issued, so the contracts can say
  which calls are made, in which order, and which are never made.

Modules, one per core source file:

- `Base`, `WebStorage` and `Sorting` are shared building blocks.
  - `Sorting` models the stable `Array.prototype.sort` with a descending
    numeric comparator.
  - It proves the result is ordered, a permutation of its input and stable,
    and that it is the only sequence with all three properties.
- When the same component exists in both apps, one module models both
  copies. A `variant` field (`Root` or `Backend`) selects the branches where
  they differ.

## Model

| member | source | states |
|---|---|---|
| Auth.NormalizedEmailShape | vermi-backend/src/utils/authUtils.ts:25 | a normalised address contains no upper-case ASCII letter and starts and ends with a non-space character |
| Auth.NormalizeEmailIdempotent | vermi-backend/src/utils/authUtils.ts:25 | trimming and lower-casing an already normalised address changes nothing |
| Auth.SignUpUser | vermi-backend/src/utils/authUtils.ts:4-18 | exactly one sign-up request is made, carrying the display name as metadata and no redirect, and its answer is passed through |
| Auth.SignInUser | vermi-backend/src/utils/authUtils.ts:20-30 | the sign-in request carries the trimmed, lower-cased address and the password unchanged |
| Auth.GetSession | vermi-backend/src/utils/authUtils.ts:32-36 | there is a session exactly when the lookup succeeded and found one; every other case throws an `Error` with message 'Session not available' |
| Auth.TankRows | vermi-backend/src/utils/authUtils.ts:97-103 | exactly one `user_tanks` row per selected tank, in selection order, each with the given user id |
| Auth.RegisterUserAndAssignTanks | vermi-backend/src/utils/authUtils.ts:47-111 | requests go sign-up, sign-in, users insert, user_tanks insert, strictly in that order; the sign-up asks for the '/homepage' redirect; a failing step stops every later one and is rethrown, with 'Sign-in failed' when there is no message and `null` when the insert returns no row; sign-up and sign-in use the address as given; the tanks insert happens only for a non-empty selection; success pairs the session with the new user id, and every tank row carries that id |
| AuthController.OrNull | vermi-backend/controllers/authController.js:36 | an empty location or tank id is stored as `null`, and any other value is kept |
| AuthController.PublicUserFields | vermi-backend/controllers/authController.js:50-58 | the user object of both success responses has exactly the six public fields and never `password_hash` |
| AuthController.FailureResponse | vermi-backend/controllers/authController.js:61-67 | a thrown value gives 500 with the handler's fixed message; the detail key is present exactly in development for a value with a `message`, and then holds that message; in development a thrown `null` makes the catch block itself throw, so nothing is sent |
| AuthController.RegisterUser | vermi-backend/controllers/authController.js:5-68 | the e-mail lookup precedes field validation; an existing address gives 400 on `email`; then a missing field gives 400 naming the first of name, email and password; hashing, insert and token follow in order; 201 is sent exactly when all four requests succeed |
| AuthController.LoginUser | vermi-backend/controllers/authController.js:70-140 | missing input gives 400 on `email`, else on `password`, before any query; an unknown address gives 401 on `email`; a wrong password gives 401 on `password`; the token is signed only after a matching password; 200 is sent exactly when all three requests succeed |
| Login.EmailShapeIsPatternTest | src/components/loginform.tsx:24 | the executable e-mail check holds exactly when some substring of the address matches `\S+@\S+\.\S+` as a whole |
| Login.EmailExamples | src/components/loginform.tsx:24 | 'jane@site.org' passes; 'jane@site' and 'jane @.org' do not |
| Login.EmailError | src/components/loginform.tsx:23-24 | 'Email is required' exactly for the empty address, then 'Email is invalid' exactly when the pattern test fails |
| Login.PasswordError | src/components/loginform.tsx:26-27 | no error exactly when the password has at least 8 characters; 'Password is required' exactly for the empty password |
| Login.FieldErrorsSpec | src/components/loginform.tsx:20-36 | errors are recorded only under the four form fields; each field's entry is that field's own check; name and confirmation errors arise only in register mode; the record is empty exactly when every applicable check passes |
| Login.PipelineIsCapWords | src/components/loginform.tsx:58-63 | split on single spaces, capitalise each piece and re-join is the same as one left-to-right pass that upper-cases the character after each space and lower-cases the rest |
| Login.FormatNameIsCapWords | src/components/loginform.tsx:58-63 | `formatName` is that one-pass capitalisation of the trimmed name |
| Login.FormatNameShape | src/components/loginform.tsx:58-63 | the formatted name is as long as the trimmed name; each character is the trimmed one, upper-cased at a word start and lower-cased elsewhere; so the two agree when case is ignored |
| Login.FormatNameIdempotent | src/components/loginform.tsx:58-63 | formatting a formatted name changes nothing |
| Login.FormatNameExample | src/components/loginform.tsx:58-63 | "jane doe" becomes "Jane Doe" |
| Login.TempAuthRoundTrip | src/components/loginform.tsx:65-71 | the `tempAuthData` the form parks reads back on the tank page as exactly the same name, e-mail and password |
| Login.LoginErrorMessageSpec | vermi-backend/src/components/loginform.tsx:200-206 | a message is set exactly for a thrown value with a `message`: one containing 'Invalid login credentials' shows 'Invalid email or password', any other non-empty one is shown as is, an empty one shows 'Login failed'; a thrown `null` or a value without `message` sets nothing |
| Login.SessionFailureMessage | vermi-backend/src/components/loginform.tsx:200-206 | a missing session after sign-in shows 'Session not available' |
| Login.InputStyleOf | src/components/loginform.tsx:37-49 | error style exactly for a touched field with an error; filled style exactly for a touched, error-free, non-empty field; base style otherwise |
| Login.UntouchedIsBase | src/components/loginform.tsx:37-49 | an untouched field has the base style whatever its error or value |
| Login.LoginForm.constructor | src/components/loginform.tsx:11-17 | all fields empty, sign-in mode, no errors, no touched fields |
| Login.LoginForm.Edit | src/components/loginform.tsx:112 | an input's change sets that field only |
| Login.LoginForm.Touch | src/components/loginform.tsx:113 | a blur marks that field touched and keeps every other mark |
| Login.LoginForm.ValidateForm | src/components/loginform.tsx:20-36 | the stored error record is the field-error function of the current inputs, and the form is valid exactly when it is empty |
| Login.LoginForm.ParkRegistration | src/components/loginform.tsx:58-73 | `tempAuthData` holds the formatted name, the e-mail and the password, and the only navigation is to '/select-tank' |
| Login.LoginForm.SignIn | vermi-backend/src/components/loginform.tsx:180-207 | sign-in uses the normalised address; a sign-in or session failure shows the mapped message, and stores and navigates nothing; success stores the user id, access token and e-mail, calls `onLogin` once, marks the session authenticated, refreshes the user and navigates to '/homepage' |
| Login.LoginForm.SubmitBackend | vermi-backend/src/components/loginform.tsx:162-209 | invalid input makes no call; a valid register submit parks the form and makes no sign-in call; a valid sign-in submit behaves as SignIn |
| Login.LoginForm.SubmitRoot | src/components/loginform.tsx:51-88 | a valid sign-in submit with a truthy token stores `user` and `token`, calls `onLogin` once and navigates to '/homepage'; otherwise it alerts the response's message or 'Login failed'; a thrown value alerts its message, or 'An error occurred' when it is empty or missing; a thrown `null` alerts nothing; only the success path stores or navigates |
| Login.LoginForm.ArriveWith | vermi-backend/src/components/loginform.tsx:40-51 | arriving from tank selection forces register mode, pre-fills the e-mail when one is given and removes `tempAuthData` |
| Login.SignInInsteadThenArrive | vermi-backend/src/components/loginform.tsx:40-51 | after 'Sign in instead' the login page leaves its e-mail and its mode unchanged: the conflicting e-mail is not filled in |
| Login.LoginForm.ToggleMode | src/components/loginform.tsx:179-185 | the mode flips, and the password, confirmation, errors and touched marks are cleared |
| Login.ToggleClearsForm | src/components/loginform.tsx:179-185 | after a mode toggle every field has the base style, and validation fails with 'Password is required' |
| TankSelection.Without | src/components/TankSelection.tsx:230 | the id is gone, every other element's membership is kept, and a list without the id is unchanged |
| TankSelection.Toggle | src/components/TankSelection.tsx:227-233 | the id is selected afterwards exactly when it was not before; other ids keep their membership; a new id is appended at the end |
| TankSelection.ToggleKeepsNoDup | src/components/TankSelection.tsx:227-233 | toggling never introduces a duplicate into a duplicate-free selection |
| TankSelection.ToggleTwice | src/components/TankSelection.tsx:227-233 | toggling twice restores the selected set, and restores the list itself when the id was not selected |
| TankSelection.ToggleTwiceReorders | src/components/TankSelection.tsx:227-233 | toggling a selected id twice can reorder the list: ["a","b"] becomes ["b","a"] |
| TankSelection.PutKeys | src/components/TankSelection.tsx:207-210 | writing a site's entry adds its id to the keys exactly when it was absent |
| TankSelection.PutLookup | src/components/TankSelection.tsx:207-210 | after the write the site holds the written list |
| TankSelection.PutTotal | src/components/TankSelection.tsx:207-210 | a new entry adds its list's length to the tank total |
| TankSelection.PutOther | src/components/TankSelection.tsx:207-210 | writing one site's entry leaves every other site's entry unchanged |
| TankSelection.ParseTempAuth | src/components/TankSelection.tsx:256 | parsing succeeds exactly for a JSON object, and the e-mail is its `email` field |
| TankSelection.FindLocation | vermi-backend/src/components/TankSelection.tsx:193 | no location is found exactly when no loaded location has the id; a found one is loaded and has the id |
| TankSelection.SubmissionError | src/components/TankSelection.tsx:289-294 | the thrown message, or 'Registration failed. Please try again.' for an empty or missing one; nothing for a thrown `null` |
| TankSelection.Precheck | vermi-backend/src/components/TankSelection.tsx:191-211 | unreadable `tempAuthData` or an unknown location halts before the e-mail check; a failed lookup, an existing address (a conflict) or a free address (registration) decide the rest, each about the parked e-mail |
| TankSelection.StoreRegistration | src/components/TankSelection.tsx:281-284 | the access token, user id and e-mail ('' when absent) are stored, `tempAuthData` is removed, and every other key is kept |
| TankSelection.SubmitEnabled | src/components/TankSelection.tsx:442-452 | Submit is enabled only with a selection and no submission in flight; in the backend copy it is also disabled by an e-mail conflict, and by nothing else |
| TankSelection.GatherKeys | src/components/TankSelection.tsx:207-210 | `tanksBySite` is keyed by exactly the distinct site ids, each once |
| TankSelection.GatherLookups | src/components/TankSelection.tsx:207-210 | each site id maps to the list fetched for the last site with that id |
| TankSelection.GatherTotal | src/components/TankSelection.tsx:207-210 | with distinct site ids, the tank total is the number of tanks fetched |
| TankSelection.GatherTanks | src/components/TankSelection.tsx:207-210 | the loop builds the record described by GatherKeys, GatherLookups and GatherTotal |
| TankSelection.TankSelectionPage.constructor | src/components/TankSelection.tsx:101-118 | empty lists and selection, only the locations loading, no errors, no conflict |
| TankSelection.TankSelectionPage.LoadLocations | src/components/TankSelection.tsx:123-150 | success replaces the locations; failure records the locations error; the locations flag ends false |
| TankSelection.TankSelectionPage.SelectLocation | src/components/TankSelection.tsx:354 | the selected location id is set |
| TankSelection.TankSelectionPage.HandleCheckboxChange | src/components/TankSelection.tsx:227-233 | the selection becomes Toggle of the old selection |
| TankSelection.TankSelectionPage.LoadSites | src/components/TankSelection.tsx:157-186 | clearing the location empties sites and `tanksBySite` without a query; otherwise the location's sites are queried and replace the old ones, or the sites error is recorded |
| TankSelection.TankSelectionPage.LoadTanksForSites | src/components/TankSelection.tsx:193-222 | one tank query per site, in order; any failure keeps `tanksBySite` and records 'Failed to load tanks for these sites.'; otherwise `tanksBySite` has the properties GatherTanks proves |
| TankSelection.TankSelectionPage.LoadTanks | vermi-backend/src/components/TankSelection.tsx:135-161 | clearing the location empties both the tank list and the selection without a query; otherwise the tanks replace the list, or the error is recorded |
| TankSelection.TankSelectionPage.CompleteRegistration | src/components/TankSelection.tsx:281-288 | storage as StoreRegistration says, the session authenticated and refreshed, then navigation to '/homepage' |
| TankSelection.TankSelectionPage.SubmitChain | vermi-backend/src/components/TankSelection.tsx:191-242 | the lookup is made exactly when the prechecks pass; a conflict records `{exists: true, email}` and never registers; registration runs only for a free address; any failure sets the submission error and keeps `tempAuthData` |
| TankSelection.TankSelectionPage.HandleSubmit | src/components/TankSelection.tsx:235-298 | an empty selection sets 'Please select at least one tank' and does nothing else; missing `tempAuthData` navigates to '/' before any flag, lookup or registration; otherwise the chain runs and the submission flag ends false |
| TankSelection.TankSelectionPage.SignInInstead | vermi-backend/src/components/TankSelection.tsx:377 | navigates to '/login' with a state that holds the conflicting e-mail but no `fromTankSelection`, and changes nothing else |
| UserSession.RefreshFound | src/contexts/UserContext.tsx:47-61 | a session with a found profile holds the profile, is authenticated, and stores it under `user` |
| UserSession.RefreshCleared | src/contexts/UserContext.tsx:39-67 | no session, a session error or a failed profile lookup all end with no user, not authenticated, and only `user` removed |
| UserSession.RefreshSettles | src/contexts/UserContext.tsx:26-72 | every branch ends with loading false; authenticated exactly when a user is held; only the `user` key can change |
| UserSession.RefreshForgetsPriorSession | src/contexts/UserContext.tsx:26-72 | the outcome depends only on the two lookup answers and the other storage keys |
| UserSession.RefreshIdempotent | src/contexts/UserContext.tsx:26-72 | repeating the refresh with the same answers changes nothing more |
| UserSession.UserStore.constructor | src/contexts/UserContext.tsx:22-24 | no user, not authenticated, loading, not subscribed |
| UserSession.UserStore.SetIsAuthenticated | src/contexts/UserContext.tsx:23 | only the authenticated flag changes |
| UserSession.UserStore.RefreshUser | src/contexts/UserContext.tsx:26-72 | the new state is the refresh function of the old state and the two answers |
| UserSession.UserStore.OnAuthStateChange | src/contexts/UserContext.tsx:90-102 | a sign-out clears the user and all storage; a sign-in with a session re-runs the refresh; other events, and every event after unmount, change nothing |
| UserSession.UserStore.Initialize | src/contexts/UserContext.tsx:77-88 | the first run refreshes once and subscribes; later runs change nothing |
| UserSession.UserStore.Cleanup | src/contexts/UserContext.tsx:104-107 | unmounts and unsubscribes, and keeps the session state |
| UserSession.RemountLeavesNoSubscription | src/contexts/UserContext.tsx:74-108 | mount, cleanup and a second mount refresh once in all, and leave nothing subscribed |
| TankController.ParseInt | vermi-backend/controllers/tankController.js:84 | `NaN` exactly when no digit follows the leading whitespace and optional sign |
| TankController.ParseIntOfString | vermi-backend/controllers/tankController.js:84 | parsing the decimal text of any integer gives that integer back |
| TankController.ParseIntExamples | vermi-backend/controllers/tankController.js:84 | " 12abc" parses to 12, and "abc" to `NaN` |
| TankController.ParseIds | vermi-backend/controllers/tankController.js:84 | one entry per comma-separated segment, in order, each parsed by `parseInt` |
| TankController.ParseIdsCount | vermi-backend/controllers/tankController.js:84 | there is one entry more than there are commas |
| TankController.ParseIdsOfJoin | vermi-backend/controllers/tankController.js:84 | a comma-joined list of integers parses back to the same list |
| TankController.QueryFailed | vermi-backend/controllers/tankController.js:52-58 | 500 with the handler's fixed message; the detail is present exactly in development for a value with a `message`, and is that message; in development a thrown `null` sends nothing |
| TankController.GetTanksByLocation | vermi-backend/controllers/tankController.js:37-59 | an empty `locationId` gives 400 'locationId is required' without a query; otherwise the rows are returned unchanged, or 'Error fetching tanks by location' |
| TankController.GetAllLocations | vermi-backend/controllers/tankController.js:62-77 | the rows are returned unchanged, or 'Error fetching locations' |
| TankController.GetTanksByIds | vermi-backend/controllers/tankController.js:80-106 | a missing `ids` gives 400 'ids query param is required' without a query; otherwise the query asks for one id per segment and the rows are returned unchanged, or 'Error fetching tanks by ids' |
| Monitor.ThresholdsOrdered | vermi-backend/monitor.py:29-39 | every threshold pair has low ≤ high, and the table covers exactly sensors 1, 4 and 8-14 |
| Monitor.GetNotification | vermi-backend/monitor.py:41-56 | no notification exactly when low ≤ value ≤ high; below low says 'too low!' and cites the minimum; above high says 'too high!' and cites the maximum; type 'Compost', category the device |
| Monitor.TooHighIsNotTooLow | vermi-backend/monitor.py:43-48 | with an ordered pair, a reading above high is reported as too high |
| Monitor.NoteFor | vermi-backend/monitor.py:102-103 | a reading raises a notification exactly when its sensor has thresholds and the value is outside them |
| Monitor.Raising | vermi-backend/monitor.py:100-104 | the positions of the raising readings are valid reading indices |
| Monitor.InsertsFromRaising | vermi-backend/monitor.py:100-115 | exactly one insert per raising reading: the k-th insert carries the k-th raising reading's timestamp, location and note |
| Monitor.RaisingIncreasing | vermi-backend/monitor.py:100-104 | the inserts follow the order of the readings |
| Monitor.UnknownSensorsIgnored | vermi-backend/monitor.py:102 | a reading of a sensor without thresholds never adds an insert |
| Monitor.NotifyRows | vermi-backend/monitor.py:100-116 | the loop executes the inserts in order and commits when none fails; a failing insert stops the loop and nothing is committed |
| Monitor.InsertsPrefix | vermi-backend/monitor.py:100-116 | the inserts for a prefix of the readings are a prefix of all the inserts |
| Monitor.CheckAndNotify | vermi-backend/monitor.py:58-126 | a failed sensor fetch or user-database connection inserts nothing; otherwise the run behaves as NotifyRows on the fetched readings |
| Sorting.SortDescSorted | src/pages/CommunityForum.tsx:33-38 | the sort orders by key, largest first |
| Sorting.SortDescPermutes | src/pages/CommunityForum.tsx:33-38 | the sort is a permutation of its input |
| Sorting.SortDescStable | src/pages/CommunityForum.tsx:33-38 | elements with equal keys keep their input order |
| Sorting.StableSortIsUnique | src/pages/CommunityForum.tsx:33-38 | any ordered, stable permutation of the input is the sort's result |
| Forum.Filtered | src/pages/CommunityForum.tsx:24-31 | the filter never lengthens the list |
| Forum.FilteredCounts | src/pages/CommunityForum.tsx:24-31 | every post occurs as often as in the input if the query is empty or matches it, and otherwise not at all |
| Forum.FilteredMembership | src/pages/CommunityForum.tsx:24-31 | a post is kept exactly when it is an input post and the query is empty or occurs, lower-cased, in its title, sub-topic or content |
| Forum.FilteredIgnoresCase | src/pages/CommunityForum.tsx:27-29 | an upper-cased query finds the same posts |
| Forum.NoPostsNoResult | src/pages/CommunityForum.tsx:22 | no posts give no result |
| Forum.SortedPostsSpec | src/pages/CommunityForum.tsx:33-38 | the shown posts are the filtered posts, reordered by the chosen key, largest first, keeping ties in order |
| Forum.PopularOrder | src/pages/CommunityForum.tsx:34-35 | under 'popular', each post has at least as many likes as every later one, with a missing count taken as 0 |
| Forum.RecentOrder | src/pages/CommunityForum.tsx:37 | under 'recent', each post is at least as new as every later one |
| Forum.EmptySearchKeepsAll | src/pages/CommunityForum.tsx:24-38 | an empty search shows every post, only reordered |
| Forum.ParamOrAbsent | src/pages/CommunityForum.tsx:16-17 | an empty topic or sub-topic parameter reads as absent |
| Forum.TabUrl | src/pages/CommunityForum.tsx:45-51 | tab 'all' goes to '/community' and no other tab does; any other tab goes to '/community?topic=' followed by the encoded id |
| ForumHooks.WithCounts | vermi-backend/src/hooks/usePosts.ts:41-59 | every post gets its like and comment counts, or 0 for a `null` count |
| ForumHooks.WithCountsKeepsRows | vermi-backend/src/hooks/usePosts.ts:53-57 | the merge keeps the order of the rows and every field except the counts |
| ForumHooks.WithCountsIdempotent | vermi-backend/src/hooks/usePosts.ts:41-59 | merging the counts again changes nothing |
| ForumHooks.Fresh | vermi-backend/src/hooks/usePosts.ts:94 | the new post has both counts 0 and otherwise is the inserted row |
| ForumHooks.PostsStore.constructor | vermi-backend/src/hooks/usePosts.ts:6-8 | no posts, loading, no error |
| ForumHooks.PostsStore.FetchPosts | vermi-backend/src/hooks/usePosts.ts:10-67 | topic filters only for non-empty parameters; success replaces the posts with the merged rows; failure keeps the posts and records the message or 'Unknown error'; loading ends false |
| ForumHooks.PostsStore.CreatePost | vermi-backend/src/hooks/usePosts.ts:73-100 | success puts the fresh post in front of the unchanged earlier posts; failure records the message or 'Failed to create post', rethrows and keeps the posts |
| ForumHooks.ErrorIsSticky | vermi-backend/src/hooks/usePosts.ts:10-100 | once the error is set, fetching and creating posts never clear it, and neither do fetching and creating comments (src/hooks/useComments.ts:12-66) |
| ForumHooks.WithLikes | src/hooks/useComments.ts:25-37 | every comment gets its like count, or 0 for a `null` count |
| ForumHooks.WithLikesKeepsRows | src/hooks/useComments.ts:32-35 | the merge keeps the order of the comments and every field except the like count |
| ForumHooks.CommentsStore.constructor | src/hooks/useComments.ts:7-10 | no comments, loading, no error |
| ForumHooks.CommentsStore.FetchComments | src/hooks/useComments.ts:12-48 | a falsy post id makes no query and changes nothing; otherwise success replaces the comments with the merged rows, failure records the message or 'Unknown error', and loading ends false |
| ForumHooks.CommentsStore.CreateComment | src/hooks/useComments.ts:50-66 | success appends the comment with 0 likes after the unchanged earlier ones; failure records the message or 'Failed to create comment', rethrows and keeps the comments |
| ForumWidgets.TargetOf | src/components/forum/Likebutton.tsx:42 | the query targets `post_id` exactly when the post id is truthy, and `comment_id` otherwise |
| ForumWidgets.AfterToggle | src/components/forum/Likebutton.tsx:53-78 | a successful unlike takes one like away and a successful like adds one; a failed request changes nothing |
| ForumWidgets.ToggleTwiceRestores | src/components/forum/Likebutton.tsx:53-78 | a successful like followed by a successful unlike, or the reverse, restores the count and the flag |
| ForumWidgets.ToggleKeepsOthers | src/components/forum/Likebutton.tsx:53-78 | the likes of everyone else never change |
| ForumWidgets.LikeButton.constructor | src/components/forum/Likebutton.tsx:12-15 | the count is the initial one, not liked, no user |
| ForumWidgets.LikeButton.FetchUser | src/components/forum/Likebutton.tsx:17-32 | the user id is set only when both the account and its `users` row are found |
| ForumWidgets.LikeButton.CheckIfLiked | src/components/forum/Likebutton.tsx:34-48 | skipped without a user id; otherwise liked exactly when the count is positive |
| ForumWidgets.LikeButton.HandleLike | src/components/forum/Likebutton.tsx:50-79 | without a user id nothing happens; otherwise a delete when liked and an insert when not, with the state changed as AfterToggle says |
| ForumWidgets.ClickLikeButton | src/components/forum/Likebutton.tsx:85 | a click sends a request exactly when the button is enabled, and a disabled button's click leaves the count and the liked flag as they were |
| ForumWidgets.PostFormError | src/components/forum/CreatePost.tsx:19-22 | 'Title, content, and topic are required' exactly when one of the three is empty; whitespace passes |
| ForumWidgets.CreatePostForm.constructor | src/components/forum/CreatePost.tsx:8-13 | empty fields, not submitting, no error |
| ForumWidgets.CreatePostForm.HandleSubmit | src/components/forum/CreatePost.tsx:17-53 | a missing field submits nothing; otherwise the post carries the user id and the four fields; success clears the fields, puts the post in front and goes to '/community'; failure keeps the fields, shows 'Failed to create post. Please try again.' and leaves the store's error as `createPost` sets it; the store's loading flag never changes; submitting ends false |
| ForumWidgets.CommentError | src/components/forum/CreateComment.tsx:22-25 | 'Comment cannot be empty' exactly for empty or whitespace-only content |
| ForumWidgets.SubmitDisabled | src/components/forum/CreateComment.tsx:72 | disabled exactly while submitting or when the content is blank (line 74 of the backend copy) |
| ForumWidgets.EnabledSubmitPasses | src/components/forum/CreateComment.tsx:72 | an enabled button never submits content the handler refuses |
| ForumWidgets.CreateCommentForm.constructor | src/components/forum/CreateComment.tsx:14-17 | empty content, not submitting, no error, no callbacks |
| ForumWidgets.CreateCommentForm.HandleSubmit | src/components/forum/CreateComment.tsx:20-48 | blank content inserts nothing; otherwise the row has the post id, the user id and the untrimmed content; success clears the content and calls back once if there is a callback; failure keeps the content and shows the message or 'Failed to post comment'; submitting ends false |
| ForumWidgets.SubmitEnabledComment | src/components/forum/CreateComment.tsx:72 | pressing the enabled submit button always inserts the content as typed |
| ForumViews.Precedence | vermi-backend/src/components/forum/PostList.tsx:32-34 | loading text, then the error, then the empty text, then the items (also CommentList.tsx:14-16) |
| ForumViews.Toggled | vermi-backend/src/components/forum/PostList.tsx:26-27 | closed exactly when it was the open one; otherwise that post is open |
| ForumViews.ToggledOpens | vermi-backend/src/components/forum/PostList.tsx:26-30 | a post is open afterwards exactly when it is the toggled one and was not open, so at most one is open |
| ForumViews.ToggledTwice | vermi-backend/src/components/forum/PostList.tsx:26-27 | toggling twice leaves the post open only if it was open before |
| ForumViews.PostListState.constructor | vermi-backend/src/components/forum/PostList.tsx:20-22 | nothing open, refresh key 0 |
| ForumViews.PostListState.TriggerRefresh | vermi-backend/src/components/forum/PostList.tsx:24 | the refresh key goes up by exactly 1 |
| ForumViews.PostListState.ToggleComments | vermi-backend/src/components/forum/PostList.tsx:26-27 | the open comment section toggles and the reply form is untouched |
| ForumViews.PostListState.ToggleCommentForm | vermi-backend/src/components/forum/PostList.tsx:29-30 | the open reply form toggles and the comment section is untouched |
| ForumViews.ReplyFormExclusive | vermi-backend/src/components/forum/PostList.tsx:150 | a shown reply form lies in its post's open comment section, and no other post shows one at the same time |
| ForumViews.NoReplyFormSignedOut | vermi-backend/src/components/forum/PostList.tsx:150 | without a truthy user id no post shows a reply form |
| ForumViews.CommentLabel | vermi-backend/src/components/forum/PostList.tsx:120 | the label ends in 's' exactly when the count is not 1 |
| ForumViews.CommentLabelCount | vermi-backend/src/components/forum/PostList.tsx:120 | the label starts with the count, and a missing count reads '0 comments' |
| ForumViews.TopicBadge | vermi-backend/src/components/forum/PostList.tsx:89-108 | no badge for an empty topic; a listed topic gets its style and icon; any other topic gets the slate style and no icon |
| ForumViews.TopicTablesAgree | vermi-backend/src/components/forum/PostList.tsx:36-48 | the style and icon tables name the same four topics |
| ForumViews.AuthorLine | vermi-backend/src/components/forum/PostList.tsx:77-85 | shown only with an author: the name, then a non-empty location name unchanged, or 'Unknown Location' when it is missing or empty |
| ForumViews.DateStyleAt | vermi-backend/src/components/forum/PostList.tsx:53-57 | absolute date exactly for items more than one day old (the same in CommentList.tsx:26-30) |
| ForumViews.AbsoluteStaysAbsolute | vermi-backend/src/components/forum/PostList.tsx:53-57 | a date shown absolute stays absolute as time passes |
| ForumViews.CommentsAsWrittenSpec | vermi-backend/src/components/forum/CommentList.tsx:19-21 | the comparator as written sorts newest first, and the result is a permutation of the comments |
| ForumViews.CommentsAsWrittenReverses | vermi-backend/src/components/forum/CommentList.tsx:19-21 | comments with distinct times given oldest first come out exactly reversed |
| ForumViews.CommentsOldestFirstSpec | vermi-backend/src/components/forum/CommentList.tsx:18-21 | the corrected sort is oldest first and a permutation of the comments |
| ForumViews.OldestFirstKeepsFetchOrder | vermi-backend/src/components/forum/CommentList.tsx:18-21 | the hook's oldest-first list comes out of the corrected sort unchanged |
| ForumViews.CommentListViewAsWritten | vermi-backend/src/components/forum/CommentList.tsx:14-25 | what the page shows: the loading text while loading, else a non-empty error, else 'No comments yet' for no comments, else every comment, newest first |
| ForumViews.CommentListViewIntended | vermi-backend/src/components/forum/CommentList.tsx:14-25 | the corrected view: the same precedence, with every comment oldest first |
| ForumViews.LoadedCommentsOrder | vermi-backend/src/components/forum/CommentList.tsx:14-25 | loaded comments in fetch order with distinct times are shown back to front as written, and in fetch order when corrected |
| ForumViews.InitialsOfWords | vermi-backend/src/ui/userAvatar.tsx:11-17 | for words joined by single spaces, the initials are each word's first character, upper-cased |
| ForumViews.LeadingSpaceIgnored | vermi-backend/src/ui/userAvatar.tsx:11-17 | a leading space adds no initial |
| ForumViews.InitialsBound | vermi-backend/src/ui/userAvatar.tsx:11-17 | at most one initial per space-separated piece |
| ForumViews.InitialsExample | vermi-backend/src/ui/userAvatar.tsx:11-17 | "jane  doe", with two spaces, gives "JD" |
| TopNav.TableTitle | src/components/topnav.tsx:8-18 | the table's non-empty entry for a listed path, '' for any other path |
| TopNav.StoredName | src/components/topnav.tsx:32-45 | a found name is non-empty, and without a `user` item there is no name |
| TopNav.Title | src/components/topnav.tsx:32-45 | every path but '/homepage' gets its table title; on '/homepage' the effect aborts exactly when reading the stored name throws |
| TopNav.GreetingUsesName | src/components/topnav.tsx:39-41 | with a stored name the title is 'Welcome! ' + the name with only its first character upper-cased |
| TopNav.GreetingDefault | src/components/topnav.tsx:33-35 | without a stored name the homepage title stays 'Welcome! Hazel' |
| TopNav.RefreshedSessionKeepsDefault | src/components/topnav.tsx:32-45 | after any refresh of the session provider the homepage reads 'Welcome! Hazel', because the cached profile has no `name` |
| TopNav.BackendLoginGreets | src/components/topnav.tsx:32-45 | the public user of the backend login, stored under `user`, greets by its username |
| TopNav.TopNavBar.constructor | src/components/topnav.tsx:32-45 | mounting runs the title effect for the first path, from ''; the tree is unmounted exactly when that effect throws |
| TopNav.TopNavBar.RunTitleEffect | src/components/topnav.tsx:32-45 | the title becomes the computed one; when the effect throws, the uncaught error unmounts the tree and it stays unmounted |
| TopNav.TopNavBar.ChangePath | src/components/topnav.tsx:32-45 | on a mounted bar the effect re-runs only when the path changed, and a throwing re-run unmounts the tree |
| TopNav.TopNavBar.ToggleProfile | src/components/topnav.tsx:107 | on a mounted bar the popover flag flips |
| TopNav.TopNavBar.ClosePopover | src/components/topnav.tsx:122 | on a mounted bar the popover closes |
| TopNav.OrElse | src/components/topnav.tsx:44 | the computed title when there is one, the previous title otherwise |
| TopNav.ActiveIsExact | src/components/topnav.tsx:47 | a path is active only if it equals the current path exactly, so two different paths are never both active |
| NotificationPage.Icon | src/pages/NotificationPage.tsx:73-77 | the plant for 'plant' in any case, the worm for 'compost' in any case, the bell for anything else |
| NotificationPage.IconIgnoresCase | src/pages/NotificationPage.tsx:74-75 | an upper-cased type gets the same icon |
| NotificationPage.MonitorNotesShowWorm | src/pages/NotificationPage.tsx:75 | every notification the sensor monitor writes shows the worm |
| NotificationPage.Fetch | src/pages/NotificationPage.tsx:24-68 | the first query asks for the signed-in user; rows are shown exactly when all three queries run and the last one succeeds |
| NotificationPage.FetchStopsAtFirstFailure | src/pages/NotificationPage.tsx:33-64 | a failing auth, location or notifications query ends the chain right there with nothing shown |
| NotificationPage.FetchSuccess | src/pages/NotificationPage.tsx:53-67 | when every step succeeds the rows are shown, or none for `null` data |
| NotificationPage.FetchAsksOwnLocation | src/pages/NotificationPage.tsx:39-58 | the only notifications asked for are those at the signed-in user's own location |
| NotificationPage.AtLocation | src/pages/NotificationPage.tsx:55-57 | every selected row is at the location |
| NotificationPage.AtLocationCounts | src/pages/NotificationPage.tsx:55-57 | every row at the location is selected as often as it is stored, and no other row is selected |
| NotificationPage.AnswerExists | src/pages/NotificationPage.tsx:53-58 | every table has a correct answer: its rows at the location, newest first |
| NotificationPage.AnswerIsTheLocation | src/pages/NotificationPage.tsx:53-58 | a correct answer holds exactly the table's rows at the location |
| NotificationPage.FetchShowsOwnLocation | src/pages/NotificationPage.tsx:25-66 | when every step succeeds and the third query is answered correctly, the page shows exactly the notifications at the user's own location |
| NotificationPage.ViewOf | src/pages/NotificationPage.tsx:84-107 | loading text, then 'No notifications found.' for an empty list, then one card per notification with its icon, header, message and category |
| NotificationPage.NotificationsPage.constructor | src/pages/NotificationPage.tsx:21-22 | no notifications, loading |
| NotificationPage.NotificationsPage.FetchNotifications | src/pages/NotificationPage.tsx:25-68 | the queries are Fetch's; loading ends false on every path; the rows replace the list only when the chain completes |
| WeatherImpact.Predict | src/pages/pred/WeatherImpact.tsx:13-29 | days are 20, 30 or 40, matching Fast, Moderate or Slow and each outcome's own tip |
| WeatherImpact.PredictCases | src/pages/pred/WeatherImpact.tsx:18-26 | Fast exactly for hot, dry and sunny; Slow exactly when not Fast and rainy or humid; Moderate otherwise |
| WeatherImpact.HumidIsSlow | src/pages/pred/WeatherImpact.tsx:22 | humidity above 80 always predicts Slow, 40 days |
| WeatherImpact.LocationAndTypeIgnored | src/pages/pred/WeatherImpact.tsx:13-29 | the location and the compost type never change the prediction |
| WeatherImpact.InitialReadingsModerate | src/pages/pred/WeatherImpact.tsx:4-9 | the default readings predict Moderate, 30 days |
| WeatherImpact.AfterPredict | src/pages/pred/WeatherImpact.tsx:28 | the prediction for the form replaces whatever was shown, and the form is kept |
| WeatherImpact.PredictAgainSame | src/pages/pred/WeatherImpact.tsx:13-29 | predicting again without changing the form shows the same result |
| NutrientDeficiency.Texts | vermi-backend/src/pages/pred/NutrientDeficiency.tsx:9-17 | one text per recommendation, in order |
| NutrientDeficiency.RankedAppend | vermi-backend/src/pages/pred/NutrientDeficiency.tsx:9-17 | appending a recommendation checked later keeps the test order |
| NutrientDeficiency.DiagnosisMembership | vermi-backend/src/pages/pred/NutrientDeficiency.tsx:11-15 | each recommendation appears exactly when its own strict test fails |
| NutrientDeficiency.DiagnosisOrdered | vermi-backend/src/pages/pred/NutrientDeficiency.tsx:9-17 | rows keep the order N, P, K, acidic, alkaline, so none repeats |
| NutrientDeficiency.DiagnosisAtMostFour | vermi-backend/src/pages/pred/NutrientDeficiency.tsx:14-15 | the acidic and alkaline rows never appear together, so there are at most four rows |
| NutrientDeficiency.EmptyDiagnosisIff | vermi-backend/src/pages/pred/NutrientDeficiency.tsx:11-15 | no row exactly when N ≥ 40, P ≥ 30, K ≥ 30 and 6.5 ≤ pH ≤ 7.5 |
| NutrientDeficiency.NutrientForm.constructor | vermi-backend/src/pages/pred/NutrientDeficiency.tsx:4-6 | readings N 30, P 40, K 20, pH 6.0, and no diagnosis |
| NutrientDeficiency.NutrientForm.Analyze | vermi-backend/src/pages/pred/NutrientDeficiency.tsx:8-18 | the new list is the texts of the diagnosis and replaces the previous one |
| NutrientDeficiency.ShowsDiagnosisAfterAnalyze | vermi-backend/src/pages/pred/NutrientDeficiency.tsx:62 | after analysing, the diagnosis block is shown exactly when some reading is out of range |
| NutrientDeficiency.InitialDiagnosis | vermi-backend/src/pages/pred/NutrientDeficiency.tsx:11-15 | the initial readings diagnose low nitrogen, low potassium and acidity |
| CompostSimulator.Maturity | src/pages/pred/CompostSimulator.tsx:11 | maturity never exceeds 100, and below the cap it is five times the waste, less 10 when rainy |
| CompostSimulator.CapReached | src/pages/pred/CompostSimulator.tsx:11 | the cap is reached exactly from 20 kg in dry weather, or 22 kg when rainy |
| CompostSimulator.NoLowerClamp | src/pages/pred/CompostSimulator.tsx:11 | no waste on a rainy day gives -10 |
| CompostSimulator.OnlyRainMatters | src/pages/pred/CompostSimulator.tsx:11 | every weather but 'Rainy' behaves as 'Dry' |
| CompostSimulator.MaturityMonotone | src/pages/pred/CompostSimulator.tsx:11 | more waste never lowers maturity, and rain never raises it |
| PlantReadyEstimator.BaseDays | vermi-backend/src/pages/pred/PlantReadyEstimator.tsx:20 | 28 days exactly for 'Mint', 35 for any other selection, the empty one included |
| PlantReadyEstimator.ResultHalfDays | vermi-backend/src/pages/pred/PlantReadyEstimator.tsx:21-22 | the clamped estimate is at least 7 days (14 half-days) |
| PlantReadyEstimator.DaysLeft | vermi-backend/src/pages/pred/PlantReadyEstimator.tsx:23 | at least 7 days, and the half-day count rounded up to a whole day |
| PlantReadyEstimator.HalfDaysExact | vermi-backend/src/pages/pred/PlantReadyEstimator.tsx:21-22 | the half-day count is exactly twice the estimate computed over the reals |
| PlantReadyEstimator.DaysLeftIsRounded | vermi-backend/src/pages/pred/PlantReadyEstimator.tsx:22-23 | the days left are `Math.round` of the real estimate, i.e. floor of it plus ½ |
| PlantReadyEstimator.HalvesRoundUp | vermi-backend/src/pages/pred/PlantReadyEstimator.tsx:23 | k + ½ days round to k + 1; whole days stay |
| PlantReadyEstimator.AtLeastAWeek | vermi-backend/src/pages/pred/PlantReadyEstimator.tsx:22 | the clamp comes before rounding, so at least 7 days are left, and exactly 7 once the estimate is at most 7 |
| PlantReadyEstimator.MoistureIgnored | vermi-backend/src/pages/pred/PlantReadyEstimator.tsx:14 | the N/P/K moisture sliders never change the estimate |
| PlantReadyEstimator.InitialEstimate | vermi-backend/src/pages/pred/PlantReadyEstimator.tsx:13-15 | the default inputs give 26.5 days, shown as 27 |
| PlantReadyEstimator.AfterEstimate | vermi-backend/src/pages/pred/PlantReadyEstimator.tsx:19-25 | the shown days become `DaysLeft` of the form (so the rounded estimate, at least 7) and the fixed recommendation replaces the old one; the form is kept |

## Left out

- Rendering markup, styling, animation and console logging are not modelled. The model covers only the state and the choices the views make: the input-style choice, the view precedence, badges, labels and icons.
- The origin that prefixes the sign-up's `emailRedirectTo` is browser state. The model records only the '/homepage' path.
- The avatar's `title` attribute (the username) is render-only and is not modelled.
- Concurrency is not modelled. `Promise.all`, auth events arriving while a refresh is in flight, and the monitor's `schedule` loop are treated as sequential, atomic steps.
- The monitor's SQL text and database connections are not modelled. Each query answer and each insert failure is a parameter.
- Every foreign library is an oracle: Supabase, bcrypt, jsonwebtoken, psycopg2, `encodeURIComponent`, and date-fns formatting.
- The contents of the JWT are not modelled beyond the e-mail passed to the signer. This includes the `id` claim of the registration token, which reads an `id` column the insert never returns.
- `new Date(...)` and date parsing are not modelled: every time is given as epoch milliseconds, and an invalid date (`NaN`) is not modelled.
- `subDays(now, 1)` is taken to be exactly 86 400 000 ms, so daylight-saving transitions are ignored.
- The notifications query orders by the `timestamp` column; the model orders by the row's numeric time.
- `toUpperCase` and `toLowerCase` map ASCII letters only. Strings are sequences of code points, not UTF-16 code units.
- `JSON.stringify` and `JSON.parse` are taken to be exact inverses on the flat objects the app stores.
  - A stored plain text in `user` reads as a `JSON.parse` failure.
  - A truthy non-string `name` reads as the `charAt` failure it causes.
- `localeCompare` sorting in TankSelection's display is not modelled.
- CO2Estimator and the `co2Saved` figure of CompostSimulator are not modelled, because they are floating-point output (`parseFloat`, `toFixed`).
- `parseInt` and `parseFloat` on the estimators' inputs are not modelled: the inputs are assumed to be integers, so `NaN` on an empty input is not covered.
- Monitor.GetNotification: sensor values are assumed non-null. A SQL `NULL` reading would make the comparison raise a `TypeError` and abort the loop before `commit`, which the model does not capture.
- TankController.ParseInt: the parsed integer is unbounded. JavaScript's `parseInt` returns a double, which loses precision above 2^53.
- The pH readings and monitor thresholds (such as 4.7) are exact reals, not binary floating point.
- The prototype keys of `pageTitles`, `topicStyles` and `topicIcons` (such as `constructor`) are not reachable in the model: each table is a finite map.
- The `totalTanks` value of both TankSelection copies is never rendered. It is modelled as `TankSelection.TotalTanks`, but no page state holds it.
- `isApiError` and the type declarations in `types.ts` are dynamic typing with no behaviour to model.
- CreatePost's mount-time fetch of its own `usePosts` instance is not modelled. Only the store's `createPost` is.

The following behaviours of the source are modelled as written and are not corrected:

- `useComments` never takes `loading` down for a falsy post id.
- The root TankSelection leaves `loading.tanks` true when a location has no sites.
- The root TankSelection does not clear the selection when the location changes.
- The root TankSelection never renders `error.submission` or `emailConflict`.
- A thrown `null` in the login and tank-selection handlers sets no message. In the backend login form, a thrown value without `message` sets none either.
- The backend's 'Sign in instead' sends only `prefilledEmail`, and the login page reads it only together with `fromTankSelection`, so the conflicting e-mail is not filled in.
- A throwing title effect in the top bar is not caught by any error boundary, so the whole tree unmounts.
- `registerUserAndAssignTanks` throws `null` when the users insert reports neither an error nor a row.
- After `refreshUser`, the top bar greets with 'Welcome! Hazel', because the cached profile has `username` and no `name`.

## Findings

| source | as written | input that shows it | evidently intended | confidence | as-written member | corrected member |
|---|---|---|---|---|---|---|
| vermi-backend/src/components/forum/CommentList.tsx:18-21 | The comparator `(b, a) => time(a) - time(b)` has its parameters swapped. It is `time(second) - time(first)`, so a later comment sorts first. | Comments fetched oldest first with distinct times, such as c1 before c2, are shown as [c2, c1], newest first. | The remark on line 18 says oldest first, which is also the order in which `useComments` fetches the comments. | medium, not executed | ForumViews.CommentListViewAsWritten (ForumViews.CommentsAsWrittenReverses, ForumViews.LoadedCommentsOrder) | ForumViews.CommentListViewIntended (ForumViews.CommentsOldestFirstSpec, ForumViews.OldestFirstKeepsFetchOrder, ForumViews.LoadedCommentsOrder) |
