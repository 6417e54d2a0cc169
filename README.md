# UrbanSync client core, in Dafny

UrbanSync is a civic issue-reporting web client: citizens report issues on a
map, department staff post official updates, and everyone signs in through a
hosted identity provider. This project models the client's session lifecycle
and the small rules around it:

- the Redux session store (`UserSlice`, a pure reducer `Reduce` plus the
  `UserStore` class whose methods assign the three fields in place);
- the fetch saga with `takeLatest` (`UserSaga`; a `FetchWatcher` class keeps
  a generation counter and drops the outcome of any superseded lookup);
- the auth bootstrapper (`AuthProvider.Provider`): the session probe, auth
  events, unsubscribe on teardown, the loading gate and the published view
  (`AuthContext`), and the route gate (`ProtectedRoute`);
- the sign-out handler (`SignOut`);
- the registration and sign-in forms (`Register`, `Login`, with the shared
  e-mail rule in `FormRules`);
- the department dashboard and profile aggregation (`IssueLists`,
  `OfficialDashboard`, `UserProfile`, `UserDetails`);
- the map's location picker (`MapPicker`);
- the status badge, the official-update form, the issue sidebar and the
  comment box (`StatusBadge`, `DepartmentUpdateForm`, `IssueSidebar`,
  `CommentForm`);
- the shared enumerations and records (`Schema`);
- the permission-test tally (`TestRunner`).

`Text` holds the string operations these rely on: the JavaScript whitespace
class, `trim`, `includes`, `toLowerCase` and first-letter capitalisation.
`Wrappers` holds `Option`.

External services never appear as calls. The identity provider, the GraphQL
data service and timers appear only as the events they deliver. Each such
event is a method on the class that receives it (`ProbeResolved`,
`OnAuthStateChange`, `FetchSettled`, `SignUpFinished`, `ResetTimerFired`,
`WaitElapsed`, `Settled`) or a parameter of a pure function (a `QueryState`).

Where the description of the system and the code differ, the model follows
the code, with the one exception noted in the first item:

- `AuthProvider.tsx:4,23` uses a `fetchUser(...).unwrap()` that
  `userSlice.ts:48-55` does not export. Taken literally, `fetchUser` is
  undefined and the call throws before anything is dispatched (or the import
  fails to resolve). Here the model departs from the code and follows the
  provider's initialization test
  (`AuthProvider.initialization.test.tsx:52-66`), which expects
  `fetchUserRequest` to be dispatched: it reads `fetchUser` as that action
  creator, so the request goes to the store and the saga starts the lookup. `dispatch` then hands back the plain action, which
  has no `unwrap`, so the call throws. In the probe the `catch` dispatches
  `clearUser` at once (`ProbeResolved`): a user already in the store is
  dropped, the store stays loading, and the user returns only when the
  lookup succeeds. In the auth-event callback nothing catches the throw, so
  only the request is dispatched (`OnAuthStateChange`). The provider leaves
  its initializing phase as soon as the probe has answered. The loading
  screen stays up anyway, because the store is loading until the lookup
  settles (`Render`).
- The registration page's minimum password length counts UTF-16 code
  units (`length`), so a character above U+FFFF counts twice
  (`Register.PasswordCountsCodeUnits`).
- The published value (`AuthProvider.tsx:56-60`) has no `error` field, so
  consumers always read `error` as absent (`PublishedView`).
- `setError` can leave the store both loading and in error
  (`UserSlice.SetErrorWhileLoading`). "Loading excludes error" holds only for
  histories without `setError` (`UserSlice.LoadingExcludesErrorKept`).
- A probe that answers after teardown still dispatches. Nothing in the
  source guards against it, so `ProbeResolved` does not require the
  subscription to be held.
- The dashboard's role check (`OfficialDashboard.tsx:111-117`) builds an
  error element and never returns it, so the role has no effect
  (`OfficialDashboard.RoleDoesNotMatter`).
- `ProtectedRoute` has no role gate.
- A temporary marker at latitude or longitude 0 is never drawn
  (`MapPicker.ZeroCoordinateHidesMarker`).
- A department staff member who has no department gets the update form on
  every issue that has no department either
  (`IssueSidebar.UnassignedStaffOnUnassignedIssue`).
- The sign-in page validates and then moves to the dashboard after a delay,
  without calling the identity provider.

## Model

| member | source | states |
|---|---|---|
| Text.TrimStart | frontend/src/features/issue/DepartmentUpdateForm.tsx:69 | the result is a suffix of the input, the dropped prefix is all whitespace, and the result is empty or starts with a visible character |
| Text.TrimEnd | frontend/src/features/issue/DepartmentUpdateForm.tsx:69 | the result is a prefix of the input, the dropped suffix is all whitespace, and the result is empty or ends with a visible character |
| Text.TrimEmptyIffBlank | frontend/src/components/issue/CommentForm.tsx:16 | `!text.trim()` holds exactly when every character is whitespace (both directions) |
| Text.Trim | frontend/src/components/issue/CommentForm.tsx:23 | `trim()`: the trimmed text is no longer than the original and occurs in it right after the leading whitespace; everything before and after it is whitespace; it is empty or starts and ends with a visible character |
| Text.IsWhitespace | frontend/src/pages/Register.tsx:66 | the `\s` class of the e-mail pattern (and of `trim`); no printable ASCII character belongs to it |
| Text.Contains | frontend/src/pages/Register.tsx:114-118 | `includes`: the empty string occurs in every string, and a string never occurs in a shorter one |
| Text.Utf16Length | frontend/src/pages/Register.tsx:72 | `length` in UTF-16 code units: between one and two per character, and equal to the character count exactly when no character lies above U+FFFF |
| Text.ToLower | frontend/src/pages/Register.tsx:113 | the lower-cased text has the same length and each character lower-cased |
| Text.Capitalize | frontend/src/features/User/UserDetails.tsx:43 | same length; the first character upper-cased and the rest unchanged |
| Schema.ParseRole | frontend/src/types/schema.ts:2 | accepts exactly the three role names: a parsed role prints back as the input, and a rejected input is no role's name |
| Schema.ParseStatus | frontend/src/types/schema.ts:3 | accepts exactly the three status names, round-tripping with `StatusName` |
| Schema.ParseIssueType | frontend/src/types/schema.ts:5-16 | accepts exactly the eleven issue-type names, round-tripping with `IssueTypeName` |
| Schema.CategoryLabelsComplete | frontend/src/types/schema.ts:102-114 | the label table covers all eleven issue types, each once, and no two types share a label |
| UserSlice.InitialState | frontend/src/store/userSlice.ts:11-15 | no user, not loading, no error |
| UserSlice.Reduce | frontend/src/store/userSlice.ts:20-45 | `loading` is set by a request, cleared by success or failure and otherwise kept; only setUser, clearUser and success change the user; clearUser empties it; setUser and success install the payload; the error is the payload of setError or failure and is cleared by every other action |
| UserSlice.ReduceAllSnoc | frontend/src/store/userSlice.ts:17-45 | replaying a history plus one action is one more reducer step on the replayed state |
| UserSlice.EndsInClearUser | frontend/src/store/userSlice.ts:25-28 | any history that ends in clearUser leaves no user and no error, and keeps the loading flag it had |
| UserSlice.RequestIgnoresId | frontend/src/store/userSlice.ts:32-35 | the reducer ignores the request's id |
| UserSlice.ClearUserIdempotent | frontend/src/store/userSlice.ts:25-28 | clearing twice is the same as clearing once |
| UserSlice.RequestThenSuccess | frontend/src/store/userSlice.ts:32-40 | a request followed by success is signed in as the fetched user, not loading, no error, from any state |
| UserSlice.RequestThenFailure | frontend/src/store/userSlice.ts:32-44 | a request followed by failure keeps the previous user, is not loading and holds the failure's message |
| UserSlice.LoadingExcludesErrorKept | frontend/src/store/userSlice.ts:29-44 | from a state that is not both loading and in error, no history without setError reaches one that is |
| UserSlice.SetErrorWhileLoading | frontend/src/store/userSlice.ts:29-35 | a request followed by setError is loading and in error at once |
| UserSlice.UserStore.constructor | frontend/src/store/userSlice.ts:11-15 | the store starts in the initial state |
| UserSlice.UserStore.SetUser | frontend/src/store/userSlice.ts:21-24 | sets the user and clears the error, loading unchanged; agrees with `Reduce` |
| UserSlice.UserStore.ClearUser | frontend/src/store/userSlice.ts:25-28 | clears user and error, loading unchanged; agrees with `Reduce` |
| UserSlice.UserStore.SetError | frontend/src/store/userSlice.ts:29-31 | changes only the error; agrees with `Reduce` |
| UserSlice.UserStore.FetchUserRequest | frontend/src/store/userSlice.ts:32-35 | starts loading and clears the error, user unchanged; agrees with `Reduce` |
| UserSlice.UserStore.FetchUserSuccess | frontend/src/store/userSlice.ts:36-40 | stops loading, installs the user, clears the error; agrees with `Reduce` |
| UserSlice.UserStore.FetchUserFailure | frontend/src/store/userSlice.ts:41-44 | stops loading and records the message, user unchanged; agrees with `Reduce` |
| UserSlice.UserStore.Dispatch | frontend/src/store/userSlice.ts:20-45 | any action moves the store to `Reduce` of its old state |
| UserSaga.FetchUserSaga | frontend/src/store/userSaga.ts:34-56 | exactly one of success or failure; success exactly when the answer's first row is present and not null (`data?.users?.[0]`), carrying that row; "User not found" for a missing or empty list or a null first row; a thrown Error's message, or "Failed to fetch user" for any other thrown value |
| UserSaga.SagaEndsLoading | frontend/src/store/userSaga.ts:47-55 | whatever the outcome, the saga's action ends loading; success signs the non-null first row in and failure keeps the previous user |
| UserSaga.RequestThenAnswer | frontend/src/store/userSaga.ts:47-55 | a request followed by the saga's answer is never left loading |
| UserSaga.FetchWatcher.constructor | frontend/src/store/userSaga.ts:58-60 | no request seen, nothing outstanding |
| UserSaga.FetchWatcher.Request | frontend/src/store/userSaga.ts:58-60 | the store takes the request; a new generation starts for the request's id and supersedes any pending lookup; the lookup is keyed by that id |
| UserSaga.FetchWatcher.Settle | frontend/src/store/userSaga.ts:58-60 | only the newest outstanding lookup reaches the store, with exactly the saga's action for its outcome, ending loading; a superseded lookup changes nothing; store and watcher stay in step |
| AuthContext.DefaultView | frontend/src/contexts/AuthContext.ts:11-16 | no user, not authenticated, loading, no error, and consistent |
| ProtectedRoute.Gate | frontend/src/components/ProtectedRoute.tsx:10-23 | the verification screen exactly while loading; a replacing redirect to /login carrying the location exactly when settled and unauthenticated; the children exactly when settled and authenticated |
| ProtectedRoute.GateReadsOnlyFlags | frontend/src/components/ProtectedRoute.tsx:11 | two views with the same two flags get the same outcome, whatever their user or error |
| ProtectedRoute.WithoutProviderVerifying | frontend/src/components/ProtectedRoute.tsx:14-16 | a route with no provider above it stays on the verification screen |
| AuthProvider.SessionUserId | frontend/src/contexts/AuthProvider.tsx:22 | an id exactly when the session, its user and a non-empty id are all present |
| AuthProvider.PublishedView | frontend/src/contexts/AuthProvider.tsx:56-60 | user and loading flag from the store; authenticated exactly when there is a user; no error |
| AuthProvider.Render | frontend/src/contexts/AuthProvider.tsx:52-60 | the loading screen exactly while initializing or loading; otherwise the published view, which is then never loading |
| AuthProvider.GateBelowProvider | frontend/src/contexts/AuthProvider.tsx:52-60 | below a rendering provider the route gate never shows its verification screen, and renders children exactly for a signed-in user |
| AuthProvider.SignInScenario | frontend/src/contexts/AuthProvider.tsx:38-40 | after a request and a successful answer the provider publishes an authenticated settled view and the gate lets the route through |
| AuthProvider.SignOutScenario | frontend/src/contexts/AuthProvider.tsx:41-42 | after clearUser the provider shows loading (a fetch is still outstanding) or publishes a signed-out view, which the gate redirects |
| AuthProvider.Provider.constructor | frontend/src/contexts/AuthProvider.tsx:15-37 | mount: fresh store and watcher, initializing, subscribed, nothing released, the loading screen |
| AuthProvider.Provider.RequestFetch | frontend/src/contexts/AuthProvider.tsx:23 | requesting a fetch dispatches the request to the store and starts the newest lookup for the id |
| AuthProvider.Provider.Clear | frontend/src/contexts/AuthProvider.tsx:25 | clearUser reaches the store; the watcher is untouched |
| AuthProvider.Provider.ProbeResolved | frontend/src/contexts/AuthProvider.tsx:18-33 | a usable session id requests a fetch for that id and then clears the user (the `unwrap` throws into the `catch`), leaving the store loading with no user; anything else only clears the user; initializing ends either way |
| AuthProvider.Provider.ProbeThrew | frontend/src/contexts/AuthProvider.tsx:27-32 | a probe that throws clears the user and ends initializing |
| AuthProvider.Provider.OnAuthStateChange | frontend/src/contexts/AuthProvider.tsx:37-45 | SIGNED_IN with a usable id requests a fetch for it, which becomes the lookup in flight; SIGNED_OUT clears the user; anything else, SIGNED_IN without an id included, changes nothing |
| AuthProvider.Provider.FetchSettled | frontend/src/store/userSaga.ts:58-60 | a lookup result reaches the store only when it is the newest outstanding one |
| AuthProvider.Provider.Unmount | frontend/src/contexts/AuthProvider.tsx:47-49 | teardown releases the subscription exactly once |
| AuthProvider.BootstrapWithSession | frontend/src/contexts/AuthProvider.tsx:18-33 | mount, a session for a non-empty id (request, then clear), then the lookup answers with that user: the children get an authenticated settled view |
| AuthProvider.BootstrapWithoutSession | frontend/src/contexts/AuthProvider.tsx:24-26 | mount with no session: the user is cleared, no fetch starts, and the children get a signed-out view |
| SignOut.HandleSignOut | frontend/src/components/SignOut.tsx:12-24 | one provider call per click; on success clearUser and then navigation to "/"; a returned error or a throw is logged, with no store change and no navigation (the same handler is at frontend/src/pages/Dashboard.tsx:21-33) |
| FormRules.EmailMatchAt | frontend/src/pages/Register.tsx:66 | one match of `\S+@\S+\.\S+` with `@` and `.` at given positions; the matched text is one run of visible characters |
| FormRules.LooksLikeEmail | frontend/src/pages/Login.tsx:40 | the unanchored `test` of the pattern: some match exists; any accepted text has at least five characters |
| FormRules.EmailError | frontend/src/pages/Register.tsx:64-68 | no error exactly for a non-empty address matching the pattern; "Email is required" for an empty one, the invalid-address message otherwise |
| FormRules.EmailPatternUnanchored | frontend/src/pages/Register.tsx:66 | the pattern is unanchored: text around an accepted address is accepted too |
| FormRules.AcceptedEmailShape | frontend/src/pages/Register.tsx:66 | an accepted address has an `@` before a `.` |
| FormRules.EmailPatternExamples | frontend/src/pages/Login.tsx:40 | "a@b.c" and "not an@email.x" pass, "a@b" fails |
| Register.PasswordError | frontend/src/pages/Register.tsx:70-74 | no error exactly from six UTF-16 code units on (`length`); required for empty, too short otherwise |
| Register.PasswordCountsCodeUnits | frontend/src/pages/Register.tsx:72 | three characters above U+FFFF are a long enough password, five letters are not |
| Register.ConfirmError | frontend/src/pages/Register.tsx:76-80 | no error exactly for a non-empty confirmation equal to the password, checked even when the password is empty |
| Register.DepartmentError | frontend/src/pages/Register.tsx:82-84 | "Please select a department" exactly for role "department" with no department |
| Register.Errors | frontend/src/pages/Register.tsx:61-86 | the error map: each field's entry is present exactly when its rule fires, holding that rule's message; no other keys; empty exactly when the form satisfies all rules |
| Register.ValidateForm | frontend/src/pages/Register.tsx:61-88 | the map it fills rule by rule is exactly the error map; valid exactly when that map is empty, exactly when the form satisfies all rules |
| Register.CitizenNeedsNoDepartment | frontend/src/pages/Register.tsx:82-84 | a citizen never gets the department error, whatever the department field holds |
| Register.DepartmentIdSent | frontend/src/pages/Register.tsx:106 | the department id is sent exactly for role "department", null otherwise |
| Register.SignUpErrorMessage | frontend/src/pages/Register.tsx:111-124 | the case-insensitive priority chain: already registered, invalid email, password, then the message itself if non-empty, then the default; never empty |
| Register.SignUpErrorIgnoresCase | frontend/src/pages/Register.tsx:113-119 | lower-casing a message that hits a recognised case does not change the shown message |
| Register.RegisterPage.constructor | frontend/src/pages/Register.tsx:28-38 | empty fields with role "citizen", no errors, not loading |
| Register.RegisterPage.HandleInputChange | frontend/src/pages/Register.tsx:44-59 | only the edited field changes; only its error is blanked, and only if it showed one |
| Register.RegisterPage.Submit | frontend/src/pages/Register.tsx:90-107 | the errors become exactly the form's error map (non-empty for an invalid form); an invalid form stops before loading; a valid one starts loading and sends email, password, role and the department id rule |
| Register.RegisterPage.SignUpFinished | frontend/src/pages/Register.tsx:109-134 | success navigates to /login; a returned error shows its mapped message; a thrown Error its message; anything else the default; loading ends either way |
| Login.Errors | frontend/src/pages/Login.tsx:35-48 | the error map: the e-mail rule's message, and "Password is required" exactly for an empty password; no other keys; empty exactly when both rules pass |
| Login.ValidateForm | frontend/src/pages/Login.tsx:35-50 | the map it fills is exactly the error map; valid exactly when that map is empty, exactly when both rules pass |
| Login.ShortPasswordAccepted | frontend/src/pages/Login.tsx:44-46 | a one-character password passes here, where registration rejects it |
| Login.LoginPage.constructor | frontend/src/pages/Login.tsx:12-18 | empty fields, no errors, not loading |
| Login.LoginPage.HandleInputChange | frontend/src/pages/Login.tsx:20-33 | only the edited field changes; only its error is blanked, and only if it showed one |
| Login.LoginPage.Submit | frontend/src/pages/Login.tsx:52-59 | the errors become exactly the form's error map (non-empty for an invalid form); an invalid form stops before loading; a valid one starts loading |
| Login.LoginPage.WaitElapsed | frontend/src/pages/Login.tsx:64-74 | after the wait: navigation to /dashboard, loading ends |
| IssueLists.Filter | frontend/src/pages/OfficialDashboard.tsx:141-144 | an issue is in the filtered list exactly when it is in the input and matches; never longer than the input |
| IssueLists.CountStatusAppend | frontend/src/pages/OfficialDashboard.tsx:146-151 | a status count over a concatenation is the sum of the counts |
| IssueLists.FilterAllIsIdentity | frontend/src/pages/OfficialDashboard.tsx:141-143 | the "all" filter returns the list unchanged |
| IssueLists.FilterAppend | frontend/src/pages/OfficialDashboard.tsx:144 | filtering distributes over concatenation, so the original order is kept |
| IssueLists.FilterMultiplicity | frontend/src/pages/OfficialDashboard.tsx:144 | each issue keeps its multiplicity if it matches and is dropped otherwise |
| IssueLists.FilterLengthIsCount | frontend/src/pages/OfficialDashboard.tsx:139-151 | the filtered list for a status is as long as that status's count |
| IssueLists.CountAtMostTotal | frontend/src/pages/UserProfile.tsx:80-83 | a status count never exceeds the list's length |
| IssueLists.StatusCountsPartition | frontend/src/pages/OfficialDashboard.tsx:146-151 | new, in-progress and resolved counts add up to the list's length |
| OfficialDashboard.DepartmentIdOf | frontend/src/pages/OfficialDashboard.tsx:59 | the id exactly when the user has a department with a non-empty id |
| OfficialDashboard.ComputeStats | frontend/src/pages/OfficialDashboard.tsx:146-151 | the total is the list's length and each count is the length of that status's filtered list |
| OfficialDashboard.StatsAddUp | frontend/src/pages/OfficialDashboard.tsx:146-151 | the three counts add up to the total |
| OfficialDashboard.QuerySkipped | frontend/src/pages/OfficialDashboard.tsx:59-68 | `skip: !departmentId`: skipped exactly without a user, without a department, or with an empty department id |
| OfficialDashboard.View | frontend/src/pages/OfficialDashboard.tsx:119-151 | not-assigned exactly without a department id (the query is skipped); then loading; then the query's error with retry; otherwise the dashboard, whose list is the status filter of the query's issues (an empty list without data): exactly the matching issues, all of them for "all"; the statistics come from the unfiltered list |
| OfficialDashboard.RoleDoesNotMatter | frontend/src/pages/OfficialDashboard.tsx:111-117 | changing a user's role never changes what the page shows |
| OfficialDashboard.CitizenSeesDashboard | frontend/src/pages/OfficialDashboard.tsx:111-137 | a citizen with a department id reaches the dashboard |
| UserProfile.ComputeStats | frontend/src/pages/UserProfile.tsx:78-83 | the total is the list's length, the resolved count the resolved filter's length, and resolved never exceeds total |
| UserProfile.CountLabel | frontend/src/pages/UserProfile.tsx:177 | "issue" exactly for one, "issues" otherwise |
| UserProfile.QuerySkipped | frontend/src/pages/UserProfile.tsx:47 | `skip: !user?.id`: skipped without a user or with an empty id |
| UserProfile.View | frontend/src/pages/UserProfile.tsx:50-83 | the no-user prompt exactly without a user, before loading or error; then loading; then the prefixed error; otherwise the profile listing `data?.issues`, or an empty list without data, with the statistics computed from that list, its count label, badge, role label and department block |
| UserProfile.NoUserWinsOverQuery | frontend/src/pages/UserProfile.tsx:45-64 | without a user the query is skipped and its state does not matter |
| UserDetails.RoleBadge | frontend/src/features/User/UserDetails.tsx:34-42 | purple exactly for "admin", blue exactly for "department", green for every other role |
| UserDetails.RoleLabel | frontend/src/features/User/UserDetails.tsx:43 | "Citizen", "Department" and "Admin" |
| UserDetails.BadgePerRole | frontend/src/features/User/UserDetails.tsx:35-42 | each of the three roles gets its own colour, citizens the fall-through green |
| UserDetails.AvatarOf | frontend/src/features/User/UserDetails.tsx:21-30 | the picture exactly when it is non-empty, otherwise the placeholder |
| UserDetails.DepartmentBlockOf | frontend/src/features/User/UserDetails.tsx:68-85 | a block exactly when there is a department, with its name, and its description exactly when that is present and non-empty |
| UserDetails.CardOf | frontend/src/features/User/UserDetails.tsx:16-85 | the card shows the user's picture exactly when `profile_picture` is non-empty, the user's name and e-mail, purple/blue/green exactly for admin/department/citizen, the label "Admin", "Department" or "Citizen", and a department section exactly when the user has a department, with its name and with the description only when present and non-empty |
| MapPicker.ChildrenOf | frontend/src/features/Map.tsx:137-170 | recentring exactly without pin mode; zoom control exactly with the sidebar closed; tracker and centre marker exactly with the sidebar open in pin mode; the temporary marker exactly with the sidebar open, no pin mode and two truthy coordinates |
| MapPicker.PickerModesExclusive | frontend/src/features/Map.tsx:137-170 | the tracker and recentring are never both active, nor the centre and temporary markers |
| MapPicker.ZeroCoordinateHidesMarker | frontend/src/features/Map.tsx:164-168 | a temporary marker on latitude 0 is never drawn |
| MapPicker.Picker.constructor | frontend/src/features/Map.tsx:71-81 | sidebar and pin mode off, centre (12.97914, 77.61112), no temporary marker, flag down |
| MapPicker.Picker.SetDisplaySidebar | frontend/src/features/Map.tsx:71 | only the sidebar flag changes |
| MapPicker.Picker.SetMapPinMode | frontend/src/features/Map.tsx:80 | only the pin-mode flag changes |
| MapPicker.Picker.PlaceSelect | frontend/src/features/Map.tsx:87-103 | an empty selection changes nothing; a place moves the centre and the temporary marker to it, raises the flag and schedules its reset |
| MapPicker.Picker.ResetTimerFired | frontend/src/features/Map.tsx:99-101 | only the flag goes down |
| MapPicker.Picker.MapCenterChange | frontend/src/features/Map.tsx:105-112 | the reported centre is taken exactly when the flag is down; nothing else changes |
| MapPicker.SelectedPlaceSurvivesEcho | frontend/src/features/Map.tsx:87-112 | a place selection followed by the map's report of that move keeps the place as the centre |
| MapPicker.PageOf | frontend/src/features/Map.tsx:114-173 | loading first, then "Error: " and the message, then the map with one marker per issue |
| StatusBadge.BadgeFor | frontend/src/features/issue/IssueStatusBadge.tsx:8-46 | "New" red, "In Progress" yellow, "Resolved" green; grey with the raw text exactly for strings that are not a status name |
| StatusBadge.KnownStatusesColoured | frontend/src/features/issue/IssueStatusBadge.tsx:10-36 | every schema status gets a coloured badge, distinct statuses different badges |
| FormRules.SubmitDisabled | frontend/src/features/issue/DepartmentUpdateForm.tsx:113 | the submit button is disabled exactly while submitting or while the text is all whitespace; the comment box has the same rule (frontend/src/components/issue/CommentForm.tsx:62) |
| FormRules.SubmittedText | frontend/src/components/issue/CommentForm.tsx:16-23 | what a submit handler sends: nothing exactly for blank text (the `!text.trim()` guard), otherwise the trimmed text, non-empty and starting and ending visibly; the update form's handler does the same (frontend/src/features/issue/DepartmentUpdateForm.tsx:57-69) |
| FormRules.EnabledSubmitSendsText | frontend/src/components/issue/CommentForm.tsx:16-23 | when the button is enabled nothing is in flight, and the handler's guard passes: the trimmed text is non-empty and starts and ends visibly |
| DepartmentUpdateForm.Visible | frontend/src/features/issue/DepartmentUpdateForm.tsx:50-52 | the form renders exactly for a signed-in user whose role string is "department" |
| DepartmentUpdateForm.Form.constructor | frontend/src/features/issue/DepartmentUpdateForm.tsx:41-43 | empty text, not submitting, no error |
| DepartmentUpdateForm.Form.SetUpdateText | frontend/src/features/issue/DepartmentUpdateForm.tsx:98 | only the text changes |
| DepartmentUpdateForm.Form.Submit | frontend/src/features/issue/DepartmentUpdateForm.tsx:54-71 | blank text changes nothing; otherwise submitting starts, the error clears, and the mutation carries the issue id, the author id and the trimmed text, which is non-empty and starts and ends visibly |
| DepartmentUpdateForm.Form.Settled | frontend/src/features/issue/DepartmentUpdateForm.tsx:72-79 | success clears the text; failure keeps it and shows "Failed to post update. Please try again."; submitting ends either way |
| DepartmentUpdateForm.FailedPostRetries | frontend/src/features/issue/DepartmentUpdateForm.tsx:54-80 | after a failure the same text can be posted again at once, and the error clears |
| IssueSidebar.CategoryText | frontend/src/features/issue/IssueSidebar.tsx:34-45 | shown exactly for a non-empty type: the label of one of the eleven known types, the raw string for any other (own keys only) |
| IssueSidebar.KnownTypeShowsLabel | frontend/src/features/issue/IssueSidebar.tsx:41-42 | every issue-type name shows its label |
| IssueSidebar.ReporterBlockOf | frontend/src/features/issue/IssueSidebar.tsx:47-60 | the reporter block exactly when the issue has a reporter, with name and e-mail |
| IssueSidebar.UpdateFormIncluded | frontend/src/features/issue/IssueSidebar.tsx:106-108 | included exactly when both department ids are absent or both present and equal |
| IssueSidebar.SidebarOf | frontend/src/features/issue/IssueSidebar.tsx:33-108 | category text; a reporter block exactly with a reporter, showing its name and e-mail; a department block exactly with a department, showing its name and the description only when present and non-empty; and the form rule |
| IssueSidebar.FormOnlyForOwnDepartment | frontend/src/features/issue/IssueSidebar.tsx:106-108 | a staff member with a department sees the form exactly on issues of that department |
| IssueSidebar.UnassignedStaffOnUnassignedIssue | frontend/src/features/issue/IssueSidebar.tsx:106-108 | a staff member with no department sees the form on an issue with no department |
| IssueSidebar.CitizenNeverSeesForm | frontend/src/features/issue/IssueSidebar.tsx:106-108 | the sidebar may include the form for a citizen, but the form renders nothing for them |
| CommentForm.Form.constructor | frontend/src/components/issue/CommentForm.tsx:10-11 | empty text, not submitting |
| CommentForm.Form.SetCommentText | frontend/src/components/issue/CommentForm.tsx:49 | only the text changes, whatever its length |
| CommentForm.Form.Submit | frontend/src/components/issue/CommentForm.tsx:13-24 | blank text changes nothing; otherwise submitting starts and the callback, when given, gets the trimmed non-empty text exactly once |
| CommentForm.Form.WaitElapsed | frontend/src/components/issue/CommentForm.tsx:26-29 | after the wait the text is empty and submitting ends |
| CommentForm.OverLimitAccepted | frontend/src/components/issue/CommentForm.tsx:55 | a comment longer than the displayed 500-character limit is still submitted |
| TestRunner.CountPassed | tests/hasura/utils/test-runner.js:12-18 | the passed count never exceeds the number of records |
| TestRunner.FailedTests | tests/hasura/utils/test-runner.js:35-37 | a record is listed exactly when it is logged and did not pass |
| TestRunner.CountPassedAppend | tests/hasura/utils/test-runner.js:10-19 | the passed count of a concatenation is the sum of the counts |
| TestRunner.FailedTestsAppend | tests/hasura/utils/test-runner.js:35-37 | the failures of a log recorded in two parts are the first part's failures followed by the second part's |
| TestRunner.FailedTestsMultiplicity | tests/hasura/utils/test-runner.js:35-37 | each failed record is listed as often as it was logged and a passed one never: the listing is the sub-multiset of failures |
| TestRunner.FailedTestsCount | tests/hasura/utils/test-runner.js:33-38 | the failed listing has as many entries as records that did not pass |
| TestRunner.SuccessRate | tests/hasura/utils/test-runner.js:22-23 | between 0 and 100; 0 for an empty run or no passes; 100 when nothing failed |
| TestRunner.Runner.constructor | tests/hasura/utils/test-runner.js:2-8 | zero counts, empty log, counters agree with the log |
| TestRunner.Runner.LogTest | tests/hasura/utils/test-runner.js:10-19 | appends exactly the given record; passed goes up exactly for a pass, failed otherwise, never both; counters keep agreeing with the log |
| TestRunner.Runner.Summary | tests/hasura/utils/test-runner.js:21-39 | total, passed and failed from the counters; the success rate is `SuccessRate` of the counters; the failed listing only when something failed, then exactly the failed records in logging order, as many as the failed counter |
| TestRunner.Runner.Reset | tests/hasura/utils/test-runner.js:41-47 | back to zero counts and an empty log |
| TestRunner.OnePassOneFail | tests/hasura/utils/test-runner.js:10-38 | one pass then one fail summarise as two tests at 50% with only the failure listed |

## Left out

- The identity provider (`getSession`, `onAuthStateChange`, `signOut`, `signUp`), the GraphQL data service and the Apollo client are not modelled as calls. They appear as events and outcome values.
- Timers (`Map.tsx:99-101`, `Login.tsx:64`, `CommentForm.tsx:26`) are explicit event methods. Several pending map resets are not told apart: the first one to fire lowers the flag.
- Console logging is not modelled, except that `SignOut.HandleSignOut` records which message prefix it logs.
- Browser alerts are not modelled.
- JSX markup, CSS classes and icons are not modelled. Badge and avatar colours and kinds are named values.
- `formatDate` is not part of this model. Its source is not available and it depends on locale and time zone.
- Coordinates are opaque reals compared with zero and for equality. NaN is not modelled.
- The Google Maps link and coordinate formatting are not modelled.
- `TestRunner.SuccessRate`: gives the percentage as a real. It does not model `toFixed(2)` formatting.
- `Text.ToLower`, `Text.Capitalize`: map ASCII letters only. JavaScript's full Unicode case mapping is not modelled.
- `Login.LoginPage.WaitElapsed`: models only the success path. The `catch` branch that sets "Invalid email or password. Please try again." cannot be reached, because a resolving delay never throws.
- `AuthProvider.Provider.ProbeResolved`: does not wait for the fetch it starts, because the `unwrap` call throws before any waiting happens. The loading screen still covers the wait, through the store's loading flag.
- `IssueSidebar.CategoryText`: looks a type up only among the labels' own keys. A type string that names a property inherited from `Object.prototype` (`constructor`, `toString`, `valueOf`, `__proto__`, ...) would show that inherited value in the source, which is not modelled.
- The dashboard's status-change mutation, refetching and alerts (`OfficialDashboard.tsx:71-109`) are not modelled. They are service calls with no client-side state.
- The department list query on the registration page is not modelled. It only fills the select.
- Password visibility toggles are not modelled.
- The unreachable role-check element in the dashboard is modelled only by its absence of effect.
- The textareas' disabled flags (`DepartmentUpdateForm.tsx:101`, `CommentForm.tsx:52`) equal `isSubmitting` and are read directly from the form state.
- The comment counter (`CommentForm.tsx:55`) is the raw text length and is read directly from the state. `CommentForm.OverLimitAccepted` shows that its 500 limit is not enforced.
- The route gate's role check exists only in tests. `ProtectedRoute.tsx` has none, so it is not modelled.
