# Bug tracker front end — a Dafny model of its core

This project models the logic of the bug tracker's React front end. That logic sits behind
the rendering and decides what the pages and components do:

- **Bug detail page:** adding a comment, staging and saving a priority or status change (with an optional status comment), deleting, and assigning. It also covers which member can be picked as assignee, and the colour maps.
- **Project detail page:** whether the signed-in user is an admin of the project, which admin controls that unlocks, and the edit, delete and fetch flows.
- **"My bugs" page and dashboard widget:**
  - a fan-out over the user's projects in which a failed request contributes nothing;
  - the merge of the answers and a stable sort newest first;
  - in the widget, a cut to five bugs.
- **Breadcrumb trail:** the shared list (replace, append, truncate with JavaScript `slice` semantics), which items are clickable, and what a click does.
- **Notifications and toasts:** clock-based ids, per-kind durations, removal by id, and a toast's close sequence.
- **Session:** the token store, start-up validation, login and logout, and the OAuth callback's branch.
- **Forms:**
  - login, registration, password reset and forgotten password, with their validators, error maps and submit flows;
  - the create-bug, create-project and add-member modals;
  - the profile form, with its nested preference updates;
  - the avatar picker's file checks and URL resolution.

Each page or component with state is a class whose fields are the component's state
variables. Each handler is a method that states the component's whole new state. The handler
also returns the requests, navigations, alerts and notifications it causes, as a sequence of
effects. A call to the server is not made. Its outcome (`Outcome<T>`, the response or a
rejection with an optional server message) is a parameter of the method, so every method
covers both the success and the failure path. The clock (`Date.now()`) is a parameter too.
The configured API URL (`REACT_APP_API_URL`) is a parameter as well. The pure parts become
functions and predicates, and the properties the pages promise become lemmas about them:

- the validators are exact (`<==>`);
- the sort is a stable permutation;
- trimming and JavaScript's string built-ins (`trim`, `startsWith`, first-occurrence `replace`, the `\S+@\S+\.\S+` test) are defined explicitly.

## Model

| member | source | states |
|---|---|---|
| BugTypes.ParsePriority | src/types/bug.types.ts:5 | a parsed priority names back to the same text |
| BugTypes.PriorityRoundTrip | src/types/bug.types.ts:5 | every priority parses back from its name: exactly low, medium, high, critical |
| BugTypes.ParseStatus | src/types/bug.types.ts:6 | a parsed status names back to the same text |
| BugTypes.StatusRoundTrip | src/types/bug.types.ts:6 | every status parses back from its name: exactly open, in-progress, resolved, closed, pending |
| ProjectTypes.FindMember | src/pages/ProjectDetail.tsx:34 | finds a membership iff some member has the user's id, and the one found is in the list |
| JsText.TrimStart | src/pages/BugDetail.tsx:73 | the result is a suffix, starts with a non-space, and only white space was dropped |
| JsText.TrimEnd | src/pages/BugDetail.tsx:73 | the result is a prefix, ends with a non-space, and only white space was dropped |
| JsText.Trim | src/pages/BugDetail.tsx:73 | `trim` never lengthens the text, and a non-empty result starts and ends with a non-space character |
| JsText.TrimIsMiddle | src/components/AddMemberModal.tsx:26 | `trim` keeps a contiguous middle with white space only around it, and that middle has non-space ends |
| JsText.BlankIffAllSpace | src/pages/BugDetail.tsx:73 | `!s.trim()` holds exactly when every character is white space |
| JsText.TrimIdempotent | src/components/AddMemberModal.tsx:26 | trimming twice is trimming once |
| JsText.IndexOfFrom | src/components/AvatarUpload.tsx:27 | the result is the first position at or after `from` where the pattern occurs, or none when it does not occur |
| JsText.ReplaceFirst | src/components/AvatarUpload.tsx:27 | `replace` with a string pattern splices the replacement in at the first occurrence only |
| JsText.EmailShapedHasAtAndDot | src/pages/RegisterPage.tsx:36 | any string passing `\S+@\S+\.\S+` has at least five characters, an '@' and a later '.' |
| JsText.EmailShaped | src/pages/RegisterPage.tsx:36 | a string passing `\S+@\S+\.\S+` is not all white space |
| JsText.EmailShapedUnanchored | src/pages/RegisterPage.tsx:36 | the test is unanchored: text added before or after an accepted string keeps it accepted |
| BreadcrumbContext.SliceThrough | src/contexts/BreadcrumbContext.tsx:41 | `slice(0, index + 1)` always yields a prefix of the list |
| BreadcrumbContext.SliceInRange | src/contexts/BreadcrumbContext.tsx:40-42 | for 0 <= i < n it yields exactly the first i+1 items, the clicked one last |
| BreadcrumbContext.SliceFromLastIsIdentity | src/contexts/BreadcrumbContext.tsx:41 | with i >= n-1 the list is unchanged |
| BreadcrumbContext.SliceIdempotent | src/contexts/BreadcrumbContext.tsx:41 | truncating twice at the same index i >= -1 is truncating once |
| BreadcrumbContext.SliceNegativeNotIdempotent | src/contexts/BreadcrumbContext.tsx:41 | below -1 a negative index counts from the end, so a repeat truncates further ([1,2,3] at -2) |
| BreadcrumbContext.BreadcrumbStore.constructor | src/contexts/BreadcrumbContext.tsx:32-34 | the trail starts as the single Dashboard item |
| BreadcrumbContext.BreadcrumbStore.SetBreadcrumbs | src/contexts/BreadcrumbContext.tsx:44-49 | replaces the whole list |
| BreadcrumbContext.BreadcrumbStore.AddBreadcrumb | src/contexts/BreadcrumbContext.tsx:36-38 | grows the list by one, the new item last, earlier items unchanged |
| BreadcrumbContext.BreadcrumbStore.RemoveBreadcrumb | src/contexts/BreadcrumbContext.tsx:40-42 | the list becomes its slice through the index: exactly the first i+1 items in range, unchanged from the last on |
| Breadcrumb.ClickableRule | src/components/Breadcrumb.tsx:26 | every item but the last is clickable; the last one exactly when it has an href or an onClick |
| Breadcrumb.HandleBreadcrumbClick | src/components/Breadcrumb.tsx:7-13 | runs the item's onClick if any (an href alone only truncates), then the trail is the first i+1 items with the clicked one last; clicking the last item changes nothing |
| BugDetail.UpdatePayload | src/pages/BugDetail.tsx:90-95 | the payload carries the staged priority and status, and a status comment iff the status changed and the comment is not blank, sent untrimmed |
| BugDetail.ProjectPath | src/pages/BugDetail.tsx:66 | the project route is `/projects/` followed by the id, which can be read back from it |
| BugDetail.StatusChanged | src/pages/BugDetail.tsx:93 | without a loaded bug any staged status counts as a change |
| BugDetail.CommentOnlyWithVisibleBox | src/pages/BugDetail.tsx:272-317 | a status comment is only ever sent when the status-comment box is on screen (Save is part of the edit form), and never when the staged status is the bug's own |
| BugDetail.StatusCommentVisible | src/pages/BugDetail.tsx:272-303 | the status-comment box is drawn only for a loaded bug, in edit mode, with a staged status other than the bug's own |
| BugDetail.AssigneeRule | src/pages/BugDetail.tsx:496-501 | the current assignee cannot be picked; anyone else can unless an assignment is in flight |
| BugDetail.IsCurrentlyAssigned | src/pages/BugDetail.tsx:496-501 | nobody is the current assignee of an unassigned bug |
| BugDetail.CanSelectAssignee | src/pages/BugDetail.tsx:496-501 | no member can be picked while an assignment is in flight |
| BugDetail.CommentButtonRule | src/pages/BugDetail.tsx:419 | the comment button is enabled iff the text is not blank and no comment is being added |
| BugDetail.CanSubmitComment | src/pages/BugDetail.tsx:419 | an enabled comment button means a non-empty comment and no comment in flight |
| BugDetail.BugCrumbs | src/pages/BugDetail.tsx:45-54 | four items: dashboard, projects, the project (by name, or 'Project'), the bug's title unlinked |
| BugDetail.BugCrumbsClickable | src/pages/BugDetail.tsx:45-54 | on the bug page the first three crumbs are clickable and the bug's own is not |
| BugDetail.PriorityColor | src/pages/BugDetail.tsx:147-155 | gray exactly for a priority outside the four known ones |
| BugDetail.StatusColor | src/pages/BugDetail.tsx:157-166 | unknown statuses are gray, and gray means unknown or closed |
| BugDetail.RoleColor | src/pages/BugDetail.tsx:168-175 | gray exactly for roles other than admin, developer, tester |
| BugDetail.ColorsDistinguish | src/pages/BugDetail.tsx:147-166 | different priorities, and different statuses, get different colours |
| BugDetail.AssignedMessage | src/pages/BugDetail.tsx:137 | the success text is "Bug successfully assigned to " and "!" around the picked member's name, which can be read back from it |
| BugDetail.BugDetailPage.constructor | src/pages/BugDetail.tsx:20-34 | the page starts loading with no bug, empty texts and every flag and modal off |
| BugDetail.BugDetailPage.FetchBug | src/pages/BugDetail.tsx:43-70 | a fetched bug is shown, the staged priority and status are reset to it and the trail is set; a failure navigates to the project; loading ends |
| BugDetail.BugDetailPage.FetchProjectMembers | src/pages/BugDetail.tsx:122-129 | the member list becomes the project's members (none when absent); a failure keeps the old list |
| BugDetail.BugDetailPage.HandleAddComment | src/pages/BugDetail.tsx:59-87 | a blank comment does nothing; the input is cleared only after the comment is posted; a failure keeps the text, the bug, the staged values and the loading flag, and shows the server message or else the fallback. After a successful post the bug is reloaded: a reloaded bug replaces the old one, the staged priority and status are reset to it and the trail is set; a failed reload keeps the bug and the staged values and navigates to the project. |
| BugDetail.BugDetailPage.ToggleEdit | src/pages/BugDetail.tsx:227 | the Edit button flips edit mode |
| BugDetail.BugDetailPage.HandleUpdateBug | src/pages/BugDetail.tsx:59-106 | sends `UpdatePayload`; success leaves edit mode and clears the status comment; failure alerts and keeps edit mode, the staged values and the bug. After a successful update the bug is reloaded: a reloaded bug replaces the old one, the staged priority and status are reset to it and the trail is set; a failed reload keeps the bug and the staged values and navigates to the project. |
| BugDetail.BugDetailPage.HandleDeleteBug | src/pages/BugDetail.tsx:108-120 | success navigates to the project, failure alerts; either way deleting ends and the modal closes |
| BugDetail.BugDetailPage.HandleAssignBug | src/pages/BugDetail.tsx:131-145 | once the assignment succeeds, success is shown with the picked member's name and the modal closes, whatever the reload does; on failure the modal stays open, the bug, staged values and loading flag are kept, and the server message or else the fallback is shown. After a successful assignment the bug is reloaded: a reloaded bug replaces the old one, the staged priority and status are reset to it and the trail is set; a failed reload keeps the bug and the staged values and navigates to the project. Loading has ended afterwards either way. |
| ProjectDetail.CurrentUserMember | src/pages/ProjectDetail.tsx:34 | a membership found belongs to the loaded project and has the user's id; none is found only when no member has that id |
| ProjectDetail.IsAdmin | src/pages/ProjectDetail.tsx:35 | an admin has a loaded project, a signed-in user and an admin membership with that user's id |
| ProjectDetail.IsAdminIffFirstMembershipIsAdmin | src/pages/ProjectDetail.tsx:34-35 | admin iff the first membership with the user's id has role exactly 'admin' |
| ProjectDetail.NoMembershipNoAdmin | src/pages/ProjectDetail.tsx:34-35 | with no project, no user or no membership the user is not an admin |
| ProjectDetail.ShowsAdminControls | src/pages/ProjectDetail.tsx:165-178 | the admin controls need a loaded project and a signed-in user |
| ProjectDetail.ShowsRemove | src/pages/ProjectDetail.tsx:237 | Remove is shown only to a signed-in user and never on their own row |
| ProjectDetail.RemoveNeverOnOwnRow | src/pages/ProjectDetail.tsx:237 | Remove shows on a member iff the user is an admin and it is not their own row |
| ProjectDetail.ProjectCrumbs | src/pages/ProjectDetail.tsx:49-61 | three items ending with the project's name, unlinked; the first two navigate |
| ProjectDetail.ProjectDetailPage.constructor | src/pages/ProjectDetail.tsx:27-32 | the page starts loading with no project and no modal open |
| ProjectDetail.ProjectDetailPage.FetchProject | src/pages/ProjectDetail.tsx:63-74 | a fetched project is shown; a failure navigates to /dashboard; loading ends |
| ProjectDetail.ProjectDetailPage.OpenEditModal | src/pages/ProjectDetail.tsx:165-178 | the edit control exists only for admins and opens the edit modal |
| ProjectDetail.ProjectDetailPage.OpenDeleteModal | src/pages/ProjectDetail.tsx:165-178 | the delete control exists only for admins and opens the delete modal |
| ProjectDetail.ProjectDetailPage.HandleEditProject | src/pages/ProjectDetail.tsx:76-92 | success replaces the project with the server's and closes the modal; failure alerts and leaves project and modal as they were |
| ProjectDetail.ProjectDetailPage.HandleDeleteProject | src/pages/ProjectDetail.tsx:94-107 | success navigates to /dashboard; failure alerts the server message or else the fallback |
| MyBugs.AssignedQuery | src/pages/MyBugs.tsx:30-33 | each per-project request filters by that project and the user |
| MyBugs.Contribution | src/pages/MyBugs.tsx:32-40 | a failed request, or an answer without bugs, contributes nothing |
| MyBugs.Gather | src/pages/MyBugs.tsx:39-40 | with every request failed the merge is empty; a single answer contributes exactly its own list |
| MyBugs.GatherAppend | src/pages/MyBugs.tsx:39-40 | the flattening distributes over the list of answers |
| MyBugs.GatherMembership | src/pages/MyBugs.tsx:39-40 | a bug is merged iff some successful answer holds it |
| MyBugs.FailureContributesNothing | src/pages/MyBugs.tsx:32-37 | turning one answer into a failure removes only that answer's bugs; the others still appear |
| MyBugs.NewestFirst | src/pages/MyBugs.tsx:42-44 | the order the page shows: no bug is newer than one before it |
| MyBugs.InsertNewest | src/pages/MyBugs.tsx:42-44 | inserting adds exactly that bug (as a multiset) |
| MyBugs.InsertKeepsOrder | src/pages/MyBugs.tsx:42-44 | inserting into a newest-first list keeps it newest first |
| MyBugs.SortNewestFirst | src/pages/MyBugs.tsx:42-44 | the sort is a permutation ordered by `createdAt`, newest first |
| MyBugs.InsertKeepsTies | src/pages/MyBugs.tsx:42-44 | insertion puts a bug ahead of the others created at the same moment and keeps their order |
| MyBugs.SortIsStable | src/pages/MyBugs.tsx:42-44 | bugs created at the same moment keep their merged order |
| MyBugs.MergedNewestFirst | src/pages/MyBugs.tsx:39-44 | the list shown is newest first and holds exactly the merged bugs, as many as were merged |
| MyBugs.ShownIffSomeProjectSentIt | src/pages/MyBugs.tsx:28-44 | the page shows a bug iff the request for one of the user's projects was answered with a list holding it |
| MyBugs.BugNoun | src/pages/MyBugs.tsx:106 | "bug" for exactly one, "bugs" otherwise |
| MyBugs.MyBugsPage.FetchMyBugs | src/pages/MyBugs.tsx:24-52 | without a user nothing happens; otherwise the bugs are the merged answers newest first; a failed project list keeps the old bugs; loading ends |
| MyBugs.MyBugsPage.Mount | src/pages/MyBugs.tsx:16-21 | the page installs its trail, then fetches |
| MyBugsWidget.WidgetQuery | src/components/MyBugsWidget.tsx:28-33 | each request asks for at most 3 of the user's bugs in that project, newest first |
| MyBugsWidget.FirstFive | src/components/MyBugsWidget.tsx:43 | at most five, a prefix, all of a short list |
| MyBugsWidget.TopFive | src/components/MyBugsWidget.tsx:41-43 | the widget shows all merged bugs when there are at most five, and exactly five otherwise |
| MyBugsWidget.TopFiveIsNewestPrefix | src/components/MyBugsWidget.tsx:41-43 | the widget shows at most five merged bugs, the newest-first prefix of the merge |
| MyBugsWidget.NavigationTarget | src/components/MyBugsWidget.tsx:110-111 | a click on a bug goes to the same project route as the bug page's way back to its project, whether the bug carries a project object or a bare id |
| MyBugsWidget.SameTargetIffSameProject | src/components/MyBugsWidget.tsx:110-111 | two rows open the same page iff their bugs belong to the same project |
| MyBugsWidget.Widget.FetchMyBugs | src/components/MyBugsWidget.tsx:17-50 | without a user nothing is fetched; otherwise at most five bugs, the top of the merged answers; a failed project list keeps the old bugs |
| NotificationContext.Decimal | src/contexts/NotificationContext.tsx:31 | `toString()` of a clock reading: non-empty, all digits |
| NotificationContext.DecimalInjective | src/contexts/NotificationContext.tsx:31 | two clock readings give the same id iff they are equal |
| NotificationContext.WithoutId | src/contexts/NotificationContext.tsx:37-39 | the filter keeps only entries of the list with other ids |
| NotificationContext.WithoutIdAppend | src/contexts/NotificationContext.tsx:37-39 | filtering distributes over concatenation, so the order of the rest is kept |
| NotificationContext.WithoutIdKeepsOthers | src/contexts/NotificationContext.tsx:37-39 | every entry with another id survives, as often as it was there |
| NotificationContext.WithoutAbsentId | src/contexts/NotificationContext.tsx:37-39 | removing an absent id changes nothing |
| NotificationContext.WithoutIdIdempotent | src/contexts/NotificationContext.tsx:37-39 | removing twice is removing once |
| NotificationContext.SameMillisecondRemovedTogether | src/contexts/NotificationContext.tsx:30-39 | two notifications created in the same millisecond share an id and are removed together; a later one survives |
| NotificationContext.NotificationCenter.constructor | src/contexts/NotificationContext.tsx:28 | the list starts empty |
| NotificationContext.NotificationCenter.ShowNotification | src/contexts/NotificationContext.tsx:30-35 | appends exactly one entry, id from the clock, earlier entries unchanged |
| NotificationContext.NotificationCenter.ShowSuccess | src/contexts/NotificationContext.tsx:41-43 | appends a success entry lasting 3000 ms |
| NotificationContext.NotificationCenter.ShowError | src/contexts/NotificationContext.tsx:45-47 | appends an error entry lasting 5000 ms |
| NotificationContext.NotificationCenter.ShowInfo | src/contexts/NotificationContext.tsx:59-61 | appends an info entry lasting 3000 ms |
| NotificationContext.NotificationCenter.ShowLoading | src/contexts/NotificationContext.tsx:49-57 | appends a loading entry with no duration and returns its id for the dismiss function |
| NotificationContext.NotificationCenter.RemoveNotification | src/contexts/NotificationContext.tsx:37-39 | the list becomes its filter by the id |
| Toast.EffectiveDuration | src/components/Toast.tsx:107 | a missing duration defaults to 3000 |
| Toast.AutoDismisses | src/components/Toast.tsx:110-117 | a toast that closes itself also has a close button |
| Toast.HasCloseButton | src/components/Toast.tsx:143-147 | a toast has a close button iff it shows a glyph rather than the spinner |
| Toast.IconFor | src/components/Toast.tsx:124-137 | the spinner is shown exactly for loading toasts |
| Toast.IconsDistinct | src/components/Toast.tsx:124-137 | the four kinds get four different icons |
| Toast.ShownKindsAndTimers | src/components/Toast.tsx:110-117 | success, error and info toasts auto-dismiss; loading toasts neither auto-dismiss nor have a close button |
| Toast.ToastView.constructor | src/components/Toast.tsx:107 | a toast starts visible with its effective duration |
| Toast.ToastView.Valid | src/components/Toast.tsx:107-122 | closing is exit-first; in particular a loading toast never schedules or runs its own removal |
| Toast.ToastView.HandleClose | src/components/Toast.tsx:119-122 | closing first marks the toast exiting; removal is only scheduled |
| Toast.ToastView.ClickClose | src/components/Toast.tsx:143-147 | only toasts with a close button can be clicked closed |
| Toast.ToastView.AutoDismissFires | src/components/Toast.tsx:110-117 | the auto-dismiss timer, scheduled only for non-loading toasts with a positive duration, closes the toast |
| Toast.ToastView.ExitTimerFires | src/components/Toast.tsx:119-122 | `onClose` runs only after the toast was marked exiting |
| AuthContext.TokenStore.SaveToken | src/contexts/AuthContext.tsx:67-72 | the stored token becomes the given one |
| AuthContext.TokenStore.RemoveToken | src/contexts/AuthContext.tsx:74-77 | no token is stored afterwards |
| AuthContext.AuthSession.constructor | src/contexts/AuthContext.tsx:38-40 | a session starts with no user, loading |
| AuthContext.AuthSession.InitAuth | src/contexts/AuthContext.tsx:38-62 | no token: no request, no user; a rejected validation removes the token and leaves no user; loading ends on every branch |
| AuthContext.AuthSession.Login | src/contexts/AuthContext.tsx:67-72 | stores the token and the user, so the session is authenticated |
| AuthContext.AuthSession.Logout | src/contexts/AuthContext.tsx:74-77 | no token and no user afterwards, whatever the state before |
| AuthContext.StartUp | src/contexts/AuthContext.tsx:38-62 | a session signs in at start-up iff a stored token validates, and a token that fails validation is gone |
| OAuthCallback.CallbackTarget | src/pages/OAuthCallback.tsx:13-27 | an error goes to oauth_failed whatever the token; else a token goes to the dashboard; else no_token |
| OAuthCallback.HandleCallback | src/pages/OAuthCallback.tsx:10-27 | exactly one navigation; the token is saved only on the dashboard branch |
| OAuthCallback.CallbackThenStartUp | src/pages/OAuthCallback.tsx:20-23 | a saved callback token signs the user in iff it validates |
| Forms.ClearError | src/pages/LoginPage.tsx:17-23 | editing a field empties only that field's error |
| Forms.WithProblem | src/pages/RegisterPage.tsx:27-53 | a field gets an entry exactly when it has a problem |
| Forms.EmailProblem | src/pages/RegisterPage.tsx:34-37 | no problem iff the email passes `\S+@\S+\.\S+`; 'required' for the empty string first, else 'invalid' |
| Forms.PasswordProblem | src/pages/RegisterPage.tsx:40-44 | no problem iff at least 6 characters; 'required' for the empty string first, else 'too short' |
| Forms.ConfirmProblem | src/pages/RegisterPage.tsx:46-50 | no problem iff the confirmation is given and equal; 'required' first, else 'mismatch' |
| Forms.PasswordIndicators | src/pages/RegisterPage.tsx:145-153 | an empty password lights no check; a long-enough password with the special check dark is all letters and digits |
| Forms.IndicatorsStayLit | src/pages/RegisterPage.tsx:145-153 | typing more never turns a lit check off |
| Forms.IndicatorsAgainstRule | src/pages/RegisterPage.tsx:145-153 | the length indicator agrees with the length rule, while the letter-and-digit and special-character indicators are advisory ("aaaaaa" passes with both off) |
| LoginPage.LoginErrors | src/pages/LoginPage.tsx:32-34 | an email entry iff the email is empty, a password entry iff the password is empty, no trimming or format check |
| LoginPage.LoginGate | src/pages/LoginPage.tsx:28-40 | login is attempted iff both fields are non-empty |
| LoginPage.Page.HandleChange | src/pages/LoginPage.tsx:17-23 | sets that field and clears only its error |
| LoginPage.Page.HandleSubmit | src/pages/LoginPage.tsx:28-51 | with field errors there is no call; success stores token and user before navigating; failure leaves a single 'general' error; loading ends |
| RegisterPage.RegisterErrors | src/pages/RegisterPage.tsx:27-53 | each field has an entry iff its rule fails, 'required' taking precedence; only the name is trimmed |
| RegisterPage.RegisterValidIff | src/pages/RegisterPage.tsx:27-53 | no errors iff the name is not blank, the email is shaped, the password has 6+ characters and the confirmation equals it |
| RegisterPage.OnlyNameIsTrimmed | src/pages/RegisterPage.tsx:30 | a white-space name fails while a white-space password of six counts as present |
| RegisterPage.Page.HandleChange | src/pages/RegisterPage.tsx:19-25 | sets that field and clears only its error |
| RegisterPage.Page.Indicators | src/pages/RegisterPage.tsx:145-153 | the length check lights exactly when submitting raises no password message |
| RegisterPage.Page.HandleSubmit | src/pages/RegisterPage.tsx:58-78 | with errors there is no call; success signs in; failure leaves a single 'general' error; loading ends |
| ResetPasswordPage.ResetErrors | src/pages/ResetPasswordPage.tsx:28-44 | entries iff the password is too short or the confirmation is missing or different, 'required' first |
| ResetPasswordPage.ResetValidIff | src/pages/ResetPasswordPage.tsx:28-44 | valid iff the new password has 6+ characters and the confirmation is non-empty and equal |
| ResetPasswordPage.ViewFor | src/pages/ResetPasswordPage.tsx:69-91 | a missing token shows the invalid-link view whatever the success state |
| ResetPasswordPage.Page.HandleChange | src/pages/ResetPasswordPage.tsx:20-26 | sets that field and clears only its error |
| ResetPasswordPage.Page.Indicators | src/pages/ResetPasswordPage.tsx:145-153 | the length check lights exactly when submitting raises no new-password message |
| ResetPasswordPage.Page.HandleSubmit | src/pages/ResetPasswordPage.tsx:48-67 | with errors there is no call; success only after the reset succeeds; failure leaves a single 'general' error |
| ForgotPasswordPage.Page.HandleChange | src/pages/ForgotPasswordPage.tsx:14-17 | any edit clears the error |
| ForgotPasswordPage.Page.HandleSubmit | src/pages/ForgotPasswordPage.tsx:19-43 | the empty check runs before the format check, neither calls the server; success only after the request succeeds; loading ends on every path |
| CreateBugModal.Draft | src/components/CreateBugModal.tsx:33-39 | title, description and priority pass unchanged; no assignee iff the selection is empty |
| CreateBugModal.DraftRoundTrip | src/components/CreateBugModal.tsx:35-38 | the form is recoverable from the submitted draft |
| CreateBugModal.Modal.constructor | src/components/CreateBugModal.tsx:26-31 | empty title, description and assignee, priority 'medium' |
| CreateBugModal.Modal.SetField | src/components/CreateBugModal.tsx:26-31 | sets only the edited field |
| CreateBugModal.Modal.HandleSubmit | src/components/CreateBugModal.tsx:33-39 | submits the draft and keeps the form |
| CreateBugModal.Modal.HandleClose | src/components/CreateBugModal.tsx:41-49 | resets the form, then closes |
| CreateProjectModal.Modal.HandleChange | src/components/CreateProjectModal.tsx:24-30 | sets that field and clears only its error |
| CreateProjectModal.Modal.HandleSubmit | src/components/CreateProjectModal.tsx:32-46 | a blank name blocks the submit with the name error; otherwise the form goes out untrimmed; the description is never checked |
| CreateProjectModal.Modal.HandleClose | src/components/CreateProjectModal.tsx:48-52 | resets form and errors, then closes |
| AddMemberModal.SubmitEnabled | src/components/AddMemberModal.tsx:86 | an enabled button means nothing loading and a non-empty email |
| AddMemberModal.SubmitEnabledIff | src/components/AddMemberModal.tsx:86 | submit is enabled iff not loading and the email is not blank |
| AddMemberModal.Modal.constructor | src/components/AddMemberModal.tsx:19 | the role starts as 'developer' |
| AddMemberModal.Modal.SetEmail | src/components/AddMemberModal.tsx:52 | typing sets the email and leaves the role |
| AddMemberModal.Modal.SetRole | src/components/AddMemberModal.tsx:62 | choosing sets the role and leaves the email |
| AddMemberModal.Modal.HandleSubmit | src/components/AddMemberModal.tsx:21-29 | a blank email never reaches the callback; otherwise the trimmed email, non-empty with non-space ends, goes out with the selected role |
| AddMemberModal.Modal.HandleClose | src/components/AddMemberModal.tsx:31-35 | resets email and role, then closes |
| AvatarUpload.OriginAsWritten | src/components/AvatarUpload.tsx:27 | the base URL as written: the local server without a configured URL, the URL itself when it holds no '/api' |
| AvatarUpload.OriginAsWrittenBreaksApiHost | src/components/AvatarUpload.tsx:27 | on `https://api.example.com/api` the written base is `https:/.example.com/api`, the corrected one `https://api.example.com` |
| AvatarUpload.Origin | src/components/AvatarUpload.tsx:27 | the corrected base: never empty, the local server without a configured URL |
| AvatarUpload.OriginStripsApiPath | src/components/AvatarUpload.tsx:27 | for any `<origin>/api` the corrected base is the origin |
| AvatarUpload.OriginsAgree | src/components/AvatarUpload.tsx:27 | both readings agree when no URL is configured or it holds no '/api' |
| AvatarUpload.AvatarUrl | src/components/AvatarUpload.tsx:19-31 | a preview wins; an avatar starting with 'http' is returned as is; a relative one goes under the base as written (`OriginAsWritten`, first '/api' removed); with neither, nothing |
| AvatarUpload.AvatarUrlCorrected | src/components/AvatarUpload.tsx:19-31 | the same URL except that a relative avatar goes under the corrected base (`Origin`) |
| AvatarUpload.CorrectedAvatarUnderOrigin | src/components/AvatarUpload.tsx:27-28 | with the server configured as `<origin>/api`, the corrected URL of a relative avatar is `<origin>/<avatar>` |
| AvatarUpload.AvatarUrlOnApiHost | src/components/AvatarUpload.tsx:27-28 | on `https://api.example.com/api` the avatar `u.png` resolves to `https:/.example.com/api/u.png` as written and to `https://api.example.com/u.png` corrected |
| AvatarUpload.CheckFile | src/components/AvatarUpload.tsx:33-47 | uploads iff an image of at most 2 MiB; a non-image is rejected with the image message before the size check; an image over 2 MiB is rejected with the size message |
| AvatarUpload.SizeBoundary | src/components/AvatarUpload.tsx:44-47 | exactly 2 MiB is accepted, one byte more is rejected |
| AvatarUpload.Picker.UploadAvatar | src/components/AvatarUpload.tsx:60-84 | only success reports the new URL; either way the preview and the input are cleared and uploading ends |
| AvatarUpload.Picker.HandleFileSelect | src/components/AvatarUpload.tsx:33-58 | no file changes nothing (no effect, preview, uploading flag and file input as they were); a bad file only alerts and changes no state; a good one is previewed and uploaded |
| AvatarUpload.Picker.HandleClick | src/components/AvatarUpload.tsx:86-90 | a click opens the picker unless disabled |
| ProfilePage.FormFrom | src/pages/ProfilePage.tsx:60-67 | a missing or empty name or bio becomes '', missing preferences become e-mail on, SMS off |
| ProfilePage.BeforeDot | src/pages/ProfilePage.tsx:79 | the text up to the first dot: a dot-free prefix ending at a dot or the end |
| ProfilePage.PrefKey | src/pages/ProfilePage.tsx:79 | the key is the dot-free text right after `contactPreferences.`, ending at the next dot or the end of the name |
| ProfilePage.PrefKeyRoundTrip | src/pages/ProfilePage.tsx:79 | `split('.')[1]` of 'contactPreferences.K' is K |
| ProfilePage.ChangeForm | src/pages/ProfilePage.tsx:75-90 | a preference input sets only that preference (flag or text); any other input sets only its top-level field |
| ProfilePage.ChangeIdempotent | src/pages/ProfilePage.tsx:75-90 | repeating an input event changes nothing more |
| ProfilePage.CheckboxSetsItsPreference | src/pages/ProfilePage.tsx:78-86 | ticking a preference's box sets exactly that preference to the box's state |
| ProfilePage.FieldEditsCommute | src/pages/ProfilePage.tsx:87-88 | edits to two different text fields do not interfere |
| ProfilePage.Page.constructor | src/pages/ProfilePage.tsx:32-45 | the page starts loading, not editing, with the default form |
| ProfilePage.Page.FetchProfile | src/pages/ProfilePage.tsx:55-73 | a fetched profile is shown and the form is derived from it; a failure keeps both; loading ends |
| ProfilePage.Page.Mount | src/pages/ProfilePage.tsx:47-53 | installs the trail, then fetches |
| ProfilePage.Page.StartEditing | src/pages/ProfilePage.tsx:182-183 | the Edit button enters edit mode |
| ProfilePage.Page.HandleInputChange | src/pages/ProfilePage.tsx:75-90 | the form becomes `ChangeForm` of the old one |
| ProfilePage.Page.HandleSave | src/pages/ProfilePage.tsx:92-104 | success replaces the profile with the server's user and leaves edit mode; failure alerts and stays in edit mode; saving ends |
| ProfilePage.Page.HandleCancel | src/pages/ProfilePage.tsx:106-118 | the form is derived again from the profile shown and edit mode ends |
| ProfilePage.Page.HandleAvatarUpdate | src/pages/ProfilePage.tsx:120-124 | only the avatar changes, and nothing happens without a profile |

## Left out

- src/services/api.ts is not part of this model. Every request is an outcome parameter, and the requests themselves appear only as effects. `localStorage` is the `TokenStore` class.
- Network I/O, `navigate` and `window.location` redirects, `alert`, `console` output and the Google sign-in redirect appear as returned effects, or are left out.
- Timers (`setTimeout` in the toast) are explicit events: `AutoDismissFires` and `ExitTimerFires`. The clock (`Date.now()`) is a parameter.
- The fan-out in "my bugs" (`Promise.all`) is a sequential map of an answer function over the requests. Its concurrency, and late or overlapping responses, are not modelled.
- React rendering, effect dependencies, re-renders and unmount races are not modelled. Each handler runs to completion on the state it started with.
- Route parameters that React Router could leave undefined are fixed strings of the page (`projectId`, `bugId`, the reset token as an option).
- HTML constraint validation (`required`, `type="email"`) is not modelled. Neither is the disabling of inputs while loading, except where a handler's guard depends on it.
- AvatarUpload.Picker.HandleFileSelect: assumes the browser's file reader has produced the preview before the upload answers. When the upload answers first, the page can keep a stale preview, and that case is not modelled.
- Lengths and characters are Unicode code points, not UTF-16 code units. The email test and the character-class tests are explicit predicates, not a regular-expression engine.
- Dates are integers (`createdAt` in the sort). `toLocaleString` formatting is left out.
- The `any`-typed history values of a bug are strings.
- BugDetail's `assignmentSuccess` message state is never set by the source, so it is not modelled.
- The sidebar's collapsed state is not modelled. On the bug page, neither are the delete modal's open and cancel setters nor the assign modal's open setters (src/pages/BugDetail.tsx:234, 241) and cancel setter (line 546). Plain input setters with no rule attached are not modelled either.
- Whether a dialog draws at all (`if (!isOpen) return null` in the create-bug, create-project and add-member modals) and where the breadcrumb bar draws its separators are rendering only, and not modelled.
- ProfilePage.ChangeForm: a top-level input literally named `contactPreferences` would replace the whole preference object with a string. The model keeps text fields and preferences apart, and the page has no such input.
- AvatarUpload.Origin: the corrected base strips only a trailing '/api'; a URL configured with a trailing '/api/' keeps it, where the source's replacement would remove its first '/api'.
- Presentational components (App routing, Sidebar, Dashboard, Button, Input, PasswordInput, Icon, LoadingSpinner, AuthLayout, ProjectCard) are not part of this model.

## Findings

| source | as written | input that shows it | evidently intended | confidence | as-written member | corrected member |
|---|---|---|---|---|---|---|
| src/components/AvatarUpload.tsx:27 | the base for relative avatars is `REACT_APP_API_URL.replace('/api', '')`, which removes the first '/api' anywhere in the URL | `REACT_APP_API_URL = https://api.example.com/api` gives base `https:/.example.com/api` | drop the trailing '/api' path and keep the host: `https://api.example.com` | not executed; certain for that input, and it matters only for an API host whose name starts with 'api' | AvatarUpload.OriginAsWritten, AvatarUpload.OriginAsWrittenBreaksApiHost, AvatarUpload.AvatarUrl, AvatarUpload.AvatarUrlOnApiHost | AvatarUpload.Origin, AvatarUpload.OriginStripsApiPath, AvatarUpload.AvatarUrlCorrected, AvatarUpload.CorrectedAvatarUnderOrigin |
