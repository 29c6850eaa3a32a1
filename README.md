# vegloutbk front end, modelled in Dafny

vegloutbk is a React front end over a Supabase backend for students
preparing for UTBK, the Indonesian university entrance exam. It offers
study material, practice sets, 24-hour notes, a to-do list, feedback, and an
admin dashboard. This project models the logic those components hold:

- the decision rules: role resolution and capability flags, the
  subscription gate, the sign-in guards, the admin access check, and the
  call to action;
- the time arithmetic in integer milliseconds: note expiry and age, to-do
  time left with its overdue and due-soon flags, and the exam countdown;
- the list transformations: the live-note filter, prepending and deleting
  notes, the deadline sort, the user and feedback filters, the profile/auth
  merge, per-table counts, and the demo prepend;
- the forms and small state machines that drive them.

Each component with React state is a `class`. Its fields are the state,
and each handler is a `method` that states the whole new state. The
handlers receive as parameters what the backend returned, the answer of
any confirmation dialog, and the current instant. Navigation is returned
as a `Router.Navigation` value. Pure helpers are functions, and lemmas
relate them to one another.

The shared JavaScript semantics live in `Js`. They cover:

- nullable strings and `||` with JavaScript truthiness;
- `trim` (the slice of the input between its leading and trailing white space), `toLowerCase` (ASCII) and `includes`;
- `split('@')[0]` and `substring`.

`Lists` holds the order-preserving `filter` used by every list view: the
result is a sublist of the input that keeps each accepted element as often
as it occurs and drops the rest. Its lemmas cover membership and partitions.

Behaviour of the source worth noting:

- The role provider ignores the profile lookup's `error` field. A failed
  lookup reads as a missing row, so the role defaults to `'user'`.
- The admin page has no such default. A failed or missing profile denies
  access.
- `handleAddNoteClick` has a branch that opens the premium modal. The "+
  Bagikan" button that runs it is disabled in exactly that case, so only
  the banner's upgrade link opens that modal. The handler is modelled as
  written.
- The feedback page's lookup callback clears `checking` whether or not the
  page is still mounted.

## Model

| member | source | states |
|---|---|---|
| RoleContext.Resolve | src/context/RoleContext.jsx:15-48 | after any settlement of the identity and profile lookups, the user is absent exactly when the role is absent, and a present role is never empty |
| RoleContext.ResolveDefaultsToUser | src/context/RoleContext.jsx:35-39 | a signed-in identity whose profile row is missing or has a falsy role gets role 'user', with the profile's username (possibly absent) copied in |
| RoleContext.ResolveKeepsProfileRole | src/context/RoleContext.jsx:37 | a truthy profile role is kept as the role |
| RoleContext.ResolveFailureClearsSession | src/context/RoleContext.jsx:17-46 | no identity, or an exception in either lookup, leaves user and role null |
| RoleContext.CapabilityTable | src/context/RoleContext.jsx:65-86 | canAddNotes and hasAccess both hold exactly for 'subs' or 'admin'; canManageContent and isAdmin hold exactly for 'admin'; requiresUpgrade holds exactly for 'user'; requiresLogin and isGuest hold exactly without a user; at most one of isUser/isSubs/isAdmin holds |
| RoleContext.Flags | src/context/RoleContext.jsx:65-86 | the exposed values hang together: hasAccess iff isSubs or isAdmin, canAddNotes iff hasAccess, canManageContent iff isAdmin, requiresUpgrade iff isUser, requiresLogin iff isGuest, and at most one role test holds |
| RoleContext.ResolvedFlagsExclusive | src/context/RoleContext.jsx:84-85 | after any resolution, requiresLogin never holds together with requiresUpgrade or with hasAccess, and holds exactly when the role is null |
| RoleContext.RoleProvider.constructor | src/context/RoleContext.jsx:8-10 | starts with no user, no role, loading, and the user-iff-role invariant |
| RoleContext.RoleProvider.FetchUserRole | src/context/RoleContext.jsx:12-48 | while mounted, stores the resolution and ends loading; after teardown, changes nothing; keeps the user-iff-role invariant |
| RoleContext.RoleProvider.Unmount | src/context/RoleContext.jsx:57-60 | clears the mounted flag and nothing else |
| SubscriptionGate.Gate | src/components/SubscriptionGate/SubscriptionGate.jsx:6-50 | children are shown iff hasAccess; otherwise the title and action both switch on role == 'user' (upgrade button, or the login link to /login), and the description contains the feature name, which defaults to 'fitur ini' |
| SubscriptionGate.FeatureName | src/components/SubscriptionGate/SubscriptionGate.jsx:6 | the feature prop as passed, or 'fitur ini' when it is absent |
| SubscriptionGate.UpgradeDescription | src/components/SubscriptionGate/SubscriptionGate.jsx:22 | the premium notice begins 'Akses ' and names the feature right after it |
| SubscriptionGate.LoginDescription | src/components/SubscriptionGate/SubscriptionGate.jsx:23 | the login notice names the feature and ends with '.' |
| SubscriptionGate.GateAfterResolution | src/components/SubscriptionGate/SubscriptionGate.jsx:9-49 | after any resolution, children are shown exactly to 'subs' and 'admin', a guest gets the login fallback and never the upgrade surface, and a 'user' gets the upgrade button |
| RequireAuth.View | src/components/auth/RequireAuth.jsx:24-27 | the placeholder while checking; the children exactly when the check is over and a user is known |
| RequireAuth.RequireAuthState.constructor | src/components/auth/RequireAuth.jsx:6-7 | starts checking, with no user |
| RequireAuth.RequireAuthState.OnGetUser | src/components/auth/RequireAuth.jsx:10-22 | while mounted, stores the user and ends checking, and without a user redirects to /auth-required with replace; after teardown, changes nothing and does not navigate |
| RequireAuth.RequireAuthState.Unmount | src/components/auth/RequireAuth.jsx:21 | clears the mounted flag and nothing else |
| RequireAuth.ResolveOnce | src/components/auth/RequireAuth.jsx:12-27 | for one lookup on a mounted wrapper, the children render exactly when no redirect was issued, exactly when a user was found |
| AdminPage.CheckAdminAccess | src/pages/admin/Admin.jsx:25-83 | access is granted exactly for an error-free identity whose error-free profile row has role 'admin'; an auth error or no identity goes to /need-login; every other denial goes to /, a thrown lookup included, always with replace; the alert precedes exactly the denials that follow a settled profile lookup |
| AdminPage.MissingProfileIsDenied | src/pages/admin/Admin.jsx:43-56 | a failed or missing profile lookup is a denial, with an alert, that goes to / (no default role) |
| AdminPage.NonAdminIsDenied | src/pages/admin/Admin.jsx:58-70 | any role other than 'admin', absent included, is a denial that goes to / |
| AdminPage.PanelsFor | src/pages/admin/Admin.jsx:147-150 | a panel is rendered iff its tab name equals the active tab, so at most one is |
| AdminPage.TabName | src/pages/admin/Admin.jsx:147-150 | each panel's activeTab value: 'users', 'content', 'announcements' or 'feedback', each naming exactly one panel |
| AdminPage.View | src/pages/admin/Admin.jsx:90-150 | the dashboard renders iff the check and the loading delay are over, a user is known and the role is 'admin'; its panels are those of the active tab |
| AdminPage.AdminPageState.constructor | src/pages/admin/Admin.jsx:15-18 | starts checking on the 'users' tab |
| AdminPage.AdminPageState.ApplyCheck | src/pages/admin/Admin.jsx:22-88 | while mounted, only a grant sets user, role and checking = false, and every other outcome only navigates; after teardown, nothing happens; the invariant "not checking implies an admin user" is kept |
| AdminPage.AdminPageState.SelectTab | src/pages/admin/Admin.jsx:107-137 | the clicked tab becomes active |
| AdminPage.AdminPageState.Unmount | src/pages/admin/Admin.jsx:87 | clears the mounted flag |
| AdminPage.ExactlyOnePanel | src/pages/admin/Admin.jsx:147-150 | in every reachable state, a rendered dashboard shows exactly one panel, the active tab's |
| Notes.TimeRemaining | src/components/social/Notes.jsx:98-110 | null iff created + 24 h <= now (the boundary is exclusive); otherwise minutes < 60, hours·1 h + minutes·1 min <= remaining < that + 1 min, and hours <= 24 once created <= now |
| Notes.TimeAgo | src/components/social/Notes.jsx:112-121 | the elapsed time falls in its bucket: under a minute is 'just now'; n minutes, hours or days are each 1 <= n below the next unit and bound the elapsed time; a week or more shows the date |
| Notes.LiveNotes | src/components/social/Notes.jsx:229-234 | an order-preserving sublist of the batch holding exactly its notes with now < created + 24 h |
| Notes.IsLive | src/components/social/Notes.jsx:229-234 | a note is live exactly while now < created + 24 h |
| Notes.LiveNotesLater | src/components/social/Notes.jsx:282-287 | the refresh filter at a later instant, applied to an earlier filter's result, equals filtering the batch at the later instant |
| Notes.LiveNotesIdempotent | src/components/social/Notes.jsx:229-234 | filtering twice at the same instant equals filtering once |
| Notes.AddNoteClick | src/components/social/Notes.jsx:299-316 | login prompt iff requiresLogin; premium modal iff not requiresLogin and not canAdd; note modal iff both checks pass |
| Notes.AddNoteClickAfterResolution | src/components/social/Notes.jsx:299-316 | with the provider's flags, a guest gets the login prompt, only 'subs' and 'admin' reach the note modal, and every other signed-in role ('user' included) gets the premium modal |
| Notes.AuthorName | src/components/social/Notes.jsx:342-345 | a never-empty name: the metadata full name, else the e-mail's part before '@', else 'Pengguna' |
| Notes.RemoveNote | src/components/social/Notes.jsx:395 | an order-preserving sublist holding exactly the notes whose id differs |
| Notes.RemoveUndoesPrepend | src/components/social/Notes.jsx:355 | deleting a just-prepended note whose id no other note shares restores the list as it was |
| Notes.CanDelete | src/components/social/Notes.jsx:448 | the delete button is offered exactly when the board's userId is the note's author |
| Notes.SubmittedText | src/components/social/Notes.jsx:36-48 | nothing for whitespace-only content; otherwise exactly Trim of the content, i.e. the content with its leading and trailing white space cut off, which is non-empty and unchanged by a second trim |
| Notes.NoteComposer.constructor | src/components/social/Notes.jsx:34 | starts empty |
| Notes.NoteComposer.Type | src/components/social/Notes.jsx:70 | stores the typed text |
| Notes.NoteComposer.SetOpen | src/components/social/Notes.jsx:50-52 | closing the modal clears the content |
| Notes.NoteComposer.Submit | src/components/social/Notes.jsx:36-48 | passes on the submitted text of the old content, and clears the content exactly when something was passed on |
| Notes.NotesBoard.constructor | src/components/social/Notes.jsx:170-176 | starts with no notes and the first fetch under way |
| Notes.NotesBoard.OnCurrentUser | src/components/social/Notes.jsx:179-187 | stores the identity only while mounted |
| Notes.NotesBoard.OnInitialFetch | src/components/social/Notes.jsx:190-247 | while mounted, a returned batch is replaced by its live notes and the board is marked ready; an error only marks it ready; loading ends in every case; no other field changes |
| Notes.NotesBoard.OnRefresh | src/components/social/Notes.jsx:250-295 | a returned batch is replaced by its live notes through the same filter; anything else changes nothing |
| Notes.NotesBoard.AddNoteClicked | src/components/social/Notes.jsx:299-316 | opens the premium modal or the note modal as AddNoteClick decides |
| Notes.NotesBoard.AddNote | src/components/social/Notes.jsx:318-376 | nothing without userId and currentUser; a refusal without canAdd; otherwise inserts {user_id, content}, and on success prepends exactly one note with that user and content, keeps the rest in order, and closes the modal; submitting ends false |
| Notes.NotesBoard.DeleteNote | src/components/social/Notes.jsx:378-411 | after confirmation and a successful delete, removes the notes with that id; otherwise changes nothing |
| Notes.NotesBoard.CloseModal | src/components/social/Notes.jsx:456 | closes the note modal |
| Notes.NotesBoard.Unmount | src/components/social/Notes.jsx:246 | clears the mounted flag |
| Notes.AddedNoteIsOwnAndLive | src/components/social/Notes.jsx:347-355 | a freshly added note can be deleted by its author and stays live for exactly 24 hours |
| TodoList.ComputeTimeLeft | src/components/todo/TodoList.jsx:9-16 | diff is the floor of the ms gap over 1000; days/hours/minutes of abs(diff) have hours < 24 and minutes < 60, and recombine to within a minute below abs(diff) |
| TodoList.TaskStatus | src/components/todo/TodoList.jsx:215-217 | overdue iff not done and the deadline has passed; due soon iff not done and the deadline is within the next 86 400 whole seconds; never both; a done task is neither |
| TodoList.Insert | src/components/todo/TodoList.jsx:119-123 | inserting into a sorted list keeps it sorted and adds exactly that task to the multiset |
| TodoList.SortByDeadline | src/components/todo/TodoList.jsx:119-123 | the result is non-decreasing by deadline and a permutation of the tasks |
| TodoList.InsertKeepsTies | src/components/todo/TodoList.jsx:120-122 | insertion puts the new task before the existing tasks with the same deadline |
| TodoList.SortIsStable | src/components/todo/TodoList.jsx:120-122 | the tasks sharing any one deadline keep their relative order, as a stable sort keeps them |
| TodoList.SetField | src/components/todo/TodoList.jsx:142-180 | only the named field changes |
| TodoList.SubmitWrite | src/components/todo/TodoList.jsx:63-84 | nothing for a whitespace-only title; otherwise the trimmed title and description, the deadline, the priority and the owner, sent as an update of editingId when it is truthy and as an insert otherwise |
| TodoList.EditForm | src/components/todo/TodoList.jsx:106-113 | copies the title; the description defaults to ''; the deadline is exactly the first 16 characters of the stored text (all of it when shorter); the priority defaults to 'normal' |
| TodoList.EditThenSubmit | src/components/todo/TodoList.jsx:63-113 | editing a task and submitting it unchanged updates that task with its trimmed title |
| TodoList.ToggleDone | src/components/todo/TodoList.jsx:97-101 | writes the negation of done for that task's id |
| TodoList.TodoBoard.HandleToggle | src/components/todo/TodoList.jsx:97-104 | sends ToggleDone of the task, then the list is whatever the refresh returns, exactly as RefreshTodos sets it |
| TodoList.TodoBoard.constructor | src/components/todo/TodoList.jsx:21-30 | starts loading, with no tasks, no edit target and the empty form |
| TodoList.TodoBoard.RefreshTodos | src/components/todo/TodoList.jsx:34-44 | no-op without userId; a failed query leaves the tasks; otherwise the rows, with null read as none |
| TodoList.TodoBoard.OnMountRefresh | src/components/todo/TodoList.jsx:46-49 | a refresh, after which loading ends |
| TodoList.TodoBoard.ChangeField | src/components/todo/TodoList.jsx:142-180 | the form becomes SetField of the old form |
| TodoList.TodoBoard.ResetForm | src/components/todo/TodoList.jsx:53-61 | the empty form with priority 'normal', and no edit target |
| TodoList.TodoBoard.HandleSubmit | src/components/todo/TodoList.jsx:63-88 | returns the write SubmitWrite sends; on a blank title nothing changes; otherwise the form is reset and the edit target cleared |
| TodoList.TodoBoard.HandleEdit | src/components/todo/TodoList.jsx:106-113 | the edit target is the task's id and the form is EditForm of the task |
| Hero.GetTimeLeft | src/components/Hero/Hero.jsx:18-30 | totalSeconds is max(0, floor(gap/1000)): never negative, 0 iff under a second remains; the fields have hours < 24 and minutes, seconds < 60, and recombine exactly to totalSeconds; all are 0 once the target has passed |
| Hero.SplitSeconds | src/components/Hero/Hero.jsx:24-27 | days, hours, minutes and seconds of a non-negative count recombine to it |
| Hero.CountdownNonIncreasing | src/components/Hero/Hero.jsx:158-164 | the countdown never increases as time passes |
| Hero.NextBg | src/components/Hero/Hero.jsx:149 | the next index is a valid index, one more than the current, wrapping from the last to 0 |
| Hero.BgAfter | src/components/Hero/Hero.jsx:145-155 | any number of rotations from a valid slide stays on a valid slide |
| Hero.BgAfterIsMod | src/components/Hero/Hero.jsx:145-155 | after k rotations from a valid index i, the slide is (i + k) mod 5 |
| Hero.CtaRole | src/components/Hero/Hero.jsx:204 | the role handed to the call to action is null whenever there is no user |
| Hero.PremiumCta | src/components/Hero/Hero.jsx:110-130 | nothing for 'subs' and 'admin'; upgrade for any other truthy role; register for a null or empty role |
| Hero.CtaClick | src/components/Hero/Hero.jsx:166-172 | the register variant navigates to /register, and the upgrade variant does not navigate |
| Hero.CtaAfterResolution | src/components/Hero/Hero.jsx:110-130 | after any resolution, a guest is offered registration, a 'user' the upgrade, and 'subs'/'admin' nothing |
| Hero.GuestGetsRegister | src/components/Hero/Hero.jsx:204 | without a user, the register variant is shown whatever the role state |
| Hero.HeroState.constructor | src/components/Hero/Hero.jsx:135-138 | starts on slide 0, faded in, with the current countdown |
| Hero.HeroState.FadeOut | src/components/Hero/Hero.jsx:147 | fades the slide out |
| Hero.HeroState.Advance | src/components/Hero/Hero.jsx:148-151 | advances to NextBg and fades in, keeping the index valid |
| Hero.HeroState.Tick | src/components/Hero/Hero.jsx:159-161 | the countdown becomes GetTimeLeft at the new instant |
| Hero.HeroState.ClickCta | src/components/Hero/Hero.jsx:166-172 | upgrade opens the premium modal; register navigates |
| Hero.HeroState.CloseModal | src/components/Hero/Hero.jsx:166-168 | closes the modal |
| UserManagement.FindAuth | src/components/admin/UserManagement.jsx:135 | absent iff no record has the id; otherwise the first record with it |
| UserManagement.MergeOne | src/components/admin/UserManagement.jsx:134-140 | keeps the profile and takes the auth record's truthy e-mail, else 'N/A', and its truthy confirmation, else null |
| UserManagement.Merge | src/components/admin/UserManagement.jsx:134-142 | one row per profile, in profile order, each merged with the first auth record that has its id |
| UserManagement.Fallback | src/components/admin/UserManagement.jsx:124-131 | one row per profile, with e-mail 'N/A' and no confirmation |
| UserManagement.FallbackIsEmptyMerge | src/components/admin/UserManagement.jsx:124-142 | the fallback equals the merge against an empty listing |
| UserManagement.UnmatchedProfile | src/components/admin/UserManagement.jsx:134-140 | a profile with no auth record merges to its fallback row |
| UserManagement.FilteredUsers | src/components/admin/UserManagement.jsx:161-169 | an order-preserving sublist holding exactly the users whose username or e-mail contains the query, ignoring case, and whose role matches a filter other than 'all' |
| UserManagement.KeepUser | src/components/admin/UserManagement.jsx:161-169 | a kept user has the filtered role unless the filter is 'all', and the lower-cased query occurs in the lower-cased username or e-mail |
| UserManagement.NoFilterListsAll | src/components/admin/UserManagement.jsx:161-169 | with an empty query and 'all', every user is listed |
| UserManagement.RoleFiltersPartition | src/components/admin/UserManagement.jsx:161-169 | for any query, the 'user', 'subs' and 'admin' totals add up to the 'all' total when every role is one of the three |
| UserManagement.HandleRoleChange | src/components/admin/UserManagement.jsx:12-58 | a dialog iff the role changes; an update of that id to that role iff confirmed; a refetch iff the update succeeded |
| UserManagement.SameRoleIsNoOp | src/components/admin/UserManagement.jsx:13-14 | selecting the current role shows no dialog and sends no update |
| UserManagement.UserList.constructor | src/components/admin/UserManagement.jsx:106-109 | starts loading, empty, with no search and role filter 'all' |
| UserManagement.UserList.FetchUsers | src/components/admin/UserManagement.jsx:110-155 | a failed or null profile query keeps the list; a failed listing gives the fallback; a listing without users keeps the list when there is at least one profile and gives [] when there is none; otherwise the merge; loading ends in every case |
| UserManagement.UserList.SetSearch | src/components/admin/UserManagement.jsx:181 | stores the search text |
| UserManagement.UserList.SetRoleFilter | src/components/admin/UserManagement.jsx:186 | stores the role filter |
| FeedbackManagement.Cutoff | src/components/admin/FeedbackManagement.jsx:128-129 | the cutoff lies exactly seven days of milliseconds before now |
| FeedbackManagement.FilteredFeedbacks | src/components/admin/FeedbackManagement.jsx:125-148 | an order-preserving sublist holding exactly the entries in the time window ('recent' at or after the cutoff, 'older' before it, anything else all) that match the search (empty: all; else message, username or e-mail contains it, ignoring case) |
| FeedbackManagement.InWindow | src/components/admin/FeedbackManagement.jsx:127-135 | 'recent' keeps exactly the entries at or after the cutoff, 'older' exactly the others, and any other filter keeps every entry |
| FeedbackManagement.MatchesSearch | src/components/admin/FeedbackManagement.jsx:137-145 | an empty search keeps every entry; otherwise a kept entry has the lower-cased query in its lower-cased message, username or e-mail |
| FeedbackManagement.KeepFeedback | src/components/admin/FeedbackManagement.jsx:125-148 | an entry is kept exactly when it passes both the window test and the search test |
| FeedbackManagement.WeeklyCount | src/components/admin/FeedbackManagement.jsx:180-187 | never exceeds the number of entries; its value is the 'recent' total with an empty search, as WeeklyCountIsRecent proves |
| FeedbackManagement.RecentOlderPartition | src/components/admin/FeedbackManagement.jsx:127-135 | for any search, the 'recent' and 'older' totals add up to the 'all' total |
| FeedbackManagement.WeeklyCountIsRecent | src/components/admin/FeedbackManagement.jsx:180-187 | the weekly figure equals the 'recent' total with no search |
| FeedbackManagement.UnfilteredListsAll | src/components/admin/FeedbackManagement.jsx:137-147 | with no search and a filter other than 'recent'/'older', every entry is listed |
| FeedbackManagement.FeedbackList.constructor | src/components/admin/FeedbackManagement.jsx:49-52 | starts loading and empty, with filter 'all' and no search |
| FeedbackManagement.FeedbackList.FetchFeedbacks | src/components/admin/FeedbackManagement.jsx:54-75 | an error keeps the list; null reads as empty; loading ends |
| FeedbackManagement.FeedbackList.HandleDelete | src/components/admin/FeedbackManagement.jsx:81-121 | a delete is sent only after confirmation; a refetch happens iff it succeeded |
| FeedbackManagement.FeedbackList.SetFilter | src/components/admin/FeedbackManagement.jsx:165 | stores the time filter |
| FeedbackManagement.FeedbackList.SetSearch | src/components/admin/FeedbackManagement.jsx:160 | stores the search text |
| ContentManagement.TableNaming | src/components/admin/ContentManagement.jsx:7-26 | each kind lists seven tables with the same label order, each named kind + '_' + the lower-cased label |
| ContentManagement.TablesOf | src/components/admin/ContentManagement.jsx:7-26 | each kind's seven tables carry the seven labels in the same order |
| ContentManagement.DisplayUploader | src/components/admin/ContentManagement.jsx:29-32 | 'Admin' for admin content, else the truthy uploader, else 'Pengguna'; never empty |
| ContentManagement.ProcessRow | src/components/admin/ContentManagement.jsx:185-189 | keeps the row, with uploader defaulting to 'Pengguna' and userRole to 'user' |
| ContentManagement.ProcessNote | src/components/admin/ContentManagement.jsx:147-155 | keeps the note, with uploader defaulting to 'Pengguna' |
| ContentManagement.CardUploader | src/components/admin/ContentManagement.jsx:85-86 | a card shows 'Admin' for an admin's row, 'Pengguna' without a joined profile, and otherwise the username or 'Pengguna' |
| ContentManagement.ProcessRows | src/components/admin/ContentManagement.jsx:185-189 | one processed entry per row, in order |
| ContentManagement.ProcessNotes | src/components/admin/ContentManagement.jsx:138-158 | one processed entry per note, in order |
| ContentManagement.Target | src/components/admin/ContentManagement.jsx:203-209 | the 'notes' type fetches notes; any other fetches the active table |
| ContentManagement.DeletePreview | src/components/admin/ContentManagement.jsx:215 | the first 50 characters, with '...' appended iff the content is longer |
| ContentManagement.DeleteContent | src/components/admin/ContentManagement.jsx:256-309 | after confirmation, the stored file is removed only when filePath is truthy; a storage failure is only a warning; the row delete always runs; a refetch iff it succeeded; an error iff it failed |
| ContentManagement.DeleteNote | src/components/admin/ContentManagement.jsx:212-253 | the content flow without a file: a delete after confirmation and a refetch iff it succeeded |
| ContentManagement.StorageFailureIsOnlyAWarning | src/components/admin/ContentManagement.jsx:277-288 | a storage failure changes neither the row delete, nor the refetch, nor the reported error |
| ContentManagement.ContentAdmin.constructor | src/components/admin/ContentManagement.jsx:121-125 | starts on materi_lbe, empty, with total 0 |
| ContentManagement.ContentAdmin.HandleTypeChange | src/components/admin/ContentManagement.jsx:311-316 | materi or latsol select their kind's first table; notes leaves the table as it was; total == the number of rows is kept |
| ContentManagement.ContentAdmin.HandleTableChange | src/components/admin/ContentManagement.jsx:318-320 | selects one of the current kind's tables |
| ContentManagement.ContentAdmin.FetchNotes | src/components/admin/ContentManagement.jsx:128-169 | the processed notes (null reads as none), or [] on failure; total equals the number of rows; loading ends |
| ContentManagement.ContentAdmin.FetchContents | src/components/admin/ContentManagement.jsx:172-200 | the processed rows, or [] on error or a null result; total equals the number of rows; loading ends |
| AnnouncementManagement.InitialFields | src/components/admin/AnnouncementManagement.jsx:11-16 | the edited row's title and content, with '' for falsy ones, or '' and '' when adding |
| AnnouncementManagement.ModalSubmit | src/components/admin/AnnouncementManagement.jsx:18-30 | refused iff the trimmed title or the trimmed content is empty; otherwise the non-empty trimmed fields and the edited row's id, absent when adding |
| AnnouncementManagement.WriteFor | src/components/admin/AnnouncementManagement.jsx:168-183 | an update of that id iff the payload's id is truthy; an insert otherwise |
| AnnouncementManagement.EditSavesInPlace | src/components/admin/AnnouncementManagement.jsx:11-29 | opening a row and saving it unchanged updates that row with its trimmed fields |
| AnnouncementManagement.AddInserts | src/components/admin/AnnouncementManagement.jsx:18-183 | a filled-in add inserts the trimmed fields |
| AnnouncementManagement.AnnouncementForm.constructor | src/components/admin/AnnouncementManagement.jsx:8-9 | starts empty |
| AnnouncementManagement.AnnouncementForm.Load | src/components/admin/AnnouncementManagement.jsx:11-16 | loads InitialFields of the row |
| AnnouncementManagement.AnnouncementForm.SetTitle | src/components/admin/AnnouncementManagement.jsx:48 | stores the title |
| AnnouncementManagement.AnnouncementForm.SetContent | src/components/admin/AnnouncementManagement.jsx:60 | stores the content |
| AnnouncementManagement.AnnouncementForm.Submit | src/components/admin/AnnouncementManagement.jsx:18-30 | hands on ModalSubmit of the fields |
| AnnouncementManagement.AnnouncementList.constructor | src/components/admin/AnnouncementManagement.jsx:132-136 | starts loading, empty, closed, with no edit target |
| AnnouncementManagement.AnnouncementList.FetchAnnouncements | src/components/admin/AnnouncementManagement.jsx:138-159 | an error keeps the list; null reads as empty; loading ends |
| AnnouncementManagement.AnnouncementList.HandleEdit | src/components/admin/AnnouncementManagement.jsx:250-253 | sets the edit target and opens the modal |
| AnnouncementManagement.AnnouncementList.OpenAdd | src/components/admin/AnnouncementManagement.jsx:259-264 | clears the edit target and opens the modal |
| AnnouncementManagement.AnnouncementList.Close | src/components/admin/AnnouncementManagement.jsx:289-292 | closes the modal and clears the edit target |
| AnnouncementManagement.AnnouncementList.HandleSubmit | src/components/admin/AnnouncementManagement.jsx:165-207 | issues WriteFor of the payload; on success refetches, closes and clears the edit target; on failure changes neither; saving ends false |
| AnnouncementManagement.AnnouncementList.HandleDelete | src/components/admin/AnnouncementManagement.jsx:209-248 | a delete only after confirmation, and a refetch iff it succeeded |
| Register.SetField | src/pages/auth/Register.jsx:15 | only the named field changes |
| Register.Validate | src/pages/auth/Register.jsx:22-30 | 'Semua field wajib diisi.' iff a field is empty; 'Password tidak cocok.' iff all are filled and the password differs from the confirmation; passes otherwise |
| Register.EmptyFieldWins | src/pages/auth/Register.jsx:22-30 | emptying any field gives the emptiness message, which takes precedence over a mismatch |
| Register.RegisterPage.constructor | src/pages/auth/Register.jsx:9-11 | empty form, no error, not loading |
| Register.RegisterPage.HandleChange | src/pages/auth/Register.jsx:14-17 | updates exactly the named field and clears the error |
| Register.RegisterPage.HandleSubmit | src/pages/auth/Register.jsx:19-39 | a failed check shows its message and requests nothing; otherwise it clears the error, starts loading and requests a sign-up with the form's e-mail and password |
| Register.RegisterPage.OnSignUp | src/pages/auth/Register.jsx:41-62 | an error ends loading, shows its message and inserts no profile; a returned user gets the profile row {id, submitted name}; no user ends loading and goes to /check-email |
| Register.RegisterPage.OnProfileInsert | src/pages/auth/Register.jsx:64-86 | loading ends; a failure shows 'Gagal menyimpan profil.'; a success goes to /check-email |
| Login.SetField | src/pages/auth/Login.jsx:15 | only the named field changes |
| Login.Validate | src/pages/auth/Login.jsx:21-24 | passes iff both fields are filled; otherwise 'Email dan password wajib diisi.' |
| Login.LoginPage.constructor | src/pages/auth/Login.jsx:9-11 | empty form, no error, not loading |
| Login.LoginPage.HandleChange | src/pages/auth/Login.jsx:14-17 | updates only the named field and clears the error |
| Login.LoginPage.HandleSubmit | src/pages/auth/Login.jsx:19-30 | an empty field sets the message and requests nothing; otherwise loading starts around the sign-in request |
| Login.LoginPage.OnSignIn | src/pages/auth/Login.jsx:31-51 | loading ends; an error is shown and nothing navigates; success goes to / |
| FeedbackPage.FeedbackUsername | src/pages/feedback/Feedback.jsx:40 | full_name, else name, else the e-mail's part before '@', else ''; empty exactly when all three are falsy |
| FeedbackPage.FeedbackRow | src/pages/feedback/Feedback.jsx:30-48 | nothing for a whitespace-only message; otherwise {user_id, email, username, message} with the message as typed |
| FeedbackPage.Render | src/pages/feedback/Feedback.jsx:69-70 | the form renders iff checking and the loading delay are over and a user is known |
| FeedbackPage.FeedbackForm.constructor | src/pages/feedback/Feedback.jsx:9-12 | starts checking, with no user and no message |
| FeedbackPage.FeedbackForm.OnUserLookup | src/pages/feedback/Feedback.jsx:16-26 | while mounted stores the user and redirects a missing one to /need-login with replace; checking ends regardless |
| FeedbackPage.FeedbackForm.Unmount | src/pages/feedback/Feedback.jsx:25 | clears the mounted flag |
| FeedbackPage.FeedbackForm.SetMessage | src/pages/feedback/Feedback.jsx:102 | stores the message |
| FeedbackPage.FeedbackForm.HandleSubmit | src/pages/feedback/Feedback.jsx:28-48 | sends FeedbackRow of the user and the message, and starts loading exactly when a row is sent |
| FeedbackPage.FeedbackForm.OnInsert | src/pages/feedback/Feedback.jsx:49-66 | loading ends; success clears the message, failure keeps it |
| Navbar.NavUsername | src/components/Navbar/Navbar.jsx:253-256 | never empty: the username, else the e-mail's part before '@', else 'User' |
| Navbar.RoleBadge | src/components/Navbar/Navbar.jsx:64-72 | ADMIN iff the role is 'admin', PREMIUM iff it is 'subs', no badge otherwise |
| Navbar.MenuItems | src/components/Navbar/Navbar.jsx:100-128 | the Dashboard Admin item is present iff the role is 'admin'; Logout is always last |
| Navbar.BadgeMatchesFlags | src/components/Navbar/Navbar.jsx:64-115 | the badge and the admin item agree with the provider's isAdmin, isSubs and canManageContent |
| Navbar.RightSlot | src/components/Navbar/Navbar.jsx:300-308 | a skeleton iff loading; otherwise the login link iff there is no user, else the user menu |
| Navbar.RightSlotAfterResolution | src/components/Navbar/Navbar.jsx:300-308 | once resolved, the user menu shows iff a role is known |
| Navbar.LogoutNav | src/components/Navbar/Navbar.jsx:258-271 | navigates to / iff sign-out returned no error |
| Navbar.NavbarState.constructor | src/components/Navbar/Navbar.jsx:249-250 | starts as 'User', with the mobile menu closed |
| Navbar.NavbarState.OnUser | src/components/Navbar/Navbar.jsx:253-256 | recomputes the name for a user; without one it leaves the name unchanged |
| Navbar.NavbarState.ToggleMobileMenu | src/components/Navbar/Navbar.jsx:273-275 | flips the mobile menu |
| Navbar.NavbarState.CloseMobileMenu | src/components/Navbar/Navbar.jsx:277-279 | closes the mobile menu |
| Navbar.NavbarState.HandleLogout | src/components/Navbar/Navbar.jsx:258-271 | navigates as LogoutNav decides |
| Navbar.UserDropdown.constructor | src/components/Navbar/Navbar.jsx:29 | starts closed |
| Navbar.UserDropdown.Toggle | src/components/Navbar/Navbar.jsx:32-34 | flips the dropdown |
| Navbar.UserDropdown.Close | src/components/Navbar/Navbar.jsx:36-51 | closes the dropdown |
| Navbar.UserDropdown.AdminClick | src/components/Navbar/Navbar.jsx:58-61 | closes the dropdown and goes to /admin |
| Navbar.UserDropdown.LogoutClick | src/components/Navbar/Navbar.jsx:53-56 | closes the dropdown |
| Materi.SubtestsDistinct | src/pages/materi/Materi.jsx:9-73 | seven subtests with distinct ids and distinct tables |
| Materi.StoredCount | src/pages/materi/Materi.jsx:88 | 0 on a query error, otherwise the reported count |
| Materi.BuildCounts | src/pages/materi/Materi.jsx:83-89 | the dictionary maps each subtest's table to the stored count of its own query, and holds no other key |
| Materi.CountOr0 | src/pages/materi/Materi.jsx:101 | the stored count when present and non-null, else 0 |
| Materi.Cards | src/pages/materi/Materi.jsx:99-102 | one card per subtest, in order, each subtest copied unchanged with its questionCount |
| Materi.CardsBeforeFetch | src/pages/materi/Materi.jsx:76-101 | every card shows 0 before counts arrive |
| Materi.CardsAfterFetch | src/pages/materi/Materi.jsx:84-101 | after a fetch a card shows 0 for a failed or null query and the reported count otherwise |
| Materi.MateriPage.constructor | src/pages/materi/Materi.jsx:76-77 | no counts, not ready |
| Materi.MateriPage.FetchCounts | src/pages/materi/Materi.jsx:80-97 | stores the gathered counts and marks the data ready only while mounted |
| Materi.MateriPage.Unmount | src/pages/materi/Materi.jsx:96 | clears the mounted flag |
| SoalList.Submission | src/components/SoalList/SoalList.jsx:10-18 | ignored iff the title, the description or the file is missing; otherwise an entry with those fields, stamped with the current instant |
| SoalList.AddSoal | src/components/SoalList/SoalList.jsx:166-168 | the new entry first, then the existing entries in order |
| SoalList.SoalPanel.Demo | src/components/SoalList/SoalList.jsx:125-178 | the demo's six entries, with the prepending onAdd |
| SoalList.SoalPanel.constructor | src/components/SoalList/SoalList.jsx:83-84 | given items, with or without onAdd, and the modal closed |
| SoalList.SoalPanel.OpenModal | src/components/SoalList/SoalList.jsx:93 | opens the modal |
| SoalList.SoalPanel.CloseModal | src/components/SoalList/SoalList.jsx:118 | closes the modal |
| SoalList.SoalPanel.SetTitle | src/components/SoalList/SoalList.jsx:37 | stores the title |
| SoalList.SoalPanel.SetDescription | src/components/SoalList/SoalList.jsx:47 | stores the description |
| SoalList.SoalPanel.SetFile | src/components/SoalList/SoalList.jsx:60 | stores the chosen file |
| SoalList.SoalPanel.HandleSubmit | src/components/SoalList/SoalList.jsx:10-24 | a missing field changes nothing; otherwise the entry goes to onAdd (prepended by the demo, dropped by the default no-op), the fields are cleared and the modal closes |

## Left out

- Supabase itself is not modelled: auth, table reads and writes, storage removal and the admin user listing. Their outcomes are method parameters, and the backend's row-level security lies outside this code.
- SweetAlert dialogs are left out. Only the user's answer and the choice of dialog are kept.
- JSX markup, CSS classes and inline styles are left out.
- Timers are left out: the notes auto-refresh interval, the hero's countdown and slideshow intervals, and the fade timeouts. Each tick is a method call instead (`OnRefresh`, `Tick`, `FadeOut`/`Advance`).
- `useLoadingDelay` only schedules timeouts, so its output is the `showLoading` parameter.
- The floating-point SVG geometry of the hero's circular countdown is not modelled.
- Dates are integer milliseconds. Locale formatting, ISO parsing and the date shown in the oldest time-ago bucket are not modelled. The to-do deadline keeps its text only for the 16-character edit slice.
- The exam instant (`UTBK_DATE`) is the `target` parameter. The clock is the `now` parameter.
- FeedbackManagement.Cutoff: the source moves the calendar date back seven days. The model subtracts 7 × 86 400 000 ms, which differs across a daylight-saving change.
- Per-note profile lookups run in parallel (`Promise.all`) in Notes and in the admin notes view. Their results arrive already joined to the batch as `username` or `profileUsername`.
- Rejected promises that the source does not catch are not modelled. After such a rejection the flags stay as they were.
  - `RequireAuth.RequireAuthState.OnGetUser`: `getUser()` has no catch (RequireAuth.jsx:12), so `checking` stays true.
  - `Register.RegisterPage.OnSignUp` and `Register.RegisterPage.OnProfileInsert`: a rejected `signUp` or insert (Register.jsx:36, 57) leaves `loading` true. The `loading`/phase invariant covers only settled calls.
  - `Login.LoginPage.OnSignIn`: a rejected sign-in (Login.jsx:27) leaves `loading` true.
  - `FeedbackPage.FeedbackForm.OnUserLookup` and `FeedbackPage.FeedbackForm.OnInsert`: a rejected lookup or insert (Feedback.jsx:18, 41) leaves `checking` or `loading` true.
  - `Navbar.NavbarState.HandleLogout`: a rejected `signOut` (Navbar.jsx:259) does not navigate.
  - `Materi.MateriPage.FetchCounts`: a rejected count query (Materi.jsx:85) leaves `dataReady` false.
- ContentManagement.DeleteContent: only a storage removal that returns an error is modelled, and it is just a warning. A rejected `remove` call (ContentManagement.jsx:273) jumps to the catch and skips the row delete; that path is not modelled.
- ContentManagement.DeletePreview: string lengths count Unicode code points, not the UTF-16 code units that JavaScript's `length` and `substring` count. A note with characters outside the Basic Multilingual Plane, such as emoji, is cut at a different place, or not at all.
- Case folding is ASCII only. Non-ASCII letters are not lower-cased by `Js.ToLower`.
- Notes.NotesBoard.AddNote: the handler runs atomically. `submitting` is true only while the insert is awaited, and the model ends it false.
- The optimistic note's id is the insertion instant (`Date.now()`), which is not the id the database assigns. The model keeps that choice.
- The notes' expiry label text, and the NotesModal 280-character limit (enforced by the browser), are not modelled.
- TodoList.SortByDeadline: the source compares `new Date(deadline)`. The model sorts by the parsed instant, so invalid dates (a NaN comparator) are not modelled.
- The to-do `handleDelete` only calls the backend and then refreshes. That refresh is `RefreshTodos`.
- The to-do `toggleDone` outcome is ignored by the source, so `HandleToggle` does not model it. The list shows the flipped task only if the refresh returns it.
- ContentManagement's `NoteItem` has its own time-ago labels (lines 36-43) and its own 'User' fallback (line 46). These presentation variants are not modelled.
- Materi card icons and colours are not modelled. They hold emoji and CSS values and carry no logic.
- The Register and Login pages' success dialogs navigate once they close. The navigation is returned directly.
- Register.RegisterPage.HandleSubmit: the submitted form is recorded in the phase, because the profile insert uses the form the submit was called on.
- SoalList.Submission: a file is identified by its object URL (`URL.createObjectURL`), since the browser creates that URL. Clearing the file input through its ref is represented by clearing `pdfFile`.
- The following are not part of this model: the premium upgrade modal, the folder cards, the check-email, auth-required and need-login pages, the announcements feed, the social and to-do page wiring, the latsol page's static list, the routes, and the subtest wrapper pages. They hold no decision logic.
