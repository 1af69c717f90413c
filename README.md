# Task tracker client: session, route guard and page logic in Dafny

This project models the statable core of a React client for project and task
tracking:

- the **session provider** (`AuthProvider`): the user, the in-memory token, the
  loading flag, the durable `token` storage slot and the global `Authorization`
  request header, with the verify-on-token-change effect, `login`, `register`
  and `logout`;
- the **route guard** (`ProtectedRoute`): placeholder, redirect to `/login` with
  history replacement, or the child outlet;
- the **page logic**: the task, project, profile and password form validators;
  the status filter; the task list updates (status change, edit, delete,
  create); the 4-project cap; and the progress percentages.

Every network reply is a parameter of the operation that awaits it: a
`ProfileReply`, an `AuthReply` or a plain `Reply` (succeeded or failed). Every
transition is therefore a deterministic function of the state and the reply.
The session is modelled twice, on purpose:
- as pure step functions over a `Session` value (`VerifyStep`, `SignInStep`,
  `LogoutStep`, `Step`, `Run`), which carry the properties;
- as the class `AuthProvider`, whose methods perform the same writes in the
  source's order and are proved equal to the step functions.

The pages are classes too. Their handlers perform the writes in the source's
order and are specified by pure list and validation functions, about which the
properties are proved.

Files: `wrappers.dfy` (Option, Outcome, Reply), `constants.dfy`, `lists.dfy`
(order-preserving filter and subsequence), `rounding.dfy` (round-half-up
percentage), `auth_context.dfy`, `protected_route.dfy`,
`project_details_page.dfy`, `projects_page.dfy`, `profile_page.dfy`.

Modelling decisions:
- JavaScript truthiness is explicit. `!token` holds for an absent and for an
  empty token, so `Truthy` requires both presence and non-emptiness.
- A profile reply whose body is empty (falsy) is `ProfileData(None)`, and it
  leaves the user as it was.
- The React effect that depends on `[token]` is the field `verifyScheduled`.
  `setToken` with a different value raises it; a run of the verify effect
  lowers it. `setToken` with the same value does not re-run the effect.
- `Run` does not tie `Verify` events to `verifyScheduled`: a sequence may hold a
  verify when none is scheduled, or never deliver a scheduled one. The lemmas over
  `Run` therefore cover more event sequences than React produces, which makes
  them stronger, not weaker.
- The two create handlers, `handleCreateTask` (src/pages/ProjectDetailsPage.tsx:260, 275)
  and `handleCreateProject` (src/pages/ProjectsPage.tsx:123, 137), write the list
  twice. The first write appends the server's `response.data`; the second, written
  last, appends a development mock built from the form's values. The model keeps
  the last write. The id and creation time come in as `newId` and `createdAt`,
  in place of `Date.now()` and `new Date()`.
- `handleStatusChange` (src/pages/ProjectDetailsPage.tsx:201-212), `handleUpdateTask`
  (:305-325), `handleDeleteTask` (:343-351) and `handleDeleteProject`
  (src/pages/ProjectsPage.tsx:155, 161) also write the list twice, but both
  writes are the same locally computed `map` or `filter` of the old list. They
  never use the reply's payload, so the model writes that list once.
- Percentages use integer round-half-up: `r` is the integer with
  `2·d·r ≤ 2·n + d < 2·d·(r+1)`.

Behaviour of the code that a reader may not expect, and that the model keeps:
- A failed verify does not clear `user` or the `Authorization` header
  (src/context/AuthContext.tsx:46-52). It only removes the token from storage
  and from memory. So after a login whose token is then rejected, the session
  has no token but still passes the guard, and the header still carries the
  rejected token (`ProtectedRoute.FailedVerifyKeepsUserSignedIn`).
- The verify effect (src/context/AuthContext.tsx:28-56) neither discards a reply
  that arrives after the token has changed nor cancels the request.
- `isLoading` is only ever set to false (src/context/AuthContext.tsx:32, 51). It
  ends at the first verify and never becomes true again, even when the token
  changes later (`AuthContext.LoadingNeverResumes`,
  `AuthContext.LoadingEndsOnlyByVerify`).

## Model

| member | source | states |
|---|---|---|
| `AuthContext.IsAuthenticated` | src/context/AuthContext.tsx:116 | `isAuthenticated` is true exactly when a user is present |
| `AuthContext.Initial` | src/context/AuthContext.tsx:24-26 | on mount: no user, token read from storage, loading, no header, verify due; the invariant holds |
| `AuthContext.VerifyStep` | src/context/AuthContext.tsx:28-56 | no truthy token: no request (header and reply ignored), only loading ends; otherwise the header becomes `Bearer <token>` and loading ends; success adopts a non-empty user and keeps the old one on an empty reply; failure drops the token from storage and memory, keeps the user, and schedules a re-run; the invariant is preserved |
| `AuthContext.SignInStep` | src/context/AuthContext.tsx:59-101 | login/register failure changes nothing; success sets the stored token, in-memory token, user and `Bearer` header to the reply, leaves loading alone, and schedules a verify iff the token changed; the invariant is preserved |
| `AuthContext.LogoutStep` | src/context/AuthContext.tsx:104-109 | logout always ends with no stored token, no token, no user, no header, not authenticated; loading untouched; the invariant is preserved |
| `AuthContext.Step` | src/context/AuthContext.tsx:26-109 | every transition preserves the invariant, never sets loading back to true, and only verify changes loading |
| `AuthContext.RunPreservesInvariant` | src/context/AuthContext.tsx:24-109 | any sequence of verifies, logins, registers and logouts preserves the invariant (storage mirrors the token; loading implies a pending verify; a settled truthy token is in the header) |
| `AuthContext.ReachableSessionsAreValid` | src/context/AuthContext.tsx:23-109 | every session reachable from mounting, with any stored token, satisfies the invariant |
| `AuthContext.LoadingNeverResumes` | src/context/AuthContext.tsx:26-51 | once `isLoading` is false it stays false under any sequence of events |
| `AuthContext.LoadingEndsOnlyByVerify` | src/context/AuthContext.tsx:26-109 | a sequence without a verify leaves `isLoading` as it was |
| `AuthContext.NoStoredTokenResolvesAnonymous` | src/context/AuthContext.tsx:25-34 | with nothing stored, the first verify gives the same session for every reply (no request), ends loading, and leaves no user, token or header |
| `AuthContext.StoredTokenVerified` | src/context/AuthContext.tsx:36-52 | a stored non-empty token whose profile request returns a user gives a settled session with that user, the token kept, and the `Bearer` header |
| `AuthContext.LogoutIdempotent` | src/context/AuthContext.tsx:104-109 | logging out twice equals logging out once |
| `AuthContext.AuthProvider.constructor` | src/context/AuthContext.tsx:23-26 | the provider's fields are the initial session and satisfy the invariant |
| `AuthContext.AuthProvider.SetToken` | src/context/AuthContext.tsx:56 | `setToken` stores the value and schedules the effect again exactly when the value changes |
| `AuthContext.AuthProvider.VerifyToken` | src/context/AuthContext.tsx:30-53 | the effect's writes, in order, produce exactly `VerifyStep` of the old state; the invariant is kept |
| `AuthContext.AuthProvider.AdoptCredentials` | src/context/AuthContext.tsx:66-73 | the four writes after a successful sign-in produce `SignInStep` with that token and user |
| `AuthContext.AuthProvider.Login` | src/context/AuthContext.tsx:59-78 | the new state is `SignInStep` of the old; the call rejects with the reply's error exactly when the request failed |
| `AuthContext.AuthProvider.Register` | src/context/AuthContext.tsx:81-101 | the same as `Login`, for the register request |
| `AuthContext.AuthProvider.Logout` | src/context/AuthContext.tsx:104-109 | the new state is `LogoutStep` of the old; the invariant is kept |
| `ProtectedRoute.Guard` | src/components/ProtectedRoute.tsx:4-23 | placeholder exactly while loading; redirect exactly when not loading and not authenticated, always to `/login` with replace; outlet exactly when not loading and authenticated |
| `ProtectedRoute.LogoutRedirects` | src/components/ProtectedRoute.tsx:17-19 | after a logout once loading is over, the guard redirects to `/login` with replace |
| `ProtectedRoute.SignInOpensOutlet` | src/components/ProtectedRoute.tsx:22 | after a successful login or register once loading is over, the guard renders the outlet |
| `ProtectedRoute.PlaceholderUntilFirstVerify` | src/components/ProtectedRoute.tsx:8-14 | from mounting, until the first verify runs, the guard shows only the placeholder, whatever logins and logouts happen |
| `ProtectedRoute.FailedVerifyKeepsUserSignedIn` | src/context/AuthContext.tsx:46-52 | login, then a failed verify and its re-run: no token in memory or storage, the user kept, the stale `Bearer` header kept, and the guard renders the outlet |
| `Rounding.Percent` | src/pages/ProjectDetailsPage.tsx:451 | the nearest integer to 100·part/whole, halves up; at most 100 when part ≤ whole; 0 for part 0; 100 for part = whole |
| `Lists.Filter` | src/pages/ProjectDetailsPage.tsx:191 | keeps exactly the elements satisfying the predicate, with their multiplicities, as a subsequence in original order |
| `ProjectDetails.TaskTitleError` | src/pages/ProjectDetailsPage.tsx:222-228 | empty title: REQUIRED; length 1–2: MIN; length over 100: MAX; no error exactly when 3 ≤ length ≤ 100 |
| `ProjectDetails.TaskDescriptionError` | src/pages/ProjectDetailsPage.tsx:230-232 | an error (DESCRIPTION_MAX_LENGTH) exactly when longer than 500; the empty description never errors |
| `ProjectDetails.TaskFormErrors` | src/pages/ProjectDetailsPage.tsx:219-236 | the errors object holds the title and description messages; it is empty exactly when 3 ≤ \|title\| ≤ 100 and \|description\| ≤ 500 |
| `ProjectDetails.TaskFilter` | src/pages/ProjectDetailsPage.tsx:186-193 | `all` yields the list itself; any other value yields exactly the tasks with that status, with multiplicities, in original order |
| `ProjectDetails.TaskFilterIdempotent` | src/pages/ProjectDetailsPage.tsx:188-192 | filtering the filtered list again changes nothing |
| `ProjectDetails.CreatedTaskShownLast` | src/pages/ProjectDetailsPage.tsx:275 | after a create, the filtered list is the old filtered list plus the new task at the end exactly when it passes the filter |
| `ProjectDetails.WithStatus` | src/pages/ProjectDetailsPage.tsx:201-203 | length and order kept; every task differs from the old one at most in status; status changes exactly for the tasks with the id |
| `ProjectDetails.WithStatusIdempotent` | src/pages/ProjectDetailsPage.tsx:209-211 | applying the same status change twice equals applying it once |
| `ProjectDetails.ApplyEdit` | src/pages/ProjectDetailsPage.tsx:315-324 | the editable fields become the edit; `_id` and `createdAt` are kept |
| `ProjectDetails.UpdateTask` | src/pages/ProjectDetailsPage.tsx:305-307 | length kept; every `_id` and `createdAt` kept; tasks with the id take the edit, all others are unchanged |
| `ProjectDetails.RemoveTask` | src/pages/ProjectDetailsPage.tsx:343 | exactly the tasks with another id remain, with multiplicities, in original order |
| `ProjectDetails.RemoveTaskIdempotent` | src/pages/ProjectDetailsPage.tsx:350 | deleting the same id twice equals deleting it once |
| `ProjectDetails.RemoveAbsentTask` | src/pages/ProjectDetailsPage.tsx:343 | deleting an id no task has leaves the list unchanged |
| `ProjectDetails.DueDateOrNull` | src/pages/ProjectDetailsPage.tsx:253 | an empty due date is stored as null; any other is stored as given |
| `ProjectDetails.DueDateText` | src/pages/ProjectDetailsPage.tsx:377 | the form shows the empty string exactly for a null or empty stored due date |
| `ProjectDetails.DueDateRoundTrip` | src/pages/ProjectDetailsPage.tsx:377 | form text → stored → form text is the identity; stored → form text → stored is the identity except for a stored empty string |
| `ProjectDetails.UnchangedEditKeepsTask` | src/pages/ProjectDetailsPage.tsx:371-381 | opening a task in the edit form and saving it unchanged gives back the same task (unless its due date is the empty string) |
| `ProjectDetails.CompletedCount` | src/pages/ProjectDetailsPage.tsx:450 | the number of completed tasks is at most the number of tasks |
| `ProjectDetails.ProgressPercentage` | src/pages/ProjectDetailsPage.tsx:450-451 | 0 for an empty list; otherwise the nearest integer to 100·completed/total, halves up; always in [0,100]; 0 with none completed, 100 with all completed |
| `ProjectDetails.AllCompletedIsFull` | src/pages/ProjectDetailsPage.tsx:450-451 | a non-empty list of completed tasks is at 100% |
| `ProjectDetails.PriorityColor` | src/pages/ProjectDetailsPage.tsx:405-416 | red exactly for high, yellow exactly for medium, green exactly for low, gray exactly for anything else |
| `ProjectDetails.ProjectDetailsPage.constructor` | src/pages/ProjectDetailsPage.tsx:39-58 | the loaded list, filter `all` (so the shown list is the whole list), empty form, no errors, nothing selected |
| `ProjectDetails.ProjectDetailsPage.ValidateTaskForm` | src/pages/ProjectDetailsPage.tsx:219-236 | stores `TaskFormErrors` of the form and returns true exactly when the form is valid |
| `ProjectDetails.ProjectDetailsPage.HandleStatusChange` | src/pages/ProjectDetailsPage.tsx:195-217 | on success the list becomes `WithStatus`; on failure it is unchanged; nothing else changes |
| `ProjectDetails.ProjectDetailsPage.CloseTaskModal` | src/pages/ProjectDetailsPage.tsx:383-393 | clears the selection, resets the form to its defaults, clears errors and editing |
| `ProjectDetails.ProjectDetailsPage.OpenCreateTaskModal` | src/pages/ProjectDetailsPage.tsx:360-369 | resets the form and errors, leaves editing off; the selection is untouched |
| `ProjectDetails.ProjectDetailsPage.OpenEditTaskModal` | src/pages/ProjectDetailsPage.tsx:371-381 | selects the task and loads its fields into the form, a null due date as the empty string |
| `ProjectDetails.ProjectDetailsPage.OpenDeleteTaskModal` | src/pages/ProjectDetailsPage.tsx:395-398 | selects the task |
| `ProjectDetails.ProjectDetailsPage.CloseDeleteTaskModal` | src/pages/ProjectDetailsPage.tsx:400-403 | clears the selection |
| `ProjectDetails.ProjectDetailsPage.HandleCreateTask` | src/pages/ProjectDetailsPage.tsx:238-282 | errors from validation; an invalid form changes nothing else; a valid one with a successful reply appends one task built from the form (empty due date as null) and resets the form; a failed reply leaves the list; submitting ends false |
| `ProjectDetails.ProjectDetailsPage.HandleUpdateTask` | src/pages/ProjectDetailsPage.tsx:284-332 | errors from validation; with an invalid form or no selection nothing else changes; on success the list becomes `UpdateTask` with the selected id and the form's fields, and the form resets |
| `ProjectDetails.ProjectDetailsPage.HandleDeleteTask` | src/pages/ProjectDetailsPage.tsx:334-358 | no selection: nothing changes; on success the list becomes `RemoveTask` of the selected id and the selection clears; on failure the list is unchanged |
| `Projects.ProjectNameError` | src/pages/ProjectsPage.tsx:79-90 | empty name: REQUIRED; length 1–2: MIN; length over 50: MAX; the error is cleared exactly when 3 ≤ length ≤ 50 |
| `Projects.ProjectDescriptionError` | src/pages/ProjectsPage.tsx:92-97 | DESCRIPTION_MAX_LENGTH exactly when longer than 500, otherwise cleared |
| `Projects.CanOfferNewProject` | src/pages/ProjectsPage.tsx:216 | the "New Project" button shows exactly when the create handler's limit check would not refuse |
| `Projects.AddProject` | src/pages/ProjectsPage.tsx:109-137 | at or over the limit the list is unchanged; below it the project is appended and the count stays at most 4 |
| `Projects.CreatesStopAtCap` | src/pages/ProjectsPage.tsx:109 | after any number of creates, a list at or over the limit keeps its size, and a shorter one has min(initial + attempts, 4) projects |
| `Projects.CreatesKeepCountBounded` | src/pages/ProjectsPage.tsx:123-137 | creates never take the count above 4 unless the loaded list was already larger |
| `Projects.RemoveProject` | src/pages/ProjectsPage.tsx:155 | exactly the projects with another id remain, with multiplicities, in original order |
| `Projects.RemoveProjectIdempotent` | src/pages/ProjectsPage.tsx:161 | deleting the same id twice equals deleting it once |
| `Projects.TaskCountOrOne` | src/pages/ProjectsPage.tsx:274 | the divisor is never zero and equals the task count when that is positive |
| `Projects.CompletionPercent` | src/pages/ProjectsPage.tsx:274-281 | rounded share of completed tasks over (task count, or 1): at most 100 when completed ≤ total; 0 with none completed; 100 when all are completed; 100·completed for a zero task count |
| `Projects.ProjectsPage.constructor` | src/pages/ProjectsPage.tsx:18-29 | the loaded list, an empty form, no errors, nothing selected |
| `Projects.ProjectsPage.ValidateProjectForm` | src/pages/ProjectsPage.tsx:76-100 | stores each field's message (or clears it) and returns true exactly when both checks pass |
| `Projects.ProjectsPage.ResetCreateForm` | src/pages/ProjectsPage.tsx:170-184 | clears the form and both errors |
| `Projects.ProjectsPage.HandleCreateProject` | src/pages/ProjectsPage.tsx:102-144 | invalid form or at least 4 projects: the list is unchanged; otherwise a successful reply appends the project built from the form with zero counts and resets the form; a changed list grew by one from fewer than 4 and has at most 4 |
| `Projects.ProjectsPage.OpenDeleteModal` | src/pages/ProjectsPage.tsx:186-189 | selects the project |
| `Projects.ProjectsPage.CloseDeleteModal` | src/pages/ProjectsPage.tsx:191-194 | clears the selection |
| `Projects.ProjectsPage.HandleDeleteProject` | src/pages/ProjectsPage.tsx:146-168 | no selection: nothing changes; on success the list becomes `RemoveProject` of the selected id and the selection clears; on failure the list is unchanged |
| `Profile.ProfileFormErrors` | src/pages/ProfilePage.tsx:37-46 | no errors exactly when the name is non-empty; the name error is REQUIRED; the password errors are cleared |
| `Profile.CurrentPasswordError` | src/pages/ProfilePage.tsx:51-53 | REQUIRED exactly when the current password is empty |
| `Profile.NewPasswordError` | src/pages/ProfilePage.tsx:55-59 | empty: REQUIRED; length 1–5: MIN; no error exactly when the length is at least 6 |
| `Profile.ConfirmPasswordError` | src/pages/ProfilePage.tsx:61-65 | empty: REQUIRED; non-empty and different from the new password: MATCH; no error exactly when it equals a non-empty new password |
| `Profile.PasswordFormErrors` | src/pages/ProfilePage.tsx:48-69 | the three field messages side by side; no errors exactly when the current password is non-empty, the new one has length at least 6, and the confirmation equals it |
| `Profile.PasswordChecksIndependent` | src/pages/ProfilePage.tsx:51-65 | each field's message depends only on its own inputs (the confirmation's on itself and the new password), so no error suppresses another |
| `Profile.ProfilePage.constructor` | src/pages/ProfilePage.tsx:13-28 | empty fields, no errors, not loading |
| `Profile.ProfilePage.LoadUser` | src/pages/ProfilePage.tsx:30-35 | a present user's name and email fill the form; otherwise they are unchanged |
| `Profile.ProfilePage.ValidateProfileForm` | src/pages/ProfilePage.tsx:37-46 | stores `ProfileFormErrors` and returns true exactly when the name is non-empty |
| `Profile.ProfilePage.ValidatePasswordForm` | src/pages/ProfilePage.tsx:48-69 | stores `PasswordFormErrors` and returns true exactly when the password form is valid |
| `Profile.ProfilePage.HandleUpdateProfile` | src/pages/ProfilePage.tsx:71-94 | stores the profile errors; the loading flag ends false when the form was valid, otherwise unchanged |
| `Profile.ProfilePage.HandleChangePassword` | src/pages/ProfilePage.tsx:96-123 | stores the password errors; a valid form with a successful reply resets all three password fields to empty; otherwise they are unchanged |
| `Profile.ProfilePage.HandleLogout` | src/pages/ProfilePage.tsx:125-129 | the provider's new state is `LogoutStep` of the old |

## Left out

- Network requests, URLs and response timing: every reply is a parameter. Replies the handlers ignore are only success or failure.
- Asynchronous interleaving of verify, login and register: each transition is atomic. The code discards no stale reply and cancels nothing, so there is nothing to model there.
- Malformed success payloads: a login or register reply is either a token and a user or an error. A missing field in the reply is not modelled.
- Toasts, `console.error`, modal visibility flags, JSX and class strings are presentation. `getPriorityColor`'s class strings are kept, because the function returns them.
- The development mock data blocks, `Date.now()` ids, `new Date()` timestamps and `date-fns` formatting: ids and timestamps are parameters.
- The server payloads of the create handlers: the later mock write replaces them in the list, and the model keeps that write.
- Floating-point `Math.round(c / n * 100)`: modelled as exact integer round-half-up.
- String length: Dafny counts characters, while JavaScript's `length` counts UTF-16 code units. The two differ for characters outside the Basic Multilingual Plane.
- Task counts in projects are natural numbers; negative counts from the server are not modelled.
- `Projects.CompletionPercent` and `Rounding.Percent` bound the result by 100 only when completed ≤ total, because nothing in the client enforces that relation.
- The `useAuth` check that throws outside a provider is React plumbing. The route table (App.tsx), Layout, Sidebar, Footer, HomePage, NotFoundPage and DashboardPage are display only; DashboardPage repeats the projects percentage.
- LoginPage, RegisterPage and Navbar are not part of this model.
- Navigation after logout on the profile page (`navigate('/')`) is router behaviour.
