# Project Smart — decision rules and session state, in Dafny

Project Smart is a project-management web application. It has a kanban board
of tasks, user, project and skill lists backed by a mock API, a JWT session
provider, and a side navigation that depends on the user's role. This project
models the application's deterministic core and proves properties of it:

- **Drag-end routing** (`KanbanPage`). A finished drag becomes no command or a
  move-task command. The page also supplies default names for new columns and
  tasks, and holds the open-task cell that drives the task drawer.
- **Task editor** (`TaskModal`). It covers the move on a status change and the
  name commit/revert rules on blur and on Enter. It also covers assigning a
  developer without duplicates, resolving assignee ids to known users in
  order, and counting a developer's matching skills. The editor's state cells
  form the class `TaskEditor`.
- **Label editor** (`TaskLabels`). It covers the offered skills, deleting and
  toggling a label, and the effects reported: the popover closing and
  `onChange`.
- **Authentication provider** (`AuthProvider`).
  - The reducer handles INITIALIZE, SIGN_IN and SIGN_OUT, and any other
    action type.
  - The session-storage protocol keeps the token under 'accessToken' and the
    user under 'me'. The class `Provider` holds the reducer state and the
    storage map.
- **Mock user store** (`AuthApi`).
  - The persisted list is seeded with the default users when nothing is
    stored.
  - Sign-in checks credentials and sign-up rejects duplicate emails.
    Persistence only appends.
  - The searchable user list is searched by email, name and role. The class
    `UserStore` holds the value of the storage key 'users'.
- **List endpoints** (`Query`, `Listing`, `ProjectsApi`, `SkillsApi`).
  - One pipeline serves users, projects and skills. Its filter stage keeps
    items whose searchable fields contain the query, ignoring case.
  - It fixes `count`, then sorts and paginates.
  - The filter stage and the `queryMatched` loop are methods with loop
    invariants. The filter stage is proved equal to the specification
    function `Matching`. The `queryMatched` loop is proved equal to
    `AnyFieldMatches`, which says that some field contains the query.
- **Role-based navigation** (`MainNav`). A role maps to the one section of
  navigation entries.

The modules `Common` (Option, Result, `Filter`, the first-match search `FirstWhere`, subsequence), `Text`
(lower-casing and substring search) and `Users` (users and roles) hold what
the others share.

Two consequences of the code are stated as lemmas:

- **Seed users sign in without a user id.** The seed users are written with
  a field `id` instead of `_id`. A seed user can therefore sign in, but the
  token it receives names no user (`AuthApi.DefaultUsersSignIn`).
- **Signing out keeps the stored user.** Signing out removes only the token.
  The stored user stays in session storage, and the navigation keeps
  following its role (`MainNav.SignedInUserNavigation`).

## Model

| member | source | states |
|---|---|---|
| Common.FirstWhere | src/api/auth/index.ts:92 | `find` as a position: the element there satisfies the test and no earlier one does; there is none exactly when no element satisfies it |
| Common.FirstWhereAppend | src/api/auth/index.ts:118 | searching past a prefix with no match finds the first match in what follows, shifted by the prefix length |
| Text.LowerChar | src/api/auth/index.ts:158 | lower-casing maps 'A'..'Z' 32 code points down, leaves every other character alone, and never yields an upper-case letter |
| Query.Matching | src/api/auth/index.ts:151-168 | the filter stage keeps a subsequence of the items, in their order; without an active query it keeps all of them |
| Query.MatchingMembers | src/api/auth/index.ts:152-168 | an item is kept exactly when it passes the filter callback |
| Query.MatchingCounts | src/api/auth/index.ts:151-168 | each item that passes the filter callback is kept as many times as it occurs, and any other item not at all |
| Query.MatchAny | src/api/auth/index.ts:154-161 | the `forEach` over the searchable properties raises `queryMatched` exactly when some property contains the query |
| Query.MatchIgnoresCase | src/api/auth/index.ts:158 | lower-casing either the field or the query does not change whether they match |
| Query.VerbatimOccurrenceMatches | src/api/auth/index.ts:158 | a field that contains the query verbatim matches it |
| Listing.KeepItem | src/api/auth/index.ts:152-168 | the callback keeps the item unless the query is defined, non-empty and matched by no field |
| Listing.FilterStage | src/api/auth/index.ts:151-170 | `data.filter(...)` yields exactly the specification's matches |
| Listing.GetPage | src/api/auth/index.ts:145-184 | `count` is the number of matches (the total without filters), fixed before sorting and pagination; `data` is the matches sorted and paginated when those are requested |
| ProjectsApi.GetProjects | src/api/projects/projectApi.ts:23-60 | `count` is the number of matching projects (all of them without filters); `data` is the matches sorted and paginated |
| ProjectsApi.FilteredProjects | src/api/projects/projectApi.ts:29-46 | without a non-empty query every project is kept; with one, exactly the projects whose name contains it ignoring case, each as often as it occurs, as a subsequence of the list |
| SkillsApi.GetSkills | src/api/skills/skillApi.ts:23-60 | `count` is the number of matching skills (all of them without filters); `data` is the matches sorted and paginated |
| SkillsApi.FilteredSkills | src/api/skills/skillApi.ts:29-46 | without a non-empty query every skill is kept; with one, exactly the skills whose label contains it ignoring case, each as often as it occurs, as a subsequence of the list |
| Users.RoleName | src/types/user.ts:1 | every role has a non-empty name |
| Users.RoleNameInjective | src/types/user.ts:1 | two roles have the same name only when they are the same role |
| AuthApi.PersistedUsers | src/api/auth/index.ts:16-30 | nothing stored reads as the default users, a stored list as itself, unparsable text as the empty list |
| AuthApi.FirstWithEmail | src/api/auth/index.ts:92 | finds the first user with the email, or reports that no user has it |
| AuthApi.CheckCredentials | src/api/auth/index.ts:92-102 | sign-in fails with 'Please check your email and password' exactly when no user has the email or the first such user's password differs; otherwise the token names that user's `_id` |
| AuthApi.Register | src/api/auth/index.ts:118-133 | sign-up fails with 'User already exists' exactly when some user has the email; otherwise the list gains exactly one user, at the end, with the given fields and the new id |
| AuthApi.DefaultUsersSignIn | src/api/auth/data.ts:3-32 | with nothing stored, each default user signs in with the default password and gets a token with no user id |
| AuthApi.SignUpThenSignIn | src/api/auth/index.ts:84-137 | after a successful sign-up, signing in with the same email and password succeeds with a token for the new id |
| AuthApi.SignUpKeepsEmailsUnique | src/api/auth/index.ts:118-133 | sign-up never creates a second user with the same email |
| AuthApi.CredentialsWithUniqueEmails | src/api/auth/index.ts:92-97 | when emails are unique, sign-in succeeds exactly when some user has that email and password |
| AuthApi.FilteredUsers | src/api/auth/index.ts:151-168 | without a non-empty query every user is kept; with one, exactly the users whose email, name or role contains it ignoring case, each as often as it occurs, in order |
| AuthApi.UserStore.constructor | src/api/auth/index.ts:11 | the store starts with what storage already holds under 'users' |
| AuthApi.UserStore.GetPersistedUsers | src/api/auth/index.ts:16-30 | returns the persisted list; when nothing is stored it writes the default users first |
| AuthApi.UserStore.PersistUser | src/api/auth/index.ts:32-40 | the stored list becomes the current list with the user appended |
| AuthApi.UserStore.SignIn | src/api/auth/index.ts:84-108 | the result is the credential decision on the persisted list, which is left as it was |
| AuthApi.UserStore.SignUp | src/api/auth/index.ts:110-143 | a duplicate email rejects and leaves the list alone; otherwise the stored list is the registered list and the token names the new id |
| AuthApi.UserStore.GetUsers | src/api/auth/index.ts:145-184 | count and data as for the list pipeline, over the persisted users searched by email, name and role; the list is not changed |
| AuthApi.UserStore.SaveUser | src/api/auth/index.ts:186-188 | the stored list gains the user at the end |
| AuthProvider.Reduce | src/contexts/auth/jwt/auth-provider.tsx:45-73 | INITIALIZE sets `isInitialized` and copies `isAuthenticated` and `user`; SIGN_IN authenticates and installs the user, keeping `isInitialized`; SIGN_OUT unauthenticates and clears the user, keeping `isInitialized`; an action without a handler changes nothing |
| AuthProvider.InitializedIsSticky | src/contexts/auth/jwt/auth-provider.tsx:45-73 | no sequence of actions clears `isInitialized` once set |
| AuthProvider.InitializeAnywhereInitializes | src/contexts/auth/jwt/auth-provider.tsx:46-55 | after any sequence containing an INITIALIZE, the state is initialized |
| AuthProvider.SignOutAbsorbs | src/contexts/auth/jwt/auth-provider.tsx:56-69 | signing out twice equals signing out once, and a sign-out undoes a sign-in before it |
| AuthProvider.Lookup | src/contexts/auth/jwt/auth-provider.tsx:85 | reading a key yields its stored value, or nothing when the key is absent |
| AuthProvider.InitialAction | src/contexts/auth/jwt/auth-provider.tsx:83-116 | `initialize` always dispatches INITIALIZE; it is authenticated exactly when the token is non-empty and the stored user does not fail to parse; unauthenticated means no user; the user is the parsed stored user when there is one |
| AuthProvider.SessionUser | src/contexts/auth/jwt/auth-provider.tsx:137-142 | the signed-in user takes id, email, name and role from the response and has no password or avatar |
| AuthProvider.SignOutThenInitialize | src/contexts/auth/jwt/auth-provider.tsx:157-160 | after the token is removed the stored user is still there, and `initialize` yields unauthenticated with no user |
| AuthProvider.SignInThenInitialize | src/contexts/auth/jwt/auth-provider.tsx:144-145 | after a sign-in with a non-empty token, `initialize` restores the signed-in user when parsing undoes stringifying |
| AuthProvider.EmptyTokenDoesNotPersist | src/contexts/auth/jwt/auth-provider.tsx:87 | a sign-in whose token is empty is not authenticated by a later `initialize` |
| AuthProvider.Provider.constructor | src/contexts/auth/jwt/auth-provider.tsx:81 | the provider starts from the given initial state and session storage |
| AuthProvider.Provider.Initialize | src/contexts/auth/jwt/auth-provider.tsx:83-116 | storage is untouched and the state is reduced by the INITIALIZE action for the stored session |
| AuthProvider.Provider.SignIn | src/contexts/auth/jwt/auth-provider.tsx:126-155 | storage gains the token under 'accessToken' and the stringified user under 'me'; the state is reduced by SIGN_IN with that same user |
| AuthProvider.Provider.SignOut | src/contexts/auth/jwt/auth-provider.tsx:157-160 | only 'accessToken' is removed from storage; the state is reduced by SIGN_OUT |
| MainNav.Sections | src/layouts/main/config.tsx:88-97 | exactly one section, projects first, no entry twice; users present exactly for 'Admin'; skills and skill matrix present exactly for 'Admin' and 'Project Manager' |
| MainNav.SectionsByRole | src/layouts/main/config.tsx:88-95 | Admin sees projects, skills, skill matrix, users; Project Manager sees projects, skills, skill matrix; Manager and Developper see projects only |
| MainNav.SectionsArePrefixes | src/layouts/main/config.tsx:45-95 | each role's entries extend those of the role below as a prefix |
| MainNav.RoleFromSession | src/layouts/main/config.tsx:32-42 | the role is set exactly when the stored user text is non-empty and parses to a user, and is that user's role |
| MainNav.SignedInUserNavigation | src/layouts/main/config.tsx:33-42 | after a sign-in stores the user, the navigation follows that user's role, also after the token is removed |
| KanbanPage.HandleDragEnd | src/pages/dashboard/kanban.tsx:50-89 | no command when dropped outside or at the same place; otherwise a move of the dragged task to the destination index, naming the destination column only when it differs from the source |
| KanbanPage.DragEndLandsAtDestination | src/pages/dashboard/kanban.tsx:58-81 | for every drop onto a column, the task ends exactly at the drop location |
| KanbanPage.DragOutsideStays | src/pages/dashboard/kanban.tsx:53-56 | a drop outside every column leaves the task in place |
| KanbanPage.OrDefault | src/pages/dashboard/kanban.tsx:97 | a non-empty name passes through; an absent or empty one becomes the fallback; the result is never empty |
| KanbanPage.OrDefaultIdempotent | src/pages/dashboard/kanban.tsx:170 | applying the default twice is applying it once |
| KanbanPage.HandleColumnAdd | src/pages/dashboard/kanban.tsx:91-107 | the new column's name is the given non-empty name or 'Untitled Column' |
| KanbanPage.HandleTaskAdd | src/pages/dashboard/kanban.tsx:163-179 | the new task's name is the given non-empty name or 'Untitled Task', in the given column |
| KanbanPage.BoardPage.constructor | src/pages/dashboard/kanban.tsx:44 | no task is open at first |
| KanbanPage.BoardPage.DrawerOpen | src/pages/dashboard/kanban.tsx:239 | the drawer is open exactly when the open-task id is set and non-empty |
| KanbanPage.BoardPage.ModalTaskId | src/pages/dashboard/kanban.tsx:240 | the drawer is given a task id exactly when it is open, and it is the open-task id |
| KanbanPage.BoardPage.HandleTaskOpen | src/pages/dashboard/kanban.tsx:181-183 | the open-task id becomes the given id, which opens the drawer on it when non-empty |
| KanbanPage.BoardPage.HandleTaskClose | src/pages/dashboard/kanban.tsx:185-187 | the open-task id is cleared and the drawer is closed |
| TaskModal.StatusOptions | src/sections/dashboard/kanban/task-modal/task-modal.tsx:502-509 | one status entry per column, in order, labelled by the column's name with its id as value |
| TaskModal.MoveParams | src/sections/dashboard/kanban/task-modal/task-modal.tsx:146-153 | the move requested for a status change is the task, to position 0 of the chosen column |
| TaskModal.HandleMove | src/sections/dashboard/kanban/task-modal/task-modal.tsx:143-161 | the move is dispatched first and no other move follows; then the drawer's close callback runs exactly when the move succeeded and a callback is given, and an error toast is shown exactly when the move failed |
| TaskModal.MoveLandsOnTop | src/sections/dashboard/kanban/task-modal/task-modal.tsx:147-152 | wherever the task was, it ends first in the chosen column |
| TaskModal.StatusChoiceMovesToColumn | src/sections/dashboard/kanban/task-modal/task-modal.tsx:502-509 | choosing a status entry moves the task to the top of that entry's column |
| TaskModal.NameCommit | src/sections/dashboard/kanban/task-modal/task-modal.tsx:204-208 | an update is sent exactly when the text is non-empty and differs from the task's name, and its only field is that name |
| TaskModal.NameCommitSettles | src/sections/dashboard/kanban/task-modal/task-modal.tsx:204-206 | once the task has the committed name, committing the same text sends nothing |
| TaskModal.HandleAssignTask | src/sections/dashboard/kanban/task-modal/task-modal.tsx:247-269 | nothing is sent exactly when the id is already assigned; otherwise only the assignee list is sent, the old list with the id appended at the end |
| TaskModal.AssignKeepsIdsDistinct | src/sections/dashboard/kanban/task-modal/task-modal.tsx:250-260 | assignment keeps assignee ids distinct, and assigning the same id again sends nothing |
| TaskModal.FirstWithId | src/sections/dashboard/kanban/task-modal/task-modal.tsx:515 | the position found holds a user with the id and no earlier user has it; none is found exactly when no user has the id |
| TaskModal.FindUser | src/sections/dashboard/kanban/task-modal/task-modal.tsx:515 | finds the first user with the id, or reports that none has it |
| TaskModal.ResolveAssignees | src/sections/dashboard/kanban/task-modal/task-modal.tsx:513-517 | every shown assignee is a known user whose id is assigned, and there are no more of them than ids |
| TaskModal.Assignees | src/sections/dashboard/kanban/task-modal/task-modal.tsx:513-517 | no task, no assignees; otherwise the resolved assignee ids |
| TaskModal.AssigneesFollowKnownIds | src/sections/dashboard/kanban/task-modal/task-modal.tsx:513-517 | the shown assignees correspond one for one, in order, to the assigned ids some user has, with unknown ids dropped |
| TaskModal.AllKnownAllShown | src/sections/dashboard/kanban/task-modal/task-modal.tsx:513-517 | when every assigned id is known, every assignee is shown |
| TaskModal.MatchingSkillCount | src/sections/dashboard/kanban/task-modal/task-modal.tsx:715-717 | the count never exceeds the number of skill records |
| TaskModal.MatchingSkillCountIsRecordCount | src/sections/dashboard/kanban/task-modal/task-modal.tsx:715-717 | the count is the number of skill records with the developer's email whose skill is a task label, with repetitions |
| TaskModal.MatchingSkillCountMonotone | src/sections/dashboard/kanban/task-modal/task-modal.tsx:715-717 | more labels on the task never lower a developer's count |
| TaskModal.TaskEditor.constructor | src/sections/dashboard/kanban/task-modal/task-modal.tsx:109-110 | the tab starts at 'overview', the name copy at the task's name or '', nothing fetched |
| TaskModal.TaskEditor.HandleTabsChange | src/sections/dashboard/kanban/task-modal/task-modal.tsx:139-141 | the tab becomes the chosen one, nothing else changes |
| TaskModal.TaskEditor.HandleTabsReset | src/sections/dashboard/kanban/task-modal/task-modal.tsx:113-115 | the tab returns to 'overview', nothing else changes |
| TaskModal.TaskEditor.HandleNameChange | src/sections/dashboard/kanban/task-modal/task-modal.tsx:211-213 | the name copy becomes the typed text, nothing else changes |
| TaskModal.TaskEditor.HandleNameReset | src/sections/dashboard/kanban/task-modal/task-modal.tsx:126-128 | the name copy follows the task's name, or '' without a task |
| TaskModal.TaskEditor.HandleNameBlur | src/sections/dashboard/kanban/task-modal/task-modal.tsx:198-209 | an empty copy is reverted to the task's name and nothing is sent; otherwise the copy stays and the commit rule decides what is sent |
| TaskModal.TaskEditor.HandleNameKeyUp | src/sections/dashboard/kanban/task-modal/task-modal.tsx:215-224 | any key other than Enter sends nothing; Enter sends what the commit rule decides |
| TaskModal.TaskEditor.ReceiveFetched | src/sections/dashboard/kanban/task-modal/task-modal.tsx:534-535 | the user cell holds exactly the fetched developers, in order; the skill cell holds the fetched records |
| TaskLabels.RemoveLabel | src/sections/dashboard/kanban/task-modal/task-labels.tsx:49 | the result has no occurrence of the label, keeps every other label, and is a subsequence of the list |
| TaskLabels.RemoveLabelCounts | src/sections/dashboard/kanban/task-modal/task-labels.tsx:47-51 | every other label keeps its number of occurrences |
| TaskLabels.RemoveAbsentLabel | src/sections/dashboard/kanban/task-modal/task-labels.tsx:63 | removing an absent label leaves the list unchanged |
| TaskLabels.Toggled | src/sections/dashboard/kanban/task-modal/task-labels.tsx:60-66 | a present label is removed everywhere, an absent one appended at the end; the label is in the result exactly when it was not in the list |
| TaskLabels.ToggleTwiceRestores | src/sections/dashboard/kanban/task-modal/task-labels.tsx:60-66 | toggling an absent label twice gives back the original list |
| TaskLabels.ToggledAsWritten | src/sections/dashboard/kanban/task-modal/task-labels.tsx:60-66 | the toggle as written agrees with the intended toggle for every non-empty label, and always appends the empty label |
| TaskLabels.EmptyLabelToggleAppends | src/sections/dashboard/kanban/task-modal/task-labels.tsx:60-62 | toggling '' in [''] gives ['', ''] as written, where the intended toggle gives [] |
| TaskLabels.HandleDelete | src/sections/dashboard/kanban/task-modal/task-labels.tsx:47-54 | with a listener, the list without the label is reported once; without one, nothing happens |
| TaskLabels.HandleToggle | src/sections/dashboard/kanban/task-modal/task-labels.tsx:56-72 | the popover always closes first; with a listener, the list toggled as written is then reported exactly once, and for a non-empty label that is the intended toggle |
| TaskLabels.AvailableOptions | src/sections/dashboard/kanban/task-modal/task-labels.tsx:43-45 | exactly the skills whose label is not on the task, each as often as it occurs, as a subsequence of the skills |
| TaskLabels.CanAdd | src/sections/dashboard/kanban/task-modal/task-labels.tsx:74 | adding is possible exactly when some skill's label is not on the task |
| TaskLabels.PickFromMenu | src/sections/dashboard/kanban/task-modal/task-labels.tsx:43-66 | picking an offered skill reports the list with its label appended, the skill is then no longer offered, and toggling it again restores the list |

## Left out

- The kanban board reducer and the task-move algorithm live in a slice that
  is not part of this model. The model stops at the move command the page
  dispatches. `Landing` states where that command puts the task. It does
  not state the column order it produces.
- The thunks and every HTTP call are left out. The user list, the skill
  records and the skills for the label menu are inputs, and so is the
  sign-in response. Network failures and the toasts they raise are left out,
  except for the status change, whose outcome is a parameter of
  `TaskModal.HandleMove`.
- Debounce timers, `wait` delays and the order in which concurrent drags
  complete are left out. Each handler is modelled as if it ran at once and
  alone.
- Text.LowerChar: folds ASCII letters only. `String.prototype.toLowerCase`
  also folds the rest of Unicode, so search is modelled as case-insensitive
  over ASCII only.
- JSON handling is a pair of parameters. `JSON.stringify` is one function
  parameter and `JSON.parse` is another, whose exception is the value
  `Malformed`. For the user store, a stored list is `Held` and unparsable
  text is `Unreadable`.
- Signing a JWT, `createResourceId` and `deepCopy` are not modelled as code.
  The token is represented by its claim (`Token`), the new id is a
  parameter, and value semantics stand for the deep copy.
- `applySort` and `applyPagination` are function parameters. Their results
  are not characterised, because `count` is fixed before they run.
- The 'Internal server error' rejections come from unexpected exceptions.
  They are left out, and so are failing storage writes, such as a full
  `localStorage` that `persistUser` swallows.
- MainNav.RoleFromSession: a stored user that fails to parse leaves the role
  unset. In the application the exception escapes the effect instead.
- The auth context's initial state is not part of this model.
  `Provider.constructor` takes it as a parameter.
- Projects and skills carry only the fields their endpoints read: id and
  name, or id and label. The `User` record's `_id` is optional, because the
  seed records carry `id` instead.
- Other handlers in the task drawer and on the page are left out. These
  include delete, description, comments and column clear/delete/rename. They
  only forward their arguments to a thunk.

## Findings

| source | as written | input that shows it | evidently intended | confidence | as-written member | corrected member |
|---|---|---|---|---|---|---|
| src/sections/dashboard/kanban/task-modal/task-labels.tsx:60-62 | the label is removed only when `labels.find(...)` returns a truthy item, so a present empty label counts as absent | labels `['']`, toggle `''`: the result is `['', '']` | a present label is removed (`[]`) | low (latent: the only caller is the menu at task-labels.tsx:115-118, which offers only labels not on the task, so a present label is never toggled from the interface; not executed) | TaskLabels.ToggledAsWritten | TaskLabels.Toggled |
