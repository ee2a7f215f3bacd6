# Portfolio site: session store, guards, admin lists and forms

This project models the client-side logic of a portfolio single-page
application. The application is built in React and talks to a hosted backend
(database, authentication and file storage).

What is modelled:
- **Session store** (`useAuth`): the four published fields, the role check
  that denies by default, and the four handlers (initial load, auth-change
  notification, sign-in, sign-out).
- **Route guards**: the shared `ProtectedRoute`, the inline guards of the
  admin projects page and the project editor, and the signed-in redirects of
  the login and register pages.
- **Admin lists**: the projects and experiences tables, with fetch, toggle of
  `featured`, and delete by id, patched in memory after a successful write.
- **Project forms**: the tag editor (at most ten trimmed tags), the field
  checks, the image-upload decision, the row sent, and the load mapping of the
  edit page.
- **Experience forms**: the field checks, the comma-separated skills parser and
  its `', '` join, the `end_date` rule, and the load mapping of the edit page.
- **Public project listings**: the index-based demo filter, the tag-substring
  filter over stored projects, and "load more" paging.
- **Client configuration**: the fallback to a placeholder backend when the
  environment leaves the URL or the key empty.

Every backend answer is an input: a read's `Response` (error, or data that may
be null), a write's `Status`, and the outcomes of sign-in, sign-up, session
fetch, role lookup and upload. Generated ids and clock readings are inputs
too.

Code that mutates state step by step is modelled as classes. Each class has
the source's fields and `modifies this` methods. Every method's `ensures` ties
the new state to a pure function, and lemmas state the properties of those
functions. Navigation is an output value.

Behaviours of the code a reader might not expect, which the model keeps:
- A failed sign-in leaves session and user as they were. It does not reset the
  store to signed-out.
- A failed sign-out leaves user, session and admin flag as they were. It does
  not clear them defensively.
- Role lookups are not tagged with the session they were made for. Handlers
  are modelled as atomic events applied in order.
- The route table never mounts `ProtectedRoute`. Only the admin projects page
  and the project editor guard themselves (each through `useAuth`).
- `/add-project` renders the stand-alone project form, which has no guard.
- The pages under `src/pages/admin/` (projects list, experiences list, add and
  edit experience) read no session and guard nothing, and the route table
  routes none of them; nor does it route the register page.
- The edit experience page without an `id` never fetches, and keeps its
  spinner for good.
- After the simulated save of the stand-alone project form, the tag input box
  keeps its text.
- Every account the register page creates gets the admin role.

## Model

| member | source | states |
|---|---|---|
| Common.NullIfEmpty | src/pages/EditProjectPage.tsx:210-211 | `x \|\| null`: the result is truthy exactly when the string is non-empty, and a present result is the string itself |
| Common.EmptyIfNull | src/pages/EditProjectPage.tsx:62-63 | `x \|\| ''`: the result is empty exactly when the value is null or empty, and otherwise is the value |
| Common.EmptyNullRoundTrip | src/pages/EditProjectPage.tsx:210-211 | a link typed in the form, sent as `x \|\| null` and loaded back as `x \|\| ''`, is the same string |
| Common.NullEmptyRoundTrip | src/pages/EditProjectPage.tsx:62-63 | a stored link loaded and sent back is unchanged exactly when it was not stored as `''` |
| Common.ListOrEmpty | src/pages/AdminProjectsPage.tsx:66 | `data \|\| []`: the data when present, the empty list when null |
| Supabase.RoleName | src/lib/supabase.ts:60 | the role names are `"admin"` and `"user"`, each naming exactly one role |
| Supabase.ParseRole | src/lib/supabase.ts:60 | a stored string parses to a role only if it is that role's name |
| Supabase.RoleRoundTrip | src/lib/supabase.ts:60 | naming a role and parsing the name gives the role back |
| Supabase.EnvOrEmpty | src/lib/supabase.ts:5-6 | an unset environment value reads as `''`; a set one as itself |
| Supabase.CreateClientConfig | src/lib/supabase.ts:16-28 | with the URL or the key empty, the placeholder URL and `dummy-key` are used; otherwise both values unchanged; the configuration is never empty |
| Auth.CheckAdminStatus | src/hooks/useAuth.tsx:26-50 | admin exactly when the lookup found a row whose role is `"admin"`; an error, no row or an exception all deny |
| Auth.InitialLoaded | src/hooks/useAuth.tsx:53-106 | loading ends false. A fetch error changes nothing else. A fetched session is published with its own user. The admin flag changes only when the session carries a user id, and is then the role check |
| Auth.AuthChanged | src/hooks/useAuth.tsx:113-128 | the new session and its user are published; the admin flag is the role check when there is a user id and false otherwise; loading ends false |
| Auth.SignInDone | src/hooks/useAuth.tsx:135-171 | session and user are untouched. Only a success naming a user changes the admin flag, to the role check. Loading ends false, and an error changes nothing else |
| Auth.SignOutDone | src/hooks/useAuth.tsx:173-206 | success clears session, user and admin flag; failure leaves them; loading ends false |
| Auth.RunKeepsUserMatched | src/hooks/useAuth.tsx:93-94 | after any sequence of handler runs the published user is still the published session's user |
| Auth.RunDeniesWithoutAdminRow | src/hooks/useAuth.tsx:26-50 | unless some role lookup answered `"admin"`, no sequence of handler runs makes a non-admin store admin |
| Auth.RunSettles | src/hooks/useAuth.tsx:117-127 | after at least one handler has run to completion the store is not loading |
| Auth.SignInPublishesAdminBeforeUser | src/hooks/useAuth.tsx:151-155 | a successful admin sign-in sets the admin flag while the user is still unpublished |
| Auth.AuthStore.constructor | src/hooks/useAuth.tsx:19-22 | no session, no user, loading, not admin |
| Auth.AuthStore.GetInitialSession | src/hooks/useAuth.tsx:53-106 | the new state is `InitialLoaded` of the old one |
| Auth.AuthStore.OnAuthStateChange | src/hooks/useAuth.tsx:113-128 | the new state is `AuthChanged` of the old one |
| Auth.AuthStore.SignIn | src/hooks/useAuth.tsx:135-171 | the new state is `SignInDone` of the old one |
| Auth.AuthStore.SignOut | src/hooks/useAuth.tsx:173-206 | the new state is `SignOutDone` of the old one; only a success sends the page home |
| ProtectedRoute.Guard | src/components/ProtectedRoute.tsx:10-34 | spinner while loading, whatever else holds; then login redirect without a user; then home redirect for a non-admin on an admin-only route; content exactly when not loading, signed in and (not admin-only or admin) |
| ProtectedRoute.AdminOnlyNeedsAdmin | src/components/ProtectedRoute.tsx:28-30 | an admin-only route never renders for a non-admin |
| ProtectedRoute.DefaultAdmitsSignedIn | src/components/ProtectedRoute.tsx:10 | with `adminOnly` left at its default, every signed-in user is admitted once loading ends |
| ProtectedRoute.AdminRouteNeedsAdminLookup | src/components/ProtectedRoute.tsx:28-33 | from the store's initial state, no handler sequence without an `"admin"` lookup opens an admin-only route |
| ProtectedRoute.SignInSignOutScenario | src/components/ProtectedRoute.tsx:13-33 | an admin signs in and the admin route renders; after sign-out and its notification, the guard sends the visitor to the login page |
| Views.ListBodyFor | src/pages/admin/ProjectsPage.tsx:165-178 | spinner exactly while loading, rows exactly when loaded and non-empty, the empty notice otherwise |
| Views.BadgePreview | src/pages/admin/ExperiencePage.tsx:173-180 | at most the first three entries, in order, plus a count of the rest; the count is positive only when three are shown |
| ProjectList.ToggledFeatured | src/pages/AdminProjectsPage.tsx:91-93 | same length and order; rows with the id get `featured = !currentValue`; no other field of any row and no other row changes |
| ProjectList.ToggleTwiceRestores | src/pages/AdminProjectsPage.tsx:79-93 | toggling with a row's own value and then with the new value restores the list |
| ProjectList.ToggleUnknownIdUnchanged | src/pages/AdminProjectsPage.tsx:91-93 | toggling an id no row has leaves the list unchanged |
| ProjectList.WithoutProject | src/pages/AdminProjectsPage.tsx:125 | no row with the id is left; every other row is kept as often as before; order is kept |
| ProjectList.DeleteIdempotent | src/pages/AdminProjectsPage.tsx:125 | deleting the same id again removes nothing more |
| ProjectList.ProjectTable.constructor | src/pages/AdminProjectsPage.tsx:43-45 | empty list, loading, no delete target |
| ProjectList.ProjectTable.FetchProjects | src/pages/AdminProjectsPage.tsx:54-77 | success sets the list to `data \|\| []`; failure keeps it; loading ends false either way |
| ProjectList.ProjectTable.ToggleFeatured | src/pages/AdminProjectsPage.tsx:79-109 | success patches the list with `ToggledFeatured`; failure leaves it unchanged |
| ProjectList.ProjectTable.AskDelete | src/pages/AdminProjectsPage.tsx:299 | the row's id becomes the delete target; the list is unchanged |
| ProjectList.ProjectTable.CancelDelete | src/pages/AdminProjectsPage.tsx:312 | the delete target is cleared; the list is unchanged |
| ProjectList.ProjectTable.DeleteProject | src/pages/AdminProjectsPage.tsx:111-140 | nothing is sent without a non-empty target; success removes the id's rows and clears the target; failure changes nothing |
| AdminProjectsPage.PageView | src/pages/AdminProjectsPage.tsx:143-183 | spinner while auth loads, before any other check; login redirect without a user; access-denied card for a non-admin; the table exactly for an admin |
| AdminProjectsPage.PageAgreesWithAdminGuard | src/pages/AdminProjectsPage.tsx:143-183 | admits exactly whom the admin-only guard admits; a non-admin gets a card here where the guard redirects home |
| AdminProjectsPage.TableNeedsAdminLookup | src/pages/AdminProjectsPage.tsx:161-183 | from the store's initial state, no handler sequence without an `"admin"` lookup shows the table |
| AdminProjectsPage.OnUserChanged | src/pages/AdminProjectsPage.tsx:48-52 | projects are fetched exactly when there is a user; otherwise the table is untouched |
| ProjectsPage.Mount | src/pages/admin/ProjectsPage.tsx:45-72 | the fetch runs unconditionally on mount; afterwards the list is `data \|\| []` on success and empty on failure, not loading |
| ExperiencePage.WithoutExperience | src/pages/admin/ExperiencePage.tsx:88 | no row with the id is left; every other row is kept as often as before; order is kept |
| ExperiencePage.DeleteUnknownIdUnchanged | src/pages/admin/ExperiencePage.tsx:88 | deleting an id no row has changes nothing |
| ExperiencePage.DurationLabel | src/pages/admin/ExperiencePage.tsx:169 | the start date and `" - "`, then `Present` for a current position, otherwise the end date (nothing when null) |
| ExperiencePage.ExperienceTable.constructor | src/pages/admin/ExperiencePage.tsx:40-42 | empty list, loading, no delete target |
| ExperiencePage.ExperienceTable.FetchExperiences | src/pages/admin/ExperiencePage.tsx:49-72 | success sets the list to `data \|\| []`; failure keeps it; loading ends false either way |
| ExperiencePage.ExperienceTable.AskDelete | src/pages/admin/ExperiencePage.tsx:197 | the row's id becomes the delete target |
| ExperiencePage.ExperienceTable.CancelDelete | src/pages/admin/ExperiencePage.tsx:210 | the delete target is cleared |
| ExperiencePage.ExperienceTable.DeleteExperience | src/pages/admin/ExperiencePage.tsx:74-103 | nothing is sent without a non-empty target; success removes the id's rows and clears the target; failure changes nothing |
| ExperiencePage.Mount | src/pages/admin/ExperiencePage.tsx:45-47 | the fetch runs on mount; loading ends false |
| ProjectForm.AddTag | src/pages/EditProjectPage.tsx:104-113 | appends exactly when the trimmed input is non-empty and there are fewer than ten tags. The new tag is the trimmed, non-empty input and the input is cleared. Otherwise nothing changes. Existing tags are kept, and the count never passes ten |
| ProjectForm.RemoveTag | src/pages/EditProjectPage.tsx:115-117 | no tag with the id is left; every other tag is kept as often as before; order is kept |
| ProjectForm.HandleTagKeyDown | src/pages/EditProjectPage.tsx:97-102 | a key other than Enter changes nothing; a tag is added exactly on Enter when adding is allowed |
| ProjectForm.KeyDownIsAddOnEnter | src/pages/EditProjectPage.tsx:97-102 | Enter does exactly what the add button does |
| ProjectForm.AddKeepsTagsWellFormed | src/pages/EditProjectPage.tsx:104-113 | adding (by button or Enter) keeps at most ten non-empty trimmed tags |
| ProjectForm.RemoveKeepsTagsWellFormed | src/pages/EditProjectPage.tsx:115-117 | removing keeps at most ten non-empty trimmed tags |
| AddProject.AddProjectForm.constructor | src/components/AddProject.tsx:20-30 | a blank form with well-formed (no) tags |
| AddProject.AddProjectForm.AddTag | src/components/AddProject.tsx:49-58 | the editor becomes `ProjectForm.AddTag` of the old one, with the clock reading as id; tags stay well formed; other fields unchanged |
| AddProject.AddProjectForm.RemoveTag | src/components/AddProject.tsx:60-62 | tags become `ProjectForm.RemoveTag` of the old ones; well formed; other fields unchanged |
| AddProject.AddProjectForm.HandleTagKeyDown | src/components/AddProject.tsx:42-47 | the editor becomes `ProjectForm.HandleTagKeyDown` of the old one; other fields unchanged |
| AddProject.AddProjectForm.HandleImageChange | src/components/AddProject.tsx:64-73 | a chosen file's data URL becomes the preview; without a file nothing changes; no other field changes |
| AddProject.AddProjectForm.ClearImagePreview | src/components/AddProject.tsx:75-80 | the preview becomes null; no other field changes |
| AddProject.AddProjectForm.HandleSubmit | src/components/AddProject.tsx:82-96 | accepted exactly when title, description and at least one tag are present; a rejected submit leaves `isSubmitting` as it was; no input changes |
| AddProject.AddProjectForm.FinishSimulatedSave | src/components/AddProject.tsx:98-117 | fields, tags and preview reset to empty, not submitting; the tag input box is kept |
| EditProjectPage.FileExt | src/pages/EditProjectPage.tsx:153 | the dot-free suffix after the last dot, or the whole name when it has no dot |
| EditProjectPage.StoragePathKeepsExtension | src/pages/EditProjectPage.tsx:153-155 | the storage path lies under `projects/` and keeps the chosen file's extension |
| EditProjectPage.PlanImage | src/pages/EditProjectPage.tsx:139-155 | upload exactly when a file is chosen, under `projects/<uuid>.<ext>`; an edit without a new file keeps a truthy preview; otherwise no image |
| EditProjectPage.UploadImage | src/pages/EditProjectPage.tsx:139-175 | the kept preview, or the public URL exactly when the upload succeeded; null with no image |
| EditProjectPage.BuildPayload | src/pages/EditProjectPage.tsx:206-214 | title, description and featured as typed; image the resolved URL or else the preview; empty links sent as null and loaded back as typed; tags are the tag texts in order |
| EditProjectPage.SubmitAsWritten | src/pages/EditProjectPage.tsx:177-259 | submit as the page has it. Missing fields stop everything before any upload, and an upload happens exactly when a file is chosen. A write is issued exactly when the fields pass and the page is editing or the resolved image URL is truthy. Its payload is `BuildPayload` of the form, the tags, the resolved URL and the preview. Editing updates the routed row; creating inserts a fresh row with an image. Navigation happens exactly after a successful write |
| EditProjectPage.FailedUploadStoresPreview | src/pages/EditProjectPage.tsx:194-214 | editing with a new file whose upload fails still updates the row, with the reader's data URL as the image, and navigates |
| EditProjectPage.Submit | src/pages/EditProjectPage.tsx:177-259 | as above, except that a failed upload of a chosen file stops the save: a write is issued exactly when the fields pass, no chosen file failed to upload, and the page is editing or the resolved URL is truthy; payload, target and navigation as above |
| EditProjectPage.SavedImageIsUploaded | src/pages/EditProjectPage.tsx:194-209 | with the correction, a save that chose a new file writes only after a successful upload, and stores that file's public URL whenever storage returns a non-empty one; without a new file it matches the page as written |
| EditProjectPage.LoadedTags | src/pages/EditProjectPage.tsx:67-70 | the loaded tags' texts are the stored tags in order |
| EditProjectPage.LoadThenSaveRoundTrip | src/pages/EditProjectPage.tsx:58-74 | loading a project and saving it straight back updates the row with the same title, description, image, links, tags and featured flag |
| EditProjectPage.PageView | src/pages/EditProjectPage.tsx:261-279 | login redirect without a user and home redirect for a non-admin, both before the loading spinner |
| EditProjectPage.PageMatchesAdminGuard | src/pages/EditProjectPage.tsx:261-269 | once the store has settled, the page admits exactly whom the admin-only guard admits; while the store is still loading, the page redirects to the login page whatever its own fetch is doing, where the guard shows its spinner |
| EditProjectPage.EditProjectForm.constructor | src/pages/EditProjectPage.tsx:27-40 | a blank form; loading exactly when the route has an id |
| EditProjectPage.EditProjectForm.FetchProject | src/pages/EditProjectPage.tsx:48-86 | a found row fills form, tags and (when set) preview through the load mapping; otherwise nothing changes; loading ends false |
| EditProjectPage.EditProjectForm.AddTag | src/pages/EditProjectPage.tsx:104-113 | the editor becomes `ProjectForm.AddTag` of the old one |
| EditProjectPage.EditProjectForm.RemoveTag | src/pages/EditProjectPage.tsx:115-117 | tags become `ProjectForm.RemoveTag` of the old ones |
| EditProjectPage.EditProjectForm.HandleTagKeyDown | src/pages/EditProjectPage.tsx:97-102 | the editor becomes `ProjectForm.HandleTagKeyDown` of the old one |
| EditProjectPage.EditProjectForm.HandleImageChange | src/pages/EditProjectPage.tsx:119-129 | a chosen file is kept and its data URL becomes the preview; no other field changes |
| EditProjectPage.EditProjectForm.ClearImagePreview | src/pages/EditProjectPage.tsx:131-137 | preview and chosen file both cleared; no other field changes |
| EditProjectPage.EditProjectForm.HandleSubmit | src/pages/EditProjectPage.tsx:177-259 | the result is the corrected `Submit` of the form; a submit past the field check ends with `isSubmitting` false; no input changes |
| ExperienceForm.Validate | src/pages/admin/AddExperiencePage.tsx:40-56 | missing-fields verdict exactly when a required field is empty, end-date verdict exactly when they are present, the position is not current and the end date is empty, accepted otherwise |
| ExperienceForm.MapTrim | src/pages/admin/AddExperiencePage.tsx:61-63 | same length, each piece trimmed |
| ExperienceForm.ParsedSkillsAreSkills | src/pages/admin/AddExperiencePage.tsx:61-64 | every skill is non-empty, trimmed and comma-free; the skills are an order-preserving subsequence of the trimmed pieces, and each non-empty trimmed piece is kept exactly as often as it occurs (only empty pieces are dropped) |
| ExperienceForm.SkillsRoundTrip | src/pages/admin/EditExperiencePage.tsx:65 | parsing the `', '`-joined list of non-empty, trimmed, comma-free skills gives the list back |
| ExperienceForm.ParseAfterWhiteSpace | src/pages/admin/EditExperiencePage.tsx:105-108 | white space followed by joined skills parses to those skills |
| ExperienceForm.RowOf | src/pages/admin/AddExperiencePage.tsx:66-75 | text fields as typed; `end_date` null for a current position and the typed date otherwise; skills parsed |
| ExperienceForm.AcceptedRowHasEndDate | src/pages/admin/AddExperiencePage.tsx:49-71 | an accepted row is current or has a non-empty end date, and has an end date exactly when not current |
| ExperienceForm.LoadThenSaveRoundTrip | src/pages/admin/EditExperiencePage.tsx:58-67 | loading a row and saving it back keeps the text fields, the current flag, a past position's end date and well-formed skills |
| ExperienceForm.Save | src/pages/admin/AddExperiencePage.tsx:37-95 | the verdict is `Validate`; a row is sent exactly when accepted; navigation to the experiences list exactly after a successful write |
| AddExperiencePage.AddExperienceForm.constructor | src/pages/admin/AddExperiencePage.tsx:24-32 | blank inputs, not loading |
| AddExperiencePage.AddExperienceForm.HandleSubmit | src/pages/admin/AddExperiencePage.tsx:37-95 | the result is `Save` of the inputs; loading ends false after an accepted submit and is untouched by a rejected one |
| EditExperiencePage.EditExperienceForm.View | src/pages/admin/EditExperiencePage.tsx:144-154 | the spinner exactly while loading |
| EditExperiencePage.EditExperienceForm.constructor | src/pages/admin/EditExperiencePage.tsx:24-34 | blank inputs, loading, not saving |
| EditExperiencePage.EditExperienceForm.FetchExperience | src/pages/admin/EditExperiencePage.tsx:45-79 | a found row fills the inputs through the load mapping; an error navigates back to the list; loading ends false |
| EditExperiencePage.EditExperienceForm.OnRouteId | src/pages/admin/EditExperiencePage.tsx:39-43 | fetches exactly when the route has a non-empty id; otherwise nothing changes |
| EditExperiencePage.EditExperienceForm.HandleSubmit | src/pages/admin/EditExperiencePage.tsx:81-142 | the result is `Save` of the inputs; an accepted save updates the row with the route's `id` and a rejected one targets nothing; saving ends false after an accepted submit |
| EditExperiencePage.OpenThenSaveKeepsRow | src/pages/admin/EditExperiencePage.tsx:58-131 | a valid stored row opened and saved unchanged is accepted, sends the same skills, company and end-date rule, and returns to the list exactly after a successful update |
| Pagination.LoadMore | src/components/Projects.tsx:84-86 | never past the list's length, at most three more, and at least one more while the button shows |
| Pagination.VisibleSlice | src/components/Projects.tsx:119 | the first `visible` cards, or all when fewer |
| Pagination.ClicksReachEnd | src/components/Projects.tsx:130 | pressing "load more" never goes past the length, and one press per three hidden cards shows all of them and hides the button |
| Pagination.MoreCardsAfterClick | src/components/Projects.tsx:119-135 | a press reveals at least one more card, and the shown cards only grow by appending |
| Projects.FilterFrom | src/components/Projects.tsx:75-82 | the filtered list is no longer than the list |
| Projects.FilterFromKeeps | src/components/Projects.tsx:75-82 | exactly the cards whose position passes are kept, in order |
| Projects.KeepingCategoryKeepsAll | src/components/Projects.tsx:76-81 | `all` and any unrecognised category keep every card |
| Projects.FrontendTab | src/components/Projects.tsx:77 | the frontend tab keeps positions 0 and 3 of six |
| Projects.BackendTab | src/components/Projects.tsx:78 | the backend tab keeps positions 1 and 4 of six |
| Projects.FullstackTab | src/components/Projects.tsx:79 | the fullstack tab keeps positions 0, 2 and 4 of six |
| Projects.MobileTab | src/components/Projects.tsx:80 | the mobile tab keeps position 3 of six |
| Projects.DemoTabs | src/components/Projects.tsx:8-82 | what each named tab shows of the six demo projects |
| Projects.FirstRenderAndOneClick | src/components/Projects.tsx:68-86 | the first render shows the first four demo projects with "load more"; one press shows all six |
| Projects.ProjectsView.constructor | src/components/Projects.tsx:68-69 | four visible, `all` tab |
| Projects.ProjectsView.Shown | src/components/Projects.tsx:119 | the first `visible` of the filtered demo list, which keeps the demo order |
| Projects.ProjectsView.LoadMore | src/components/Projects.tsx:84-86 | visible becomes `LoadMore` of the old count and the filtered length |
| Projects.ProjectsView.SelectCategory | src/components/Projects.tsx:105-108 | the tab becomes active and visible goes back to four |
| ProjectsFetch.SomeTagMatchesAt | src/components/ProjectsFetch.tsx:59-61 | `some` holds exactly when one tag contains the category, ignoring case |
| ProjectsFetch.FilterByCategory | src/components/ProjectsFetch.tsx:57-62 | an order-preserving subsequence; each kept project matches; each matching project is kept as often as it occurs |
| ProjectsFetch.AllTabKeepsEverything | src/components/ProjectsFetch.tsx:58 | the `all` tab shows the whole list |
| ProjectsFetch.CategoryCaseIgnored | src/components/ProjectsFetch.tsx:60 | the category's case does not matter |
| ProjectsFetch.ProjectsSection.constructor | src/components/ProjectsFetch.tsx:11-15 | no projects, loading, no error, four visible, `all` tab |
| ProjectsFetch.ProjectsSection.View | src/components/ProjectsFetch.tsx:68-99 | spinner exactly while loading, error notice exactly when loaded with an error, content otherwise |
| ProjectsFetch.ProjectsSection.Shown | src/components/ProjectsFetch.tsx:139 | the first `visible` filtered projects, each stored and matching the tab |
| ProjectsFetch.ProjectsSection.FetchProjects | src/components/ProjectsFetch.tsx:24-54 | success sets `data \|\| []` and clears the error; failure keeps the list and sets the error; loading ends false |
| ProjectsFetch.ProjectsSection.LoadMore | src/components/ProjectsFetch.tsx:64-66 | visible becomes `LoadMore` of the old count and the filtered length |
| ProjectsFetch.ProjectsSection.SelectCategory | src/components/ProjectsFetch.tsx:118-121 | the tab becomes active and visible goes back to four |
| ProjectsFetch.Mount | src/components/ProjectsFetch.tsx:20-22 | after the mount fetch a failure shows the error notice and a success the content |
| LoginPage.LoginView | src/pages/LoginPage.tsx:48-50 | any signed-in user, admin or not, is redirected to the admin projects list |
| LoginPage.EffectNavigation | src/pages/LoginPage.tsx:20-25 | the effect navigates exactly for a signed-in admin |
| LoginPage.RenderRedirectCoversEffect | src/pages/LoginPage.tsx:20-50 | the render redirects wherever the effect would, and also for a non-admin |
| LoginPage.SignInThenNotificationRedirects | src/pages/LoginPage.tsx:39-41 | sign-in alone does not move the page; the following change notification does |
| LoginPage.LoginForm.constructor | src/pages/LoginPage.tsx:14-15 | both inputs empty |
| LoginPage.LoginForm.HandleSubmit | src/pages/LoginPage.tsx:27-45 | the store is called exactly when both fields are filled, and then moves as `SignInDone`; otherwise it is untouched |
| RegisterPage.Register | src/pages/RegisterPage.tsx:22-89 | sign-up is called exactly when the passwords match. A profile row is written exactly when it returned a user: that user's id, the typed email, the admin role. The redirect to the login page happens exactly then |
| RegisterPage.EveryRegistrantIsAdmin | src/pages/RegisterPage.tsx:51-57 | the role lookup of every row the page writes passes the admin check |
| RegisterPage.RegisterView | src/pages/RegisterPage.tsx:91-93 | a signed-in user is redirected to the admin projects list |
| RegisterPage.RegisterForm.constructor | src/pages/RegisterPage.tsx:15-18 | empty inputs, not loading |
| RegisterPage.RegisterForm.HandleSubmit | src/pages/RegisterPage.tsx:22-89 | the result is `Register` of the inputs; loading ends false once sign-up was called |

## Left out

- All backend traffic (queries, inserts, updates, deletes, sign-in/up/out, storage upload and public URLs) is not modelled; each answer is an input.
- Server-side ordering (`created_at` and `start_date` descending) is the backend's; the returned list is taken as given.
- Interleaving of asynchronous handlers is not modelled: each handler runs to completion as one event, so a stale role lookup cannot overtake a later notification.
- The connection test query in `getInitialSession` only logs, and is left out.
- Toasts, console output, `setTimeout` delays and `FileReader` are left out; navigation is a returned value, and the reader's data URL is an input.
- Ids (`uuidv4`, `Date.now()`) and `new Date().toISOString()` are inputs.
- The profile insert's answer on the register page only chooses a toast, so it is not an input; the redirect does not depend on it.
- Text inputs' change handlers (`handleInputChange`, `setEmail`, and so on) only copy the typed value into a field, and are not modelled as methods.
- The demo cards' descriptions, images and links are display-only and are not part of `Projects.Card`.
- Date formatting, animation delays, the dark-mode switch and the purely presentational components and wrapper pages are not modelled.
- `ToLower` lower-cases the ASCII letters only; full Unicode case mapping is not modelled.
- Trimming uses the white space set of ECMAScript's `String.prototype.trim` (the ASCII white space, the no-break space, the byte-order mark and the Unicode space separators and line terminators it lists), written out as characters; Unicode database lookups are not modelled.
- EditProjectPage.EditProjectForm.HandleSubmit: models the corrected submit (`EditProjectPage.Submit`), so a failed upload of a newly chosen file on an edit writes nothing, where the page as written updates the row with the preview data URL and navigates; that behaviour is `EditProjectPage.SubmitAsWritten` (see Findings).
- ProjectsFetch.ProjectsSection.View: the "no projects in this category" notice inside the content is not distinguished from the card grid.

## Findings

| source | as written | input that shows it | evidently intended | confidence | as-written member | corrected member |
|---|---|---|---|---|---|---|
| src/pages/EditProjectPage.tsx:194-214 | on an edit, a failed upload makes `uploadImage` return null; the save goes on with `image_url: imageUrl \|\| previewImage` | editing a project with valid fields, choosing a new file whose upload fails: the row is updated with the file reader's data URL as `image_url`, and the page navigates as after a success | a failed upload of a chosen file stops the save, as it already does when creating | not executed | EditProjectPage.SubmitAsWritten, EditProjectPage.FailedUploadStoresPreview | EditProjectPage.Submit, EditProjectPage.SavedImageIsUploaded |
