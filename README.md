# Unified: a verified model of the client and the backend core

Unified is a student-project portal. It has two halves. The first is a React Native (Expo)
client. It signs users in, keeps their JWT in the device's key-value storage, lists projects and
users, and sends a picked document to a plagiarism check. The second is a Spring Boot backend.
It issues JWTs, stores users, guards its routes, and stores uploaded files.

This project models the core of both halves in Dafny and proves properties of that model.

- Pure code becomes datatypes, functions and lemmas: routing decisions, validation, filters,
  message classification and the user-update rules.
- Code that changes state becomes classes whose methods name what they modify: the token storage,
  the auth, project and theme providers, the screens, the user service and the upload controller.
  Each method is proved against a specification function of the old state (`State() ==
  XSpec(old(State()), …)`), and the lemmas about those functions carry the properties.

Collaborators the code cannot see are parameters:
- the HTTP endpoints, as total functions from a request to a reply or an error;
- storage and file-system faults, as flags;
- the authentication manager and the JWT generator;
- the password encoder;
- the database's generated ids, the UUID and the clock;
- the device's file-system calls and the plagiarism service.

Modules:
- `Wrappers`: `Option` and `Result`.
- `Text`: JavaScript string helpers: truthiness, `includes`, `split` and `join`, `lastIndexOf`,
  lower-casing, and decimal rendering.
- `Ui`: an alert.
- `Api`: `services/api.ts`.
- `Auth`: `context/AuthContext.tsx`.
- `LoginScreen` and `SignupScreen`: the two auth screens.
- `Projects`: `context/ProjectContext.tsx`.
- `ProjectsScreen`: `app/project/projects.tsx`.
- `UsersScreen`: `app/users.tsx`.
- `Plagiarism`: `app/plagiarism.tsx`.
- `Theme`: `context/ThemeContext.tsx`.
- `Web`: Spring's response, principal and security context.
- `Users`: `UserServiceImpl`.
- `AuthController` and `UserController`: the two controllers.
- `WebSecurity`: `WebSecurityConfig`.
- `FileUpload`: `FileUploadController`.
- `ProjectRequests`: the bean-validation constraints of `ProjectRequest`.

Where the documented behaviour and the code differ, the model follows the code:

- A 401 reply to any request makes the client remove the stored token, but the context's
  `isAuthenticated` flag stays set until the next restore or sign-out
  (`Auth.UnauthorizedLeavesFlagSet`).
- When registration succeeds but the sign-in after it fails, the inner error with its message is
  caught again by the outer handler. A plain `Error` has no `response`, so the user-facing message
  is always 'Registration failed', never 'Login failed after registration'
  (`Auth.SignUpMessages`).
- A sign-in stores the token twice: `authApi.login` writes it, then `signIn` writes it again before
  setting the flag. When only the second write fails, the token stays stored, the flag stays unset
  and the user is told 'Login failed' (`Auth.FailedSecondWriteLeavesTokenStored`).
- The login screen passes the e-mail address to `signIn`, which sends it as the `username` of
  `/auth/signin` (`LoginScreen.Login.HandleLogin`).
- `PUT /api/users/{id}` can never answer 404: `updateUser` throws for a missing id instead of
  returning null (`UserController.UpdateUser`).

## Model

| member | source | states |
|---|---|---|
| Api.GetBaseUrl | unified/services/api.ts:7-26 | outside development the production URL; the emulator URL on Android; otherwise `http://<host>:8082/api`, with the host taken from the debugger host up to the first colon |
| Api.ServerMessage | unified/services/api.ts:56-65 | a server message is present exactly for an HTTP error reply whose `message` is a non-empty string, and then it is that message |
| Api.TokenStore.GetItem | unified/services/api.ts:118 | a read fails with a storage error exactly when storage fails; otherwise it returns the stored value or nothing |
| Api.TokenStore.SetItem | unified/services/api.ts:53 | a write either fails and leaves storage unchanged, or sets exactly that key |
| Api.TokenStore.RemoveItem | unified/services/api.ts:96 | a removal either fails and leaves storage unchanged, or removes exactly that key |
| Api.BearerHeaderCarriesToken | unified/services/api.ts:114-121 | the Authorization header is added exactly when the token is truthy, carries that token after `Bearer `, and leaves every other header unchanged |
| Api.InterceptRequest | unified/services/api.ts:114-140 | a failed token read rejects the request with its headers untouched; otherwise the headers become the bearer-decorated ones |
| Api.OnResponseError | unified/services/api.ts:154-188 | storage changes only on a 401 reply, and then only the token is removed; the original error is re-thrown unless removing the token itself fails |
| Api.InterceptResponseError | unified/services/api.ts:154-188 | the interceptor's effect on storage and the error it throws are those of `OnResponseError` |
| Api.Login | unified/services/api.ts:41-67 | the call's effect on storage and its outcome are those of `LoginEffect` |
| Api.LoginStoresReceivedToken | unified/services/api.ts:48-55 | a successful login returns the server's reply and stores its token exactly when it is truthy; a failed login changes storage only by the 401 token removal |
| Api.Register | unified/services/api.ts:68-93 | the call's effect and outcome are those of `RegisterEffect`, posting the user's three fields and the role list `["user"]` |
| Api.RegisterNeverStoresToken | unified/services/api.ts:68-93 | registering never stores a token: afterwards the stored token is the old one or none |
| Api.Logout | unified/services/api.ts:94-101 | logout removes the token or fails and leaves storage unchanged |
| Api.CallEffect | unified/services/api.ts:114-188 | any other request succeeds exactly when storage is readable and the server answers, with the server's value; storage changes only by removing the token on a 401 |
| Api.Call | unified/services/api.ts:114-188 | a request through both interceptors has the storage effect and outcome of `CallEffect` |
| Auth.RedirectTarget | unified/context/AuthContext.tsx:24-36 | redirects to login exactly when signed out inside `(tabs)`, and to home exactly when signed in inside `auth`; otherwise no redirect |
| Auth.RootRouteNeverRedirects | unified/context/AuthContext.tsx:26-35 | the landing route `/` is never redirected |
| Auth.RedirectSettles | unified/context/AuthContext.tsx:24-36 | the route a redirect leads to triggers no further redirect |
| Auth.RestoreReflectsStoredToken | unified/context/AuthContext.tsx:38-46 | after a restore the flag is set exactly when storage can be read and holds a truthy token; nothing else changes |
| Auth.SignInOutcome | unified/context/AuthContext.tsx:48-63 | a sign-in that does not throw stored the server's truthy token and set the flag; one that throws leaves the flag as it was and throws the server's non-empty message when the rejection reaches `signIn` carrying one, and 'Login failed' otherwise; routes are never touched |
| Auth.MissingTokenReadsLoginFailed | unified/context/AuthContext.tsx:51-61 | a successful reply without a token changes nothing and throws 'Login failed' |
| Auth.SignUpMessages | unified/context/AuthContext.tsx:65-89 | a failed registration throws the server's message or 'Registration failed'; after a successful one the state is the sign-in's, and any sign-in failure reads 'Registration failed' |
| Auth.SignOutOutcome | unified/context/AuthContext.tsx:91-101 | a successful sign-out clears the token and the flag and navigates to `/`; a failed one changes nothing |
| Auth.SignInKeepsConsistent | unified/context/AuthContext.tsx:48-63 | against a server that never answers 401, and when `signIn`'s own token write succeeds, sign-in keeps the flag consistent with the stored token |
| Auth.FailedSecondWriteLeavesTokenStored | unified/context/AuthContext.tsx:48-63 | when `authApi.login` stored the token but `signIn`'s own write fails, a signed-out session keeps the token without the flag and throws 'Login failed' |
| Auth.StepKeepsConsistent | unified/context/AuthContext.tsx:20-101 | every route change, readable restore, sign-out, API call without a 401, and sign-in or sign-up without a 401 whose own token write succeeds keeps the flag consistent with the stored token |
| Auth.RunKeepsConsistent | unified/context/AuthContext.tsx:20-101 | any sequence of such events keeps the flag consistent with the stored token |
| Auth.UnauthorizedLeavesFlagSet | unified/services/api.ts:154-188 | a 401 answer to any request of a signed-in client removes the token but leaves the flag set, so flag and storage disagree |
| Auth.AuthProvider.constructor | unified/context/AuthContext.tsx:15-18 | the provider starts signed out, with no navigation |
| Auth.AuthProvider.OnRouteChange | unified/context/AuthContext.tsx:24-36 | the state after a route change is `NavigateSpec` of the state before |
| Auth.AuthProvider.CheckAuthState | unified/context/AuthContext.tsx:38-46 | the state after `checkAuthState` is `RestoreSpec` of the state before |
| Auth.AuthProvider.SignIn | unified/context/AuthContext.tsx:48-63 | the state and the thrown error after `signIn` are `SignInSpec` of the state before |
| Auth.AuthProvider.SignUp | unified/context/AuthContext.tsx:65-89 | the state and the thrown error after `signUp` are `SignUpSpec` of the state before |
| Auth.AuthProvider.SignOut | unified/context/AuthContext.tsx:91-101 | the state and the thrown error after `signOut` are `SignOutSpec` of the state before |
| Auth.UseAuth | unified/context/AuthContext.tsx:110-116 | the context when there is one, otherwise the error 'useAuth must be used within an AuthProvider' |
| LoginScreen.Validate | unified/app/auth/login.tsx:16-19 | the form passes exactly when both fields are non-empty, and otherwise asks to fill in all fields |
| LoginScreen.Login.constructor | unified/app/auth/login.tsx:11-13 | the form starts empty, idle and without alerts |
| LoginScreen.Login.HandleLogin | unified/app/auth/login.tsx:15-29 | an invalid form adds one alert and leaves the session alone; a valid one signs in with the e-mail as username and adds the generic failure alert exactly when sign-in throws |
| LoginScreen.QuietLoginSignsIn | unified/app/auth/login.tsx:21-23 | a valid login that raises no alert leaves the user signed in with a stored token |
| SignupScreen.Validate | unified/app/auth/signup.tsx:17-26 | the form passes exactly when all four fields are filled and the passwords match; empty fields are reported before a mismatch |
| SignupScreen.Signup.constructor | unified/app/auth/signup.tsx:11-15 | the form starts empty, idle and without alerts |
| SignupScreen.Signup.HandleSignup | unified/app/auth/signup.tsx:17-36 | an invalid form adds its one alert and leaves the session alone; a valid one signs up and adds the generic failure alert exactly when sign-up throws |
| Projects.Stamp | unified/context/ProjectContext.tsx:32-36 | a stamped project carries the given id and time and otherwise the draft's fields |
| Projects.Reverse | unified/context/ProjectContext.tsx:37 | the elements last to first: position i holds the element |s|-1-i |
| Projects.Stamped | unified/context/ProjectContext.tsx:32-36 | the i-th project is the i-th draft stamped with its own id and time |
| Projects.AddAllNewestFirst | unified/context/ProjectContext.tsx:31-38 | after a series of additions the list is the new projects, newest first, followed by the old list; the k-th newest addition is at position k |
| Projects.DuplicateIdsKept | unified/context/ProjectContext.tsx:34 | an id already in use is not checked: both projects stay in the list |
| Projects.ProjectProvider.constructor | unified/context/ProjectContext.tsx:29 | the provider starts with no projects |
| Projects.ProjectProvider.AddProject | unified/context/ProjectContext.tsx:31-38 | `addProject` puts exactly one new project with the given id and fields in front and keeps the rest in order |
| Projects.UseProjects | unified/context/ProjectContext.tsx:47-53 | the context when there is one, otherwise the error 'useProjects must be used within a ProjectProvider' |
| ProjectsScreen.FilterProjects | unified/app/project/projects.tsx:20-26 | a project is shown exactly when its name or description contains the query, ignoring case, and it is in the selected category |
| ProjectsScreen.FilterKeepsOrder | unified/app/project/projects.tsx:20-26 | filtering distributes over concatenation, so the shown projects keep their order |
| ProjectsScreen.EmptyFilterShowsAll | unified/app/project/projects.tsx:22-24 | an empty query and no category show every project |
| ProjectsScreen.EmptyCategoryIsNoCategory | unified/app/project/projects.tsx:24 | an empty selected category filters like no category |
| ProjectsScreen.CategoryNarrows | unified/app/project/projects.tsx:24 | selecting a category never shows more projects |
| ProjectsScreen.Distinct | unified/app/project/projects.tsx:28 | de-duplication keeps exactly the same values, each once |
| ProjectsScreen.FirstIndex | unified/app/project/projects.tsx:28 | the first index of a value holds it, and no earlier index does |
| ProjectsScreen.FirstIndexInPrefix | unified/app/project/projects.tsx:28 | a value's first index does not change when the list is extended |
| ProjectsScreen.DistinctFirstAppearanceOrder | unified/app/project/projects.tsx:28 | de-duplicated values appear in the order of their first appearance |
| ProjectsScreen.Categories | unified/app/project/projects.tsx:28 | the category buttons are exactly the projects' categories, each once |
| ProjectsScreen.CategoryButtonsSelectSomething | unified/app/project/projects.tsx:83-90 | pressing a non-empty category button with no query shows at least one project, all of that category |
| UsersScreen.FirstChars | unified/app/users.tsx:89 | there is at most one initial per word |
| UsersScreen.FirstCharsOfSplit | unified/app/users.tsx:89 | the first characters of the space-split words are the characters that follow a space or start the name |
| UsersScreen.InitialsAreWordStarts | unified/app/users.tsx:89 | the initials are the word starts; there are at most as many as words; each is a non-space character of the name |
| UsersScreen.WordInitialsAreNotSpaces | unified/app/users.tsx:89 | a word start is never a space and always comes from the name |
| UsersScreen.CardAsWritten | unified/app/users.tsx:76-110 | rendering a card throws exactly when the user's name or skills are null |
| UsersScreen.CardFor | unified/app/users.tsx:76-110 | the corrected card agrees with the written one wherever that one renders, and shows an empty name and no skills for missing ones |
| UsersScreen.CardsAsWritten | unified/app/users.tsx:76-110 | the list as written throws exactly when some user lacks a name or skills, and otherwise shows the corrected cards |
| UsersScreen.SignedUpUserBreaksList | unified/app/users.tsx:89 | an account made by sign-up has no name, so as written its card throws |
| UsersScreen.Cards | unified/app/users.tsx:76 | one corrected card per user, in order |
| UsersScreen.Render | unified/app/users.tsx:42-64 | a spinner exactly while loading, then the error text exactly when there is an error, else the corrected cards, which equal the written ones wherever those render |
| UsersScreen.UsersScreenState.constructor | unified/app/users.tsx:20-22 | the screen starts loading, with no users and no error |
| UsersScreen.UsersScreenState.FetchUsers | unified/app/users.tsx:28-40 | a fetch ends loading; on success it shows the received users' cards, and on failure it keeps the old list and shows the fixed error text |
| Plagiarism.PickedUri | unified/app/plagiarism.tsx:26-39 | a picked URI is never empty |
| Plagiarism.PickOutcomes | unified/app/plagiarism.tsx:26-92 | a pick either changes nothing (a cancel among the cases), or replaces the document with the picked URI and clears the score, or adds only the generic pick alert |
| Plagiarism.FailureMessage | unified/app/plagiarism.tsx:138-158 | every check alert starts with 'Failed to check plagiarism. '; a thrown non-error shows only that prefix; an error matching no rule shows its own message after the prefix |
| Plagiarism.MissingFileClassified | unified/app/plagiarism.tsx:114-116 | a missing file is reported with the file-not-found text |
| Plagiarism.EmptyFileClassified | unified/app/plagiarism.tsx:118-120 | an empty file is reported with the empty-file text |
| Plagiarism.UnreadableFileClassified | unified/app/plagiarism.tsx:131-133 | an unreadable file matches no rule and is reported with its own message |
| Plagiarism.CheckOrder | unified/app/plagiarism.tsx:109-134 | the check's steps run in order and the first failing one decides its error; the service is reached, and decides the outcome, only once the file exists, has a truthy size and reads as non-empty content |
| Plagiarism.CheckWithoutDocument | unified/app/plagiarism.tsx:94-98 | without a document the check only adds the select-first alert |
| Plagiarism.CheckSettles | unified/app/plagiarism.tsx:94-162 | a check with a document ends not uploading and keeps the document; either it shows the service's result with no alert, or it adds one prefixed alert and keeps the old result |
| Plagiarism.PickedFileIsFound | unified/app/plagiarism.tsx:40-57 | if the file system still reports a just-picked file as it did at the pick, the check reports it missing only if reading it or the service throws that error; if the file has gone, the check reports it missing |
| Plagiarism.EnabledCheckNeedsNoDocumentPrompt | unified/app/plagiarism.tsx:261 | a check started through the enabled button never asks the user to select a document first |
| Plagiarism.ScoreColor | unified/app/plagiarism.tsx:181 | the score is red exactly above 20 and green otherwise |
| Plagiarism.PlagiarismScreen.constructor | unified/app/plagiarism.tsx:22-24 | the screen starts idle, with no document, no result and no alert |
| Plagiarism.PlagiarismScreen.ShowError | unified/app/plagiarism.tsx:158 | showing an error appends exactly that one alert |
| Plagiarism.PlagiarismScreen.PickDocument | unified/app/plagiarism.tsx:26-92 | the state after `pickDocument` is `PickSpec` of the state before |
| Plagiarism.PlagiarismScreen.HandleCheckPlagiarism | unified/app/plagiarism.tsx:94-162 | the state after `handleCheckPlagiarism` is `CheckSpec` of the state before |
| Theme.Toggled | unified/context/ThemeContext.tsx:41-43 | toggling always changes the theme |
| Theme.ToggleTwice | unified/context/ThemeContext.tsx:41-43 | toggling twice restores the theme |
| Theme.ThemeProvider.constructor | unified/context/ThemeContext.tsx:39 | the theme starts light, not dark mode |
| Theme.ThemeProvider.ToggleTheme | unified/context/ThemeContext.tsx:41-45 | a toggle flips the theme and with it dark mode |
| Theme.UseTheme | unified/context/ThemeContext.tsx:54-60 | the context when there is one, otherwise the error 'useTheme must be used within a ThemeProvider' |
| Ui.UseContext | unified/context/AuthContext.tsx:110-116 | a context hook returns the provider's value when there is one, and otherwise fails with '<hook> must be used within <provider>' |
| Users.Pick | unified-backend/src/main/java/com/unified/service/UserServiceImpl.java:72-104 | a non-null request field replaces the stored one; a null field keeps it |
| Users.ProfileUpdateKeepsIdentity | unified-backend/src/main/java/com/unified/service/UserServiceImpl.java:67-108 | a profile update never changes the id, username, e-mail, password or roles |
| Users.ProfileUpdateIdempotent | unified-backend/src/main/java/com/unified/service/UserServiceImpl.java:67-108 | applying the same profile update twice equals applying it once |
| Users.EmptyProfileUpdateIsIdentity | unified-backend/src/main/java/com/unified/service/UserServiceImpl.java:67-108 | an all-null profile update changes nothing |
| Users.ProfileUpdatesCompose | unified-backend/src/main/java/com/unified/service/UserServiceImpl.java:67-108 | two profile updates in a row equal one update where the second's non-null fields win |
| Users.OverwriteCopiesProfile | unified-backend/src/main/java/com/unified/service/UserServiceImpl.java:128-151 | a full update copies every profile field from the request, nulls included, and keeps the stored id |
| Users.PartialVersusFullUpdate | unified-backend/src/main/java/com/unified/service/UserServiceImpl.java:67-151 | a partial update with all of a user's profile fields agrees with a full update on the non-null ones |
| Users.UserService.constructor | unified-backend/src/main/java/com/unified/service/UserServiceImpl.java:22-28 | the repository starts empty |
| Users.UserService.RegisterNewUserAccount | unified-backend/src/main/java/com/unified/service/UserServiceImpl.java:40-53 | saves exactly one new user with the encoded password and the single role ROLE_USER; afterwards the username and the e-mail are taken |
| Users.UserService.FindUserById | unified-backend/src/main/java/com/unified/service/UserServiceImpl.java:55-59 | returns the stored user exactly when the id is stored, and otherwise the not-found error |
| Users.UserService.FindUserByUsername | unified-backend/src/main/java/com/unified/service/UserServiceImpl.java:61-65 | succeeds exactly when `existsByUsername` holds, with a stored user of that username, and otherwise fails with the username message |
| Users.UserService.GetUserById | unified-backend/src/main/java/com/unified/service/UserServiceImpl.java:115-118 | present exactly when the id is stored, and then the stored user |
| Users.UserService.GetAllUsers | unified-backend/src/main/java/com/unified/service/UserServiceImpl.java:110-113 | exactly the stored users |
| Users.UserService.UpdateUserProfile | unified-backend/src/main/java/com/unified/service/UserServiceImpl.java:67-108 | a stored user is replaced by `ApplyProfileUpdate` of it; a missing one throws before anything is saved |
| Users.UserService.CreateUser | unified-backend/src/main/java/com/unified/service/UserServiceImpl.java:120-126 | saves the user with its password encoded when present; a user without an id gets the generated one, and a user with an id replaces any stored document with that id |
| Users.UserService.UpdateUser | unified-backend/src/main/java/com/unified/service/UserServiceImpl.java:128-151 | a stored user is replaced by `Overwrite` of it; a missing one throws before anything is saved |
| Users.UserService.DeleteUser | unified-backend/src/main/java/com/unified/service/UserServiceImpl.java:153-159 | removes exactly a stored user, and throws for a missing one |
| AuthController.SigninResponse | unified-backend/src/main/java/com/unified/controller/AuthController.java:47-73 | 200 with the JWT and the user's name and roles exactly on authentication, 400 with 'Error: Invalid username or password' exactly on bad credentials, else 500 |
| AuthController.AuthenticateUser | unified-backend/src/main/java/com/unified/controller/AuthController.java:47-73 | the reply is `SigninResponse` of the manager's outcome; the security context holds the authentication exactly when the manager accepts |
| AuthController.SignupCheck | unified-backend/src/main/java/com/unified/controller/AuthController.java:78-93 | registration passes exactly when neither the username nor the e-mail is taken; the username is checked first |
| AuthController.RegisterUser | unified-backend/src/main/java/com/unified/controller/AuthController.java:75-104 | a taken username or e-mail gives 400 and saves nothing; a repository failure gives 500; otherwise exactly one account is added, and a repeat is refused |
| AuthController.SigninEndToEnd | unified-backend/src/main/java/com/unified/controller/AuthController.java:47-73 | the client stores the token the server issues, and bad credentials reach the client as the server's message with storage unchanged |
| UserController.CurrentUserId | unified-backend/src/main/java/com/unified/controller/UserController.java:87-94 | an id exactly when the principal is a `UserDetailsImpl`, and then that principal's id |
| UserController.GetAllUsers | unified-backend/src/main/java/com/unified/controller/UserController.java:27-30 | always 200 with exactly the stored users |
| UserController.GetUserById | unified-backend/src/main/java/com/unified/controller/UserController.java:32-37 | 200 with the user exactly when the id is stored, else 404 with no body |
| UserController.CreateUser | unified-backend/src/main/java/com/unified/controller/UserController.java:39-42 | 200 with the saved user, which is stored under its own id, given or generated |
| UserController.UpdateUser | unified-backend/src/main/java/com/unified/controller/UserController.java:44-51 | a stored user is overwritten and returned with 200; a missing id propagates the not-found exception and changes nothing; no reply is 404 |
| UserController.DeleteUser | unified-backend/src/main/java/com/unified/controller/UserController.java:53-57 | a stored user is removed with 200; a missing id propagates the not-found exception |
| UserController.GetCurrentUserProfile | unified-backend/src/main/java/com/unified/controller/UserController.java:59-71 | 401 exactly without a signed-in user, 404 exactly when their document is gone, else 200 with the user |
| UserController.UpdateUserProfile | unified-backend/src/main/java/com/unified/controller/UserController.java:73-85 | 401 without a signed-in user, 400 when their document is gone, else 200 after the profile update; every reply carries an empty message, not the user |
| WebSecurity.Decide | unified-backend/src/main/java/com/unified/security/WebSecurityConfig.java:127-133 | the first rule whose pattern matches the path decides; a path no rule matches needs authentication; a path is permitted only when some rule permits |
| WebSecurity.DecidePermitOnly | unified-backend/src/main/java/com/unified/security/WebSecurityConfig.java:127-133 | with only permit rules, a path is permitted exactly when it lies under one of their prefixes |
| WebSecurity.RequiredAccess | unified-backend/src/main/java/com/unified/security/WebSecurityConfig.java:127-133 | a path is public exactly when it lies under `/api/auth`, `/api/test`, `/api/plagiarism` or `/api/files` |
| WebSecurity.UsersApiIsProtected | unified-backend/src/main/java/com/unified/security/WebSecurityConfig.java:127-133 | every path under `/api/users` needs authentication |
| WebSecurity.FilterChain | unified-backend/src/main/java/com/unified/security/WebSecurityConfig.java:124-136 | public paths always reach the controller; protected ones only with a valid token, otherwise 401; the context holds what the token validates to |
| WebSecurity.CheckOrigin | unified-backend/src/main/java/com/unified/security/WebSecurityConfig.java:33-51 | an origin is echoed back exactly when it is one of the listed origins |
| WebSecurity.CheckHeaders | unified-backend/src/main/java/com/unified/security/WebSecurityConfig.java:81-118 | a `*` header list allows every requested header; otherwise exactly the listed ones |
| WebSecurity.Filter | unified-backend/src/main/java/com/unified/security/WebSecurityConfig.java:81-100 | keeps exactly the headers that are in the allowed list |
| WebSecurity.CorsConfigurationsCompared | unified-backend/src/main/java/com/unified/security/WebSecurityConfig.java:69-123 | both CORS configurations allow credentials, cache preflights for 3600 seconds, and accept the same origins and methods; they differ on unlisted headers |
| FileUpload.Extension | unified-backend/src/main/java/com/unified/controller/FileUploadController.java:40 | an extension exists exactly when the name has a dot; it starts at the last dot and ends the name |
| FileUpload.UploadNaming | unified-backend/src/main/java/com/unified/controller/FileUploadController.java:38-55 | a successful upload is stored as the UUID plus the original extension, under the download URL, with its size as decimal text |
| FileUpload.UploadOnlyAdds | unified-backend/src/main/java/com/unified/controller/FileUploadController.java:29-61 | an upload never changes or removes a stored file; a 400 stores nothing; it throws exactly when the name is missing or has no dot |
| FileUpload.DownloadSpec | unified-backend/src/main/java/com/unified/controller/FileUploadController.java:63-80 | `downloadFile` on the controller's disk: 200 with the stored bytes as an attachment exactly when the file exists, 400 for a malformed URL, else 404 |
| FileUpload.DownloadName | unified-backend/src/main/java/com/unified/controller/FileUploadController.java:51-63 | a download URL names exactly the file after the download prefix |
| FileUpload.UploadThenDownload | unified-backend/src/main/java/com/unified/controller/FileUploadController.java:29-80 | the URL of a successful upload downloads the uploaded bytes |
| FileUpload.FileUploadController.constructor | unified-backend/src/main/java/com/unified/controller/FileUploadController.java:26-27 | the controller serves the given directory and disk |
| FileUpload.FileUploadController.UploadFile | unified-backend/src/main/java/com/unified/controller/FileUploadController.java:29-61 | the disk and reply after `uploadFile` are `UploadSpec` of the disk before |
| ProjectRequests.Violations | unified-backend/src/main/java/com/unified/payload/request/ProjectRequest.java:11-34 | a violation is reported exactly for each declared constraint its field breaks |
| ProjectRequests.ValidIffNoViolations | unified-backend/src/main/java/com/unified/payload/request/ProjectRequest.java:11-34 | a request is valid exactly when it has no violation |
| ProjectRequests.OptionalFieldsUnchecked | unified-backend/src/main/java/com/unified/payload/request/ProjectRequest.java:19-37 | the status, lists and document fields never affect validation |
| ProjectRequests.NameViolations | unified-backend/src/main/java/com/unified/payload/request/ProjectRequest.java:11-13 | a null name breaks only `@NotBlank`; a blank two-character name breaks both `@NotBlank` and `@Size` |
| Text.JoinSplit | unified/app/users.tsx:89 | joining the pieces of a split with the separator gives back the string |
| Text.SplitPiecesLackSeparator | unified/app/users.tsx:89 | no piece of a split contains the separator |
| Text.ParseDecimalString | unified-backend/src/main/java/com/unified/controller/FileUploadController.java:52 | the decimal rendering of a size reads back as that size |

## Left out

- Rendering, styles, colours and layout of every screen are not modelled. Only the decisions the
  screens make are: which view shows, which alert is raised, which buttons are enabled.
- Asynchrony is not modelled. Each `async` handler runs to completion as one step. Two handlers
  interleaving (a route change in the middle of a sign-in, a second press while uploading) is not
  modelled.
- Logging (`console.log`, `console.error`) is left out: it changes no state.
- `Api.InterceptRequest`: the later interceptor calls the client makes are not modelled. The
  request config, the timeout and `withCredentials` are only carried.
- `Api.GetBaseUrl`: `__DEV__`, the platform and the Expo host URI are parameters.
- Network errors and set-up errors are represented by the `HttpError` cases. Their `message` and
  `code` fields are only logged, so they are not carried.
- `ProjectRequests.Violations`, `ProjectRequests.Valid`: a string's length is its number of Unicode
  scalar values, while Java's `String.length()` counts UTF-16 code units. A name such as two emoji
  (four code units) passes `@Size(min = 3)` in the source but is reported as too short here.
- `UsersScreen.FirstChars`, `UsersScreen.InitialsAreWordStarts`: a word's first character is its
  first Unicode scalar value, while JavaScript's `n[0]` is its first UTF-16 code unit. For a word
  starting with a character outside the Basic Multilingual Plane the source shows a lone surrogate,
  the model the whole character.
- `Text.ToLower`: lower-cases ASCII letters only. JavaScript's full Unicode case mapping is not
  modelled.
- `Projects.ProjectProvider.AddProject`: the random id and the creation time are parameters.
  `Math.random().toString(36)` is not modelled, so neither is the chance of two equal ids.
- The backend's password encoder (BCrypt), the authentication manager and the JWT generator
  (`JwtUtils`) are parameters. `UserDetailsServiceImpl`, `JwtUtils`, `JwtAuthenticationFilter` and
  `JwtResponse` are not part of this model.
- `AuthController.SigninEndToEnd`: assumes the JWT reply is serialised with its token under the
  JSON field `token`. `JwtResponse` is not part of this model.
- MongoDB (`UserRepository`) is a map from id to user. Unique indexes are not modelled; neither are
  the order of `findAll`, nor which user `findByUsername` returns when several share a username.
  `Users.UserService.FindUserByUsername` promises only some stored user with that username.
- `Users.UserService.GetAllUsers` is modelled as the set of stored users. The order of the list is
  not modelled. `Users.UserService.ExistsByUsername` and `Users.UserService.ExistsByEmail` are plain
  predicates; what they mean is stated through `FindUserByUsername`, `RegisterNewUserAccount` and
  `AuthController.RegisterUser`.
- `AuthController.RegisterUser`, `AuthController.SigninResponse`, `AuthController.AuthenticateUser`:
  the `@Valid` constraints of `LoginRequest` and `SignupRequest`, and the 400 Spring answers before
  the handler runs when a request breaks them, are not modelled; those request classes are not part
  of this model. The model runs the handler on every request, an empty username included.
- `AuthController.RegisterUser`: the `role` list of the sign-up request is ignored, as in the
  source. Every new account gets ROLE_USER.
- `WebSecurity.FilterChain`: the JWT filter is reduced to a validation function from the bearer
  token to an authentication. Which of the two CORS configurations Spring applies to a given
  request, and Spring's normalisation of origins and header names, are not modelled; the two are
  compared instead (`WebSecurity.CorsConfigurationsCompared`). CSRF being disabled and the
  stateless session policy are recorded as constants.
- `FileUpload.UploadSpec`: the file system is a map from name to bytes plus a directory flag. I/O
  errors are parameters. The message of an `IOException` is taken as a parameter, except for an
  existing target name, where it is modelled as the directory, a slash and the name. The content
  type and the original name are echoed as given.
- `FileUpload.DownloadSpec`: resolving a name outside the upload directory (`..`) is not modelled.
  The name is looked up as given.
- `UsersScreen.Cards`, `UsersScreen.Render` and `UsersScreen.UsersScreenState.FetchUsers` show the
  corrected card (`UsersScreen.CardFor`). Where a user lacks a name or skills, the screen as written
  throws while rendering instead (`UsersScreen.CardsAsWritten`; see Findings).
- `Plagiarism`: the document picker, `expo-file-system` (`getInfoAsync`, `readAsStringAsync`) and
  the plagiarism service (`services/plagiarismService.ts`, with its Copyleaks calls) are
  parameters. The service's own behaviour is not part of this model. The picker's result is
  modelled with `type == 'success'`: that is the only shape the screen stores, so the button's
  `type !== 'success'` test reduces to whether a document is selected. Opening a source URL
  (`Linking.openURL`) is left out.
- `PlagiarismController` and `PlagiarismService` on the backend are not part of this model.
- `ProjectRequests`: only the declared constraints are modelled (`@NotBlank` with Hibernate's
  trimming test, `@Size` passing null). Whether any controller applies `@Valid` to a
  `ProjectRequest` is not part of this model.
- The screens and routes outside the named core (the tabs, profile, settings, post, notification,
  project details and layouts) are not part of this model.

## Findings

| source | as written | input that shows it | evidently intended | confidence | as-written member | corrected member |
|---|---|---|---|---|---|---|
| unified/app/users.tsx:89,98 | each user card calls `user.name.split(' ')` and `user.skills.map(...)` unguarded | any account created through `/api/auth/signup`: `registerNewUserAccount` sets neither `name` nor `skills`, so both arrive as null and the list throws while rendering | a user without a name or skills renders with empty initials and no skill tags | not executed; high that the fields are null after sign-up, medium that nothing else fills them first | UsersScreen.CardAsWritten, UsersScreen.CardsAsWritten, UsersScreen.SignedUpUserBreaksList | UsersScreen.CardFor |
