# EZKorea access rules and list updates, modelled in Dafny

This project models the rule-bearing core of the EZKorea course marketplace: the Next.js
route middleware that guards the admin, instructor, student and profile pages; the admin
area's client-side guard and its fixed-credential sign-in; the navigation bar's
student/instructor view switch; the instructor application form; the admin pages that
change user roles and statuses and approve or reject instructor applications and courses;
the sign-up form; the admin URL table; and, on the server, the `POST /api/signup` handler
over the user collection and the Mongoose user schema with its password hook.

Each source file is one module. Pure decisions (`middleware`, URL builders, menu choice,
list updates, validation) are functions with lemmas. React components and the server's
collection, whose state changes step by step, are classes whose fields are the component
state, the `localStorage` slots they write and the routes they push; their methods state
the complete new state in terms of the pure functions. Network replies, thrown `fetch`
calls and the bcrypt hash are method parameters. `JSON.parse` is outside the model: a
cookie or stored item is its text together with what `JSON.parse` makes of it
(`Browser.Item`), and reading a property of `null` throws as in JavaScript.

`server.js` declares its own user schema (no `trim`/`lowercase`, no role, no hashing hook),
so sign-up compares emails exactly and stores the password as given; the separate model
schema in `src/server/models/User.js` is modelled on its own (`UserSchema`), with its role
enum `user`/`instructor`/`admin`, distinct from the client's `student`/`instructor`/
`admin`/`pending_instructor` (`ApiTypes.Role`).

## Model

| member | source | states |
|---|---|---|
| `Middleware.IsPublicAsWritten` | src/middleware.ts:6-9 | as written, a path is public iff it starts with `/` |
| `Middleware.IsPublic` | src/middleware.ts:6-9 | the corrected test only narrows the written one, and apart from `/` itself no path shorter than the shortest other public path is public |
| `Middleware.RoleChecks` | src/middleware.ts:26-54 | a redirect goes only to `/login`, `/` or `/student/dashboard`; `/login` only for a `null` user; paths outside `/admin`, `/instructor` and `/become-instructor` always pass |
| `Middleware.DecideAsWritten` | src/middleware.ts:4-55 | every path starting with `/` passes; a redirect goes only to `/login`, `/` or `/student/dashboard` |
| `Middleware.Decide` | src/middleware.ts:4-55 | a redirect goes only to `/login`, `/` or `/student/dashboard`; wherever the middleware as written redirects, the corrected one redirects to the same place |
| `Middleware.Matched` | src/middleware.ts:57-65 | every path the matcher selects starts with `/` |
| `Middleware.Guard` | src/middleware.ts:15-54 | a missing or empty token or user cookie, or a user cookie `JSON.parse` rejects, redirects to `/login`; a user cookie holding `null` redirects to `/login` on the admin, instructor and application pages (reading `role` throws) and passes elsewhere; every outcome is pass-through or a redirect to `/login`, `/` or `/student/dashboard` |
| `Middleware.EveryAbsolutePathPassesAsWritten` | src/middleware.ts:6-13 | as written, `"/"` in the public list with `startsWith` makes every path beginning with `/` public, so it passes before any cookie or role check |
| `Middleware.MatchedRequestsPassAsWritten` | src/middleware.ts:57-65 | as written, every path the matcher selects passes whatever the cookies |
| `Middleware.AdminWithoutCookiesCounterexample` | src/middleware.ts:6-21 | `/admin` without cookies passes as written and is sent to `/login` by the corrected public test |
| `Middleware.MatchedPathIsNotPublic` | src/middleware.ts:57-65 | with `/` matched exactly, no path selected by `/admin/:path*`, `/profile/:path*`, `/instructor/:path*`, `/student/:path*` or `/become-instructor` is public |
| `Middleware.MatchedRequestsAreGuarded` | src/middleware.ts:11-13 | with the corrected public test every matched request goes through the guard |
| `Middleware.MissingCookieRedirectsToLogin` | src/middleware.ts:16-21 | a guarded request lacking the token or user cookie is redirected to `/login` |
| `Middleware.UnparseableUserRedirectsToLogin` | src/middleware.ts:23-54 | a user cookie `JSON.parse` throws on redirects a guarded request to `/login` |
| `Middleware.NullUserRedirectsToLogin` | src/middleware.ts:23-54 | a user cookie holding `null` sends an admin, instructor or application page request to `/login`, since reading `role` throws into the `catch` |
| `Middleware.AdminLoginPageGuardedWhenCorrected` | src/middleware.ts:6-21 | `/admin/login` without cookies passes as written but is sent to `/login` by the corrected middleware, because `/admin/:path*` matches it |
| `Middleware.AdminPagesNeedAdminRole` | src/middleware.ts:27-32 | under `/admin`, a role other than `admin` is redirected to `/`; an admin passes |
| `Middleware.InstructorPagesNeedInstructorView` | src/middleware.ts:35-40 | under `/instructor`, the request passes iff `role` and `activeRole` are both `instructor`, else it goes to `/student/dashboard` |
| `Middleware.ApplicationPageClosedToInstructors` | src/middleware.ts:43-48 | exactly `/become-instructor` is redirected to `/student/dashboard` for `instructor` and `pending_instructor`, and passes for every other role |
| `Middleware.OtherGuardedPagesNeedOnlyCookies` | src/middleware.ts:26-50 | profile and student pages pass once both cookies are present and the user cookie parses |
| `Middleware.InstructorPagesForUserRecord` | src/middleware.ts:35-40 | for a cookie holding a client `User`, instructor pages open exactly to an instructor in the instructor view |
| `AdminLayout.GuardEffect` | src/app/admin/layout.tsx:15-33 | on `/admin/login` nothing is checked; elsewhere a missing user or token replaces the route with `/admin/login`, a parsed non-null user whose role is not `admin` does too; the user is set iff the stored user parses to an object whose role is `admin`; the effect throws iff the stored user does not parse or parses to `null` |
| `AdminLayout.Render` | src/app/admin/layout.tsx:35-40 | on `/admin/login` only the children render; elsewhere nothing renders until a user is set, then the admin shell with that user |
| `AdminLayout.Layout.constructor` | src/app/admin/layout.tsx:13 | the layout starts with no user and no route change |
| `AdminLayout.Layout.RunGuard` | src/app/admin/layout.tsx:15-33 | one run of the effect sets the user or replaces the route exactly as the guard decides, and changes nothing else |
| `AdminLayout.AdminShellOnlyForAdmins` | src/app/admin/layout.tsx:31-42 | from the initial state the shell renders only after a guard run that set an admin user; otherwise, outside the login page, nothing renders |
| `AdminLogin.SignIn` | src/app/admin/login/page.tsx:13-26 | a session exists iff email and password equal the fixed constants; it holds the token `dummy-admin-token` and a user whose role is `admin` |
| `AdminLogin.SignedInSessionPassesLayoutGuard` | src/app/admin/login/page.tsx:23-25 | the session a successful sign-in stores passes the admin layout's guard on every admin page and renders the shell with that admin |
| `AdminLogin.LoginForm.constructor` | src/app/admin/login/page.tsx:7-10 | the form starts empty, without error and not loading |
| `AdminLogin.LoginForm.HandleSubmit` | src/app/admin/login/page.tsx:16-31 | on success the token and user are stored, `/admin` is pushed and the error is cleared; on failure storage and route are untouched and the error is set; `loading` is false at the end |
| `SideNav.MenuFor` | src/components/LNB.tsx:91-92 | the instructor menu iff `activeRole` is `instructor`; the student menu otherwise, including when `activeRole` is absent |
| `SideNav.SwitchTarget` | src/components/LNB.tsx:105-111 | the switch exists iff the role is `instructor`; it requests `student` from the instructor view and `instructor` otherwise, never the current view |
| `SideNav.DashboardFor` | src/components/LNB.tsx:64-68 | a successful switch goes to `/instructor/dashboard` for instructor and `/student/dashboard` for student, the first entry of the new view's menu |
| `SideNav.ApplicationLinkOnlyInStudentMenu` | src/components/LNB.tsx:14-26 | `/become-instructor` is in the menu iff the student menu is shown |
| `SideNav.NavBar.constructor` | src/components/LNB.tsx:31-32 | the bar starts loading, without a user |
| `SideNav.NavBar.FetchUserData` | src/components/LNB.tsx:34-46 | the user and its cached copy change only on a successful reply with data; loading ends false |
| `SideNav.NavBar.HandleRoleSwitch` | src/components/LNB.tsx:57-75 | only a successful reply with data changes the user, the cached copy and the route (to the new view's dashboard); loading is false afterwards either way |
| `BecomeInstructor.ToggleField` | src/app/become-instructor/page.tsx:68-72 | toggling flips whether the toggled field is selected and leaves every other field's membership alone |
| `BecomeInstructor.ToggleKeepsOrder` | src/app/become-instructor/page.tsx:68-72 | a selected field is removed everywhere, the others keep their order and counts; an unselected one is appended at the end |
| `BecomeInstructor.ToggleTwiceRestores` | src/app/become-instructor/page.tsx:69-71 | toggling an unselected field twice restores the list |
| `BecomeInstructor.ToggleKeepsNoDuplicates` | src/app/become-instructor/page.tsx:69-71 | toggling a duplicate-free list keeps it duplicate-free |
| `BecomeInstructor.SubmitGuard` | src/app/become-instructor/page.tsx:76-84 | without consent the consent message wins before any other check; with consent an introduction under 20 UTF-16 code units is rejected with the introduction message, any other passes |
| `BecomeInstructor.LongIntroPasses` | src/app/become-instructor/page.tsx:81-84 | with consent, an introduction of at least 20 characters passes |
| `BecomeInstructor.FailureMessage` | src/app/become-instructor/page.tsx:108-109 | a failed reply shows its non-empty message; an absent or empty message shows `강사 신청 실패` |
| `BecomeInstructor.ApplicationForm.constructor` | src/app/become-instructor/page.tsx:24-35 | the form starts empty, unconsented, not loading and without error |
| `BecomeInstructor.ApplicationForm.HandleFieldChange` | src/app/become-instructor/page.tsx:68-72 | only the selected fields change, to their toggle; every other field of the form, the requests and the route are unchanged |
| `BecomeInstructor.ApplicationForm.HandleSubmit` | src/app/become-instructor/page.tsx:74-121 | a failed guard sets its message without loading or sending; otherwise the application is sent; a non-ok or unreadable reply sets the error, resets loading and keeps the cached user; success caches the returned user, sets success and schedules `/`; the text inputs are never changed |
| `AdminUsers.Changed` | src/app/admin/users/page.tsx:36 | a changed row differs from the original only in `role` (or only in `status`), which takes the new value |
| `AdminUsers.ChangeWhere` | src/app/admin/users/page.tsx:34-38 | every row with the id is changed, every other row is unchanged, length and order are kept |
| `AdminUsers.ChangeKeepsIds` | src/app/admin/users/page.tsx:34-38 | a change keeps every row's id |
| `AdminUsers.ChangeIdempotent` | src/app/admin/users/page.tsx:34-38 | making the same change twice equals making it once |
| `AdminUsers.RoleAndStatusChangesCommute` | src/app/admin/users/page.tsx:34-62 | a role change and a status change commute, whichever users they target |
| `AdminUsers.RoleOptionsAreClientRoles` | src/app/admin/users/page.tsx:99-101 | the offered roles are client roles, and `pending_instructor` is not offered |
| `AdminUsers.OfferedChoicesStayOffered` | src/app/admin/users/page.tsx:93-114 | when every row's role and status are among the drop-down options, choosing an offered role or status keeps them there |
| `AdminUsers.UsersPage.constructor` | src/app/admin/users/page.tsx:7-8 | the page starts from the loaded list without error |
| `AdminUsers.UsersPage.HandleRoleChange` | src/app/admin/users/page.tsx:20-42 | whatever status is returned the list is updated by id; only a thrown `fetch` skips the update and sets the error |
| `AdminUsers.UsersPage.HandleStatusChange` | src/app/admin/users/page.tsx:44-66 | the same rule, applied to `status` |
| `AdminCommon.OfferedActions` | src/app/admin/instructors/page.tsx:66 | approve and reject are offered exactly for status `pending` |
| `AdminInstructors.ActionRemovesExactlyThatId` | src/app/admin/instructors/page.tsx:30 | after an action no application has the id, every other keeps its count, and acting again changes nothing |
| `AdminInstructors.WithoutApplication` | src/app/admin/instructors/page.tsx:30 | the remaining list holds exactly the applications whose id differs, and is no longer |
| `AdminInstructors.ActionKeepsOrder` | src/app/admin/instructors/page.tsx:30 | removal distributes over concatenation, so the others keep their order |
| `AdminInstructors.ActionUrlMatchesConfig` | src/app/admin/instructors/page.tsx:24 | the page posts to the route the URL table names, on the production host |
| `AdminInstructors.ActionUrl` | src/app/admin/instructors/page.tsx:24 | the request goes to the production host and its last segment names the action |
| `AdminInstructors.ApplicationsPage.constructor` | src/app/admin/instructors/page.tsx:5-6 | the page starts from the loaded list without error |
| `AdminInstructors.ApplicationsPage.HandleAction` | src/app/admin/instructors/page.tsx:21-31 | the action is posted and the row removed whatever the reply status, the same for approve and reject; a thrown `fetch` leaves the list |
| `AdminCourses.ActionRemovesExactlyThatId` | src/app/admin/courses/page.tsx:27 | after an action no course has the id, every other keeps its count, and acting again changes nothing |
| `AdminCourses.WithoutCourse` | src/app/admin/courses/page.tsx:27 | the remaining list holds exactly the courses whose id differs, and is no longer |
| `AdminCourses.ActionKeepsOrder` | src/app/admin/courses/page.tsx:27 | removal distributes over concatenation, so the others keep their order |
| `AdminCourses.ActionUrlMatchesConfig` | src/app/admin/courses/page.tsx:21 | the page posts to the route the URL table names, on the production host |
| `AdminCourses.ActionUrl` | src/app/admin/courses/page.tsx:21 | the request goes to the production host and its last segment names the action |
| `AdminCourses.CoursesPage.constructor` | src/app/admin/courses/page.tsx:5-6 | the page starts from the loaded list without error |
| `AdminCourses.CoursesPage.HandleAction` | src/app/admin/courses/page.tsx:18-28 | the action is posted and the course removed whatever the reply status, the same for approve and reject; a thrown `fetch` leaves the list |
| `SignupForm.SetField` | src/app/signup/page.tsx:38-45 | the named field takes the value; every other field, interests included, is unchanged |
| `SignupForm.SetFieldLaws` | src/app/signup/page.tsx:41-44 | writing a field's own value changes nothing; of two writes to one field the last wins |
| `SignupForm.SubmitError` | src/app/signup/page.tsx:22-31 | the mismatch message iff password and confirmation differ, no error otherwise |
| `SignupForm.SignupPage.constructor` | src/app/signup/page.tsx:10-18 | the form starts empty without error |
| `SignupForm.SignupPage.HandleChange` | src/app/signup/page.tsx:38-45 | only the named field of the form changes |
| `SignupForm.SignupPage.HandleSubmit` | src/app/signup/page.tsx:20-36 | the error is cleared, then set to the mismatch message when the passwords differ; the form is unchanged |
| `Config.InstructorApproveUrl` | src/config/index.ts:9-10 | the URL is the admin base followed by `instructor-applications/`, the id and `/approve` |
| `Config.InstructorRejectUrl` | src/config/index.ts:11-12 | the URL is the admin base followed by `instructor-applications/`, the id and `/reject` |
| `Config.CourseApproveUrl` | src/config/index.ts:16 | the URL is the admin base followed by `courses/`, the id and `/approve` |
| `Config.CourseRejectUrl` | src/config/index.ts:17 | the URL is the admin base followed by `courses/`, the id and `/reject` |
| `Config.EveryUrlUnderAdminBase` | src/config/index.ts:1-17 | every URL starts with `API_URL + "/api/admin/"` |
| `Config.ApproveAndRejectDifferInLastSegment` | src/config/index.ts:8-17 | approve and reject URLs share `<list URL>/<id>` and an approve URL never equals a reject URL |
| `Config.BuildersAreInjective` | src/config/index.ts:9-17 | each builder is injective in the id |
| `Config.InstructorUrlsAreNotCourseUrls` | src/config/index.ts:8-17 | no instructor-application URL equals a course URL |
| `SignupService.Signup` | server.js:49-73 | 400 iff email, password or name is falsy; 409 iff the email is already stored; otherwise 201 with exactly one new record holding the submitted values, and a reply user without the password; only 201 changes the collection |
| `SignupService.SignupKeepsEmailsUnique` | server.js:57-63 | one sign-up keeps stored emails unique |
| `SignupService.SignupAll` | server.js:49-73 | requests handled one after another only append to the collection, at most one record per request |
| `SignupService.SignupAllKeepsEmailsUnique` | server.js:35 | any sequence of sign-ups from a unique collection keeps emails unique |
| `SignupService.RepeatedSignupConflicts` | server.js:57-60 | repeating a successful sign-up yields 409 and changes nothing |
| `SignupService.BioIsOptional` | server.js:52-68 | a request without bio succeeds for a new email and the reply has no bio |
| `SignupService.UserCollection.constructor` | server.js:41 | the collection starts empty with unique emails |
| `SignupService.UserCollection.HandleSignup` | server.js:49-73 | the handler's reply and new collection are those of `Signup`, and email uniqueness is preserved |
| `UserSchema.SchemaRoleNamed` | src/server/models/User.js:26-30 | a role is accepted iff it is `user`, `instructor` or `admin` |
| `UserSchema.NormalizeEmail` | src/server/models/User.js:5-11 | the stored email is no longer than the input, has no ASCII capital and neither starts nor ends with whitespace |
| `UserSchema.Validate` | src/server/models/User.js:4-35 | a rejected document has at least one error; a document is accepted iff its normalised email, its password of at least 6 code units and its trimmed name are non-empty and its role, when given, is in the enum |
| `UserSchema.AcceptedDocumentIsNormalised` | src/server/models/User.js:5-30 | an accepted document stores the trimmed, lower-cased email, trimmed name and bio, the password as given with at least 6 code units, and role `user` by default |
| `UserSchema.ShortPasswordRejected` | src/server/models/User.js:12-16 | a password under 6 code units is rejected with the length error |
| `UserSchema.MissingFieldsRejected` | src/server/models/User.js:5-21 | a missing email, password or name is rejected with its required error |
| `UserSchema.RoleMustBeInEnum` | src/server/models/User.js:26-30 | a role outside the enum is rejected; an absent role is no error |
| `UserSchema.EmailUniquenessIgnoresCaseAndSpace` | src/server/models/User.js:5-11 | normalised emails ignore surrounding whitespace and letter case, and normalising is idempotent |
| `UserSchema.UserDocument.constructor` | src/server/models/User.js:51 | a new document holds the given values and counts its password as modified |
| `UserSchema.UserDocument.SetPassword` | src/server/models/User.js:39 | assigning a password stores it and marks it modified iff it differs from the stored value or was already modified; no other path changes |
| `UserSchema.UserDocument.PreSave` | src/server/models/User.js:38-44 | an unmodified password stays, a modified one is replaced by its hash; nothing else changes |
| `UserSchema.UserDocument.Save` | src/server/models/User.js:38-44 | a save hashes a modified password once and clears the modification, so a second save keeps it |
| `JsString.Utf16Length` | src/app/become-instructor/page.tsx:81 | JavaScript's `length` lies between the number of characters and twice that |
| `JsString.Utf16LengthOfBmp` | src/app/become-instructor/page.tsx:81 | for text in the Basic Multilingual Plane `length` is the number of characters |
| `JsString.TrimStart` | src/server/models/User.js:9 | the result is a suffix of the input, whitespace only was cut, and it does not start with whitespace |
| `JsString.TrimEnd` | src/server/models/User.js:9 | the result is a prefix of the input, whitespace only was cut, and it does not end with whitespace |
| `JsString.Trim` | src/server/models/User.js:9 | the result is an infix of the input with only whitespace cut on both sides, and starts and ends with non-whitespace |
| `JsString.TrimIdempotent` | src/server/models/User.js:9 | trimming twice is trimming once |
| `JsString.TrimIgnoresPadding` | src/server/models/User.js:9 | whitespace added on either side disappears under trim |
| `JsString.ToLower` | src/server/models/User.js:10 | lower-casing keeps the length, leaves no ASCII capital and changes no character that was not one |
| `JsString.ToLowerProperties` | src/server/models/User.js:10 | lower-casing is idempotent |
| `JsString.TrimLowerCommute` | src/server/models/User.js:9-10 | trim and lowercase commute |
| `Lists.Filter` | src/app/admin/instructors/page.tsx:30 | the result holds exactly the accepted elements of the input and is no longer |
| `Lists.FilterAppend` | src/app/admin/courses/page.tsx:27 | filtering keeps the original order |
| `Browser.Prop` | src/middleware.ts:29-46 | a property read yields a value iff the value is an object holding that key, and then the stored value |
| `ApiTypes.RoleNamed` | src/types/api.ts:5 | reading a role from its spelling inverts `RoleName` |
| `ApiTypes.ViewRoleSpelling` | src/types/api.ts:5-6 | `activeRole` values are spelled like the roles of the same name |

## Findings

| source | as written | input that shows it | evidently intended | confidence | as-written member | corrected member |
|---|---|---|---|---|---|---|
| src/middleware.ts:6-9 | `"/"` is a public path tested with `startsWith`, so every path is public and the guard never runs | request for `/admin` with no cookies passes | `"/"` marks only the home page, matched exactly; the other public paths by prefix | high (not executed) | `Middleware.AdminWithoutCookiesCounterexample` | `Middleware.MatchedRequestsAreGuarded` |

`Middleware.DecideAsWritten` is the middleware as written; `Middleware.Decide` uses the
corrected public test, and the guard lemmas above are stated for it. The correction has a
consequence the code does not handle: `/admin/:path*` also matches the admin sign-in page, so
without cookies `/admin/login` is sent to `/login` (`Middleware.AdminLoginPageGuardedWhenCorrected`).
No page of this model writes the `token` and `user` cookies (the two sign-in pages write
`localStorage` only, src/app/login/page.tsx:43-44 and src/app/admin/login/page.tsx:24-25), so
with the correction every matched page is closed until something else sets those cookies.

## Left out

- The server endpoints for instructor applications, approval, rejection, role switching, dashboard counts and course creation: only their client calls are part of this model, so their effect is a method parameter (the reply) and nothing is assumed about the server.
- JSON parsing and serialisation: a stored item is its text plus the value `JSON.parse` yields; escaping in `AdminLogin.AdminRecordText` is not modelled. Object properties with non-string values are treated like absent ones, which the modelled comparisons cannot tell apart.
- `JsString.ToLower`: maps only the ASCII capitals; JavaScript's full Unicode case mapping is not modelled.
- Rendering (JSX, styling, i18n, theme and language toggles, scroll animation), date and number formatting, the display-only pages and headers.
- `fetch`, `localStorage`, the router and timers: their effects appear only as fields (`pushed`, `sent`, `posted`, `cachedUser`, `storedToken`, `storedUser`) and parameters (`threw`, replies). The 1.5 s delay before moving to `/` after an application is not modelled.
- `BecomeInstructor.ApplicationForm.HandleSubmit`: the cached user is the reply's `user` as serialised text; a reply without `user` (stored as the text `undefined`) is not distinguished. File pickers and previews are not modelled.
- `SignupForm.SetField`: only the five input names the form renders; an input with another `name` would add a new key, which is not modelled.
- `SignupService.UserCollection.HandleSignup`: database failures (the 500 reply) and the concurrency of the read-then-insert duplicate check are not modelled; requests are handled one at a time. Request fields are strings or absent.
- `AdminLayout.GuardEffect`: an exception thrown in the effect (`JSON.parse` failing at src/app/admin/layout.tsx:26, or `role` read from `null` at :27) is modelled as `Crash`, which leaves the state unchanged so the layout keeps rendering a blank screen; React's propagation of the error to the nearest error boundary is not modelled.
- `UserSchema.UserDocument.PreSave`: bcrypt and its random salt are one hash function passed per save; `matchPassword` and the `createdAt` default (a clock) are not modelled.
- Express, Mongoose connection, CORS and server start-up.
