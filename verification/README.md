# Helpdesk ticketing: a Dafny model

This project models the logic of an IT helpdesk application.
Coordinators raise tickets, administrators assign a technician to them, and technicians close them.
The backend is an Express API over a Prisma database of users and tickets, with request bodies validated by zod schemas.
The frontend is a React single-page application that reads that API.

The backend part models:

- the ticket lifecycle `OPEN → IN_PROGRESS → CLOSED` and the middleware chains that gate each ticket endpoint;
- the login and role guards (`isLoggedIn`, `isAdmin`) and the status guards (`isOpen`, `isInProgress`);
- every zod schema, with zod's own rule: all fields are checked, and a refinement runs only when no field aborted;
- the user and account handlers, over a database held in memory (`Store.Db`);
- the ticket listings with the user rows they embed: the open, in-progress, closed and full listings include whole user rows, password hashes included, while the per-user listings and the single ticket select only id, name and e-mail;
- the user, auth and ticket routers as sequences of guards ending in a handler (`Pipeline`).

The frontend part models:

- the `DataTable` component's search, sort, pagination and page clamping;
- the coordinator and administrator dashboards' counts, recent tickets and de-duplicated technicians;
- the assign, view-ticket, staff and create-ticket pages, including their in-place list edits;
- the sign-up, create-user and login forms and their department picker;
- the render-or-redirect decisions of `ProtectedRoute` and `App`.

Code that works by updating state becomes a Dafny `class` whose methods state the whole new state.
This covers the store, the data table, the pages and the auth session.
Decisions, validators and queries become functions, with lemmas that relate them.
Requests that a page awaits are parameters of the method that receives their outcome.
Token verification, password hashing and e-mail syntax are parameters too (`Http.Env`).

Where the documented design and the code disagree, the model follows the code:

- No priority default is applied by the server.
- `assignedAt` and `resolvedAt` are never stamped.
- The close route has no login or role check.

## Model

| member | source | states |
|---|---|---|
| Constants.DepartmentsAreDistinct | backend/src/libs/constants.js:1-20 | there are eighteen department codes and none is listed twice |
| Constants.DepartmentsNonEmpty | backend/src/libs/constants.js:1-20 | no department code is empty, so every code is truthy where the pages test it |
| Constants.OptionValuesSwapFirstTwo | backend/src/libs/constants.js:22-41 | the picker lists the department codes in the order of the department list, with CSE and ISE swapped |
| Constants.OptionsCoverDepartments | backend/src/libs/constants.js:1-41 | the picker offers every department exactly once and nothing else |
| Constants.CaptionsStartWithValue | backend/src/libs/constants.js:22-41 | every picker caption starts with its own code followed by " - " |
| Constants.RolesAndStatuses | backend/src/libs/constants.js:43-45 | there are three distinct roles, and the statuses are OPEN, IN_PROGRESS and CLOSED in lifecycle order |
| Domain.ParseRole | backend/src/libs/constants.js:43 | a role string is accepted exactly when it is one of the three role names, and it maps back to the same name |
| Domain.RoleRoundTrip | backend/src/libs/constants.js:43 | parsing a role's name gives back that role |
| Domain.ParseStatus | backend/src/libs/constants.js:45 | a status string is accepted exactly when it is one of the three status names, and it maps back to the same name |
| Domain.StatusRoundTrip | backend/src/libs/constants.js:45 | parsing a status's name gives back that status |
| Strings.ToUpper | frontend/src/pages/AssignTechnicianPage.jsx:25 | `toUpperCase` keeps the length and maps each character on its own |
| Strings.ToLower | frontend/src/components/ui/DataTable.jsx:25 | `toLowerCase` keeps the length and maps each character on its own |
| Strings.EmptyIsContained | frontend/src/components/ui/DataTable.jsx:25 | every string includes the empty string |
| Strings.Take | frontend/src/pages/AdminDashboard.jsx:232 | `slice(0, n)` gives exactly the first n characters of a longer string, and the whole string when it is short enough |
| Strings.FirstUnderscore | frontend/src/pages/ViewTicketPage.jsx:108 | the position found holds an underscore with none before it, and none is found exactly when the string has no underscore |
| Strings.ReplaceFirstUnderscoreSpec | frontend/src/pages/ViewTicketPage.jsx:108 | `replace("_", " ")` changes only the first underscore into a space and leaves every other character as it was |
| Strings.SpaceBeforeCapitals | frontend/src/pages/ViewTicketPage.jsx:195 | the regular-expression replacement adds one character per capital letter, leaves a string without capitals unchanged, puts a space before a lone capital, and every capital of the result is preceded by a space |
| Strings.SpaceBeforeCapitalsAppend | frontend/src/pages/ViewTicketPage.jsx:195 | the replacement works piece by piece: on a concatenation it is the concatenation of the replaced pieces |
| Strings.StrLessIrreflexive | frontend/src/components/ui/DataTable.jsx:33 | no string sorts before itself under JavaScript's `<` |
| Strings.StrLessTransitive | frontend/src/components/ui/DataTable.jsx:33 | JavaScript's `<` on strings is transitive |
| Strings.StrLessTotal | frontend/src/components/ui/DataTable.jsx:33 | of two different strings, one is always below the other |
| Strings.StrLessAsymmetric | frontend/src/components/ui/DataTable.jsx:33 | two strings are never each below the other |
| Http.StrField | backend/src/controllers/auth.controllers.js:9 | reading a body field gives a string exactly when the field is present and holds a string |
| Zod.CheckIssues | backend/src/libs/auth.validator.libs.js:7-17 | a string field's checks give at most one issue per check, every issue is about that field, and there are no issues exactly when every check passes |
| Zod.ParseField | backend/src/libs/auth.validator.libs.js:4-19 | one field gives no issues exactly when it is acceptable, and it stops later refinements exactly when it is missing, has the wrong type or is outside its enum |
| Zod.ParseObject | backend/src/libs/auth.validator.libs.js:4-19 | an object schema gives no issues exactly when every field is acceptable, it aborts exactly when some field aborts, and every issue names a field of the schema |
| Zod.LengthField | backend/src/libs/ticket.validator.libs.js:5-8 | `z.string().min(lo).max(hi)` accepts exactly a string of lo to hi characters, and also an absent value when the field is optional |
| Zod.PasswordChecksMeanStrong | backend/src/libs/auth.validator.libs.js:7-17 | the six password checks all pass exactly when the password has 8 to 50 characters, an upper-case letter, a lower-case letter, a digit and a character that is not a letter or digit |
| Zod.PasswordField | backend/src/libs/auth.validator.libs.js:7-17 | a password field is acceptable exactly when it holds a strong password (or is absent, if optional) |
| Zod.MinLengthField | frontend/src/pages/SignUpPage.jsx:13-14 | `z.string().min(n)` accepts exactly a present string of at least n characters |
| Zod.EmailField | backend/src/libs/auth.validator.libs.js:6 | `z.string().email()` accepts exactly a present string with e-mail syntax |
| Zod.Gate | backend/src/middlewares/auth.validator.middlewares.js:8-18 | a validation middleware passes the request on unchanged exactly when the schema accepts the body, and otherwise answers 400 with the issues, which are never empty |
| TicketValidator.CreateTicketSchemaAccepts | backend/src/libs/ticket.validator.libs.js:4-18 | the create-ticket schema accepts a body exactly when it has a title of 3-50 and a description of 3-500 characters, a known department, string deviceId and location, an optional string deviceType and an optional LOW/MEDIUM/HIGH priority |
| TicketValidator.UpdateTicketSchemaAccepts | backend/src/libs/ticket.validator.libs.js:20-38 | the update-ticket schema accepts a body exactly when its status is known and every optional field it has is valid |
| TicketValidator.CreateTicketIssuesNameFields | backend/src/libs/ticket.validator.libs.js:4-18 | every issue of the create-ticket schema names one of its seven fields |
| AuthValidator.RegisterSchemaAccepts | backend/src/libs/auth.validator.libs.js:4-19 | registration accepts a body exactly when it has a name of 3-50 characters, an e-mail, a strong password and one of the three roles |
| AuthValidator.CreateUserBaseAccepts | backend/src/libs/auth.validator.libs.js:21-38 | the create-user object, before its refinement, accepts exactly the registration fields plus an optional known department |
| AuthValidator.CreateUserSchemaAccepts | backend/src/libs/auth.validator.libs.js:21-47 | create-user accepts a body exactly when it is a valid registration body, any department it has is known, and a coordinator has a department |
| AuthValidator.CoordinatorIssue | backend/src/libs/auth.validator.libs.js:39-47 | the department issue of the refinement appears exactly when no field aborted and the body is a coordinator's without a truthy department |
| AuthValidator.LoginSchemaAccepts | backend/src/libs/auth.validator.libs.js:49-52 | login accepts a body exactly when it has an e-mail and a password of 8-50 characters |
| AuthValidator.UpdateProfileSchemaAccepts | backend/src/libs/auth.validator.libs.js:54-70 | update-profile accepts a body exactly when every field it has is valid, a present password being strong |
| AuthValidator.LoginWeakerThanRegister | backend/src/libs/auth.validator.libs.js:4-19 | login lets through a password registration refuses |
| LegacyValidator.SameAsAuthValidator | backend/src/libs/validator.js:3-41 | the older copy of the schemas gives the same result as the current one on every body |
| LegacyValidator.RegisterPasswordBounds | backend/src/libs/validator.js:6-16 | a body this registration schema accepts has a password of 8 to 50 characters |
| LegacyValidator.LoginSchemaAccepts | backend/src/libs/validator.js:20-23 | this login schema accepts exactly an e-mail and a password of 8-50 characters |
| LegacyValidator.UpdateProfileSchemaAccepts | backend/src/libs/validator.js:25-41 | every field of this update-profile schema is optional, so the empty body is accepted |
| AuthValidatorMiddleware.ValidateRegisterInputs | backend/src/middlewares/auth.validator.middlewares.js:8-18 | the request goes on unchanged exactly when it is a valid registration body, and otherwise gets a 400 failure |
| AuthValidatorMiddleware.ValidateCreateTicketInputs | backend/src/middlewares/auth.validator.middlewares.js:20-30 | despite its name, it checks the create-user schema: the request goes on unchanged exactly when it is a valid create-user body, and otherwise gets a 400 failure |
| AuthValidatorMiddleware.ValidateLoginInputs | backend/src/middlewares/auth.validator.middlewares.js:32-42 | the request goes on unchanged exactly when it is a valid login body, and otherwise gets a 400 failure |
| AuthValidatorMiddleware.ValidateUpdateProfileInputs | backend/src/middlewares/auth.validator.middlewares.js:44-54 | the request goes on unchanged exactly when it is a valid update-profile body, and otherwise gets a 400 failure |
| TicketValidatorMiddleware.ValidateCreateTicketInputs | backend/src/middlewares/ticket.validator.middlewares.js:3-13 | the request goes on unchanged exactly when it is a valid create-ticket body, and otherwise gets a 400 carrying the schema's issues |
| TicketValidatorMiddleware.ValidateUpdateTicketInputs | backend/src/middlewares/ticket.validator.middlewares.js:15-25 | the request goes on unchanged exactly when it is a valid update-ticket body, and otherwise gets a 400 carrying the schema's issues |
| TicketMiddleware.Target | backend/src/middlewares/ticket.middleware.js:5-15 | the lookup finds a ticket exactly when the `id` parameter names a stored ticket, and then it is that ticket |
| TicketMiddleware.StatusGuard | backend/src/middlewares/ticket.middleware.js:4-61 | the guard passes the request on unchanged exactly when the named ticket has the wanted status; a found ticket with another status gets 400, and a missing ticket (the status read throws) gets 500 |
| TicketMiddleware.IsOpen | backend/src/middlewares/ticket.middleware.js:4-32 | passes exactly when the named ticket is OPEN; otherwise 400 "Ticket is not open", or 500 when there is no such ticket |
| TicketMiddleware.IsInProgress | backend/src/middlewares/ticket.middleware.js:34-61 | passes exactly when the named ticket is IN_PROGRESS; otherwise 400 "Ticket is not in progress", or 500 when there is no such ticket |
| TicketMiddleware.NoTicketPassesBoth | backend/src/middlewares/ticket.middleware.js:17-46 | no request passes both status guards |
| TicketMiddleware.UnknownTicketIs500 | backend/src/middlewares/ticket.middleware.js:25-31 | an unknown ticket id is answered 500 by both guards, never 404 |
| AuthMiddleware.SessionUser | backend/src/middlewares/auth.middlewares.js:11-47 | a session user is found exactly when the `jwt` cookie is non-empty, verifies, and names a stored user |
| AuthMiddleware.Public | backend/src/middlewares/auth.middlewares.js:33-39 | the user attached to the request has the stored id, name, e-mail, role and image, and no password |
| AuthMiddleware.IsLoggedIn | backend/src/middlewares/auth.middlewares.js:9-58 | passes exactly when the cookie identifies a stored user, and then attaches that user; a missing or empty cookie and a token that does not verify share the 401 "Unauthorized, no token provided", and a token of an unknown user gets 401 "User not found" |
| AuthMiddleware.IsAdmin | backend/src/middlewares/auth.middlewares.js:60-86 | passes the request on unchanged exactly when the logged-in user is stored with the ADMIN role; otherwise 403, or 500 when no user is attached |
| AuthMiddleware.ValidateRegisterInputs | backend/src/middlewares/auth.middlewares.js:88-98 | the request goes on unchanged exactly when it is a valid registration body, and otherwise gets a 400 failure |
| AuthMiddleware.ValidateLoginInputs | backend/src/middlewares/auth.middlewares.js:100-110 | the request goes on unchanged exactly when it is a valid login body, and otherwise gets a 400 failure |
| AuthMiddleware.ValidateUpdateProfileInputs | backend/src/middlewares/auth.middlewares.js:112-122 | the request goes on unchanged exactly when it is a valid update-profile body, and otherwise gets a 400 failure |
| Pipeline.RunGuardsAppend | backend/src/routes/ticket.routes.js:35-42 | running a chain split in two is running the first part and then, on what it let through, the second |
| Pipeline.RunGuardsKeepRequest | backend/src/routes/ticket.routes.js:35-42 | guards never change the body, the route parameters or the cookie, and a chain without `isLoggedIn` passes the request on unchanged |
| Store.RowsOf | backend/src/controllers/ticket.controllers.js:77-83 | the rows are listed in storage order, one per stored key |
| Store.RowsCover | backend/src/controllers/ticket.controllers.js:77-83 | every stored row appears in the listing |
| Store.Db.constructor | backend/src/libs/db.libs.js:5 | the store starts with no users and no tickets |
| Store.Db.AllTickets | backend/src/controllers/ticket.controllers.js:77-83 | `findMany` with no filter lists each stored ticket, and only stored tickets |
| Store.Db.AllUsers | backend/src/controllers/users.controllers.js:9-13 | `findMany` on users lists each stored user, and only stored users |
| Store.Db.UserByEmail | backend/src/controllers/auth.controllers.js:12-16 | the lookup by e-mail finds a user exactly when some stored user has that e-mail, and then it is that user |
| Store.Db.InsertUser | backend/src/controllers/auth.controllers.js:28-36 | an insert adds one user under a fresh id and a fresh e-mail, appends it to the storage order and keeps the tickets |
| Store.Db.PutUser | backend/src/controllers/auth.controllers.js:169-174 | an update replaces one stored user, keeping its e-mail, the order and the tickets |
| Store.Db.InsertTicket | backend/src/controllers/ticket.controllers.js:45-59 | an insert adds one ticket under a fresh id, with its coordinator (and any technician) stored, and keeps the users |
| Store.Db.PutTicket | backend/src/controllers/ticket.controllers.js:233-242 | an update replaces one stored ticket, keeping the order and the users |
| TicketController.DraftOf | backend/src/controllers/ticket.controllers.js:36-59 | the body's five columns are usable exactly when all five are strings and the department is a known one |
| TicketController.NewTicket | backend/src/controllers/ticket.controllers.js:45-59 | a new ticket is OPEN, belongs to the caller as coordinator, has no technician, no assignment or resolution time and no remarks, and copies the five columns |
| TicketController.AsAssigned | backend/src/controllers/ticket.controllers.js:233-242 | assignment sets the status to IN_PROGRESS and the technician, and nothing else but `updatedAt` |
| TicketController.AsClosed | backend/src/controllers/ticket.controllers.js:303-309 | closing sets the status to CLOSED and nothing else but `updatedAt`; the technician and the timestamps stay |
| TicketController.CreateTicket | backend/src/controllers/ticket.controllers.js:35-73 | 201 exactly when a user is attached, is stored, and the body's columns are usable; then exactly one OPEN ticket is added; any other outcome is 500 and leaves the tickets alone |
| TicketController.SetStatusToInProgress | backend/src/controllers/ticket.controllers.js:229-258 | 200 exactly when both ids are given, the ticket is stored and the technician is a stored user; then only that ticket changes, to IN_PROGRESS with that technician; otherwise 500 and nothing changes |
| TicketController.SetStatusToClosed | backend/src/controllers/ticket.controllers.js:299-325 | 200 exactly when the ticket is stored, whatever its status; then only that ticket changes, to CLOSED; otherwise 500 and nothing changes |
| TicketController.Relate | backend/src/controllers/ticket.controllers.js:78-81 | a relation is left out exactly when the query does not include it; an included relation is the whole stored row, or its id, name and e-mail under `select`, and null when no user is linked |
| TicketController.Selected | backend/src/controllers/ticket.controllers.js:75-95 | `findMany` gives exactly the stored tickets the filter keeps, each with its relations included as asked |
| TicketController.GetAllTickets | backend/src/controllers/ticket.controllers.js:75-95 | answers 200 with every stored ticket and nothing else, each with the whole stored row of its coordinator and of its technician (null when unassigned) |
| TicketController.AllTicketsCarryHashes | backend/src/controllers/ticket.controllers.js:78-81 | for every stored ticket, the listing carries its coordinator's password hash |
| TicketController.WithStatus | backend/src/controllers/ticket.controllers.js:97-124 | a status listing answers 200 with exactly the stored tickets of that status, each with its coordinator's whole row and the technician as included, never the unreachable 404 |
| TicketController.GetAllOpenTickets | backend/src/controllers/ticket.controllers.js:97-124 | answers 200 with exactly the stored OPEN tickets, each with its coordinator's whole row and no technician field |
| TicketController.GetAllInProgressTickets | backend/src/controllers/ticket.controllers.js:126-154 | answers 200 with exactly the stored IN_PROGRESS tickets, each with the whole rows of its coordinator and its technician |
| TicketController.GetAllClosedTickets | backend/src/controllers/ticket.controllers.js:156-184 | answers 200 with exactly the stored CLOSED tickets, each with the whole rows of its coordinator and its technician |
| TicketController.NewestFirst | backend/src/controllers/ticket.controllers.js:263-279 | `orderBy updatedAt desc` gives the selected rows, each once as often as stored, most recently updated first |
| TicketController.NewestSelected | backend/src/controllers/ticket.controllers.js:263-279 | the selected stored tickets, most recently updated first, each with its relations included as asked |
| TicketController.GetAllTechnicianTickets | backend/src/controllers/ticket.controllers.js:260-297 | answers 200 with exactly the stored tickets assigned to the caller, most recently updated first, each with its coordinator's id, name and e-mail and no technician field; 500 when no user is attached |
| TicketController.GetAllCoordinatorTickets | backend/src/controllers/ticket.controllers.js:327-360 | answers 200 with exactly the stored tickets the caller created, most recently updated first, each with its technician's id, name and e-mail and no coordinator field; 500 when no user is attached |
| TicketController.GetTicketById | backend/src/controllers/ticket.controllers.js:186-227 | 200 with the stored ticket and the id, name and e-mail of its coordinator and its technician when the id is stored, 404 "Ticket not found" when it is not, and 500 when there is no id |
| TicketRoutes.Chain | backend/src/routes/ticket.routes.js:35-67 | every ticket route but close needs a session; only assign needs an admin; only create and update-ticket need a coordinator; only assign needs an OPEN ticket and only close an IN_PROGRESS one |
| TicketRoutes.PassedStatusGuards | backend/src/routes/ticket.routes.js:59-66 | a request that passed a chain with a status guard has a ticket of that status |
| TicketRoutes.AssignChain | backend/src/routes/ticket.routes.js:59-65 | the assign handler runs exactly when the session user is an admin and the ticket is OPEN; otherwise 401 without a session, 403 for a non-admin, or the status guard's answer |
| TicketRoutes.CloseChain | backend/src/routes/ticket.routes.js:66 | closing needs only an IN_PROGRESS ticket: a request without a cookie reaches the handler |
| TicketRoutes.ListingChains | backend/src/routes/ticket.routes.js:52-58 | every listing and the lookup by id run exactly when a session user is found |
| TicketRoutes.BodyChains | backend/src/routes/ticket.routes.js:35-50 | create and update-ticket run exactly when there is a session, the coordinator guard lets the request pass, and the body is valid; without a session the answer is 401 |
| TicketRoutes.MovesForward | backend/src/routes/ticket.routes.js:59-66 | through the routes a ticket's status only moves forward, CLOSED is final, an assigned technician stays, and "OPEN exactly while unassigned" is kept |
| TicketRoutes.CloseNeedsGuard | backend/src/controllers/ticket.controllers.js:299-309 | closing an OPEN ticket, which the handler alone allows, would break "OPEN exactly while unassigned" |
| TicketRoutes.CreateStep | backend/src/controllers/ticket.controllers.js:35-73 | behind a passed chain, create adds at most one ticket and every ticket change is a forward move |
| TicketRoutes.AssignStep | backend/src/controllers/ticket.controllers.js:229-258 | behind the OPEN guard, with the technician id the route binds, assign succeeds exactly when that technician is stored, and then the ticket moves OPEN to IN_PROGRESS with that technician |
| TicketRoutes.CloseStep | backend/src/controllers/ticket.controllers.js:299-325 | behind the IN_PROGRESS guard, close always succeeds and the ticket becomes CLOSED with its technician kept |
| TicketRoutes.Read | backend/src/controllers/ticket.controllers.js:75-360 | the read-only handlers answer a ticket list or a failure, and the lookup answers as `getTicketById` |
| TicketRoutes.Handle | backend/src/routes/ticket.routes.js:35-67 | a request refused by its chain gets the guard's answer and changes nothing; a successful assign had an OPEN ticket and a stored technician; a successful close had an IN_PROGRESS ticket; users never change, and tickets only move forward |
| TicketRoutes.AssignAsWritten | backend/src/routes/ticket.routes.js:59-65 | as written, the assign route never answers 200 and never changes a ticket, because the handler reads a parameter the route does not bind |
| TicketRoutes.AssignParamMismatch | backend/src/controllers/ticket.controllers.js:230 | the assign route binds `id` and `technicianId`, so the `userId` the handler reads is always undefined |
| AuthController.CookieMatchesTokenExpiry | backend/src/controllers/auth.controllers.js:39-49 | the cookie's lifetime, 604800000 milliseconds, equals the token's seven-day expiry |
| AuthController.RegisteredJson | backend/src/controllers/auth.controllers.js:54-61 | the registration reply shows the id, e-mail, name, role, department and image of the new user, never the password |
| AuthController.Registered | backend/src/controllers/auth.controllers.js:25-36 | a row can be inserted exactly when the body has the string fields it needs and an upper-cased role that is known; it stores the hash of the password and the upper-cased role and department; a body without a department gives no row |
| AuthController.RegisterUser | backend/src/controllers/auth.controllers.js:7-70 | a taken e-mail gives 409 with nothing inserted; 201 exactly when the e-mail is free and a row can be built, and then one user is added and a cookie for it is set; any other outcome is 500 with no cookie; tickets never change |
| AuthController.LoginUser | backend/src/controllers/auth.controllers.js:72-124 | an unknown e-mail and a wrong password are both 401; 200 exactly when the stored hash matches, with a cookie for that user and a reply without the password |
| AuthController.LogoutUser | backend/src/controllers/auth.controllers.js:126-143 | logout always answers 200 and clears the `jwt` cookie |
| AuthController.GetMe | backend/src/controllers/auth.controllers.js:145-159 | answers 200 with the attached user, which never carries a password |
| AuthController.AuthJson | backend/src/controllers/auth.controllers.js:179-185 | the user shown after login or a profile update has no password field |
| AuthController.ProfileUpdate | backend/src/controllers/auth.controllers.js:162-174 | a profile update keeps the id, e-mail, role and department; the name and image become the body's values when sent (null clears the image) and stay when absent; the password stays unless a truthy password is sent, which is stored hashed; it fails exactly when a field has the wrong type |
| AuthController.UpdateProfile | backend/src/controllers/auth.controllers.js:161-194 | only the caller's own row changes, to the profile update of its stored row; 200 with that row exactly when a user is attached, is stored and the update can be built; otherwise 500 and nothing changes |
| UserController.UserJson | backend/src/controllers/users.controllers.js:121-127 | the created user is shown with its id, e-mail, name, role and image, never the password |
| UserController.WithRole | backend/src/controllers/users.controllers.js:9-13 | `findMany` by role lists, in storage order, exactly the users of that role |
| UserController.GetAllTechnicians | backend/src/controllers/users.controllers.js:7-26 | answers 200 with exactly the stored technicians |
| UserController.GetAllCoordinators | backend/src/controllers/users.controllers.js:28-47 | answers 200 with exactly the stored coordinators |
| UserController.ParseInt | backend/src/controllers/users.controllers.js:53 | `parseInt` always yields a number, whatever the parameter holds |
| UserController.FindUserById | backend/src/controllers/users.controllers.js:52-54 | the lookup on the string id column throws exactly when the key is not a string, and otherwise finds the stored row exactly when the id is stored |
| UserController.AnswerUser | backend/src/controllers/users.controllers.js:56-66 | a throw is answered 500 "Server error", no row 404 "User not found", a row 200 with that row |
| UserController.GetUserByIdAsWritten | backend/src/controllers/users.controllers.js:49-67 | as written, every request is answered 500 without a user, because `parseInt` hands the string id column a number |
| UserController.GetUserById | backend/src/controllers/users.controllers.js:49-67 | with the id looked up as a string: 200 with the user when it is stored, 404 "User not found" when it is not, 500 without an id |
| UserController.GetUserByIdNeverFinds | backend/src/controllers/users.controllers.js:53 | for a stored user, the handler as written answers 500 where the corrected one answers 200 |
| UserController.UserUpdate | backend/src/controllers/users.controllers.js:72-77 | an update writes only the name and the role, each only when present; it fails exactly when either has the wrong type or the role is not a known role |
| UserController.UpdateUser | backend/src/controllers/users.controllers.js:69-86 | 200 exactly when `userId` names a stored user and the update can be built, and then only that row changes; otherwise 500 and nothing changes |
| UserController.NewUser | backend/src/controllers/users.controllers.js:106-116 | the created row stores the hash of the password, the upper-cased role, and no department or image; a row can be built exactly when the fields are strings and the role is known |
| UserController.CreateUser | backend/src/controllers/users.controllers.js:88-136 | a taken e-mail gives 409 with nothing inserted; 201 exactly when the e-mail is free and a row can be built, and then one user is added; otherwise 500; tickets never change |
| UserRoutes.Chain | backend/src/routes/user.routes.js:20-29 | every user route needs a session first, and only create-user needs an admin |
| UserRoutes.CreateUserChain | backend/src/routes/user.routes.js:22-29 | create-user runs exactly when the session user is an admin and the body is a valid create-user body; otherwise 401, 403 for any non-admin whatever the body, or 400 |
| UserRoutes.ListingChains | backend/src/routes/user.routes.js:20-21 | the two listings run exactly when a session user is found |
| UserRoutes.Handle | backend/src/routes/user.routes.js:20-29 | a refused request gets its guard's answer and changes nothing; the users change only through a create-user answered 201 for an admin session and a valid body; tickets never change |
| AuthRoutes.Chain | backend/src/routes/auth.routes.js:24-41 | logout, me and update-profile need a session; register and login do not; no auth route needs an admin |
| AuthRoutes.OpenChains | backend/src/routes/auth.routes.js:24-30 | register and login run, on the unchanged request, exactly when the body is valid |
| AuthRoutes.UpdateProfileChain | backend/src/routes/auth.routes.js:36-41 | update-profile runs exactly when there is a session and the body is valid; without a session it is 401 whatever the body; the handler sees the session user |
| AuthRoutes.Handle | backend/src/routes/auth.routes.js:24-41 | a refused request gets its guard's answer and keeps the cookie; login, logout and me never change the users; update-profile changes only the caller's row; only register and login set a cookie, and the cookie is cleared exactly when logout passes its guards |
| ClientRows.OrElse | frontend/src/pages/AssignTechnicianPage.jsx:213 | `value \|\| fallback` keeps a non-empty string and gives the fallback for a missing or empty one |
| ClientRows.SortNewestFirst | frontend/src/pages/CoordinatorDashboard.jsx:112 | sorting the tickets in place leaves them newest first and a permutation of what they were |
| ClientRows.StatusLabel | frontend/src/pages/AssignTechnicianPage.jsx:24-66 | the status chip recognises OPEN, IN_PROGRESS (shown "IN PROGRESS") and CLOSED in any letter case, and shows anything else as given |
| ClientRows.PriorityLabel | frontend/src/pages/AssignTechnicianPage.jsx:68-110 | the priority chip recognises HIGH, MEDIUM and LOW in any letter case, and shows anything else as given |
| ClientRows.StatusLabelCaseInsensitive | frontend/src/pages/AssignTechnicianPage.jsx:24-66 | a lower-case "in_progress" is shown "IN PROGRESS", "Open" is shown "OPEN", an unknown status is shown as it is and a missing one as nothing |
| ClientRows.MissingPriorityIsMedium | frontend/src/pages/AssignTechnicianPage.jsx:213 | a ticket without a priority is shown MEDIUM on the assign page |
| DataTable.Flip | frontend/src/components/ui/DataTable.jsx:14 | clicking the sorted column again always changes the direction |
| DataTable.Search | frontend/src/components/ui/DataTable.jsx:21-28 | an empty search keeps the data as it is; otherwise exactly the rows with a value containing the term, ignoring letter case, remain |
| DataTable.BeforeTransitive | frontend/src/components/ui/DataTable.jsx:33-34 | the comparator's strict order is transitive in both directions |
| DataTable.BeforeIrreflexive | frontend/src/components/ui/DataTable.jsx:33-35 | no value sorts before itself |
| DataTable.ConsOrdered | frontend/src/components/ui/DataTable.jsx:31-37 | an element no later element sorts before can head an ordered list |
| DataTable.BeforeTotal | frontend/src/components/ui/DataTable.jsx:33-34 | of two different values, one sorts before the other |
| DataTable.BeforeAsymmetric | frontend/src/components/ui/DataTable.jsx:33-34 | two values never each sort before the other |
| DataTable.NotAfterHead | frontend/src/components/ui/DataTable.jsx:31-37 | an element the head of an ordered list does not sort before is not sorted after by any element of the list |
| DataTable.Insert | frontend/src/components/ui/DataTable.jsx:31-37 | inserting into an ordered list keeps it ordered and adds exactly that element |
| DataTable.Sort | frontend/src/components/ui/DataTable.jsx:31-37 | the sorted rows are ordered by the column in the chosen direction and are a permutation of the input |
| DataTable.SortKeepsTies | frontend/src/components/ui/DataTable.jsx:31-37 | when every row ties on the column, as on a column no row has, the sort leaves the rows as they were |
| DataTable.InsertBeforeTies | frontend/src/components/ui/DataTable.jsx:31-37 | an inserted row lands ahead of the rows that share its key and keeps their order among themselves |
| DataTable.SortStable | frontend/src/components/ui/DataTable.jsx:31-37 | for every key, the rows that share it leave the sort in the order they came in, as the stable `Array.prototype.sort` keeps them |
| DataTable.SortOnMissingColumn | frontend/src/components/ui/DataTable.jsx:33-35 | sorting on a column no row has leaves the rows in their order |
| DataTable.TotalPages | frontend/src/components/ui/DataTable.jsx:40 | `Math.ceil(n / 10)` pages hold all n rows and none of them is empty |
| DataTable.Slice | frontend/src/components/ui/DataTable.jsx:42 | `slice(a, b)` gives the rows a to b, clamped to the end, and nothing from past the end |
| DataTable.PageContents | frontend/src/components/ui/DataTable.jsx:41-42 | every page up to the last holds one to ten consecutive rows, and row i is on page i / 10 + 1 at position i mod 10 |
| DataTable.PagePastEnd | frontend/src/components/ui/DataTable.jsx:41-42 | a page past the last shows no rows |
| DataTable.Table.constructor | frontend/src/components/ui/DataTable.jsx:6-9 | a table starts unsorted, ascending, without a search term, on page one |
| DataTable.Table.HandleSort | frontend/src/components/ui/DataTable.jsx:12-19 | clicking the sorted column flips the direction; clicking another column sorts it ascending; the term and the page stay |
| DataTable.Table.SetSearchTerm | frontend/src/components/ui/DataTable.jsx:61-64 | typing a search sets the term and goes back to page one; the sort stays |
| DataTable.Table.PreviousPage | frontend/src/components/ui/DataTable.jsx:125 | "Previous" goes one page back and never below page one |
| DataTable.Table.NextPage | frontend/src/components/ui/DataTable.jsx:144-146 | "Next" goes one page on and never past the last page |
| DataTable.Table.GoToPage | frontend/src/components/ui/DataTable.jsx:131-134 | a page button shows that page, which exists |
| DataTable.Table.SortedData | frontend/src/components/ui/DataTable.jsx:21-37 | the rows before paging are a permutation of the search result, ordered by the sort column when one is set, and the search result itself when none is |
| DataTable.Table.Shown | frontend/src/components/ui/DataTable.jsx:39-42 | with pagination, at most ten rows of the current page; without it, every sorted row |
| DataTable.ShownRowsComeFromData | frontend/src/components/ui/DataTable.jsx:21-42 | every shown row is a row of the data that passes the search |
| CoordinatorDashboard.StatsOf | frontend/src/pages/CoordinatorDashboard.jsx:106-109 | each card counts exactly the tickets that are OPEN, IN_PROGRESS or HIGH priority, and the first two counts together never exceed the number of tickets |
| CoordinatorDashboard.TechsDistinct | frontend/src/pages/CoordinatorDashboard.jsx:115-123 | the technician list never holds the same id twice |
| CoordinatorDashboard.TechsSound | frontend/src/pages/CoordinatorDashboard.jsx:115-123 | every listed technician is the technician of one of the tickets |
| CoordinatorDashboard.TechsCover | frontend/src/pages/CoordinatorDashboard.jsx:115-123 | every technician with an id who is on some ticket is listed |
| CoordinatorDashboard.TechsOrder | frontend/src/pages/CoordinatorDashboard.jsx:115-123 | technicians are listed in the order their ids first appear among the tickets |
| CoordinatorDashboard.UniqueTechnicians | frontend/src/pages/CoordinatorDashboard.jsx:115-123 | the loop with its `seen` set builds exactly the list whose uniqueness, soundness, coverage and order the lemmas above state |
| CoordinatorDashboard.AssignedInProgress | frontend/src/pages/CoordinatorDashboard.jsx:234-235 | a technician's card lists exactly the IN_PROGRESS tickets assigned to that technician |
| CoordinatorDashboard.CardTickets | frontend/src/pages/CoordinatorDashboard.jsx:236 | the card shows the first two of those tickets, or all of them when there are at most two |
| CoordinatorDashboard.NewestFirstPrefix | frontend/src/pages/CoordinatorDashboard.jsx:110-114 | the recent tickets of a newest-first list are at least as new as every ticket left out |
| CoordinatorDashboard.Dashboard.constructor | frontend/src/pages/CoordinatorDashboard.jsx:85-96 | the page starts with zero counts, no tickets or technicians, loading, and the modal closed |
| CoordinatorDashboard.Dashboard.FetchStats | frontend/src/pages/CoordinatorDashboard.jsx:99-144 | on an answer: the counts of the tickets, the tickets sorted newest first in place (the same array the technician cards read), the first five as recent, and the technicians collected from the sorted list; on a failure everything is reset; loading ends either way |
| CoordinatorDashboard.Dashboard.ViewAll | frontend/src/pages/CoordinatorDashboard.jsx:253 | "View all" opens the modal on that technician with all the technician's IN_PROGRESS tickets |
| CoordinatorDashboard.Dashboard.CloseModal | frontend/src/pages/CoordinatorDashboard.jsx:273 | closing the modal hides it and changes nothing else |
| AdminDashboard.LengthOr0 | frontend/src/pages/AdminDashboard.jsx:111-112 | `tickets?.length \|\| 0` is the number of tickets, and 0 when the answer has none |
| AdminDashboard.UrgentCount | frontend/src/pages/AdminDashboard.jsx:114 | the urgent card counts exactly the HIGH-priority tickets that are not CLOSED |
| AdminDashboard.ToRecent | frontend/src/pages/AdminDashboard.jsx:120-132 | a recent row keeps the ticket's id, title, status, people and time; a missing priority shows "Low"; a ticket without a technician, or whose technician has an empty name, shows "Unassigned"; a missing department, location or description reads as the empty string |
| AdminDashboard.MapRecent | frontend/src/pages/AdminDashboard.jsx:120-132 | each recent row is built from the ticket at the same position |
| AdminDashboard.Unassigned | frontend/src/pages/AdminDashboard.jsx:218-221 | the "Unassigned Tickets" panel lists exactly the recent rows shown as unassigned |
| AdminDashboard.Preview | frontend/src/pages/AdminDashboard.jsx:232 | the panel shows exactly the first 80 characters of a longer description, the whole of a short one, and "No description provided." for an empty one |
| AdminDashboard.RecentAreNewest | frontend/src/pages/AdminDashboard.jsx:116-119 | the five recent rows are newest first, and no ticket left out is newer than one shown |
| AdminDashboard.UnassignedShowsOpenWork | frontend/src/pages/AdminDashboard.jsx:125 | a recent ticket without a technician always appears in the "Unassigned Tickets" panel |
| AdminDashboard.Dashboard.constructor | frontend/src/pages/AdminDashboard.jsx:93-100 | the page starts with zero counts, no recent rows, loading, and nothing selected |
| AdminDashboard.Dashboard.FetchStats | frontend/src/pages/AdminDashboard.jsx:102-142 | when any of the three requests fails everything is reset; otherwise the open and in-progress counts are the lengths of their answers, the urgent count that of the tickets, and the recent rows are built from the first five of the tickets sorted newest first; loading ends either way |
| AdminDashboard.Dashboard.Select | frontend/src/pages/AdminDashboard.jsx:194 | clicking a row selects it and changes nothing else |
| AdminDashboard.Dashboard.CloseDetails | frontend/src/pages/AdminDashboard.jsx:250 | closing the dialog clears the selection and changes nothing else |
| AssignTechnicianPage.CoordinatorCell | frontend/src/pages/AssignTechnicianPage.jsx:225 | the coordinator column shows the coordinator's name, and "N/A" for a ticket without one or a coordinator whose name is empty |
| AssignTechnicianPage.PriorityChip | frontend/src/pages/AssignTechnicianPage.jsx:213 | the priority chip shows "MEDIUM" for a ticket without a priority, and the chip label of its priority otherwise |
| AssignTechnicianPage.WithoutTicket | frontend/src/pages/AssignTechnicianPage.jsx:179 | after an assignment the table keeps exactly the tickets with another id |
| AssignTechnicianPage.AssignedTicketLeaves | frontend/src/pages/AssignTechnicianPage.jsx:179 | the assigned ticket leaves the table and only the rows with its id are removed |
| AssignTechnicianPage.Page.constructor | frontend/src/pages/AssignTechnicianPage.jsx:129-137 | the page starts loading, with no tickets, no selection, no technicians and no errors |
| AssignTechnicianPage.Page.FetchOpenTickets | frontend/src/pages/AssignTechnicianPage.jsx:139-150 | an answer replaces the tickets (none when it has no list); a failure keeps them and sets the fetch error; loading ends either way |
| AssignTechnicianPage.Page.SelectTicket | frontend/src/pages/AssignTechnicianPage.jsx:242 | choosing a row opens the dialog on that ticket and starts loading the technicians |
| AssignTechnicianPage.Page.FetchTechnicians | frontend/src/pages/AssignTechnicianPage.jsx:152-165 | an answer sets the technicians; a failure empties them; their loading ends either way |
| AssignTechnicianPage.Page.ChooseTechnician | frontend/src/pages/AssignTechnicianPage.jsx:465 | picking a technician records its id and changes nothing else |
| AssignTechnicianPage.Page.HandleAssign | frontend/src/pages/AssignTechnicianPage.jsx:168-187 | without a chosen technician nothing is sent and "Please select a technician." is shown; otherwise the assignment for that ticket and technician is sent; on success the ticket leaves the table and the dialog closes; on failure everything stays and "Assignment failed. Try again." is shown |
| AssignTechnicianPage.Page.DismissDialog | frontend/src/pages/AssignTechnicianPage.jsx:258-262 | cancelling or closing the dialog forgets the ticket, the technician and the error |
| ViewTicketPage.StatusBadge | frontend/src/pages/ViewTicketPage.jsx:100-106 | the badge is the warning colour exactly for OPEN, the info colour exactly for IN_PROGRESS, and the success colour for anything else |
| ViewTicketPage.StatusText | frontend/src/pages/ViewTicketPage.jsx:108 | the badge text has the status's length and is the status itself when it has no underscore |
| ViewTicketPage.TechnicianCell | frontend/src/pages/ViewTicketPage.jsx:111 | the technician column is never empty: the technician's name, or "Not Assigned" for a ticket without one or a technician whose name is empty |
| ViewTicketPage.DetailLabel | frontend/src/pages/ViewTicketPage.jsx:195 | a detail's caption adds one space per capital letter of its key, and every capital in it follows a space |
| ViewTicketPage.CamelCaptions | frontend/src/pages/ViewTicketPage.jsx:170-195 | the keys deviceId and resolvedAt are captioned "device Id" and "resolved At" |
| ViewTicketPage.LowerCaptions | frontend/src/pages/ViewTicketPage.jsx:170-195 | the lower-case keys are captioned as they are |
| ViewTicketPage.CapitalThenLower | frontend/src/pages/ViewTicketPage.jsx:195 | a key made of a lower-case word, one capital and a lower-case word gets one space before the capital |
| ViewTicketPage.DetailValue | frontend/src/pages/ViewTicketPage.jsx:170-189 | the technician row shows the technician cell; a resolution time is formatted and a missing one is "—"; a missing department, location or device id is "—"; other fields are shown as they are |
| ViewTicketPage.ReplaceById | frontend/src/pages/ViewTicketPage.jsx:39-43 | after a close the returned ticket replaces every row with its id and every other row stays where it was |
| ViewTicketPage.ClosedRowSettles | frontend/src/pages/ViewTicketPage.jsx:124 | once closed, the ticket's row no longer offers "Mark Closed", and no other row changes |
| ViewTicketPage.ClosedRowLosesTechnician | frontend/src/pages/ViewTicketPage.jsx:31-41 | the close answer carries no technician relation, so after it replaces the row the technician column reads "Not Assigned", unlike before for an assigned ticket |
| ViewTicketPage.Page.constructor | frontend/src/pages/ViewTicketPage.jsx:8-13 | the page starts loading, with no tickets, no error and no dialog |
| ViewTicketPage.Page.FetchTickets | frontend/src/pages/ViewTicketPage.jsx:15-28 | an answer replaces the tickets (none when it has no list); a failure keeps them and sets the fetch error; loading ends either way |
| ViewTicketPage.Page.ShowDetails | frontend/src/pages/ViewTicketPage.jsx:119 | "View" opens the details of a row, and closing them clears the selection; nothing else changes |
| ViewTicketPage.Page.AskToClose | frontend/src/pages/ViewTicketPage.jsx:124-126 | "Mark Closed", offered only on IN_PROGRESS rows, asks to confirm that ticket; "Cancel" clears it |
| ViewTicketPage.Page.ConfirmMarkAsClosed | frontend/src/pages/ViewTicketPage.jsx:31-36 | without a ticket to close nothing happens; otherwise that ticket is marked as updating and its close request is sent |
| ViewTicketPage.Page.CloseAnswered | frontend/src/pages/ViewTicketPage.jsx:37-50 | an answer puts the returned ticket in place of its row; a failure alerts and keeps the rows; either way the confirmation closes and nothing is updating |
| StaffPages.CountsOf | frontend/src/pages/ViewCoordinatorsPage.jsx:60-83 | the count columns are the number of tickets and the numbers that are OPEN, IN_PROGRESS and CLOSED; the three never exceed the total and add up to it when every status is known |
| StaffPages.Printed | frontend/src/components/ui/DataTable.jsx:25 | `String` of a nullable column is the value, or "null" when it is null |
| StaffPages.ObjectsPrinted | frontend/src/components/ui/DataTable.jsx:25 | `String` of a list of tickets is empty exactly when there are none, and otherwise starts with "[object Object]" |
| StaffPages.TableRow | frontend/src/pages/ViewCoordinatorsPage.jsx:136 | the table receives the whole coordinator object: every user column, null ones printed "null", and the ticket list as `String` prints it, with no count fields |
| StaffPages.TableRows | frontend/src/pages/ViewCoordinatorsPage.jsx:136 | the table's rows are the coordinator objects, one row each, in order |
| StaffPages.SearchForRoleKeepsAll | frontend/src/components/ui/DataTable.jsx:21-28 | searching the coordinators for "coordinator" keeps every row, through the role column |
| StaffPages.SearchForNullFindsNoDepartment | frontend/src/components/ui/DataTable.jsx:21-28 | searching for "null" finds every coordinator without a department |
| StaffPages.SearchForObjectFindsTicketHolders | frontend/src/components/ui/DataTable.jsx:21-28 | searching for "object" finds every coordinator with at least one ticket |
| StaffPages.CountColumnsDoNotSort | frontend/src/pages/ViewCoordinatorsPage.jsx:60-83 | clicking a count column's header leaves the coordinators in their order, because the rows have no such field |
| StaffPages.Page.constructor | frontend/src/pages/ViewCoordinatorsPage.jsx:37-40 | the page starts loading, with no users, no error and no dialog |
| StaffPages.Page.FetchStaff | frontend/src/pages/ViewTechniciansPage.jsx:12-22 | an answer replaces the users (none when it has no list); a failure keeps them and sets the page's own fetch error; loading ends either way |
| StaffPages.Page.Select | frontend/src/pages/ViewCoordinatorsPage.jsx:93 | "View" opens a user's tickets and closing clears the selection; nothing else changes |
| StaffPages.Page.Body | frontend/src/pages/ViewTechniciansPage.jsx:42-52 | the page shows its loading text exactly while loading, then the fetch error, then "No technicians found." exactly for an empty technician list, and the list otherwise |
| StaffPages.Page.Dialog | frontend/src/pages/ViewTechniciansPage.jsx:117-156 | the dialog lists the user's tickets exactly when there are some, and otherwise says the user has no tickets |
| CreateTicketPage.WithInput | frontend/src/pages/CreateTicketPage.jsx:26-29 | typing into an input sets that field to the typed value and leaves every other field as it was |
| CreateTicketPage.TicketData | frontend/src/pages/CreateTicketPage.jsx:37-43 | the request body has exactly the title, department, device id, location and description, each the form's string for that field, with the lab sent as the location |
| CreateTicketPage.PayloadValidIff | frontend/src/pages/CreateTicketPage.jsx:37-43 | the body the form sends passes the server's create-ticket schema exactly when the title has 3 to 50 characters, the description 3 to 500, and the department is known |
| CreateTicketPage.OfferedDepartmentsAreKnown | frontend/src/pages/CreateTicketPage.jsx:139 | every department the select offers is known to the server, and the last five known departments are not offered |
| CreateTicketPage.RequiredIsNotEnough | frontend/src/pages/CreateTicketPage.jsx:94-121 | a form with every required input filled can still be refused by the server, here for a two-letter description |
| CreateTicketPage.Page.constructor | frontend/src/pages/CreateTicketPage.jsx:11-24 | the form starts empty, with MEDIUM priority and OPEN status, not submitting and without a message |
| CreateTicketPage.Page.HandleChange | frontend/src/pages/CreateTicketPage.jsx:26-29 | a change event updates only the named field of the form |
| CreateTicketPage.Page.Submit | frontend/src/pages/CreateTicketPage.jsx:31-48 | submitting clears the message and the error flag, starts submitting, and sends the body built from the form, which stays as it is |
| CreateTicketPage.Page.SubmitAnswered | frontend/src/pages/CreateTicketPage.jsx:55-82 | a created ticket empties the form and shows the server's message or "Ticket created successfully!"; a refusal keeps the form, shows the server's message or the generic error, and sets the error flag; submitting ends either way |
| FrontendForms.SignUpSchemaAccepts | frontend/src/pages/SignUpPage.jsx:11-16 | the sign-up form accepts exactly the bodies with a valid e-mail, a password of at least 6 characters, a name of at least 3 and one of the three roles |
| FrontendForms.CreateUserSchemaAccepts | frontend/src/pages/CreateUserPage.jsx:16-32 | the create-user form accepts exactly the sign-up bodies whose optional department is a string and that name a department when the role is coordinator |
| FrontendForms.CoordinatorNeedsDepartment | frontend/src/pages/CreateUserPage.jsx:25-31 | once every field parses, a coordinator without a department gets the custom issue on `department` and the form is refused |
| FrontendForms.OtherRolesNeedNoDepartment | frontend/src/pages/extra.jsx:18-33 | a technician or admin with valid fields and no department passes the create-user form |
| FrontendForms.SignUpLetsCoordinatorWithoutDepartment | frontend/src/pages/SignUpPage.jsx:11-16 | the sign-up form accepts a coordinator without a department that the create-user form refuses |
| FrontendForms.BackendCreateUserPassesForm | frontend/src/pages/CreateUserPage.jsx:16-32 | every body the backend's create-user schema accepts also passes the create-user form |
| FrontendForms.LoginSchemaAccepts | frontend/src/pages/LoginPage.jsx:13-16 | the login form accepts exactly a valid e-mail with a password of at least 6 characters |
| FrontendForms.LoginPasswordGap | frontend/src/pages/LoginPage.jsx:13-16 | whatever the backend's login schema accepts passes the form, and a 6- or 7-character password passes the form but is refused by the backend |
| FrontendForms.MatchingOptions | frontend/src/pages/CreateUserPage.jsx:157-162 | the picker lists exactly the options whose caption contains the query, ignoring letter case |
| FrontendForms.EmptyQueryShowsAll | frontend/src/pages/extra.jsx:138-139 | with an empty query the picker lists every option in order |
| FrontendForms.SelectedOption | frontend/src/pages/CreateUserPage.jsx:136-140 | the picker shows the option whose value is the form's department, and none when no option has it |
| FrontendForms.EveryDepartmentSelectable | frontend/src/pages/CreateUserPage.jsx:136-141 | every known department, once chosen, shows as the picker's selection |
| FrontendForms.CreateUserForm.constructor | frontend/src/pages/extra.jsx:39-40 | the form starts empty with its modal closed and blank |
| FrontendForms.CreateUserForm.Show | frontend/src/pages/extra.jsx:58-63 | the modal opens; on success it says "User Created" and the form is reset, on failure it says "Error" and the values stay |
| FrontendForms.CreateUserForm.OnSubmitAsWritten | frontend/src/pages/extra.jsx:55-64 | as written, the call to the store's missing `createUser` throws, so every submission opens the error modal and keeps the values |
| FrontendForms.CreateUserForm.OnSubmit | frontend/src/pages/extra.jsx:55-64 | with a store that defines `createUser`, the submission settles as the request does, and the modal reports that outcome |
| FrontendForms.LoginNavigation | frontend/src/pages/LoginPage.jsx:31-38 | the page goes to /dashboard with "Welcome back!" exactly when `login` resolves, and stays with the failure toast otherwise |
| FrontendForms.SubmitLoginAsWritten | frontend/src/pages/LoginPage.jsx:31-38 | as written, the page always goes to /dashboard with "Welcome back!"; after a failed request a visitor who was signed out stays signed out, and every protected page sends them to /login |
| FrontendForms.SubmitLogin | frontend/src/pages/LoginPage.jsx:31-38 | over a `login` that rethrows, the page navigates exactly when the request succeeded; otherwise it shows the failure toast and the signed-in user is unchanged |
| ClientRouting.Caught | frontend/src/store/useAuthStore.js:40-49 | a `try`/`catch` rejects exactly when the step rejected and the catch block rethrows |
| ClientRouting.CallAction | frontend/src/store/useAuthStore.js:5-63 | calling an action the store does not define rejects whatever its request would do; a defined action settles as its body does |
| ClientRouting.Protect | frontend/src/store/ProtectedRoute.jsx:5-17 | the children are shown exactly to a signed-in user whose role is allowed (or when no roles are listed); others go to /login or / |
| ClientRouting.Route | frontend/src/App.jsx:19-44 | the loader shows exactly while the session check runs with nobody signed in; otherwise / shows home or sends to /login, and /login and /signup send a signed-in user to / |
| ClientRouting.RedirectsSettle | frontend/src/App.jsx:31-44 | following one redirect of the router always lands on a page, never on a second redirect |
| ClientRouting.ProtectedRedirectsLand | frontend/src/store/ProtectedRoute.jsx:8-14 | the guard's redirect targets land on a page of the router |
| ClientRouting.Session.constructor | frontend/src/store/useAuthStore.js:6-9 | the store starts with nobody signed in and no check running |
| ClientRouting.Session.Mount | frontend/src/App.jsx:15-17 | mounting the app starts the session check, keeping the user, and shows the loader when nobody is signed in |
| ClientRouting.Session.AuthChecked | frontend/src/store/useAuthStore.js:11-22 | the session check ends; a successful one stores the returned user, a failed one keeps the previous one, and the loader is gone |
| ClientRouting.Session.Login | frontend/src/store/useAuthStore.js:38-50 | `login` stores the answer's user on success, keeps the previous user on failure, clears the logging-in flag, and resolves either way |
| ClientRouting.Session.LoginRethrowing | frontend/src/store/useAuthStore.js:38-50 | the same state changes, with a call that resolves exactly when the request succeeded |

## Left out

- The rate limiters in the routers are not modelled. The model treats them as passing every request.
- Cookies, JWT signing and verification, bcrypt and e-mail syntax are parameters. Only the user a cookie is issued for and its lifetime are recorded.
- zod's issue messages are not modelled. Issues carry their field and their kind only.
- Strings are sequences of `char`, not UTF-16 code units. Case mapping covers ASCII letters only.
- Asynchronous requests are modelled by their outcome only. Loading states between a request and its answer are kept where a page shows them; interleavings are not modelled.
- Timestamps are plain integers (milliseconds), and `toLocaleString` formatting is not modelled.
- The coordinator dashboard's average closing time is a floating-point figure and is not modelled.
- Prisma's order among rows with equal `updatedAt` is taken to be insertion order.
- Store.Db: listings without `orderBy` return rows in insertion order. The database promises no order there; this is a choice of the model.
- Http.Reply: a reply carries one text. Whether the source sends it under `message` or under `error` is not modelled.
- DataTable.Sort: sorts on the string forms of the column values, with a missing value read as "". The source compares raw values, so numbers compare numerically and `undefined` or `null` compare as neither less nor greater.
- ClientRows.SortNewestFirst: does not promise that tickets with equal `createdAt` keep their relative order, which JavaScript's stable sort does.
- UserController.ParseInt: records only that the result is a number, not which number (hexadecimal prefixes, NaN).
- The toasts of the auth store's actions are not modelled; the page toasts are.
- The `capitalize` CSS class on the detail captions is styling and is not modelled; captions are modelled as the text the page computes.
- The `updateTicket` and `getAllTicketsDepartmentWise` handlers are referenced by the ticket router, but their code is not part of this model. Those routes answer nothing in the model once their guards pass.
- The ticket router imports `isCoordinator` and `isAdminOrCoordinator`, which `auth.middlewares.js` does not export. The model takes `isCoordinator` as a guard supplied in `Http.Env`.
- `auth.middlewares.js` imports `../libs/db.js`, which is not in the repository. The model uses the same in-memory store as the controllers.
- `PRIORITIES` is not defined in `constants.js`. The model takes LOW, MEDIUM and HIGH as the ticket schema names them.
- The user router is not mounted in `index.js`, which mounts only the auth and ticket routers. The model describes its chains as written.
- `getUserById` and `updateUser` have no route. The model covers them as handlers only.
- The sign-up and logout actions of the auth store are not modelled; `checkAuth` and `login` are.
- Headers, sidebars, layouts and styling are not modelled.
- The staff listings are fetched without their ticket relations, while the staff pages read `coordinatorTickets` and `technicianTickets`. The model takes those lists as part of the answer.
- The admin dashboard shows "Low" for a missing priority, while the assign page shows "MEDIUM". Both are modelled as written.
- The count columns of the coordinators table are computed per row and are not fields of the rows the table searches.
- AssignTechnicianPage.Page.FetchTechnicians: requires that a successful answer carries a technicians list. The source would store `undefined` otherwise, which the model does not represent.

## Findings

| source | as written | input that shows it | evidently intended | confidence | as-written member | corrected member |
|---|---|---|---|---|---|---|
| backend/src/routes/ticket.routes.js:59-65 | the assign route binds `:technicianId`, while `setStatusToInProgress` reads `req.params.userId` (ticket.controllers.js:230), so the technician to connect is always undefined and the update answers 500 | `PUT /tickets/set-to-in-progress/t1/u7` by an admin, with ticket t1 open and user u7 a technician | the handler assigns the technician named in the route | not executed | TicketRoutes.AssignAsWritten | TicketRoutes.Handle |
| backend/src/controllers/users.controllers.js:53 | `getUserById` looks the id up as `parseInt(id)`, but user ids are strings, so no user is ever found | a stored user with id "u1" and the request parameter `id = "u1"` | the lookup uses the id as given | not executed | UserController.GetUserByIdAsWritten | UserController.GetUserById |
| frontend/src/pages/LoginPage.jsx:31-38 | the store's `login` catches its own error (useAuthStore.js:38-50), so the page always shows "Welcome back!" and navigates to /dashboard | a login whose request is rejected with 401 | navigate only after a successful login | not executed | FrontendForms.SubmitLoginAsWritten | FrontendForms.SubmitLogin |
| frontend/src/pages/extra.jsx:55-64 | the pages call `createUser` from the auth store, which defines none (useAuthStore.js:5-63), so the call throws and the page always reports an error | any valid create-user form, whatever the server would answer | `createUser` posts the body and resolves exactly when the request succeeds | not executed | FrontendForms.CreateUserForm.OnSubmitAsWritten | FrontendForms.CreateUserForm.OnSubmit |
