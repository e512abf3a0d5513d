# eduinfo_api core in Dafny

This project models the core of the eduinfo_api backend: an Express server over a relational database used by persons, institutions and an administrator.

The tables are modelled as fields of one `Store.Db` object. Tokens, users, person and institution profiles, news and events are maps. Likes, follows and category links are sets of pairs. Messaging rooms and messages are sequences.

Each handler becomes a method on that store, and each method states the reply it gives and the new state of every table it writes.

The modules follow the program:

- `Http`: the response envelope `{ code, message, errors, data }`, the error texts and the reading of numeric path parameters.
- `Store`: the tables, and the constraints the schema and the handlers keep (`Db.Valid`). Every handler that writes one of the tables `Db.Valid` reads requires it and ensures it again. The handlers for likes, follows, categories, news, events and contacts write none of those tables, and their `modifies` clauses show it.
- `Auth`: the middleware of `middleware/auth.js`. Each gate is a function from the account tables and the request context to the next context or the reply. A route's middleware list is a sequence of gates run left to right (`Run`). The `Request` class mirrors the request fields that `validToken` and `getRoleFromToken` write.
- `TokenIssuer`: `generateTokenForUser`, a bounded retry loop followed by an insert.
- `AuthRoutes`: registration, password login, token rotation, logout, `/role` and `/admin_reg`.
- `AdminRoutes`: the five flag setters and the public institution view.
- `Pairs`: link tables as sets of pairs.
- `Messaging`: rooms and threads.
- `PersonRoutes` and `InstitutionRoutes`: the mutating person and institution handlers.

Foreign code and faults are parameters:

- bcrypt's hash is an input string, and its comparison is the function `matches`.
- uuid's generator is `draw`, whose value at `k` is the k-th candidate.
- A database error is the boolean `fault`, only where the model gives one a path. These places are the role lookups of `getRoleFromToken` and `verifyRole`, one flag driving both, and the transactions of registration and of sending a message.

Errors the JavaScript runtime or the database raises are given one fixed message each; the `Http` module lists them. Examples are destructuring an empty result and a failing foreign key.

## Model

| member | source | states |
|---|---|---|
| Http.ParamId | routes/adminRoutes.js:80-82 | A path parameter names a row id exactly when it is a non-empty string of decimal digits. The empty string names none. |
| Http.IdParam | routes/personRoutes.js:926-930 | The decimal rendering of an id is a non-empty digit string. |
| Http.IdParamRoundTrip | routes/personRoutes.js:926-930 | Reading back the rendering of an id gives the same id. |
| Store.RoleId | middleware/auth.js:27-30 | Each role's `role_id` joins back to that role in the `roles` table. |
| Store.AddPersonKeepsConsistent | routes/authRoutes.js:62-72 | Adding a person-role user with an unused e-mail under the next user id, with its person row under the next person id, keeps the account constraints. Those constraints are: unique e-mails, a profile row for exactly the person and institution users, unique profile ids, and counters ahead of every id. |
| Store.AddInstitutionKeepsConsistent | routes/authRoutes.js:62-76 | The same for an institution-role user and its institution row. |
| Store.AddUserKeepsConsistent | routes/authRoutes.js:274-277 | Adding a user of any other role (an admin) with an unused e-mail under the next id, with no profile row, keeps the account constraints. |
| Store.AddUserKeepsTokensOwned | routes/authRoutes.js:62-65 | Adding a user keeps every token owned by a user. |
| Store.SameIdsKeepConsistent | routes/adminRoutes.js:83-86 | Rewriting profile rows in place, each keeping its key and its profile id, keeps the account constraints. |
| Auth.ValidToken | middleware/auth.js:44-74 | No header or an empty one gives 401 "Nincs token megadva". A token with no `is_valid` row gives 401 "Érvénytelen token". Otherwise the request passes, holding exactly that token and its owner's user id. |
| Auth.ResolveRole | middleware/auth.js:27-30 | A role is resolved exactly when the token has a row, its owner exists and the owner's `role_id` names a role. The row's role and `role_id` agree. The query ignores `is_valid`. |
| Auth.GetRoleFromToken | middleware/auth.js:22-42 | It answers 501 exactly when the query throws. Otherwise it passes and sets `userRole` to the resolved role, or to nothing when no row matched. |
| Auth.VerifyRole | middleware/auth.js:3-19 | It passes exactly when the lookup does not throw and the resolved role exists and equals the required one. A throw gives 501. Otherwise it gives 403 "Hozzáférés megtagadva. Nem megfelelő szerepkör.". |
| Auth.ProfileFlags | middleware/auth.js:80-90 | The flags come from the `person` row for the person role and from the `institutions` row for the institution role. A missing user id or row gives none. The admin role has no table. |
| Auth.IsEnabled | middleware/auth.js:76-109 | It passes exactly when the profile row exists and is enabled. It passes the context on unchanged. Every refusal is 406. |
| Auth.IsAccepted | middleware/auth.js:111-144 | It passes exactly when the profile row exists and is accepted. It passes the context on unchanged. Every refusal is 405. |
| Auth.RunAfterValidation | middleware/auth.js:3-144 | Once `validToken` has resolved a token, a middleware list lets the request through exactly when every gate in it admits that token. A request let through still carries that token and its owner's id. |
| Auth.ChainVerdict | middleware/auth.js:44-74 | A list starting with `validToken` lets a request through exactly when the header holds a valid token and every later gate admits it. A request let through carries that token's owner. |
| Auth.VerdictIgnoresOrder | routes/personRoutes.js:183 | Behind `validToken`, two orders of the same gates give the same allow or deny verdict. |
| Auth.ReversedChainAlwaysRejects | routes/institutionRoutes.js:360 | A list that runs `isAccepted` before `validToken` refuses every request with 405. For a person or institution it gives "A fiók nem található.". |
| Auth.NoPersonRowOnPersonRoute | routes/personRoutes.js:183 | On a person route, a valid token whose user has no person row is refused with 405 by `isAccepted`, before any role check. |
| Auth.AdminChainVerdict | routes/adminRoutes.js:71-79 | The admin list lets a request through exactly when its token is valid and belongs to an admin. The profile tables play no part. |
| Auth.Request.CheckToken | middleware/auth.js:44-74 | The request's fields become the context `ValidToken` yields. On refusal they stay unchanged and the reply is the refusal. |
| Auth.Request.LoadRole | middleware/auth.js:22-42 | The request's `userRole` field becomes what `GetRoleFromToken` yields, or the reply is its refusal. |
| Auth.Request.Handle | middleware/auth.js:3-144 | Running a middleware list gate by gate on the request gives the verdict of `Run`. On success the request's fields equal the context `Run` builds. |
| TokenIssuer.FirstFresh | services/authService.js:10-18 | The chosen candidate is held by no token row. |
| TokenIssuer.FirstFreshIsFirst | services/authService.js:10-18 | The chosen candidate is the first of the remaining attempts (up to 20 in all) that no token row holds. There is none exactly when all of them collide. |
| TokenIssuer.GenerateTokenForUser | services/authService.js:4-21 | It returns the first candidate that no row holds. Exactly one valid row for that user is added under it. Every other row is unchanged. After 20 collisions nothing is added. |
| AuthRoutes.RegisterErrors | routes/authRoutes.js:22-31 | The form passes exactly when the e-mail is well-formed, the name is non-empty, the password has at least 6 characters and `as` is person or institution. Each rule's message is reported exactly when that rule fails. |
| AuthRoutes.AdminFormErrors | routes/authRoutes.js:246-252 | The admin form passes exactly when the e-mail, name and password rules pass. It accepts exactly what the registration form accepts for a person. |
| AuthRoutes.LoginErrors | routes/authRoutes.js:108-111 | The login form passes exactly when the e-mail is well-formed and the password is non-empty. |
| AuthRoutes.RoleIdFor | routes/authRoutes.js:44 | "person" gets the person role id and anything else the institution role id. |
| AuthRoutes.FreshProfileGates | routes/authRoutes.js:71-76 | A new person profile passes both profile gates. A new institution profile passes `isEnabled` and is refused by `isAccepted` with 405. |
| AuthRoutes.InsertAccount | routes/authRoutes.js:62-78 | The user row goes under the next id. The person or institution row goes under the next profile id, with the default avatar (and banner), enabled, and accepted only for a person. No other table changes. |
| AuthRoutes.Register | routes/authRoutes.js:20-103 | A failing form gives 500 with every message. A taken e-mail gives "Az email cím már foglalt". A fault rolls back. Every failure leaves the store unchanged. Success is 201 with exactly the new user and its profile row. |
| AuthRoutes.StandardLogin | routes/authRoutes.js:106-171 | A failing form gives 500 "Hiba a bejelentkezés során" with the validation messages. An unknown e-mail gives 404. A password that does not match gives 401. Otherwise exactly one new valid token of that user is added, and earlier tokens are untouched. Failure leaves the tokens unchanged. |
| AuthRoutes.Invalidate | routes/authRoutes.js:180-182 | Only the presented token's row is marked invalid, keeping its owner. Every other row is unchanged. |
| AuthRoutes.LogoutRevokesOnlyThatToken | routes/authRoutes.js:206-213 | After logout the presented token is refused with 401, and every other valid token gets the verdict it had before. |
| AuthRoutes.RotationSwapsTokens | routes/authRoutes.js:174-184 | After rotation the old token is refused and the new one passes as the same user. |
| AuthRoutes.InvalidateKeepsOwners | routes/authRoutes.js:180-182 | Invalidating a token keeps every token owned by a user. |
| AuthRoutes.Rotate | routes/authRoutes.js:180-184 | The presented token is invalidated, then a token no row held is issued to its owner. If every candidate collides, only the invalidation remains. |
| AuthRoutes.TokenLogin | routes/authRoutes.js:174-203 | Behind `validToken`, the presented token is invalidated and a fresh one is issued to the same user (200). If issuing fails, the answer is 500 and the old token stays invalid. |
| AuthRoutes.Logout | routes/authRoutes.js:206-229 | Behind `validToken`, exactly the presented token is invalidated, with 200. A refused request changes nothing. |
| AuthRoutes.RoleRoute | routes/authRoutes.js:232-242 | A success carries the role resolved from a valid token. No header gives 401 "Nincs token megadva", and an unknown or invalidated token gives 401 "Érvénytelen token". A throwing lookup gives 501. With a valid token and no fault, the answer is 200 with the resolved role, or 500 when no role row exists. |
| AuthRoutes.AdminReg | routes/authRoutes.js:244-305 | Valid input with an unused e-mail adds an admin user (`role_id` 1, no profile row) and issues a token if one is found. Any failure sends no response. A failed token issue leaves the user row in place. |
| AdminRoutes.SetInstitutionEnabled | routes/adminRoutes.js:83-86 | Only rows with that institution id change, and only in `is_enabled`. |
| AdminRoutes.AcceptInstitutionRow | routes/adminRoutes.js:153-156 | Only rows with that institution id change, and only in `is_accepted`, which becomes true. |
| AdminRoutes.SetPersonEnabled | routes/adminRoutes.js:188-191 | Only rows with that person id change, and only in `is_enabled`. |
| AdminRoutes.ApplyAction | routes/adminRoutes.js:71-243 | A setter touches only the profile table it names. Tokens and users are unchanged. |
| AdminRoutes.ActionIdempotent | routes/adminRoutes.js:223-226 | Applying a setter twice is the same as applying it once. |
| AdminRoutes.ActionDecidesGates | routes/adminRoutes.js:153-156 | After acceptance `isAccepted` passes the institution's user. After enabling, `isEnabled` passes; after disabling it gives 406. Users whose row has another id keep their verdicts. |
| AdminRoutes.ActionKeepsConsistent | routes/adminRoutes.js:83-86 | A setter keeps the account constraints. |
| AdminRoutes.Update | routes/adminRoutes.js:118-121 | The store's account tables become those `ApplyAction` gives. |
| AdminRoutes.AdminUpdate | routes/adminRoutes.js:71-243 | A refusal by the admin list is its reply and changes nothing. A missing or non-numeric id gives 500 with the route's message and changes nothing. Otherwise the setter is applied, with 200. |
| AdminRoutes.InstitutionView | routes/adminRoutes.js:246-341 | An empty id gives "hibás bemeneti adat". An id with no institution gives 500. Otherwise the reply is that institution's name, images, description and follower count. |
| Pairs.Fans | routes/personRoutes.js:204 | The set holds exactly the left-hand sides linked to the entity. |
| Pairs.Image | routes/institutionRoutes.js:595-607 | The set holds exactly the right-hand sides the entity is linked to. |
| Pairs.FansAfterInsert | routes/personRoutes.js:201-204 | Adding a missing pair raises its entity's count by one and leaves other counts alone. |
| Pairs.FansAfterRemove | routes/personRoutes.js:236-242 | Removing a present pair lowers its entity's count by one and leaves other counts alone. |
| Pairs.ReplaceAll | routes/institutionRoutes.js:595-607 | The entity's pairs become exactly the submitted ones. Every other pair is kept. |
| Pairs.ReplaceAllImage | routes/institutionRoutes.js:595-607 | After a replacement the entity's links are exactly the submitted values (none for an empty list). Other entities keep theirs. |
| Messaging.FindRoom | routes/personRoutes.js:861-864 | The found room id holds that pair. None is found exactly when no room joins the pair. |
| Messaging.ThreadBelow | routes/personRoutes.js:939 | Every returned message belongs to the room and carries its own id, text and sender side. |
| Messaging.ThreadNewestFirst | routes/personRoutes.js:939 | A thread lists its messages by strictly decreasing id, newest first. |
| Messaging.ThreadComplete | routes/personRoutes.js:939 | No message of the room is missing from its thread. |
| Messaging.ThreadBelowAppend | routes/personRoutes.js:880-883 | Appending a message leaves every earlier prefix's thread as it was. |
| Messaging.ThreadAfterPost | routes/personRoutes.js:880-883 | A new message heads its own room's thread, and every other room's thread is unchanged. |
| Messaging.ReadRoom | routes/personRoutes.js:939-943 | A read succeeds exactly when the id names a room on the caller's side that has at least one message. Every other case gives "Nem létező chat szoba". |
| Messaging.OpenRoom | routes/personRoutes.js:861-874 | An existing room of the pair is reused. Otherwise exactly one room is appended, and its position is the returned id. |
| Messaging.Post | routes/personRoutes.js:880-883 | Exactly one message is appended to the room, and its position is the returned id. |
| PersonRoutes.PersonOf | routes/personRoutes.js:188 | The caller's person id exists exactly when the caller has a person row. |
| PersonRoutes.Like | routes/personRoutes.js:183-223 | No person row, then an empty id, then a repeat like, then a missing news item are each refused and change nothing. Otherwise exactly that pair is added, and the reply is the news item's new like count, one more than before. |
| PersonRoutes.Unlike | routes/personRoutes.js:225-261 | An absent like gives "már vissza van vonva a lájk" and changes nothing. Otherwise exactly that pair is removed and the reply is the count, one less. |
| PersonRoutes.Follow | routes/personRoutes.js:418-458 | A duplicate follow gives "Már követed az inézményt". An unknown institution fails the foreign key. Otherwise exactly that pair is added, and the reply is the new follower count, one more than before. |
| PersonRoutes.Unfollow | routes/personRoutes.js:460-496 | Not following gives "már kikövetted" and changes nothing. Otherwise exactly that pair is removed and the reply is the count, one less. |
| PersonRoutes.SendMessage | routes/personRoutes.js:837-924 | The existing room of the pair is reused, or exactly one is created. Then exactly one message with `from_person` 1 is appended. Any failure, a fault in the transaction included, leaves rooms and messages unchanged. |
| PersonRoutes.FindMessagingRoom | routes/personRoutes.js:982-1045 | It creates at most one room for the pair and adds no message. It replies with the room and its thread. |
| PersonRoutes.PersonReadRoom | routes/personRoutes.js:926-980 | A success lists the messages of a room whose person is the caller. Otherwise the reply is the room read's shared refusal. |
| PersonRoutes.SentMessageIsReadable | routes/personRoutes.js:880-883 | The sender reads the new message at the head of the room's thread, and another person cannot read that room. |
| InstitutionRoutes.InstitutionOf | routes/institutionRoutes.js:595 | The caller's institution id exists exactly when the caller has an institution row. |
| InstitutionRoutes.FileToRemove | routes/institutionRoutes.js:198 | A file is removed exactly when the old name is non-null and is not the reserved default. The default is never removed. |
| InstitutionRoutes.ReplaceCategories | routes/institutionRoutes.js:572-630 | The caller's categories become exactly the submitted list (none for an empty list). Others' categories are unchanged. A missing institution row changes nothing. An unknown category fails after the delete, which the `catch` does not roll back. The caller is then left with no categories if the pooled connection later commits, and with the old ones if it is closed. |
| InstitutionRoutes.UpdateEvent | routes/institutionRoutes.js:360-468 | It requires a numeric id and an uploaded banner, and the event must belong to the caller. The event row is rewritten and its links are replaced wholesale. An empty link list fails after the update and the delete, which are not rolled back. The event is then rewritten with no links if the pooled connection later commits, and unchanged if it is closed. Earlier failures change nothing. |
| InstitutionRoutes.UpdateEventRoute | routes/institutionRoutes.js:360 | The route as registered refuses every request with 405 and changes no event. |
| InstitutionRoutes.UpdateNews | routes/institutionRoutes.js:159-221 | Only a news item the caller owns is rewritten. The reply names the old banner file to remove. |
| InstitutionRoutes.DeleteNews | routes/institutionRoutes.js:224-281 | Only a news item the caller owns is deleted, and its likes go with it. A deleted item that had a banner is answered with 500. |
| InstitutionRoutes.ReplaceImage | routes/institutionRoutes.js:633-730 | Without an upload it is refused. Otherwise the profile names the new file, and the old one is removed unless it is the slot's default. |
| InstitutionRoutes.Owned | routes/institutionRoutes.js:897-899 | It holds exactly the contact rows of that institution. |
| InstitutionRoutes.SetContactTable | routes/institutionRoutes.js:891 | One contact table is written and the other two are unchanged. |
| InstitutionRoutes.DeleteContact | routes/institutionRoutes.js:879-1140 | Only a row the caller owns is removed. Zero affected rows gives the not-deletable message and changes nothing. The other contact tables are unchanged. |
| InstitutionRoutes.UpdateContact | routes/institutionRoutes.js:918-1177 | Only a row the caller owns is rewritten. A row it does not own is left alone, and the answer is success either way. |
| InstitutionRoutes.DeleteContactRoute | routes/institutionRoutes.js:879 | A refusal by the route's middleware changes nothing. The e-mail delete route refuses every request with 405. When the middleware lets a request through, the reply and the tables are those of a delete by the token's owner. |
| InstitutionRoutes.SendMessage | routes/institutionRoutes.js:1303-1386 | An institution never creates a room. Without the pair's room it gives "Intézmények nem indíthatnak új beszélgetést". Otherwise exactly one message with `from_person` 0 is appended to that room. |
| InstitutionRoutes.InstitutionReadRoom | routes/institutionRoutes.js:1389-1443 | A success lists the messages of a room whose institution is the caller. Otherwise the reply is the shared refusal. |
| InstitutionRoutes.ReplyIsSharedThread | routes/institutionRoutes.js:1342-1345 | An institution's reply heads the room's thread, and the person reads the same thread. |

## Left out

- SQL text and the connection pool are not modelled. A transaction whose `catch` rolls back is "all writes or none". Two `catch` blocks do not roll back, in the category replacement and the event update. There, the statements that ran before the failure stay pending on the connection handed back to the pool. The parameter `committedLater` chooses their fate: the connection's next transaction commits them, or a closed connection loses them. How long they stay invisible to other connections, and the locks they hold meanwhile, are not modelled.
- Password hashing and comparison (bcrypt) are parameters: the stored hash is an input and the comparison is the function `matches`.
- The uuid generator is the parameter `draw`. The race between the uniqueness check and the insert is concurrency and is not modelled.
- The date helpers of `services/institutionService.js` depend on the wall clock and on locale formatting, and are not modelled.
- File removal (`fs.unlink`), multer uploads and `middleware/multerErrorHandler.js` are not modelled. Only the guard deciding which old file to remove is kept (`FileToRemove`). An upload is an optional file name.
- `app.js` and `swagger.js` (bootstrap and documentation) are not modelled.
- The read-only listing endpoints are not modelled: `/home`, `/events`, `/profile`, the `messaging_rooms` listing, `/messages_version`, `/categories` and the category lookup. The same goes for the `/enabled` and `/accepted` probes beyond their middleware lists. These are SQL ordering, limits and response shaping.
- Creating news, events and contacts (the `POST` routes) and deleting events are not modelled. Editing and deleting a name, e-mail, password or profile is not modelled either.
- AdminRoutes.InstitutionView: the news, events and contact lists the view also returns are not modelled; the contract covers the profile part and the follower count.
- Http.ParamId: only a non-empty string of decimal digits is read as an id. A handler that passes the parameter straight to SQL relies on the database's string-to-number cast, which also reads " 7" and "7abc" as row 7. The model treats such forms as naming no row.
- AdminRoutes.AdminUpdate: the check `!id || isNaN(id)` lets through " 7", "-5", "1.5" and "0x1A". For these the source runs the UPDATE and answers 200, and " 7" sets the flag of row 7. The model refuses all four with 500 "érvénytelen bemeneti adat".
- AdminRoutes.AdminUpdate: a database error in its UPDATE, which the source answers with 500 and the driver's message, is not modelled.
- InstitutionRoutes.UpdateEvent: the same `isNaN` check lets " 7", "-5", "1.5" and "0x1A" through to the event lookup. The model refuses them with 500 "érvénytelen bemeneti adat".
- Database errors inside the gates other than the role lookups are not modelled. `validToken` would answer 401 with the driver's message, `isEnabled` 406 and `isAccepted` 405.
- A single `fault` flag drives both `getRoleFromToken` and `verifyRole`, so one of them failing while the other succeeds is not modelled.
- E-mail lookups compare strings exactly. The database's usual collation compares them without regard to case. The schema is not part of this model, so that collation is not assumed.
- AuthRoutes.IsEmail: this is an approximation of express-validator's `isEmail`, which is not part of this model.
- Link tables are sets, so duplicate rows cannot be represented. A category submitted twice counts once, and the duplicate row the database would reject is not modelled.
- InstitutionRoutes.DeleteNews: the model assumes the schema deletes a news item's likes with it, by cascade. The schema is not part of this model.
- Messaging.OpenRoom: a room's id is its position in the room sequence, not an auto-increment value starting at 1.
- The `errors` array is modelled only where a handler fills it from validation. Messages of runtime and database errors are fixed placeholder texts.
- InstitutionRoutes.UpdateEvent: a failure to remove the old banner file after a successful update is not modelled, because the file system is not modelled.
