# MEC core in Dafny

A model of the core of the MEC scholarship and jobs platform, with proofs
about it. The model covers these parts:

- The main server's token guard, `authenticateToken`, and its role guard, `requireAdmin`.
- The WebSocket hub: the origin check, subscription by message, and `broadcast`.
- The generic `adminCreate` route and the register and login handlers.
- The admin server's in-memory store, `MemStorage`: ten insertion-ordered `Map` tables.
- The admin client's `apiRequest`, with its refresh-once policy, plus `throwIfResNotOk` and `getQueryFn`.
- The request logger and the global error handler of both servers, and the admin server's port choice.

Modules and files:

| file | modules | models |
|---|---|---|
| `wrappers.dfy` | `Wrappers` | `Option`, `Result` |
| `strings.dfy` | `Strings` | `split`, `join`, `includes`, `startsWith`, and decimal text |
| `js.dfy` | `Js` | JavaScript values, truthiness, property reads, `String()` |
| `http.dfy` | `Http`, `Config` | response bodies, and the environment checks at start-up |
| `auth.dfy` | `Auth` | `authenticateToken`, `requireAdmin` |
| `hub.dfy` | `Hub` | connection and message handlers, `broadcast`; the class `Registry` stands for `wss.clients` |
| `handlers.dfy` | `Handlers` | `adminCreate`, the guarded POST routes, register, login |
| `ordered_maps.dfy` | `OrderedMaps` | a JavaScript `Map` with string keys |
| `storage_lists.dfy` | `StorageLists` | filters, `slice`, paging, and the record builders of `MemStorage` |
| `storage.dfy` | `Storage` | the class `MemStorage` |
| `query_client.dfy` | `QueryClient` | `apiRequest`, `throwIfResNotOk`, `getQueryFn`; the class `Browser` holds the stored token, `location.href` and the request log |
| `session.dfy` | `Session` | the client helper against the server's token guard |
| `server_entry.dfy` | `Middleware`, `ServerEntry`, `AdminEntry` | the shared logger and error handler; the 80- and 120-character lines; the port |

Imperative code stays imperative:

- The message handler and `broadcast` change a `Registry`.
- Every create, update and delete changes one `Table` field of `MemStorage`.
- `apiRequest` changes a `Browser`.
- The overriding `res.json` changes a `LoggedResponse`.

Each of these methods is proved against a pure function: `Delivered`, `Set`, `Delete`, `UpdateEntry`, `MarkedRead`, `Exchange`, `Truncate`. The properties are proved about those functions.

Some behaviour is a parameter rather than modelled:

- JWT verification and signing, zod `parse`, bcrypt, the store calls made from the routes, and `JSON.stringify` are oracles, passed as function parameters.
- `fetch` is a network function of the call's position in the request log and of the request.
- `nanoid()` and `new Date()` are parameters of each create and update.

Three consequences of the code worth stating plainly:

- `authenticateToken` in server/routes.ts answers a token that fails verification, an expired one included, with 403, and `apiRequest` refreshes only on 401. So if the admin API's guard answers as this one does, an expired token gets 403 and is never refreshed (`Session.ExpiredTokenIsNotRefreshed`, whose precondition states that assumption).
- The top-level error handler uses `err.status || err.statusCode || 500` and sends `err.message` when it is set, not a fixed message (`Middleware.HandleError`).
- A refresh fails when `fetch` rejects, when the answer is not OK, when its body is not JSON or is `null`, and when the retried request's `fetch` rejects. In each case the token is cleared and the page is sent to "/auth" (`QueryClient.NewToken`, `QueryClient.Exchange`).

## Model

| member | source | states |
|---|---|---|
| Config.Load | server/routes.ts:28-34 | Start-up fails with "JWT_SECRET is not defined" exactly when the secret is missing or empty; NODE_ENV defaults to "development" |
| Http.MessageBody | server/routes.ts:61 | The error body is exactly `{ message }` |
| Http.FailureBody | server/routes.ts:182-185 | The failure body has `message`, and has `error` exactly when NODE_ENV is not "production" |
| Auth.BearerField | server/routes.ts:57-58 | A token field exists iff there is a header and it contains a space; the field itself never contains a space |
| Auth.BearerFieldIsSecondWord | server/routes.ts:58 | The token is the text after the first space, up to the next space; there is none without a space |
| Auth.SchemeNotChecked | server/routes.ts:58 | Any scheme word yields the token: `Basic t` works as well as `Bearer t` |
| Auth.DoubleSpaceGivesEmptyField | server/routes.ts:58-62 | A double space leaves an empty second field |
| Auth.AuthenticateToken | server/routes.ts:52-71 | 401 "Access token required" iff there is no non-empty token; 403 "Invalid or expired token" iff verification fails; otherwise passes with exactly the decoded payload |
| Auth.RequireAdmin | server/routes.ts:73-82 | Passes iff the user is set and its role is "admin" or "super_admin", and passes the user unchanged; otherwise 403 "Admin access required" |
| Hub.Admitted | server/routes.ts:101-113 | A socket gets no subscription list exactly when it is refused by the production origin check; otherwise it starts open with `[]`; a new socket receives nothing |
| Hub.AfterMessage | server/routes.ts:115-124 | A subscribe message replaces the list with `channels`, or with `[]` when that is falsy; any other message or a parse failure changes nothing and never closes the socket |
| Hub.AfterMessagesSnoc | server/routes.ts:115-124 | Messages are handled one after another in arrival order |
| Hub.LastSubscribeWins | server/routes.ts:113-120 | After any run of messages, an accepted socket is subscribed to exactly the channels of the last subscribe message, or to none |
| Hub.RefusedNeverReceives | server/routes.ts:104-111 | A refused socket stays unsubscribed whatever it sends, and never receives a broadcast |
| Hub.Delivered | server/routes.ts:127-136 | A broadcast adds one frame `{channel, data}` to the outbox of each open subscribed client, and nothing elsewhere |
| Hub.ChannelIsolation | server/routes.ts:127-136 | After subscribing to "jobs", a socket gets a "jobs" broadcast but not a "scholarships" one; after an empty subscribe it gets neither |
| Hub.Registry.constructor | server/routes.ts:95-99 | No clients, nothing sent |
| Hub.Registry.Connect | server/routes.ts:101-113 | The new socket joins the clients with the state `Admitted` gives it and an empty outbox |
| Hub.Registry.Receive | server/routes.ts:115-124 | Only the receiving socket's record changes, as `AfterMessage` says |
| Hub.Registry.Disconnect | server/routes.ts:130 | A closed socket is no longer open, so later broadcasts skip it |
| Hub.Registry.Broadcast | server/routes.ts:127-136 | The loop over the clients leaves the outboxes exactly as `Delivered` says; no subscription changes |
| Hub.Registry.Publish | server/routes.ts:248 | A handler's broadcasts are delivered in order, as `DeliveredAll` says |
| Hub.DeliveredAll | server/routes.ts:127-136 | A run of broadcasts keeps one outbox per client |
| Hub.DeliveredAllSnoc | server/routes.ts:127-136 | Each broadcast in a run is delivered after the earlier ones |
| Handlers.WithCreator | server/routes.ts:246 | The validated input is the body with `createdBy` set to the user's id; every other property is copied |
| Handlers.AdminCreate | server/routes.ts:242-256 | 201 with the created item and exactly one broadcast of it on the route's channel, iff validation and creation both succeed; otherwise 400 "Operation failed" with no broadcast, and `error` outside production |
| Handlers.AdminRoute | server/routes.ts:266-283 | `authenticateToken`, then `requireAdmin`, then `adminCreate`: a guard's rejection is the reply, with nothing created or broadcast; the status is 201, 400, 401 or 403; there is a broadcast iff the status is 201, and it is one frame carrying the reply's item on the route's channel |
| Handlers.PostScholarship | server/routes.ts:266-271 | POST /api/scholarships answers 201, 400, 401 or 403, and broadcasts iff it answers 201, exactly once, on "scholarships", with the created item |
| Handlers.PostJob | server/routes.ts:277-282 | POST /api/jobs answers 201, 400, 401 or 403, and broadcasts iff it answers 201, exactly once, on "jobs", with the created item |
| Handlers.GuardsComeFirst | server/routes.ts:267-272 | The route answers 401 or 403 iff one of the two guards rejects, and then nothing is validated, created or broadcast |
| Handlers.NonAdminRejected | server/routes.ts:78-80 | An authenticated user whose role is anything but "admin" or "super_admin" (another string, a missing or a non-string role) gets 403 and the handler never runs |
| Handlers.ScholarshipBroadcastOnce | server/routes.ts:267-272 | A successful admin POST /api/scholarships broadcasts the created item once, on "scholarships" |
| Handlers.Register | server/routes.ts:142-187 | 201 iff the body validates to a non-nullish value, the email is free, hashing returns normally, `createUser` returns a non-nullish user, and `jwt.sign` and `logAnalytics` return normally; then the reply is `{token, user}` with the token signed over the created user's `{id, email, role}`, the store got `{...userData, password: hash}`, and exactly one "registered" activity is broadcast; a taken email is exactly 400 "User already exists" with nothing created; every other failure is 400 "Registration failed", with `error` outside production, and no token or broadcast |
| Handlers.Login | server/routes.ts:189-226 | 200 iff a truthy email and password name a stored user, `bcrypt.compare` answers true and signing and logging return normally; then the reply is `{token, user: {id, email, role}}` with the token signed over the stored user, and one "login" activity is broadcast; 400 "Email and password required" iff a field is falsy; 401 "Invalid credentials" iff there is no such user or the password does not match; 500 "Login failed" when the body cannot be destructured or a store, bcrypt, signing or logging call throws; no failure issues a token or broadcasts |
| OrderedMaps.Get | Admin/server/storage.ts:118 | `get` finds exactly the stored keys |
| OrderedMaps.Values | Admin/server/storage.ts:122 | `Array.from(values())` lists the entries in key order, one per key |
| OrderedMaps.Set | Admin/server/storage.ts:140 | `set` makes the key map to the value and changes no other key; a new key goes last, an existing one keeps its place |
| OrderedMaps.Delete | Admin/server/storage.ts:153 | `delete` removes exactly the key and keeps the order of the rest; deleting a missing key changes nothing |
| OrderedMaps.DeleteIdempotent | Admin/server/storage.ts:153 | Deleting twice is the same as deleting once |
| OrderedMaps.SetNewKey | Admin/server/storage.ts:140 | A set on a new key adds exactly one entry, last in iteration order |
| OrderedMaps.SetExistingKey | Admin/server/storage.ts:148 | A set on an existing key replaces its value in place; the size is unchanged |
| StorageLists.FiltersConjoin | Admin/server/storage.ts:165-167 | Filtering step by step keeps exactly the records that pass every filter, in their order (against the reference `Select`) |
| StorageLists.SelectMembers | Admin/server/storage.ts:165-167 | A record survives filtering iff it is stored and passes every filter |
| StorageLists.KeepThenSelect | Admin/server/storage.ts:166-167 | One `filter` then the rest is the same as all of them at once |
| StorageLists.SearchMeaning | Admin/server/storage.ts:166 | An empty or missing `search` keeps everything; otherwise the field must contain it |
| StorageLists.MatchMeaning | Admin/server/storage.ts:167 | An empty or missing equality argument keeps everything; otherwise the field must equal it |
| StorageLists.PassesAllAppend | Admin/server/storage.ts:165-167 | Two filter lists applied together mean both |
| StorageLists.PageAtMostLimit | Admin/server/storage.ts:169 | `slice(offset, offset + limit)` never returns more than `limit` items, and only items it was given, whatever the offset |
| StorageLists.PageIsWindow | Admin/server/storage.ts:169 | For a non-negative offset and limit, the page is the window `[offset, offset + limit)`, clamped to the length |
| StorageLists.ListPage | Admin/server/storage.ts:164-170 | `total` counts every match; the page holds only stored items that match every filter, at most `limit` of them, with defaults 50 and 0; when the offset is non-negative it is the window of the matches |
| StorageLists.UnfilteredFirstPage | Admin/server/storage.ts:156-161 | With no filter, offset 0 and a limit covering the table, the page is every record in insertion order |
| StorageLists.FindFirst | Admin/server/storage.ts:121-127 | `find` returns the first record in insertion order with that property value, or nothing iff none has it |
| StorageLists.CountPublished | Admin/server/storage.ts:425-426 | The count is the number of records whose status is "published" |
| StorageLists.Recent | Admin/server/storage.ts:427 | `slice(-10).reverse()` gives the last min(10, n) entries, newest first |
| StorageLists.Stamped | Admin/server/storage.ts:178 | The stored record is the input plus the store's own properties, which override any the input carries |
| StorageLists.OwnedStamp | Admin/server/storage.ts:178 | A content record gets `id`, `createdBy`, and `createdAt` equal to `updatedAt` |
| StorageLists.PlainStamp | Admin/server/storage.ts:335 | Applications and conversations get `id` and both timestamps, and no `createdBy` |
| StorageLists.UserStamp | Admin/server/storage.ts:131-139 | A new user is active, with `profileImage` and `lastLogin` null |
| StorageLists.NotificationStamp | Admin/server/storage.ts:388 | A new notification is unread |
| StorageLists.AuditStamp | Admin/server/storage.ts:409 | An audit entry gets `id` and `createdAt`, and no `updatedAt` |
| StorageLists.Merged | Admin/server/storage.ts:186 | The updates override the record and `updatedAt` is refreshed; the other properties are kept |
| StorageLists.UpdateEntry | Admin/server/storage.ts:183-189 | A missing id throws and changes nothing; a present one is replaced in place by the merged record, which is returned, and no other entry changes |
| StorageLists.MarkedRead | Admin/server/storage.ts:393-396 | The stored record gets `isRead` true; a missing id is ignored; nothing else changes |
| StorageLists.MarkedReadIdempotent | Admin/server/storage.ts:393-396 | Marking as read twice is marking once |
| Storage.SearchPage | Admin/server/storage.ts:156-161 | Every listed record meets the `search` argument |
| Storage.MatchPage | Admin/server/storage.ts:322-327 | Every listed record meets the equality argument |
| Storage.SearchMatchPage | Admin/server/storage.ts:164-170 | Every listed record meets both the search and the status argument |
| Storage.MatchMatchPage | Admin/server/storage.ts:399-405 | Every listed record meets both equality arguments |
| Storage.ApplicationsIgnoreSearch | Admin/server/storage.ts:322-327 | `getApplications` gives the same page whatever `search` is |
| Storage.MemStorage.constructor | Admin/server/storage.ts:104-115 | All ten tables start empty |
| Storage.MemStorage.GetUser | Admin/server/storage.ts:117-119 | A user is returned iff that id is stored |
| Storage.MemStorage.GetUserByUsername | Admin/server/storage.ts:121-123 | The first stored user, in insertion order, with exactly that username, or nothing iff there is none |
| Storage.MemStorage.GetUserByEmail | Admin/server/storage.ts:125-127 | The first stored user, in insertion order, with exactly that email, or nothing iff there is none |
| Storage.MemStorage.CreateUser | Admin/server/storage.ts:129-142 | The user is stored under the new id with the user stamp; a fresh id appends one entry |
| Storage.MemStorage.UpdateUser | Admin/server/storage.ts:144-150 | "User not found" iff the id is missing, and then nothing changes; otherwise only that user is replaced by the merged record, which is returned |
| Storage.MemStorage.DeleteUser | Admin/server/storage.ts:152-154 | Exactly that id is gone afterwards |
| Storage.MemStorage.GetUsers | Admin/server/storage.ts:156-161 | The page holds users whose username contains `search`, at most `limit`; `total` counts all matches |
| Storage.MemStorage.GetScholarships | Admin/server/storage.ts:164-170 | The page holds scholarships whose title contains `search` and whose status equals `status`, at most `limit`; `total` counts all matches |
| Storage.MemStorage.GetScholarship | Admin/server/storage.ts:172-174 | A scholarship is returned iff that id is stored |
| Storage.MemStorage.CreateScholarship | Admin/server/storage.ts:176-181 | The input is stored, stamped with the id, `createdBy` and the time; a fresh id appends one entry |
| Storage.MemStorage.UpdateScholarship | Admin/server/storage.ts:183-189 | "Not found" iff the id is missing, and then nothing changes; otherwise only that entry is replaced by the merged record |
| Storage.MemStorage.DeleteScholarship | Admin/server/storage.ts:191-193 | Exactly that id is gone; a missing id is not an error |
| Storage.MemStorage.GetJobOpportunities | Admin/server/storage.ts:196-202 | A page of jobs filtered by title search and status, at most `limit`, with the full count |
| Storage.MemStorage.GetJobOpportunity | Admin/server/storage.ts:204-206 | A job is returned iff that id is stored |
| Storage.MemStorage.CreateJobOpportunity | Admin/server/storage.ts:208-213 | Stored under the new id with the owned stamp; a fresh id appends one entry |
| Storage.MemStorage.UpdateJobOpportunity | Admin/server/storage.ts:215-221 | "Not found" iff the id is missing; otherwise only that entry changes, to the merged record |
| Storage.MemStorage.DeleteJobOpportunity | Admin/server/storage.ts:223-225 | Exactly that id is gone |
| Storage.MemStorage.GetPartnerInstitutions | Admin/server/storage.ts:228-233 | A page of partners whose name contains `search`, with the full count |
| Storage.MemStorage.GetPartnerInstitution | Admin/server/storage.ts:235-237 | A partner is returned iff that id is stored |
| Storage.MemStorage.CreatePartnerInstitution | Admin/server/storage.ts:239-244 | Stored under the new id with the owned stamp |
| Storage.MemStorage.UpdatePartnerInstitution | Admin/server/storage.ts:246-252 | "Not found" iff the id is missing; otherwise only that entry changes |
| Storage.MemStorage.DeletePartnerInstitution | Admin/server/storage.ts:254-256 | Exactly that id is gone |
| Storage.MemStorage.GetBlogPosts | Admin/server/storage.ts:259-265 | A page of posts filtered by title search and status, with the full count |
| Storage.MemStorage.GetBlogPost | Admin/server/storage.ts:267-269 | A post is returned iff that id is stored |
| Storage.MemStorage.CreateBlogPost | Admin/server/storage.ts:271-276 | Stored under the new id with the owned stamp |
| Storage.MemStorage.UpdateBlogPost | Admin/server/storage.ts:278-284 | "Not found" iff the id is missing; otherwise only that entry changes |
| Storage.MemStorage.DeleteBlogPost | Admin/server/storage.ts:286-288 | Exactly that id is gone |
| Storage.MemStorage.GetTeamMembers | Admin/server/storage.ts:291-296 | A page of members whose name contains `search`, with the full count |
| Storage.MemStorage.GetTeamMember | Admin/server/storage.ts:298-300 | A member is returned iff that id is stored |
| Storage.MemStorage.CreateTeamMember | Admin/server/storage.ts:302-307 | Stored under the new id with the owned stamp |
| Storage.MemStorage.UpdateTeamMember | Admin/server/storage.ts:309-315 | "Not found" iff the id is missing; otherwise only that entry changes |
| Storage.MemStorage.DeleteTeamMember | Admin/server/storage.ts:317-319 | Exactly that id is gone |
| Storage.MemStorage.GetApplications | Admin/server/storage.ts:322-327 | A page of applications filtered by status only, with the full count |
| Storage.MemStorage.GetApplication | Admin/server/storage.ts:329-331 | An application is returned iff that id is stored |
| Storage.MemStorage.CreateApplication | Admin/server/storage.ts:333-338 | Stored under the new id with `id` and both timestamps, and no `createdBy` |
| Storage.MemStorage.UpdateApplication | Admin/server/storage.ts:340-346 | "Not found" iff the id is missing; otherwise only that entry changes |
| Storage.MemStorage.DeleteApplication | Admin/server/storage.ts:348-350 | Exactly that id is gone |
| Storage.MemStorage.GetChatConversations | Admin/server/storage.ts:353-357 | A page of every conversation; offset 0 with a covering limit gives them all, in order |
| Storage.MemStorage.GetChatConversation | Admin/server/storage.ts:359-361 | A conversation is returned iff that id is stored |
| Storage.MemStorage.CreateChatConversation | Admin/server/storage.ts:363-368 | Stored under the new id with `id` and both timestamps |
| Storage.MemStorage.UpdateChatConversation | Admin/server/storage.ts:370-376 | "Not found" iff the id is missing; otherwise only that entry changes |
| Storage.MemStorage.GetAdminNotifications | Admin/server/storage.ts:379-384 | A page of the notifications addressed to `targetUserId` when it is given, with the full count |
| Storage.MemStorage.CreateAdminNotification | Admin/server/storage.ts:386-391 | Stored unread under the new id |
| Storage.MemStorage.MarkNotificationAsRead | Admin/server/storage.ts:393-396 | The stored notification is read afterwards; a missing id is ignored; no key is added or removed |
| Storage.MemStorage.GetAuditLogs | Admin/server/storage.ts:399-405 | A page of the entries matching `userId` and `entityType` when given, with the full count |
| Storage.MemStorage.CreateAuditLog | Admin/server/storage.ts:407-412 | Stored under the new id with `id` and `createdAt` only |
| Storage.MemStorage.GetDashboardStats | Admin/server/storage.ts:415-429 | The user and application counts; the numbers of published scholarships and jobs; the last ten audit entries, newest first |
| QueryClient.Headers | Admin/client/src/lib/queryClient.ts:15-22 | `Authorization: Bearer <token>` is attached iff a non-empty token is stored; the JSON content type is always set |
| QueryClient.Payload | Admin/client/src/lib/queryClient.ts:27 | A body is sent iff the data is truthy |
| QueryClient.NewToken | Admin/client/src/lib/queryClient.ts:39-41 | A refresh yields a token only from an OK JSON answer, as `String(json.token)`; an OK object answer always yields one |
| QueryClient.Settle | Admin/client/src/lib/queryClient.ts:61-66 | An OK response is returned unchanged iff it is OK; a failed `fetch` rejects; a non-OK answer rejects with a JSON error when its body is not JSON, with a TypeError when the body is `null`, and otherwise with `error.message`, or "Something went wrong" when that is falsy (every non-object body) |
| QueryClient.Exchange | Admin/client/src/lib/queryClient.ts:10-67 | A refresh happens iff the first answer is 401, a token is stored and the url is not "/auth/login". A refresh that succeeds stores the new token and retries exactly once with it, and that answer is final. A refresh that fails clears the token, redirects to "/auth", does not retry, and rejects |
| QueryClient.RefreshAtMostOnce | Admin/client/src/lib/queryClient.ts:32-50 | The refresh call is only ever the second request; every other request goes to the url, so the url is fetched at most twice; a 401 on the retry rejects |
| QueryClient.Browser.constructor | Admin/client/src/lib/queryClient.ts:15 | The stored token and location given; no request sent |
| QueryClient.Browser.Fetch | Admin/client/src/lib/queryClient.ts:24-29 | The request is logged and answered by the network |
| QueryClient.Browser.ApiRequest | Admin/client/src/lib/queryClient.ts:10-67 | The requests sent, the token left stored, the location and the result are exactly those of `Exchange` |
| QueryClient.ThrowIfResNotOk | Admin/client/src/lib/queryClient.ts:3-8 | An error message iff the response is not OK |
| QueryClient.ErrorMessageNamesStatus | Admin/client/src/lib/queryClient.ts:3-8 | The text before the first colon reads back as the status; after ": " comes the body text, or the status text when the body is empty |
| QueryClient.QueryUrl | Admin/client/src/lib/queryClient.ts:75 | The query key joined with "/" splits back into the key when no part contains "/" |
| QueryClient.QueryFn | Admin/client/src/lib/queryClient.ts:74-85 | `null` iff "returnNull" and the answer is 401; the JSON body iff the answer is OK and JSON; any other non-OK answer rejects with the `throwIfResNotOk` message |
| QueryClient.UnauthorizedThrows | Admin/client/src/lib/queryClient.ts:79-84 | Under "throw", a 401 rejects with a message starting "401: " |
| Session.HeaderCarriesToken | Admin/client/src/lib/queryClient.ts:20-22 | The header the client builds gives the server's token guard back exactly the stored token |
| Session.ExpiredTokenIsNotRefreshed | Admin/client/src/lib/queryClient.ts:32 | A token that fails the guard's verification earns 403, so the client makes no refresh call, keeps the token and rejects |
| Middleware.Describe | server/index.ts:85-89 | The line starts `METHOD path status in Nms`; with a truthy captured body it continues with " :: " and the body's JSON, otherwise it is exactly that head |
| Middleware.Truncate | server/index.ts:91-93 | A line of at most `cap` characters is unchanged; a longer one is its first `cap - 1` characters plus the suffix |
| Middleware.TruncateBound | server/index.ts:91-93 | The cut keeps lines within `cap` iff the suffix is at most one character; the kept text is a prefix of the line |
| Middleware.LoggedResponse.constructor | server/index.ts:73 | Nothing captured, nothing written |
| Middleware.LoggedResponse.Json | server/index.ts:76-79 | The body is captured (the last one wins) and still sent |
| Middleware.LoggedResponse.FinishLine | server/index.ts:81-96 | No line outside `/api`; otherwise the described line, cut; Admin/server/index.ts:74-80 is the same with its own cap and suffix |
| Middleware.ErrorStatus | server/index.ts:111 | `err.status` if truthy, else `err.statusCode` if truthy, else 500; never falsy |
| Middleware.ErrorMessage | server/index.ts:112 | `err.message` when truthy, else "Internal Server Error" |
| Middleware.HandleError | server/index.ts:110-114 | The chosen status, and a body of exactly `{ message }` |
| Middleware.ExplicitStatusWins | server/index.ts:111 | A non-zero numeric `status` is the status the handler passes to `res.status` |
| Middleware.PlainErrorIs500 | server/index.ts:111-114 | An error with none of the properties, or with both statuses 0, is a 500 "Internal Server Error" |
| ServerEntry.LogLineAsWritten | server/index.ts:91-93 | The cut as written: short lines are unchanged |
| ServerEntry.AsWrittenOverflows | server/index.ts:92 | As written, every overlong line is logged at 82 characters |
| ServerEntry.LogLine | dist/index.js:935 | The intended cut: at most 80 characters, with the first 79 kept and "…" last |
| ServerEntry.AsWrittenAgreesOnShortLines | server/index.ts:91-93 | The written and intended cuts agree exactly on the lines they keep whole |
| AdminEntry.LogLine | Admin/server/index.ts:78 | At most 120 characters; a longer line is its first 119 plus "…" |
| AdminEntry.ErrorLog | Admin/server/index.ts:92 | `Error: <message> (<status>)`, with the message and status the handler passes to `res.status(...).json(...)` |
| AdminEntry.ToNumber | Admin/server/index.ts:108 | A missing variable reads as NaN |
| AdminEntry.Port | Admin/server/index.ts:108 | Never 0: NaN or 0 gives 8080, any other number is used |
| AdminEntry.PortFromEnvironment | Admin/server/index.ts:108 | A positive decimal PORT is that port; a missing, empty, "0" or non-numeric one gives 8080 |

## Left out

- JWT, zod, bcrypt, the route-level store calls and `JSON.stringify` are oracles; their own behaviour is not modelled.
- The `fetch` transport, `credentials: "include"`, cookies, sessions, helmet and CORS are not modelled.
- `app.listen`, Vite, static file serving and `console` output are not modelled.
- Numbers are integers: floating point, NaN arithmetic and `Date` values are not modelled. Timestamps are integer clock readings, and one reading is used for both `createdAt` and `updatedAt`, where the code calls `new Date()` twice.
- AdminEntry.ToNumber: reads only decimal integers with an optional sign, after trimming ASCII white space. Hex, exponent, fractional and "Infinity" forms read as NaN, where `Number` would give a number.
- Asynchrony, interleaving of requests, WebSocket backpressure and close timing are not modelled. `broadcast` runs over a snapshot of the clients.
- Hub.Registry.Disconnect: a closed socket stays in the list as `Closed` instead of being removed, which has the same effect on broadcasts.
- A non-array `channels` value is out of scope: the model requires a sequence of strings. In the server a string there makes `includes` match substrings. Any other truthy non-array value (a number, `true`, an object) leaves `subscriptions.includes` undefined, so every later `broadcast` throws inside its `forEach` (server/routes.ts:127-136) once it reaches that open client. The caller then falls into its catch: `adminCreate` answers 400 after the item was created, register answers 400 after the user was created, and login answers 500. One client can thus break every later broadcast.
- StorageLists.Passes: a record whose searched field is missing or is not a string fails the filter. In the store, `includes` on `undefined` or on a number throws a TypeError, and on an array it matches whole elements rather than substrings.
- Handlers.WithCreator: `Spread` copies the properties of an object only, so an array body is treated as empty, where `{...body}` copies its index keys.
- Session.ExpiredTokenIsNotRefreshed: the admin API's own routes (Admin/server/routes.ts) are not part of this model; the lemma assumes its guard answers as server/routes.ts's `authenticateToken` does.
- Storage.MemStorage.MarkNotificationAsRead: it replaces the stored record; the aliasing by which the code also changes a record returned earlier is not modelled.
- Storage.MemStorage: the create methods assume nothing about `nanoid()`. A reused id overwrites the entry, and the appending guarantee is stated only for a fresh id.
- The register-then-login scenario across the store is not modelled, because the route handlers see the store as a stateless oracle.
- `GET /api/user/profile`, the public lists, the AI chat route, server/storage.ts, Admin/server/config/jwt.ts and Admin/client/client/src/lib/upload-api.ts are not part of this model.
- Unicode normalisation and case folding are not modelled; strings are sequences of characters.
- Line lengths count Unicode scalar values, where JavaScript's `length` and `slice` count UTF-16 code units. For a log line holding a character outside the Basic Multilingual Plane (an emoji in a JSON body, say) the cut point differs, the 80- and 120-character bounds and the 82 of `ServerEntry.AsWrittenOverflows` are in scalar values rather than code units, and the split JavaScript can make inside a surrogate pair is not modelled.

## Findings

| source | as written | input that shows it | evidently intended | confidence | as-written member | corrected member |
|---|---|---|---|---|---|---|
| server/index.ts:92 | The suffix literal is the UTF-8 bytes of "…" read back as three characters, "â€¦", so a cut line is 79 + 3 = 82 characters long | Any logged line of 81 characters or more, e.g. a `GET /api/scholarships 200 in 3ms :: <body>` line with a body longer than about 50 characters | A one-character ellipsis, as the compiled bundle has at dist/index.js:935, giving lines of at most 80 characters | high (not executed) | ServerEntry.AsWrittenOverflows | ServerEntry.LogLine |
