# Flux backend core in Dafny

Flux is a mentoring marketplace. Students book one-hour sessions with approved mentors. They chat during the session, upload files and pay from a wallet, which they top up through a payment gateway. This project models the server side of that core in Dafny:

- the Mongoose schemas for users, transactions, sessions, messages, mentors and mentor availability;
- the Express route handlers for payments, sessions, uploads, stream chat, mentors and the waitlist;
- the websocket relay;
- the access guards and the onboarding validator;
- the browser-side sign-in store.

It then proves what those handlers promise.

Layout:

- **Database.** The MongoDB collections live in one object, `Store.Database`. Its fields are the users, transactions, sessions, mentors, messages and waitlist entries. `Database.Valid()` collects what the schemas enforce:
  - required fields and enums;
  - the `balance >= 0` validator;
  - rating bounds;
  - the unique indexes on users and mentors (not the one on availability records; see "Left out").
- **Route handlers.** Each handler is one method over the database. It names the collections it writes in `modifies`. Its `ensures` gives the reply and the new contents of those collections, branch by branch. Every 4xx branch leaves them unchanged, and every handler preserves `Valid()`.
- **Websocket server.** This is a `Hub` object holding `Socket` objects. The `forEach` send loops are `for` loops over the clients.
- **Pure parts** are functions with lemmas about them. These are the signed payload, the clash window, per-minute billing, block pricing, the slot-time pattern, the e-mail and phone patterns, and the redirect decision.
- **Outside calls** are parameters of the methods that use them:
  - HMAC-SHA256 is a function `string -> string`;
  - the payment gateway and jwt.verify are functions;
  - token minting is a function that may fail (`Option` results);
  - the chat/video service and e-mail sending are success flags or `Option` results;
  - the clock is a `now` argument.

Facts about the code that the model keeps as they are:

- A bad signature answers 400 and leaves the transaction pending.
- `session.mentor` holds a Mentor document id, but start, end, the status update, the stream token and chat routes and upload compare it with the requester's user id. So the mentor's own user gets 403 from start and end, and is not a participant elsewhere. The model keeps the comparison as written: only a requester whose id equals `session.mentor` passes.
- An upload adds to `session.totalCost`; it writes no transaction and changes no balance.
- No route charges for text messages.
- A replayed payment callback answers 404, because the first delivery left no pending row for the order.
- Nothing prevents two pending rows with the same order id; verification settles the first one it finds.

## Model

| member | source | states |
|---|---|---|
| UserModel.NewUser | backend/models/User.js:18-42 | a new user is a student with mentorStatus none, balance 10 and 0 sessions attended, and passes validation |
| UserModel.SaveError | backend/models/User.js:8-38 | saving fails exactly when email or name is empty or the balance is negative; a negative balance is reported as "Balance cannot be negative" |
| UserModel.ParseRole | backend/models/User.js:18-22 | the role enum admits exactly student, mentor and admin |
| UserModel.ParseMentorStatus | backend/models/User.js:23-27 | the mentorStatus enum admits exactly none, pending, approved and rejected |
| UserModel.UpdateKeepsUsersOk | backend/models/User.js:4-37 | changing a user without touching email, googleId or name, and with a non-negative balance, keeps every document valid and both unique indexes intact |
| TransactionModel.Entry | backend/models/Transaction.js:3-38 | a new row is pending, has no order or payment id, keeps the given user, type, amount and balance, and is valid when its description is non-empty |
| SessionModel.ParseStatus | backend/models/Session.js:20-24 | the status enum admits exactly scheduled, ongoing, completed, cancelled and no_show |
| SessionModel.NewSession | backend/models/Session.js:3-30 | a new session is scheduled with payment pending, no rating, no end time, no amount and an empty chat history |
| SessionModel.BilledMinutes | backend/routes/session.routes.js:137-138 | the billed minutes m satisfy (m-1)·60000 < duration ≤ m·60000: a started minute counts in full |
| MessageModel.NewMessage | backend/models/Message.js:3-42 | a message built from its required fields costs 0, is of type text and has no read receipts |
| MentorModel.ParseGender | backend/models/Mentor.js:24-28 | the gender enum admits exactly male, female and others |
| MentorModel.ParseArea | backend/models/Mentor.js:56-59 | the area enum admits exactly coding-software, mba-cat, freelancing and career-job |
| MentorModel.ParseStatus | backend/models/Mentor.js:70-74 | the mentor status enum admits exactly pending, approved and rejected |
| MentorModel.ParseAreas | backend/models/Mentor.js:56-59 | a list of areas is accepted exactly when every element is an area name, and the result names them in order |
| MentorModel.Build | backend/models/Mentor.js:3-134 | a mentor document exists exactly when the required fields are set and the enums hold, including every availability day; status defaults to pending; ratings.count and ratings.reviews are taken from the fields when given and default to 0 and no reviews; the counters default to 0 and isFeatured to false |
| MentorModel.ParseWeekday | backend/models/Mentor.js:78-81 | the availability day enum admits exactly the seven lower-case weekday names |
| MentorModel.UnknownDayNotBuilt | backend/models/Mentor.js:77-81 | fields whose availability names a day outside the enum build no document |
| MentorModel.UpdateKeepsMentorsOk | backend/models/Mentor.js:4-19 | replacing a mentor with a valid one that has the same user and email keeps the collection valid and unique |
| MentorModel.InsertKeepsMentorsOk | backend/models/Mentor.js:4-19 | inserting a valid mentor whose user and email are new keeps the collection valid and unique, with the id appended once to the insertion order |
| Availability.SlotMinutes | backend/models/MentorAvailability.js:60-62 | a two-digit time reads as minutes since midnight, below 24·60 |
| Availability.SlotTimeDecomposes | backend/models/MentorAvailability.js:8-23 | every string the slot pattern accepts is an hour 0..23 and a minute 0..59, written as HH:mm or, for hours below ten, H:mm |
| Availability.SlotTimeForms | backend/models/MentorAvailability.js:8-23 | conversely, every hour and minute in range is accepted in the two-digit form, and in the one-digit form when the hour is below ten |
| Availability.TwoDigitMinutes | backend/models/MentorAvailability.js:60-62 | a two-digit time reads back as exactly h·60+m |
| Availability.FirstBadTime | backend/models/MentorAvailability.js:8-23 | no value is reported exactly when every start and end passes the pattern; a reported value fails the pattern and belongs to some slot |
| Availability.ScheduleError | backend/models/MentorAvailability.js:8-68 | a schedule saves exactly when every slot's times pass the pattern and no slot ends at or before its start |
| Availability.OrderCheckOnTwoDigitTimes | backend/models/MentorAvailability.js:59-68 | for two-digit times, a slot is refused exactly when the end is not strictly after the start |
| Availability.MentorAvailability.constructor | backend/models/MentorAvailability.js:27-54 | a new record has an empty week, is offline, has timezone "UTC" and lastSeen set to the creation time |
| Availability.MentorAvailability.Save | backend/models/MentorAvailability.js:59-76 | the save reports the schedule's error and then changes nothing; otherwise lastSeen becomes the save time exactly when isOnline is marked modified and is now false, is kept otherwise, and the mark is cleared |
| Availability.GoOfflineTwice | backend/models/MentorAvailability.js:70-76 | going offline stamps the save time, and a second save without a change keeps it |
| Availability.MentorAvailability.SetOnline | backend/models/MentorAvailability.js:43-46 | assigning isOnline marks it modified when the value changes and keeps an earlier mark |
| Availability.ToggleBackStamps | backend/models/MentorAvailability.js:70-76 | going online and back offline between two saves still stamps lastSeen at the save |
| Store.Database.constructor | backend/models/User.js:3-59 | an empty database is valid |
| Payment.SignedPayload | backend/routes/payment.routes.js:64 | the signed string is the order id, a bar, then the payment id |
| Payment.PayloadDeterminesIds | backend/routes/payment.routes.js:64-72 | when order ids contain no bar, equal signed strings mean equal order and payment ids |
| Payment.PendingCredit | backend/routes/payment.routes.js:29-37 | the create-order row is a pending "Wallet recharge" credit for the amount, with the gateway order id and balance = prior balance + amount |
| Payment.DebitRow | backend/routes/payment.routes.js:147-155 | the deduct row is a completed debit whose amount is −amount and whose balance is the new balance |
| Payment.FirstPending | backend/routes/payment.routes.js:75-78 | the lookup finds the first row still pending for the order, or reports that there is none |
| Payment.SettleConsumesOne | backend/routes/payment.routes.js:75-87 | settling a pending row leaves one fewer pending row for its order, so each pending credit can be settled at most once |
| Payment.NoPendingNoMatch | backend/routes/payment.routes.js:75-82 | the lookup fails exactly when no row is pending for the order |
| Payment.CreateOrder | backend/routes/payment.routes.js:15-52 | the gateway is asked for amount·100 paise; on success exactly one pending credit row is appended and the reply carries the order id, amount·100 and INR; a gateway failure changes nothing |
| Payment.Verify | backend/routes/payment.routes.js:55-105 | a signature mismatch answers 400 and changes nothing; with no pending row it answers 404 and changes nothing; otherwise that row alone is completed with the payment id, and only its owner is credited, by exactly the stored amount; rows already settled are never touched; balances stay non-negative |
| Payment.ReplayedCallback | backend/routes/payment.routes.js:75-92 | delivering the same valid callback twice credits the wallet once and answers 404 the second time |
| Payment.Wallet | backend/routes/payment.routes.js:108-118 | the reply is the requester's balance, which is never negative |
| Payment.OwnRowsExactly | backend/routes/payment.routes.js:123-125 | the history list holds exactly the requester's rows |
| Payment.History | backend/routes/payment.routes.js:121-134 | the reply is the requester's rows, newest first, at most 20 |
| Payment.Deduct | backend/routes/payment.routes.js:137-172 | a missing user or a balance below amount answers "Insufficient balance" and changes nothing; otherwise one completed debit of −amount is appended and the balance drops by exactly amount, never below zero |
| SessionRoutes.WindowLooksForwardOnly | backend/routes/session.routes.js:20-31 | a live session starting d ms after t blocks t, while one starting d ms before t does not (0 < d < 1 h) |
| SessionRoutes.ChargeBounds | backend/routes/session.routes.js:137-141 | for non-negative duration and rate, the charge covers duration·rate/60000 and exceeds it by less than one minute's rate |
| SessionRoutes.Ended | backend/routes/session.routes.js:133-141 | an ended session is completed at now, with duration = billed minutes of now − start and amount = duration · rate, other fields kept |
| SessionRoutes.Book | backend/routes/session.routes.js:9-77 | 404 and nothing created for a missing or unapproved mentor; 400 and nothing created exactly when a live session of the mentor starts in [t, t+1 h); otherwise exactly one scheduled session with student = requester and start t is added |
| SessionRoutes.EarlierSlotRefused | backend/routes/session.routes.js:20-35 | a booking half an hour before an existing one is refused |
| SessionRoutes.Start | backend/routes/session.routes.js:80-112 | checks in order: 404 when missing, 403 unless the requester is session.mentor, 400 unless scheduled; a failed channel set-up changes nothing; otherwise the session becomes ongoing with startTime = now |
| SessionRoutes.End | backend/routes/session.routes.js:115-161 | the same 404/403 checks, 400 unless ongoing; on success the session is completed and billed, and the mentor gains one session, the billed minutes and the amount |
| SessionRoutes.UpdateStatus | backend/routes/session.routes.js:186-222 | only a participant may update (403 otherwise); any enum status is set from any status; endTime is set only for completed, which also adds one session and the amount to the mentor's counters |
| SessionRoutes.StoredRating | backend/routes/session.routes.js:234 | the session keeps a rating exactly when the body gives a number, and then that number |
| SessionRoutes.Feedback | backend/routes/session.routes.js:225-264 | only the session's student may rate (403 otherwise); an out-of-range rating changes nothing; a missing mentor or an absent rating (NaN average) answers 500 after the session is saved, with no review; otherwise the mentor gains exactly one review and one count, a null rating giving a review without a rating |
| SessionRoutes.ReviewedKeepsCount | backend/routes/session.routes.js:240-255 | a feedback keeps the mentor's review count equal to the number of reviews and keeps earlier reviews in place |
| Upload.BlocksUnderCap | backend/routes/upload.routes.js:29-59 | under the 5 MiB cap a file is 0..5 blocks, and 0 blocks only when it is empty |
| Upload.FileKind | backend/routes/upload.routes.js:74 | the message type is image exactly when the MIME type starts with "image/", and file otherwise |
| Upload.FileMessage | backend/routes/upload.routes.js:68-80 | the stored message has the file name as content, the computed cost and the file metadata |
| Upload.UploadCostBounds | backend/routes/upload.routes.js:55-61 | a student pays between 0 and 5 blocks' worth; the mentor, or an empty file, pays 0 |
| Upload.Upload | backend/routes/upload.routes.js:34-108 | no file answers 400, a missing session 404 and a non-participant 403, each changing nothing; a student's totalCost grows by exactly ceil(size/MiB)·ratePerBlock and a mentor's upload leaves it alone; one message is appended; NEW_MESSAGE reaches exactly the open connections whose sessionId is the route's |
| Realtime.Socket.Send | backend/services/websocket.service.js:26-51 | a frame is appended to an open connection's output and dropped on a closed one |
| Realtime.Hub.Connect | backend/services/websocket.service.js:10-75 | a missing token closes with 1008 and a failed verification with 1011, neither setting userId; a verified token sets userId and sends CONNECTION_SUCCESS to that connection only; sessionId stays unset |
| Realtime.Hub.Fanout | backend/services/websocket.service.js:38-57 | each client receives the frame exactly when it is open and selected, and nothing else changes |
| Realtime.Hub.OnMessage | backend/services/websocket.service.js:32-58 | NEW_MESSAGE with a sessionId is relayed unchanged to every open client of that session, the sender included; TYPING goes to open same-session clients with a different userId; anything else sends nothing |
| Realtime.RelayReachesNobody | backend/services/websocket.service.js:37-43 | while no connection has a sessionId, a relayed NEW_MESSAGE reaches nobody |
| StreamRoutes.IssueTokens | backend/routes/stream.routes.js:12-38 | 404 for a missing session, 403 for a non-participant; otherwise 200 with both tokens minted for the requester exactly when both mints succeed, and 500 "Error generating tokens" when either fails |
| StreamRoutes.InitChannels | backend/routes/stream.routes.js:41-75 | 404 for a missing session; success exactly when the mentor and student documents exist and the service call succeeds; channel and call are keyed by the session id |
| StreamRoutes.PostChatMessage | backend/routes/stream.routes.js:78-108 | 404/403 leave the history unchanged; a participant's entry goes at the end with sender = requester, and the reply is the full history |
| StreamRoutes.TwoPosts | backend/routes/stream.routes.js:94-101 | two posts keep the earlier entries and add both new ones in order |
| MentorRoutes.ApplicationFields | backend/routes/mentor.routes.js:19-24 | the application takes the body's user when given, else the requester, but always the requester's email and status pending |
| MentorRoutes.ApplicationIsPending | backend/routes/mentor.routes.js:19-24 | a built application is pending and carries the requester's email whatever the body says, and its ratings are the ones the body gives |
| MentorRoutes.Apply | backend/routes/mentor.routes.js:8-56 | 400 and nothing created when the requester already has a mentor; validation failures and unique clashes answer 500 with nothing changed; otherwise one mentor is inserted and the user's mentorStatus becomes pending |
| MentorRoutes.MatchingExact | backend/routes/mentor.routes.js:72-79 | the listing holds only mentors that are approved and meet every given filter, and every such mentor is in it |
| MentorRoutes.Window | backend/routes/mentor.routes.js:93-94 | the page is the contiguous run of the matches starting at skip, exactly as long as the absolute value of limit or the remaining rows, whichever is shorter, or all remaining rows when limit is 0 |
| MentorRoutes.PageCount | backend/routes/mentor.routes.js:102 | for a positive limit, pages = ceil(total/limit) |
| MentorRoutes.ListMentors | backend/routes/mentor.routes.js:59-114 | a negative skip answers 500; otherwise the reply is the window of the matches, with total = number of matches and pages = ceil(total/limit) |
| MentorRoutes.Decided | backend/routes/mentor.routes.js:130-133 | after a decision the user's role is mentor exactly when approved and student otherwise, and mentorStatus names the decision |
| MentorRoutes.Decide | backend/routes/mentor.routes.js:117-154 | 404 for a missing mentor; a status outside the enum changes nothing; otherwise the mentor takes the status and its user the matching role and mentorStatus |
| MentorRoutes.Patched | backend/routes/mentor.routes.js:208-217 | only headline, bio, languages, availability, ratePerMinute and socialLinks change, each only when given |
| MentorRoutes.UpdateProfile | backend/routes/mentor.routes.js:194-228 | without an own approved profile it answers 404 and changes nothing; otherwise only that profile is patched, or nothing changes when the patch fails validation |
| MentorRoutes.UnknownDayRefused | backend/routes/mentor.routes.js:213-219 | a patch whose availability names a day outside the enum fails the save's validation |
| Onboarding.FirstMissing | backend/middleware/mentorValidation.middleware.js:15-21 | it finds the first missing field in order, or reports that all are present |
| Onboarding.EmailOkExactly | backend/middleware/mentorValidation.middleware.js:24-29 | the e-mail pattern holds exactly when there is no whitespace, exactly one '@' that is not first, and a '.' in the domain that is neither its first nor its last character |
| Onboarding.NumericPhonePasses | backend/middleware/mentorValidation.middleware.js:32-37 | a ten-digit phone sent as a JSON number passes the pattern |
| Onboarding.OnboardingError | backend/middleware/mentorValidation.middleware.js:1-40 | the request passes exactly when all eleven fields are present, the e-mail matches and the phone is ten digits |
| Onboarding.Validate | backend/middleware/mentorValidation.middleware.js:15-39 | the loop reports "<Field> is required" for the first missing field in order, then the e-mail, then the phone check |
| Onboarding.ZeroExperienceIsMissing | backend/middleware/mentorValidation.middleware.js:16 | an experience of 0 is reported as "Experience is required" |
| AuthMiddleware.IsAuthenticated | backend/middleware/auth.middleware.js:3-9 | passes exactly when signed in with passport data, else 401 |
| AuthMiddleware.IsMentor | backend/middleware/auth.middleware.js:11-20 | 401 when not signed in; otherwise passes exactly for an approved mentor, else 403 |
| AuthMiddleware.IsAdmin | backend/middleware/auth.middleware.js:22-31 | 401 when not signed in; otherwise passes exactly for an admin, else 403 |
| AuthMiddleware.GuardsAgree | backend/middleware/auth.middleware.js:3-31 | a 403 only follows a successful sign-in check, a passing role guard implies the sign-in guard passes, and no request passes both role guards |
| AuthMiddleware.CleanupSession | backend/middleware/auth.middleware.js:33-43 | the session is logged out and destroyed exactly when now is past the cookie expiry, and the request always continues |
| WaitlistRoutes.JoinAllKeepsOnce | backend/routes/waitlist.routes.js:15-22 | after any series of joins each address is listed at most once, and the list holds exactly the earlier entries and the non-empty joined addresses |
| WaitlistRoutes.Join | backend/routes/waitlist.routes.js:6-33 | a missing email answers 400, a known one 200, both unchanged; a new one is appended once with 201 |
| WaitlistRoutes.Count | backend/routes/waitlist.routes.js:36-44 | the count is the number of entries |
| WaitlistRoutes.JoinTwice | backend/routes/waitlist.routes.js:15-27 | joining twice answers 201 then 200 and lists the address once |
| AuthStore.Redirect | frontend/src/store/authStore.js:69-92 | for a mentor login: dashboard for an approved mentor, inreview for a pending one, onboard otherwise; else the stored redirect when set; else /browse |
| AuthStore.Store.Login | frontend/src/store/authStore.js:12-24 | stores the login type, and for a normal login the current path only if no redirect is stored |
| AuthStore.Store.Logout | frontend/src/store/authStore.js:26-52 | removes user, loginType, mentorSignUpFlow and redirectAfterLogin, clears the user and goes to "/" |
| AuthStore.Store.GetCurrentUser | frontend/src/store/authStore.js:54-97 | returns the cached user without fetching while loading or signed in; on fetch failure clears the user and redirects to /login; otherwise stores the user, redirects as decided and removes the key it used |
| AuthStore.RedirectUsedOnce | frontend/src/store/authStore.js:84-92 | a stored redirect is used once; the next resolution goes to /browse |

## Left out

- Concurrency: each handler is one atomic step. Deduct's read-check-write and verify's two saves can interleave across requests in the real server; no race freedom is claimed.
- Floating point:
  - `ratings.average` and the running mean that feedback computes;
  - the `minRating`/`maxRate` listing filters, which use `parseFloat`;
  - fractional amounts.
  Amounts, rates and sizes are integers.
- MentorRoutes.ListMentors: the `$regex` search filter is not modelled. The ratings/isFeatured sort is replaced by insertion order. Query strings that are not numbers (NaN page or limit) are not modelled.
- E-mail sending, the payment gateway's order call, HMAC-SHA256, jwt.verify, the chat/video service, and Cloudinary/multer storage are outside code. They appear as parameters or success flags.
- `session.touch()` in the guards is not modelled: it only renews the cookie.
- Upload.Upload: `ratePerBlock` and `totalCost` are modelled as integer session fields. backend/models/Session.js declares neither. With the schema as written, both read as undefined, and the computed cost is NaN. The message's `cost` (backend/models/Message.js:18-21) then fails to cast, so every student upload answers 500, stores no message and relays nothing. A requester who is not the student gets 403 unless their user id equals `session.mentor`, a Mentor document id, so the mentor's own user is refused. The model gives the behaviour the integer fields would have.
- SessionRoutes.Start: the model stores `streamData` in the session. backend/models/Session.js does not declare `streamData`, so with the schema as written it is neither saved nor returned.
- SessionRoutes.UpdateStatus: an absent `status` in the body is not modelled. The model takes a string.
- MentorRoutes.Decide: an absent `status` in the body is not modelled; the model takes a string. In the code the mentor's status is then unset and saved, and the owner is updated to role student. Then `status.charAt` in the e-mail subject throws, giving 500 after both writes. A mentor with no status cannot be represented here. What the user update does with an undefined `mentorStatus` depends on the Mongoose version.
- SessionRoutes.UpdateStatus: the `totalMinutesTaught` increment reads `session.duration`, which does not exist. It is taken to be dropped from the update.
- SessionRoutes.Start: `initializeStreamChannels` is imported but not exported by backend/utils/streamService.js. So in the real code every start that passes the checks answers 500. The step is a parameter that may fail.
- GET /my-sessions is not modelled. It is a read with populate and a sort.
- GET /applications/pending and GET /profile/:mentorId are not modelled. They are reads with populate.
- User fields `recentSessions` and `createdAt` are not modelled. Transaction `metadata` (Mixed) and timestamps are not modelled. The mentor's embedded `sessions` and `chatHistory`, and review `createdAt`, are not modelled.
- Availability.SlotMinutes: a one-digit hour reads as an invalid date, so such a slot is never refused by the ordering check. The real parse is engine-dependent. The hook's second `next()` after an error is not modelled; the save simply fails.
- Realtime.Hub.OnMessage: frames that are not valid JSON are not modelled (they are caught and send nothing). JOIN_SESSION, which the chat page sends, has no handler. Nothing assigns a connection's `sessionId`. Sending on a connection that is still connecting (which throws) is treated like a closed one.
- Onboarding: numbers are integers, and their decimal text is not modelled in exponent form (magnitude 10^21 or more). No route in the code shown applies this validator.
- Availability.MentorAvailability: the unique index on `mentor` (one availability record per mentor, backend/models/MentorAvailability.js:28-33) is not modelled. The model has a single record as an object and no collection of them. No route in the code creates or reads availability records.
- Ids: documents are keyed by plain strings, and an id that is not a key answers 404. In the code a path or body id that is not a well-formed ObjectId makes the lookup throw a cast error. The route's catch then answers 500 with nothing written. The lines below name each route where this applies.
- SessionRoutes.Book: a malformed `mentorId` answers 500 "Error booking session" (backend/routes/session.routes.js:14); the model answers 404.
- SessionRoutes.Start: a malformed session id answers 500 "Error starting session" (backend/routes/session.routes.js:82); the model answers 404.
- SessionRoutes.End: a malformed session id answers 500 "Error ending session" (backend/routes/session.routes.js:117); the model answers 404.
- SessionRoutes.UpdateStatus: a malformed session id answers 500 "Error updating session" (backend/routes/session.routes.js:189); the model answers 404.
- SessionRoutes.Feedback: a malformed session id answers 500 "Error adding feedback" (backend/routes/session.routes.js:228); the model answers 403.
- Upload.Upload: with a file present, a malformed session id answers 500 "Error uploading file" (backend/routes/upload.routes.js:44); the model answers 404.
- StreamRoutes.IssueTokens: a malformed session id answers 500 "Error generating tokens" (backend/routes/stream.routes.js:14); the model answers 404.
- StreamRoutes.InitChannels: a malformed session id answers 500 "Error initializing session channels" (backend/routes/stream.routes.js:43); the model answers 404.
- StreamRoutes.PostChatMessage: a malformed session id answers 500 "Error storing chat message" (backend/routes/stream.routes.js:81); the model answers 404.
- MentorRoutes.Decide: a malformed mentor id answers 500 "Error updating mentor status" (backend/routes/mentor.routes.js:120); the model answers 404.
- MentorRoutes.Apply: a body `user` that is not an ObjectId fails the cast of the `user` path (backend/models/Mentor.js:4-9) when the mentor is saved (backend/routes/mentor.routes.js:25). That answers 500 with nothing written; the model inserts the mentor and marks the requester pending.
- MentorModel.Build: does not check that `user` is a well-formed ObjectId, which Mongoose's cast does.
- Realtime.Hub.Connect: a token that verifies but carries no `id` is not modelled. The code then sets `userId` to undefined and still sends CONNECTION_SUCCESS; the model's `verify` yields an id or nothing.
- The Waitlist model (backend/models/Waitlist.js) is not part of this model. The collection is a list of addresses.
- Where the routers and the websocket server are mounted is not modelled. backend/index.js mounts neither the payment, upload and waitlist routers nor the websocket server.
- The response bodies are reduced to their status code and the fields the contracts speak about.
