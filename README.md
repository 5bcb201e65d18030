# AgentPWA care-manager chat: a verified model of its core

This project models, in Dafny, the parts of the AgentPWA chat server and client
whose behaviour can be stated precisely:

- **The AgentForce bridge** (`server/routes.ts`). A chat message is POSTed to an
  external AI hook. The caller is then parked in a process-wide map from message id
  to resolver until the hook calls `/api/agentforce/callback` or a 30-second timer
  fires. The model is a sequential state machine (`Correlator.Pending`: the map plus
  a log of every resolver call). Dispatches, callbacks and timer firings are events
  that may interleave in any order. The class `Correlator.PendingResponses` holds
  the map as a mutable field, and its methods are proved against the pure step
  functions. Proved: exactly-once resolution, removal on resolution, no effect from
  late or repeated callbacks, a single winner of the callback/timer race, and the
  timer bounding every wait.
- **The webhook payload** (`Webhook`). It covers the callback URL, the
  `message_type` default and the `audio_url` taken out of the content by
  `/Audio message: (.+)/`, with JavaScript's line-terminator rule for `.`. Its
  partner is the audio content that `/api/messages` builds; the round trip between
  the two is proved.
- **The signup and login decisions** (`Routes`). Proved: a signed-up user can log
  in with the same password, any other password is refused with the same answer as
  an unknown email, and signup keeps emails unique.
- **`MemStorage`** (`server/storage.ts`, module `Storage`). Three tables in
  insertion order, their create and query operations, the conversation `updatedAt`
  bump, and the mock `bcrypt`. The queries are a filter followed by a stable sort.
  Generic lemmas in `Sequences` prove that sort is a permutation, that it is
  ordered, and that it keeps ties in insertion order. They also prove that no other
  order has all three properties.
- **The client's `AuthService`** (`client/src/lib/auth.ts`, module `ClientAuth`).
  The current-user slot with set, clear and logout. `getUserInitials` as the
  split / first-character / join / upper-case / slice pipeline, proved equal to an
  independent definition: the upper-cased characters that begin words.

Fresh ids (`Date.now`/`Math.random`, `randomUUID`) and clock readings
(`new Date()`, `toISOString`) are inputs. So is the outcome of the `fetch` call:
ok, not ok, or thrown. Timestamps are integers (milliseconds).

The code registers a waiter only after `fetch` has returned an ok response
(server/routes.ts:256-266), not before the outbound call. A failed call therefore
never touches the map. A callback that arrives before registration is answered 404,
and its caller then waits for the timer. `Correlator.EarlyCallbackIsLost` states this.

## Model

| member | source | states |
|---|---|---|
| Correlator.CallbackText | server/routes.ts:196-200 | a truthy `error` gives the error apology; otherwise a non-empty `response` is passed through; otherwise the "didn't get a response" fallback; never empty |
| Correlator.DispatchReply | server/routes.ts:248-280 | the caller waits exactly when `fetch` answered ok; a non-ok answer gives the "trouble connecting" text at once, a thrown error the "trouble processing" text |
| Correlator.AfterDispatch | server/routes.ts:256-266 | a failed dispatch leaves map and log unchanged; an ok one registers the id with its conversation and touches no other entry |
| Correlator.AfterCallback | server/routes.ts:180-202 | 400 exactly when `message_id` is missing or empty, 404 exactly when it is not pending, both with no state change; otherwise exactly that entry is removed and one resolution with the callback text is logged |
| Correlator.AfterTimeout | server/routes.ts:269-274 | the id is absent afterwards; a pending id is removed and resolved with the "taking longer than usual" text; an absent id changes nothing |
| Correlator.ExactlyOnce | server/routes.ts:188-274 | after any admissible interleaving of events, a call that was waiting is either still pending and unresolved, or gone from the map and resolved exactly once |
| Correlator.ResolutionIsFinal | server/routes.ts:188-194 | once a call is resolved with some text, no later callback or timer resolves it again or changes that text, and its id stays out of the map |
| Correlator.TimerBoundsTheWait | server/routes.ts:269-274 | if the timer of a waiting call fires anywhere in a run, the call is out of the map at the end and resolved exactly once |
| Correlator.CallbackTimeoutRace | server/routes.ts:188-274 | callback then timer, or timer then callback: the first resolves the call and removes the entry, the second is a no-op (404 for the callback), exactly one resolution either way |
| Correlator.EarlyCallbackIsLost | server/routes.ts:248-274 | a callback that arrives before the ok dispatch registers its id gets 404 and changes nothing; the call registered afterwards is then settled by its timer |
| Correlator.PendingResponses.constructor | server/routes.ts:214 | the process starts with an empty map and no resolutions |
| Correlator.PendingResponses.GenerateAIResponse | server/routes.ts:217-281 | POSTs to the fixed AgentForce hook URL, builds the payload, returns the immediate reply of a failed dispatch or waits, and changes the map exactly as `AfterDispatch`, keeping the invariant |
| Correlator.PendingResponses.HandleCallback | server/routes.ts:180-207 | returns the status and leaves the state that `AfterCallback` gives, keeping the invariant |
| Correlator.PendingResponses.FireTimeout | server/routes.ts:269-274 | leaves the state that `AfterTimeout` gives, keeping the invariant |
| Webhook.CallbackUrl | server/routes.ts:222-224 | the callback address is the public base URL of the message route followed by `/api/agentforce/callback` |
| Webhook.MessageTypeDefaulting | server/routes.ts:232 | `message_type` is never empty, is `"text"` exactly when the given type is missing, empty or `"text"`, and defaulting twice changes nothing |
| Webhook.MatchAudioUrl | server/routes.ts:239-241 | the regex matches exactly when some "Audio message: " is followed by a non-line-terminator; the capture is the non-empty rest of the line after the leftmost such marker |
| Webhook.AudioUrlCharacterised | server/routes.ts:238-243 | `ExtractAudioUrl`: `audio_url` is present exactly when the type is "audio" and the regex matches, and then it is that capture (the `includes` pre-check never changes the outcome) |
| Webhook.BuildPayload | server/routes.ts:228-243 | the payload carries the id, content, conversation and timestamp given; `message_type` is the given type or "text" (see `MessageTypeDefaulting`); `callback_url` is the callback URL; `audio_url` is the extraction of `AudioUrlCharacterised`, so it is non-empty and comes only with type "audio" |
| Webhook.MarkerLineYieldsUrl | server/routes.ts:238-243 | the marker followed by one non-empty line yields exactly that line |
| Webhook.AudioUrlRoundTrip | server/routes.ts:106-111 | the content built for an audio upload yields `audio_url == baseUrl + audioUrl` when neither the domain nor the path holds a line break |
| Webhook.AudioUrlExample | server/routes.ts:238-243 | "Audio message: https://x/y.webm" yields "https://x/y.webm" as audio and nothing as text |
| Webhook.BareMarkerHasNoAudioUrl | server/routes.ts:238-243 | "Audio message:" and "Audio message: " carry no `audio_url` |
| Routes.LoginDecision | server/routes.ts:36-52 | `Login` passes the first user with that email (`FindByEmail`) to this decision: login succeeds exactly for a known email, a matching password and an active account, returning the user without password; every failure is 401, "deactivated" exactly for a correct password on an inactive account, the same message otherwise |
| Routes.Signup | server/routes.ts:14-23 | a known email is refused with 400 and nothing stored; otherwise exactly one user is stored and returned without password |
| Routes.SignupThenLogin | server/routes.ts:15-48 | after signing up with an unknown email, logging in with that email and password succeeds with the new user |
| Routes.WrongPasswordRefused | server/routes.ts:41-44 | any other password is refused with the same 401 answer an unknown email gets |
| Routes.SignupKeepsEmailsUnique | server/routes.ts:15-20 | a user created by signup does not break email uniqueness |
| Routes.MessageTypeDefaultsAgree | server/routes.ts:232 | the payload's `message_type` default and the stored message's `messageType` default agree |
| Storage.HashCompareRoundTrip | server/storage.ts:7-16 | `compare(q, hash(p, r))` holds exactly when `q == p` and `r == 10` |
| Storage.Lookup | server/storage.ts:46-48 | `Map.get` over a table: nothing exactly when no row has the id, else a stored row with that id |
| Storage.FindByEmail | server/storage.ts:50-54 | nothing exactly when no user has the email; otherwise the first user in insertion order that has it |
| Storage.NewUser | server/storage.ts:56-65 | the new user has the fresh id, the given email and name, is active, and its stored hash verifies the given password |
| Storage.NewConversation | server/storage.ts:80-88 | the new conversation has the fresh id and `createdAt == updatedAt == now` |
| Storage.NewMessage | server/storage.ts:103-111 | `messageType` is the given one when non-empty, else "text"; `audioUrl` is kept only when non-empty, else null |
| Storage.TouchOnlyBumpsOwner | server/storage.ts:114-119 | posting a message creates and removes no conversation, changes only `updatedAt` of the conversation with that id, and nothing when no conversation has it |
| Storage.ConversationsOfSpec | server/storage.ts:74-78 | exactly the user's conversations, each as often as stored, `updatedAt` descending, ties in insertion order |
| Storage.ConversationsOfIsUnique | server/storage.ts:74-78 | any list ordered that way with ties in insertion order is the query's result |
| Storage.MessagesOfSpec | server/storage.ts:97-101 | exactly the conversation's messages, each as often as stored, `createdAt` ascending, ties in insertion order |
| Storage.MemStorage.GetUser | server/storage.ts:46-48 | nothing exactly when no stored user has the id, else a stored user with that id |
| Storage.MemStorage.GetUserByEmail | server/storage.ts:50-54 | nothing exactly when no stored user has the email, else the first such user in insertion order |
| Storage.MemStorage.VerifyPassword | server/storage.ts:70-72 | a hash made from `p` with `r` rounds is accepted exactly for the password `p`, and only when `r == 10` |
| Storage.MemStorage.GetConversationsByUserId | server/storage.ts:74-78 | exactly the user's stored conversations, each as often as stored, `updatedAt` descending, ties in insertion order |
| Storage.MemStorage.GetConversation | server/storage.ts:93-95 | nothing exactly when no stored conversation has the id, else a stored conversation with that id |
| Storage.MemStorage.GetMessagesByConversationId | server/storage.ts:97-101 | exactly the conversation's stored messages, each as often as stored, `createdAt` ascending, ties in insertion order |
| Storage.MemStorage.constructor | server/storage.ts:40-44 | the store starts with three empty tables |
| Storage.MemStorage.CreateUser | server/storage.ts:56-68 | exactly one user is appended under the fresh id; other users and tables unchanged |
| Storage.MemStorage.CreateConversation | server/storage.ts:80-91 | exactly one conversation is appended; other tables unchanged |
| Storage.MemStorage.CreateMessage | server/storage.ts:103-122 | exactly one message is appended, and the conversations become `Touch` of the old ones (see `TouchOnlyBumpsOwner`); users unchanged |
| Sequences.Where | server/storage.ts:76 | the filter keeps every occurrence of each element satisfying the predicate and no other element |
| Sequences.WhereAppend | server/storage.ts:76 | filtering a concatenation is the concatenation of the filtered parts, so the kept elements stay in their input order |
| Sequences.SortByCorrect | server/storage.ts:77 | the sort returns a permutation in ascending key order, with every group of equal keys in input order |
| Sequences.SortedAndTiedIsUnique | server/storage.ts:77 | ascending order plus the input order of equal keys determine the sequence |
| ClientAuth.Split | client/src/lib/auth.ts:44 | `split(' ')` yields at least one segment and no segment contains the separator |
| ClientAuth.SplitJoinRoundTrip | client/src/lib/auth.ts:44 | joining the segments with the separator gives back the name |
| ClientAuth.Upper | client/src/lib/auth.ts:47 | upper-casing keeps the length and maps every character by ASCII upper case |
| ClientAuth.GetUserInitials | client/src/lib/auth.ts:42-49 | the initials have at most 2 characters and contain no lower-case ASCII letter |
| ClientAuth.HeadsAreWordStarts | client/src/lib/auth.ts:43-46 | the joined first characters of the segments are the characters that begin words; empty segments contribute nothing |
| ClientAuth.InitialsAreWordStarts | client/src/lib/auth.ts:42-49 | the initials are the first two upper-cased word-beginning characters, in word order |
| ClientAuth.InitialsOfTwoWords | client/src/lib/auth.ts:42-49 | two words give the upper-cased first letter of each |
| ClientAuth.InitialsOfThreeWords | client/src/lib/auth.ts:42-49 | three words give the first letters of the first two |
| ClientAuth.InitialsIgnoreExtraSpace | client/src/lib/auth.ts:44-46 | an extra space at the start or before a word does not change the initials |
| ClientAuth.InitialsOfJaneSmith | client/src/lib/auth.ts:42-49 | "Jane Smith" gives "JS" |
| ClientAuth.InitialsOfDrJaneSmith | client/src/lib/auth.ts:42-49 | "Dr. Jane Smith" gives "DJ" |
| ClientAuth.AuthService.constructor | client/src/lib/auth.ts:12-24 | the slot starts with whatever user, if any, was stored earlier |
| ClientAuth.AuthService.SetCurrentUser | client/src/lib/auth.ts:26-32 | the slot then holds exactly the given user, or nothing when given none, which is the effect of `Logout`; `IsAuthenticated` holds exactly when a user was given |
| ClientAuth.AuthService.Logout | client/src/lib/auth.ts:34-40 | the slot is empty afterwards and `IsAuthenticated` (a user is stored) is false |

## Left out

- Network I/O: the `fetch` to the AgentForce hook is an input outcome (ok, not ok, thrown). The JSON body is the `Payload` value, not its serialisation.
- Real time: `setTimeout` is the `TimerFired` event. Nothing forces it to fire 30 s after registration. The model only shows that whenever it fires, it settles the call.
- Correlator.PendingResponses.GenerateAIResponse: takes the message id as an input and requires it to be fresh (never pending, never resolved). The `msg_<time>_<random>` generator is outside the model, and so is what would happen on an id collision, where `Map.set` overwrites a live entry.
- Storage.MemStorage.CreateUser: requires a fresh id, standing for `randomUUID`. The same holds for `CreateConversation` and `CreateMessage`. A duplicate id would overwrite a row in the source.
- Storage.MemStorage.CreateMessage: the two `new Date()` readings (message `createdAt`, conversation `updatedAt`) are one input `now`.
- Aliasing: in the source, `createMessage` mutates the conversation object in place, so objects returned earlier see the new `updatedAt`. The model replaces the value in the table instead.
- Express wiring, Zod validation (its 400 answers), the 500 answers of the `catch` blocks, and console logging. The plain CRUD routes for conversations and messages only pass storage results through and are not modelled separately.
- The `/api/messages` route's orchestration: storing the user's message, awaiting the reply and storing the AI message. Only the content it sends to the AI (`Webhook.ContentForAI`) is modelled.
- Callback bodies whose `message_id` or `response` are not strings. `error` is reduced to its truthiness.
- Object storage (upload URL, audio path normalisation, object download): `ObjectStorageService` is not part of this model.
- `DbStorage` (Drizzle ORM), `server/init-db.ts` and real `bcryptjs`.
- `localStorage` and JSON: the `care_manager_user` entry is an optional `AuthUser`. The `JSON.parse` failure branch of `getCurrentUser` and the `Date` revival of `createdAt` are not modelled.
- ClientAuth.Upper: ASCII only. JavaScript's `toUpperCase` also maps non-ASCII letters and can lengthen a string (for example "ß" becomes "SS"). `name[0]` is one `char`, not a UTF-16 code unit.
- All React components, hooks and browser APIs (recording, uploads, relative-time formatting).
