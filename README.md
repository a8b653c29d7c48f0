# Chat-to-calendar event bot: a Dafny model

This project models the core of a bot that links a chat webhook to a calendar. A user sends a photo of an event flyer over chat. An image model extracts the event's fields, which are stored as a *pending* row in the `events` table. The user then replies `confirm`, `cancel`, `edit` or free text. On confirm, the latest pending row is published to the user's calendar and the row is marked with the calendar event's identifier. A separate OAuth callback stores each chat number's calendar credentials in the `users` table.

The model has nine modules, one per file:

- `Wrappers` (wrappers.dfy): `Option`, `Result`, and `Truthy`, which is JavaScript truthiness of an optional string.
- `Sequences` (sequences.dfy): small facts about sequence concatenation and slicing, used by the loop proofs.
- `Text` (text.dfy): `String.prototype.trim` and `toLowerCase`, with their algebra.
- `GoogleAuth` (google_auth.dfy): the credential triple, the merge of a refresh response, and the calendar insert request built from an event.
- `Store` (store.dfy): the `users` and `events` rows and the queries the handlers issue, as functions on a `Ledger` value. The `Database` class holds the two tables as fields; its methods perform one query each and are proved to equal the function.
- `Extraction` (extraction.dfy): the post-processing of the image model's reply (JSON span, `||` defaults, confidence clamp) and `validateEventDetails`.
- `Payload` (payload.dfy): the shape of a webhook delivery, and which messages reach a handler, in what order, and where a missing field throws.
- `OAuthCallback` (oauth_callback.dfy): the callback's decisions and its single upsert.
- `Webhook` (webhook.dfy): the verification handshake, command classification, the per-message handlers as step functions, and the `POST` / `handleMessages` loops as methods.

Each chat handler is specified by a step function on the `Ledger`, returning the new ledger, the kind of reply sent, and the calls made to the identity and calendar providers. Examples are `ImageStep`, `ConfirmStep` and `CancelStep`. The methods `HandleImageMessage`, `ConfirmEvent`, `CancelEvent`, `HandleTextMessage`, `HandleMessage`, `HandleMessages`, `HandleChanges`, `HandleEntries` and `Post` run the same steps against a `Database`, and their `ensures` equate the new table state to the step function's. The properties are lemmas about the step functions.

External results are parameters:

- the extractor's result (`None` when fetching, resizing or extraction threw);
- the refresh response and the calendar insert's event identifier (`None` when the call threw);
- the code exchange's tokens and whether the upsert reported an error;
- the current time.

A whole delivery takes `oracle: nat -> Effects`, where `oracle(n)` holds the results seen by the `n`-th message that reaches a handler. `Replay` folds the handler over those messages.

The code has these behaviours, which the model keeps:

- The JSON span runs from the first `{` to the last `}` (a greedy regular expression). It is not the first balanced object (`JsonSpanGreedy`, `JsonSpanSpansTwoObjects`).
- A missing end time defaults to the current time plus two hours, not the start time plus two hours (`DefaultEndIgnoresStart`, `DefaultEndCanFailValidation`).
- Tokens are refreshed only by the image handler, and only when `expires_at < now` strictly. Confirm publishes with the stored tokens as they are.
- Older pending rows of a number are not permanently unreachable. Once the latest one is confirmed, the next confirm addresses an older one (`ConfirmExposesOlderPending`).
- A text message whose `text.body` is missing makes the handler throw. The delivery then answers 500, and later messages in the same delivery are not handled.

## Model

| member | source | states |
|---|---|---|
| Webhook.Verify | src/app/api/webhook/whatsapp/route.ts:7-17 | 200 with the challenge exactly when mode is `subscribe`, a token is present and equals the configured secret; 403 `Forbidden` otherwise |
| Webhook.VerifyNeedsSecret | src/app/api/webhook/whatsapp/route.ts:13 | with no configured secret every handshake is refused |
| Webhook.ClassifyIgnoresCase | src/app/api/webhook/whatsapp/route.ts:161-175 | the command chosen depends only on the lower-cased text |
| Webhook.ClassifyIgnoresPadding | src/app/api/webhook/whatsapp/route.ts:161-175 | white space around the text never changes the command chosen |
| Webhook.ClassifyUpperCase | src/app/api/webhook/whatsapp/route.ts:162-165 | `CONFIRM` selects confirm |
| Webhook.ClassifyExactWords | src/app/api/webhook/whatsapp/route.ts:164-173 | `confirm it` is not a command and falls through to help |
| Webhook.ClassifyCommands | src/app/api/webhook/whatsapp/route.ts:162-174 | confirm, cancel and edit iff the trimmed lower-case text is the word or its emoji form; a change request iff none of those words and the text starts with `change` or `add`; help iff none of these matched |
| Webhook.ImageStep | src/app/api/webhook/whatsapp/route.ts:83-126 | extraction failure gives the image-error reply with no call and no change; an unknown sender gets the auth link with no change; a refresh call is made iff the user is known and `expires_at < now`, with the stored refresh token; a known sender whose token is unexpired or refreshed gets the summary and exactly one appended row; a failed refresh gives the image-error reply with the tables unchanged; without a refresh the users are unchanged, and other users never change; existing rows are kept; validity is kept |
| Webhook.ImageStoresPendingRow | src/app/api/webhook/whatsapp/route.ts:113-126 | the appended row is pending, owned by the sender's user id, stamped `now`, and carries the extracted title, description, dates and location |
| Webhook.ImageRefreshPersisted | src/app/api/webhook/whatsapp/route.ts:101-110 | an expired user's stored tokens become the refresh result: new access token and expiry, refresh token kept unless rotated; the rest of the user record, its id included, is unchanged |
| Webhook.ConfirmStep | src/app/api/webhook/whatsapp/route.ts:177-233 | no pending row gives `NoPendingEvent` and no user gives `AuthenticateFirst`, both with no call and no change; otherwise exactly one publish call with the stored, unrefreshed tokens and the latest pending row's fields; a failed publish gives `CreateFailed` with the ledger unchanged; success iff the call was made and returned an id; users are never changed |
| Webhook.ConfirmMarksLatest | src/app/api/webhook/whatsapp/route.ts:180-225 | a successful publish sets only the latest pending row's calendar id, to the publisher's id, and keeps validity |
| Webhook.ConfirmRetryAfterFailure | src/app/api/webhook/whatsapp/route.ts:227-232 | after a failed publish a repeated confirm makes the same publish call |
| Webhook.ConfirmExposesOlderPending | src/app/api/webhook/whatsapp/route.ts:180-187 | when a number has another pending row, confirming the latest one makes a different row the next target |
| Webhook.CancelStep | src/app/api/webhook/whatsapp/route.ts:235-244 | the reply is always the cancel acknowledgment with no call; afterwards no row of the number is pending; a row survives iff it was there and was not pending for the number; users are unchanged |
| Webhook.CancelIdempotent | src/app/api/webhook/whatsapp/route.ts:235-244 | cancelling twice equals cancelling once |
| Webhook.CancelThenConfirm | src/app/api/webhook/whatsapp/route.ts:189-192 | after a cancel, confirm finds no pending event and calls nothing |
| Webhook.CommandStep | src/app/api/webhook/whatsapp/route.ts:161-175 | confirm is exactly `ConfirmStep` and cancel exactly `CancelStep`; only confirm makes provider calls; only confirm and cancel change the ledger; `edit` gives the edit instructions and a change request the coming-soon reply; the help reply is sent iff no command matched |
| Webhook.TextStepEffects | src/app/api/webhook/whatsapp/route.ts:161-175 | a text reaches a provider only when classified as confirm, changes the tables only when classified as confirm or cancel, and gets help iff classified as help |
| Webhook.MessageStep | src/app/api/webhook/whatsapp/route.ts:45-54 | an image message is handled exactly by `ImageStep` and a text message with a body exactly by `TextStep` on that body; a message that reaches no handler changes nothing, gets no reply and makes no call |
| Webhook.MessageStepKeepsValid | src/app/api/webhook/whatsapp/route.ts:45-54 | every handler keeps row ids unique and below the id counter |
| Webhook.Replay | src/app/api/webhook/whatsapp/route.ts:45-54 | one reply per handled message |
| Webhook.ReplayExtend | src/app/api/webhook/whatsapp/route.ts:45-54 | handling one more message extends the trace by that message's step |
| Webhook.ReplayAppend | src/app/api/webhook/whatsapp/route.ts:26-29 | handling a concatenation equals handling its parts in order, with replies and calls concatenated |
| Webhook.ReplayCompose | src/app/api/webhook/whatsapp/route.ts:26-32 | handling a second batch from where a first one ended equals handling both batches together |
| Webhook.ReplayKeepsValid | src/app/api/webhook/whatsapp/route.ts:20-40 | every state a delivery reaches keeps unique row ids below the id counter |
| Webhook.MessageStepKeepsUserIds | src/app/api/webhook/whatsapp/route.ts:101-110 | no chat handler creates a user or changes a user's id, so user ids stay distinct and below the id counter |
| Webhook.ReplayKeepsUserIds | src/app/api/webhook/whatsapp/route.ts:20-40 | every state a delivery reaches keeps user ids distinct and below the id counter |
| Webhook.ImageThenConfirmTargetsNewRow | src/app/api/webhook/whatsapp/route.ts:113-126 | with the clock not behind any stored row, the row an image stores is the next confirm's target |
| Webhook.HandleImageMessage | src/app/api/webhook/whatsapp/route.ts:83-126 | the new tables, reply and calls are those of `ImageStep` |
| Webhook.ConfirmEvent | src/app/api/webhook/whatsapp/route.ts:177-233 | the new tables, reply and calls are those of `ConfirmStep` |
| Webhook.CancelEvent | src/app/api/webhook/whatsapp/route.ts:235-244 | the new tables and reply are those of `CancelStep` |
| Webhook.HandleTextMessage | src/app/api/webhook/whatsapp/route.ts:161-175 | the new tables, reply and calls are those of `TextStep` |
| Webhook.HandleMessage | src/app/api/webhook/whatsapp/route.ts:49-53 | the new tables, reply and calls are those of `MessageStep` for the message and its results, and they extend the trace of the messages handled before it |
| Webhook.HandleMessages | src/app/api/webhook/whatsapp/route.ts:42-55 | the messages handled, in order, and the fault are those of the payload walk; the tables, replies and calls are those of replaying the handler over them |
| Webhook.HandleChanges | src/app/api/webhook/whatsapp/route.ts:27-31 | the same for the changes of one entry, where only `messages` changes are handled |
| Webhook.HandleEntries | src/app/api/webhook/whatsapp/route.ts:26-32 | the same for the entries of a delivery, where an entry without `changes` throws |
| Webhook.Post | src/app/api/webhook/whatsapp/route.ts:20-40 | status 200 or 500, with 500 exactly when a missing field threw; handled messages and the final tables as walked and replayed; a body of another object type is answered 200 with nothing handled and nothing changed |
| Payload.ThenAssociative | src/app/api/webhook/whatsapp/route.ts:26-29 | sequencing the walks of nested loops is associative |
| Payload.WalkAllAppend | src/app/api/webhook/whatsapp/route.ts:26-29 | walking a concatenation is walking its parts in sequence |
| Payload.FaultStops | src/app/api/webhook/whatsapp/route.ts:36-39 | once a step throws, nothing after it is handled |
| Payload.MessagesDispatchable | src/app/api/webhook/whatsapp/route.ts:49-53 | only image messages and text messages with a body reach a handler |
| Payload.MessageWalkCases | src/app/api/webhook/whatsapp/route.ts:49-53 | a message is handed to a handler iff it is an image or a text with a body; only a text without a body throws |
| Payload.ValueWalk | src/app/api/webhook/whatsapp/route.ts:42-43 | a missing value throws and hands nothing over; a value without `messages` hands nothing over and does not throw |
| Payload.ChangeWalk | src/app/api/webhook/whatsapp/route.ts:28-30 | a change of another field is skipped; a `messages` change without a value throws |
| Payload.EntryWalk | src/app/api/webhook/whatsapp/route.ts:27 | an entry without `changes` throws and hands nothing over; an empty `changes` list does nothing |
| Payload.DeliveryWalk | src/app/api/webhook/whatsapp/route.ts:20-40 | a body that is not JSON throws; a body of another object type does nothing; a business-account body without `entry` throws |
| Payload.MessagesInOrder | src/app/api/webhook/whatsapp/route.ts:45-54 | handleable messages are all handled, in their order |
| Payload.OtherTypesIgnored | src/app/api/webhook/whatsapp/route.ts:49-53 | inserting a message of another type changes nothing |
| Payload.MissingMessagesAreEmpty | src/app/api/webhook/whatsapp/route.ts:43 | a value without `messages` handles nothing and does not throw |
| Payload.DeliveryDispatchable | src/app/api/webhook/whatsapp/route.ts:25-32 | every message a delivery hands to a handler is handleable |
| Payload.AllDispatchable | src/app/api/webhook/whatsapp/route.ts:26-29 | a loop over steps that hand over only handleable messages hands over only handleable messages |
| Store.LatestPending | src/app/api/webhook/whatsapp/route.ts:180-187 | `None` iff the number has no pending row; otherwise a pending row of the number with the greatest `created_at`, and no later-stored pending row ties with it |
| Store.LatestPendingUnique | src/app/api/webhook/whatsapp/route.ts:185-186 | the row that query selects is unique |
| Store.LatestPendingAppend | src/app/api/webhook/whatsapp/route.ts:113-126 | a pending row appended with the newest timestamp is the latest pending row |
| Store.WithoutPendingRows | src/app/api/webhook/whatsapp/route.ts:237-241 | a row survives the delete iff it was present and not pending for the number |
| Store.WithoutPending | src/app/api/webhook/whatsapp/route.ts:237-241 | no row left is pending for the number, and the table never grows |
| Store.WithoutPendingKeepsOrder | src/app/api/webhook/whatsapp/route.ts:237-241 | with nothing pending for the number the delete changes nothing |
| Store.WithoutPendingIdempotent | src/app/api/webhook/whatsapp/route.ts:237-241 | deleting twice equals deleting once |
| Store.WithoutPendingValid | src/app/api/webhook/whatsapp/route.ts:237-241 | the delete keeps ids unique and below the id counter |
| Store.MarkConfirmedOneRow | src/app/api/webhook/whatsapp/route.ts:218-221 | updating by a unique id changes exactly that row's calendar id and keeps validity |
| Store.MarkConfirmed | src/app/api/webhook/whatsapp/route.ts:218-221 | same length and the same ids; rows with another id are unchanged; rows with the id get the calendar id |
| Store.Insert | src/app/api/webhook/whatsapp/route.ts:113-126 | appends one pending row stamped `now`, keeps existing rows and users, keeps validity |
| Store.SetTokens | src/app/api/webhook/whatsapp/route.ts:106-109 | only the number's tokens change |
| Store.Upsert | src/app/api/auth/google/callback/route.ts:24-33 | the number gets the given tokens, keeping its id if it existed; a new number gets an id no existing user has; other users and all rows unchanged; both invariants kept |
| Store.UserIdsKept | src/lib/supabase.ts:16-17 | a step that keeps every user's id and never lowers the id counter keeps user ids distinct and below it |
| Store.Database.constructor | src/lib/supabase.ts:16-40 | empty tables |
| Store.Database.UpdateTokens | src/app/api/webhook/whatsapp/route.ts:106-109 | the tables become `SetTokens` of the old ones |
| Store.Database.InsertEvent | src/app/api/webhook/whatsapp/route.ts:113-126 | the tables become `Insert` of the old ones and the new row's id is returned |
| Store.Database.SetCalendarEventId | src/app/api/webhook/whatsapp/route.ts:218-221 | the tables become `MarkConfirmed` of the old ones and stay valid |
| Store.Database.DeletePending | src/app/api/webhook/whatsapp/route.ts:237-241 | the tables become `WithoutPending` of the old ones |
| Store.Database.UpsertUser | src/app/api/auth/google/callback/route.ts:24-33 | the tables become `Upsert` of the old ones |
| Text.TrimEmptyIffAllSpace | whatsapp-bot/src/lib/gemini-ai.ts:81 | a string trims to empty iff it is all white space |
| Text.Trim | src/app/api/webhook/whatsapp/route.ts:162 | the result is no longer than the input and neither starts nor ends with white space |
| Text.TrimStrips | src/app/api/webhook/whatsapp/route.ts:162 | the result of `trim()` is the input with a white-space prefix and a white-space suffix cut off; with `Text.Trim` this fixes the result |
| Text.ToLower | src/app/api/webhook/whatsapp/route.ts:162 | same length; no upper-case ASCII letter is left; every other character is unchanged; each `A`–`Z` becomes the letter 32 code points later |
| Text.TrimIgnoresPadding | src/app/api/webhook/whatsapp/route.ts:162 | trimming ignores white space added on either side |
| Text.ToLowerIdempotent | src/app/api/webhook/whatsapp/route.ts:162 | lower-casing twice equals lower-casing once |
| Extraction.JsonSpan | whatsapp-bot/src/lib/gemini-ai.ts:57-60 | a span exists iff some `{` precedes some `}`; it starts with `{` and ends with `}` |
| Extraction.JsonSpanGreedy | whatsapp-bot/src/lib/gemini-ai.ts:57 | the span runs from the first `{` to the last `}` |
| Extraction.JsonSpanInProse | whatsapp-bot/src/lib/gemini-ai.ts:57-62 | prose before and after an object is cut away when it holds no brace of the relevant kind |
| Extraction.JsonSpanSpansTwoObjects | whatsapp-bot/src/lib/gemini-ai.ts:57 | two objects in one reply yield one span covering both |
| Extraction.OrElse | whatsapp-bot/src/lib/gemini-ai.ts:66-70 | a truthy value is kept; an absent or empty one is replaced by the fallback |
| Extraction.Confidence | whatsapp-bot/src/lib/gemini-ai.ts:71 | the result lies in [0,1]; absent or zero gives 0.5; values in range are kept; values above 1 give 1 and below 0 give 0 |
| Extraction.PostProcess | whatsapp-bot/src/lib/gemini-ai.ts:65-72 | the title is never empty and is `Untitled Event` when missing; missing description and location become empty; a missing start is now and a missing end is now plus 7,200,000 ms; given values are kept; the confidence is `Confidence` of the model's value (0.5 when missing or zero, then clamped), so it lies in [0,1] |
| Extraction.DefaultEndIgnoresStart | whatsapp-bot/src/lib/gemini-ai.ts:68-69 | the default end does not depend on the start |
| Extraction.ExtractEventDetails | whatsapp-bot/src/lib/gemini-ai.ts:42-76 | success iff there is a reply with a span that parses, and then the record is the post-processed object; every failure is the single `ExtractionFailed` error |
| Extraction.ValidateEventDetails | whatsapp-bot/src/lib/gemini-ai.ts:79-101 | true iff the title has a non-space character, both dates are non-empty and parse, and start < end strictly |
| Extraction.DefaultEndCanFailValidation | whatsapp-bot/src/lib/gemini-ai.ts:68-69 | a start at least two hours ahead with no end gives a record the validator rejects |
| GoogleAuth.RefreshedTokens | src/lib/google-auth.ts:32-36 | access token and expiry come from the provider; the refresh token is the provider's when it sends a non-empty one and the caller's otherwise, so a non-empty one is never lost |
| GoogleAuth.Attendees | src/lib/google-auth.ts:67 | one attendee per invitee, same order and email |
| GoogleAuth.EmailsOfAttendees | src/lib/google-auth.ts:67 | reading the emails back gives the invitees |
| GoogleAuth.EventBodyOf | src/lib/google-auth.ts:55-68 | summary, description and location copied; start and end carry the input strings in time zone `UTC`; attendees present iff invitees are, with the same count |
| GoogleAuth.EventBodyRoundTrip | src/lib/google-auth.ts:55-68 | the event input can be read back from the body unchanged |
| GoogleAuth.CalendarInsertRequest | src/lib/google-auth.ts:70-73 | the insert targets the `primary` calendar and its body reads back to the input |
| OAuthCallback.StoredTokens | src/app/api/auth/google/callback/route.ts:28-32 | the exchanged access and refresh tokens, and `expiry_date` when present and non-zero, else now plus 3,600,000 ms |
| OAuthCallback.Callback | src/app/api/auth/google/callback/route.ts:5-47 | a missing or empty code or phone gives `Missing parameters`; a thrown exchange gives `Authentication failed`; a missing or empty access or refresh token gives `Failed to get tokens`; a store error gives `Database error`; every error page leaves the store unchanged; success iff code and phone are present, the exchange returns both tokens and the store reports no error; success upserts the stored tokens and redirects with the phone |
| OAuthCallback.CallbackKeepsUserIds | src/app/api/auth/google/callback/route.ts:24-33 | the callback keeps user ids distinct and below the id counter, and a number seen for the first time gets an id no existing user has |
| OAuthCallback.CallbackStoresExchangedTokens | src/app/api/auth/google/callback/route.ts:24-33 | after success the number holds exactly the stored tokens and no other user changed |
| OAuthCallback.CallbackIgnoresState | src/app/api/auth/google/callback/route.ts:10 | the `state` parameter has no effect on the outcome |
| OAuthCallback.HandleCallback | src/app/api/auth/google/callback/route.ts:5-47 | the new tables and redirect are those of `Callback` |

## Left out

- Fetching the media and the `sharp` resize and re-encode (src/app/api/webhook/whatsapp/route.ts:60-80) are network I/O and image processing. Their failure is folded into the extractor's `None`.
- The image model call, the OAuth code exchange, the token refresh call and the calendar insert are calls into libraries outside the model. They enter as parameters, and the shared client's `setCredentials` is not modelled.
- Sending chat messages (src/app/api/webhook/whatsapp/route.ts:293-318) is I/O that swallows its own errors. Replies are an enum of kinds; their text, the locale date formatting and the rounded percentage are not modelled.
- `JSON.parse`, `new Date(...).getTime()`, `Date.now()` and `toISOString` enter as parameters. A parsed field is an optional string, so values of other JSON types, and a non-numeric or `NaN` confidence, are not modelled. `PostProcess` uses one `now` for both defaults, while the code reads the clock twice (whatsapp-bot/src/lib/gemini-ai.ts:68-69, `new Date()` then `Date.now()`), so with both dates missing the code's end is at least, not exactly, two hours after its start.
- The non-null assertions on the refresh response's `access_token` and `expiry_date` (src/lib/google-auth.ts:33,35): the model takes both as present.
- Store write errors that the chat handlers ignore (token update, row insert, calendar id update, delete) are taken as successful. The callback's upsert error is a parameter, as the code checks it.
- The `users` upsert is taken to be keyed by `whatsapp_number`. The schema is not part of this model. supabase-js `upsert` without `onConflict` resolves conflicts on the primary key, and the payload at src/app/api/auth/google/callback/route.ts:24-33 does not carry the `id`. For a number already present the real outcome therefore depends on the schema: a unique-key error (`Database error`), or a second row, after which the `.single()` lookups at src/app/api/webhook/whatsapp/route.ts:86-90 fail.
- Delivery bodies holding JSON values of other shapes cannot be represented: a `null` body (src/app/api/webhook/whatsapp/route.ts:25), a `null` element of `entry`, `changes` or `messages` (lines 27, 28 and 46), an `entry`, `changes` or `messages` value that is not iterable such as `{}` (lines 26, 27 and 45), and a `text.body` that is not a string (line 162). The code throws on each and answers 500.
- A user row whose `google_oauth_token` is null, and a message whose `from` is missing, are not representable.
- Store.LatestPending: `order by created_at desc limit 1` leaves the choice among pending rows with the same `created_at` to the database. The model picks the last-stored one. `ConfirmRetryAfterFailure` and `ImageThenConfirmTargetsNewRow` rely on that choice being the same each time.
- Store.Insert: the database generates `created_at`; the model stamps the row with the handler's `now`. `ImageThenConfirmTargetsNewRow` assumes the database clock agrees with it.
- Read errors of the user select (src/app/api/webhook/whatsapp/route.ts:86-90) and of the pending-event and token selects (src/app/api/webhook/whatsapp/route.ts:180-198) are not modelled. The code treats them like an absent row, and so does the model: a row that exists but fails to read cannot be represented.
- `Text.ToLower` lower-cases ASCII letters only. This is exact for classification: the only non-ASCII character whose lower case is a single ASCII letter is KELVIN SIGN, giving `k`, which appears in no command word. LATIN CAPITAL LETTER I WITH DOT ABOVE lower-cases to `i` followed by a combining dot, which is not a command word either.
- Concurrent deliveries, such as two simultaneous confirms, are concurrency with no coordination in the code.
- `sendEditInstructions`, `handleEventEdit` and `sendHelpMessage` only send text. They are the `EditInstructions`, `EditComingSoon` and `HelpText` replies.
- The OAuth start route, the pages and the calendar smoke-test script have no state logic and are not part of this model.
