# WhatsApp Business dashboard: a verified model of its decision logic

This project models the logic of a multi-tenant WhatsApp Business dashboard and proves properties of it. The dashboard is a web application that receives WhatsApp messages through a webhook, stores contacts and messages, and shows them in a chat interface. The model covers:

- **The inbound webhook** (`app/api/webhook/route.ts`).
  - The content classifier `processMessageContent`.
  - The `GET` verification handshake, an imperative method over a `Store` class holding the tenant settings, the contacts (`users`) and the `messages` table.
  - The `POST` ingestion loop, as a `while` loop over the delivered messages. It is proved against a fold specification (`ProcessAll`/`Step`) whose own properties are proved as lemmas.
  - Everything outside the process arrives per message through an oracle `nat -> Answers`: the timestamp conversion, the provider's media URL, the object-store upload, and the error answers of the per-message database writes.
- **Two user routes.**
  - `create-chat` cleans and validates a phone number, refuses a chat with oneself, and shapes the store's answer.
  - `update-name` checks an E.164-like id pattern and a name length, and maps the store's answer.
  - Both are pure decision functions in the handler's order. The store is a function parameter.
- **The chat interface.**
  - `chat-window.tsx`: display names, initials, unread detection, `m:ss` durations, and the grouping of messages by day (a loop over a map, proved to be a permutation that keeps order). Also the window state for the composer, the Escape key and media refreshes, as a class.
  - `message-bubble.tsx`: layout, read-receipt ticks and media controls.
  - `user-info-dialog.tsx`: its display name, the "last active" buckets, and the rename editor as a class.
- **The WhatsApp Flows endpoint** (`app/api/flow-endpoint/route.ts`): the screen dispatch.

Modules, one file each:

- `Common`: optional values, JavaScript truthiness, digits and decimals, `trim`, upper-casing.
- `WebhookClassifier`, `Webhook`.
- `CreateChat`, `UpdateName`.
- `ChatWindow`, `MessageBubble`, `UserInfoDialog`.
- `FlowEndpoint`.

Modelling conventions:

- JavaScript truthiness of an optional string is `Present` (present and non-empty). `a || b` is `OrElse`, and a chain of `||` is `FirstTruthy`.
- `.single()` succeeds exactly when one row matches.
- `users.id` and `messages.id` are primary keys: an insert that repeats one fails.

Where the code and its description differ, the model follows the code:

- The webhook does not always answer "OK". A message timestamp that does not convert to a date makes `toISOString` throw. The whole request then answers 500, and the remaining messages are not processed (`ProcessAllAborts`). An unparseable body also answers 500.
- A text message without a body is stored with empty content (`ClassifyContentNonEmpty`).
- `upload_error` is set only when the media id is truthy (`Descriptor`).
- A create-chat id with a leading zero can never be renamed. Create-chat accepts any 10 to 15 digits, but update-name requires a non-zero first digit (`UpdateName.CreatedChatRenamable`).

## Model

| member | source | states |
|---|---|---|
| Common.FirstTruthy | components/chat/chat-window.tsx:276-278 | the result of `a \|\| b \|\| … \|\| last` is the first truthy candidate; it is `last` when no candidate is truthy |
| Common.FormatAudioDuration | components/chat/chat-window.tsx:294-298 | the result reads back as minutes, a colon, then exactly two digits; the digits before the colon are `s / 60`, with no leading zero, and the two after are `s % 60 < 60` (message-bubble.tsx:43-47 has the same function) |
| Common.Trim | components/chat/chat-window.tsx:233-234 | the trimmed text is the part of the input that starts right after its leading white space and is followed only by white space; neither of its ends is white space (the ECMAScript set) |
| Common.TrimIdempotent | components/chat/chat-window.tsx:233-234 | trimming twice is trimming once |
| Common.TrimEmptyIff | components/chat/chat-window.tsx:233 | the trimmed text is empty exactly when the input is all white space |
| Common.NatToStringRoundTrip | components/chat/chat-window.tsx:297 | a number's decimal rendering reads back as the number |
| WebhookClassifier.Classify | app/api/webhook/route.ts:147-217 | the stored type always equals the raw `type`; there is a seed exactly for the five media kinds, carrying the kind, id, mime type and hash of that kind's payload; an unknown type yields `[Unsupported message type: T]` and no media |
| WebhookClassifier.ClassifyContent | app/api/webhook/route.ts:153-209 | the content rule of each kind: the text body or `""`; the caption or `[Image]`/`[Video]`; `[Document: <filename or Unknown>]`; `[Voice Message]` exactly when the voice flag is true, else `[Audio]`; `[Sticker]` |
| WebhookClassifier.ClassifyContentNonEmpty | app/api/webhook/route.ts:153-155 | every kind but text has non-empty content; a text message without a body has empty content |
| WebhookClassifier.SeedOptionalFields | app/api/webhook/route.ts:159-208 | the seed copies only its kind's optional field: the caption for image and video, the file name for documents, the voice flag for audio |
| WebhookClassifier.ClassifyReadsOwnPayload | app/api/webhook/route.ts:147-217 | the result depends only on the type and on that type's payload |
| Webhook.SingleRow | app/api/webhook/route.ts:76-85 | `.single()` returns a row exactly when that row is the only match; otherwise no row matches or at least two do |
| Webhook.VerifyDecision | app/api/webhook/route.ts:63-85 | the handshake accepts exactly when the mode is `subscribe`, the token is truthy, and exactly one tenant has that verify token; the accepted tenant's token matches and no other tenant's does |
| Webhook.MarkVerified | app/api/webhook/route.ts:90-96 | only the rows with the verified tenant's id get `webhook_verified = true` and a new `updated_at`; every other row is unchanged |
| Webhook.Verify | app/api/webhook/route.ts:52-103 | a rejection is 403 and changes nothing; an acceptance answers 200 with exactly the challenge and changes only that tenant's row, and only if the update succeeds; contacts and messages are never touched |
| Webhook.ResolveTenant | app/api/webhook/route.ts:237-283 | a delivery is attributed to a tenant exactly when the first change names a truthy `phone_number_id` that exactly one tenant has, and that tenant is the one returned |
| Webhook.FindContact | app/api/webhook/route.ts:297 | returns the first contact whose `wa_id` is the sender, or none when there is no such contact |
| Webhook.ContactName | app/api/webhook/route.ts:298 | the profile name of the sender's first contact entry when truthy, otherwise the phone number |
| Webhook.RelayUrl | app/api/webhook/route.ts:306-350 | an upload URL is recorded only when the relay was attempted (truthy media id and access token), the provider gave a truthy media URL, and the id is all digits; in that case it is the upload's answer |
| Webhook.Relay | app/api/webhook/route.ts:306-350 | the loop's relay block computes the URL `RelayUrl` specifies, and the success flag holds exactly when that URL is truthy |
| Webhook.Descriptor | app/api/webhook/route.ts:401-407 | `s3_uploaded` holds exactly when a truthy URL is stored. When it is false, the upload time is null, the URL is null or empty, and `upload_error` is "Failed to upload to S3" exactly when the media id is truthy |
| Webhook.RowOf | app/api/webhook/route.ts:392-408 | a stored row carries the provider's message id, the sender, the resolved tenant as receiver, is_sent_by_me and is_read false, and the classifier's type and content; it has `media_data` exactly for media, with the seed's kind equal to the type and a consistent descriptor; an uploaded descriptor means the relay was attempted with an all-digit id |
| Webhook.StepRows | app/api/webhook/route.ts:352-416 | one message appends its row exactly when the request is still running, the time is valid, the contact is in place and the insert succeeds; only an invalid time ends the request |
| Webhook.ProcessAllRows | app/api/webhook/route.ts:292-429 | the old rows stay; each new row is the row of one message of the envelope, in envelope order, with that message's answers |
| Webhook.ProcessAllAborts | app/api/webhook/route.ts:292-294 | the request ends early exactly when some message's time does not convert (the exception handler at lines 434-437 answers 500) |
| Webhook.AbortedStays | app/api/webhook/route.ts:294 | once the request has ended, later messages change nothing |
| Webhook.StepUsers | app/api/webhook/route.ts:352-384 | one message changes at most the sender's contact: an existing contact keeps every column but `last_active`, and a new contact is named by `ContactName` with no custom or WhatsApp name |
| Webhook.ProcessAllContacts | app/api/webhook/route.ts:292-384 | over the whole loop, existing contacts keep every column but `last_active`, and every new contact is a sender of the envelope named by `ContactName` |
| Webhook.MediaIndependence | app/api/webhook/route.ts:309-349 | changing only the answers of the media endpoint and the upload changes neither which messages are stored nor the contacts nor whether the request ends early |
| Webhook.StepKeepsIdsDistinct | app/api/webhook/route.ts:411-416 | message ids stay distinct: a redelivered message never gets a second row |
| Webhook.UpsertContact | app/api/webhook/route.ts:352-384 | the message goes on exactly when the sender exists and the lookup succeeded, or is new and the insert succeeded; the contacts table then becomes `UsersAfter`; the other tables are untouched |
| Webhook.Deliver | app/api/webhook/route.ts:226-438 | an unparseable body is 500; a missing or unmatched `phone_number_id` is 200 "OK" with no writes; otherwise the tables become the fold's result over the messages in order, and the answer is 500 if the fold aborted, else "OK"; the tenants are never changed |
| CreateChat.KeepDigits | app/api/users/create-chat/route.ts:26 | the cleaned number is all digits and no longer than the input |
| CreateChat.KeepDigitsChar | app/api/users/create-chat/route.ts:26 | a single character is kept exactly when it is a digit |
| CreateChat.KeepDigitsAppend | app/api/users/create-chat/route.ts:26 | the digits keep their order: cleaning a concatenation concatenates the cleaned parts, which with `KeepDigitsChar` fixes the result character by character |
| CreateChat.KeepDigitsCounts | app/api/users/create-chat/route.ts:26 | every digit of the input is kept as often as it occurs, and no other character is |
| CreateChat.RemoveSpaces | app/api/users/create-chat/route.ts:26 | the white-space removal leaves no white space and never lengthens the input |
| CreateChat.CleanPhone | app/api/users/create-chat/route.ts:26 | the cleaned number (white space removed, then every non-digit) is all digits and no longer than the input |
| CreateChat.CleanPhoneExample | app/api/users/create-chat/route.ts:26 | the number "1-10" cleans to "110": separators go, every digit stays in place |
| CreateChat.CleanPhoneKeepsDigits | app/api/users/create-chat/route.ts:26 | removing white space first makes no difference: cleaning is `KeepDigits` alone |
| CreateChat.KeepDigitsOfDigits | app/api/users/create-chat/route.ts:26 | a string of digits is left unchanged |
| CreateChat.CleanPhoneIdempotent | app/api/users/create-chat/route.ts:26 | cleaning a cleaned number changes nothing |
| CreateChat.KeepDigitsMembers | app/api/users/create-chat/route.ts:26 | a character is in the cleaned number exactly when it is a digit of the input |
| CreateChat.WithoutPlus | app/api/users/create-chat/route.ts:41 | exactly one leading `+` is removed, if present |
| CreateChat.NameArgument | app/api/users/create-chat/route.ts:67 | an absent or empty name becomes null; any other name is passed on as it is |
| CreateChat.Decide | app/api/users/create-chat/route.ts:12-68 | checks in order, each reply given: a missing user is 401 and an unreadable body is 500; a missing number is 400 "Missing phoneNumber parameter"; then 400 "Invalid phone number format" exactly when the cleaned number is not 10 to 15 digits; then 400 "Cannot create chat with yourself" exactly when it is the user's own id, with or without its plus; then 400 "Custom name too long" exactly when the name exceeds 100 characters; the store is called exactly when every check passes, with the cleaned number and the normalised name |
| CreateChat.SelfChatRefused | app/api/users/create-chat/route.ts:41-49 | a number that cleans to the user's id without its plus is refused as a self chat, whether the user's id carries a `+` or not, and whether the number is written with or without one |
| CreateChat.RefusedWhenOwn | app/api/users/create-chat/route.ts:26-49 | any number that cleans to a valid 10 to 15 digit form of the user's own id, without its plus, is refused as a self chat, whatever the name |
| CreateChat.DigitsGetChat | app/api/users/create-chat/route.ts:26-68 | a 10 to 15 digit number that is not the user's own reaches the store unchanged |
| CreateChat.Respond | app/api/users/create-chat/route.ts:70-104 | a store error is 500 "Failed to create chat"; no rows is 500 "Failed to create or retrieve user"; otherwise the summary of the first row has unread count 0, no last message, type "text", and a last-message time equal to `last_active` |
| CreateChat.HandleConsultsStoreLast | app/api/users/create-chat/route.ts:21-104 | a rejected request gets the same reply whatever the store would answer; a created chat passed every check |
| UpdateName.PatternAccepts | app/api/users/update-name/route.ts:26-29 | every optional `+`, then a digit 1-9, then 1 to 14 digits, is accepted |
| UpdateName.PatternDecomposes | app/api/users/update-name/route.ts:26-29 | every accepted id has that shape |
| UpdateName.Decide | app/api/users/update-name/route.ts:12-42 | checks in order, each reply given: a missing user is 401 and an unreadable body is 500; a missing id is 400 "Missing userId parameter"; then 400 "Invalid phone number format" exactly when the id fails the pattern; then 400 "Custom name too long (max 100 characters)" exactly when the name exceeds 100 characters; the store is called exactly when all pass, with the id and the name normalised to null when empty |
| UpdateName.Respond | app/api/users/update-name/route.ts:44-66 | a store error is 500; a falsy result is 404 "User not found"; success echoes the id, the normalised name and the time |
| UpdateName.HandleEchoesStoredName | app/api/users/update-name/route.ts:39-66 | a success echoes the given id and the name the store was given, null exactly for an empty name, only after the store reported a truthy result; a rejected request does not depend on the store |
| UpdateName.CreatedChatRenamable | app/api/users/update-name/route.ts:26-29 | an id stored by create-chat (create-chat/route.ts:26-42) matches the rename pattern, with or without a `+`, exactly when it does not start with zero |
| UpdateName.LeadingZeroChatNotRenamable | app/api/users/update-name/route.ts:26-29 | the number 0123456789 gets a chat but fails the rename pattern |
| ChatWindow.DisplayNameChain | components/chat/chat-window.tsx:276-278 | the display name is the custom name, else the WhatsApp name, else the name, else the id, each when non-empty |
| ChatWindow.Initials | components/chat/chat-window.tsx:626 | the initials are the upper-cased first two characters of the name, else the WhatsApp name, else the id, else "BK"; there are always one or two |
| ChatWindow.UnreadMessages | components/chat/chat-window.tsx:179 | every filtered message is unread (not sent by me and not read) and there are no more of them than messages |
| ChatWindow.UnreadMessagesCounts | components/chat/chat-window.tsx:179 | every unread message is kept as often as it occurs and no read one is: the count shown at line 666 is the number of unread messages |
| ChatWindow.UnreadMessagesAppend | components/chat/chat-window.tsx:179 | the filter keeps order: filtering a concatenation concatenates the filtered parts |
| ChatWindow.FirstUnreadIndex | components/chat/chat-window.tsx:180 | the index is -1 exactly when no message is unread; otherwise it is the first unread message's index |
| ChatWindow.HasUnreadIff | components/chat/chat-window.tsx:179-181 | `hasUnreadMessages` holds exactly when the first unread index is not -1 |
| ChatWindow.GroupByDay | components/chat/chat-window.tsx:588-593 | the keys are the days in order of first appearance (the order a JavaScript object keeps for keys that do not look like integers, as `toDateString` keys never do), without repeats; each group is the day's messages in their original order; the groups together are a permutation of the input |
| ChatWindow.GroupStep | components/chat/chat-window.tsx:590-591 | one more message adds its day as a key when the day is new, and only its own group grows |
| ChatWindow.DaysDistinct | components/chat/chat-window.tsx:590 | no day key repeats, and the keys are exactly the days of the messages |
| ChatWindow.OfDayMembers | components/chat/chat-window.tsx:589-591 | a group holds only messages of its day; a day no message has has an empty group |
| ChatWindow.ConcatSnoc | components/chat/chat-window.tsx:591 | adding a message adds it to the concatenated groups exactly when its day is a key |
| ChatWindow.GroupingIsPermutation | components/chat/chat-window.tsx:588-593 | every message lands in exactly one group: the groups together are a permutation of the input |
| ChatWindow.DayIndices | components/chat/chat-window.tsx:589-591 | the message positions of a day, strictly increasing, covering every message of that day |
| ChatWindow.OfDayKeepsOrder | components/chat/chat-window.tsx:591 | a group is the subsequence of its day's positions, so it keeps the messages' relative order |
| ChatWindow.EscapeEffectOf | components/chat/chat-window.tsx:196-207 | with a chat open, Escape closes the media upload first; otherwise the template selector; otherwise it goes back on mobile when that is possible, or closes the chat on desktop when that is possible |
| ChatWindow.WindowState.constructor | components/chat/chat-window.tsx:120-130 | the input is empty, no panel is open, and nothing is refreshing or loading |
| ChatWindow.WindowState.SendMessage | components/chat/chat-window.tsx:231-237 | a send happens exactly when the trimmed input is non-empty, a user or broadcast group is selected, and nothing is loading; it sends the trimmed text and clears the input; otherwise nothing changes |
| ChatWindow.WindowState.KeyDown | components/chat/chat-window.tsx:195-208 | returns the Escape effect and closes only the panel it names |
| ChatWindow.WindowState.BeginRefresh | components/chat/chat-window.tsx:356-358 | a refresh starts exactly when none is running for that message; the message is then marked as refreshing |
| ChatWindow.WindowState.EndRefresh | components/chat/chat-window.tsx:368-374 | the message is no longer refreshing; nothing else changes |
| ChatWindow.WindowState.MediaLoadStart | components/chat/chat-window.tsx:385 | the message is marked as loading; nothing else changes |
| ChatWindow.WindowState.MediaLoaded | components/chat/chat-window.tsx:377-383 | the message is no longer loading; nothing else changes |
| ChatWindow.SendClearsGuard | components/chat/chat-window.tsx:233-235 | after a send has cleared the input, a second send does nothing |
| ChatWindow.BlankInputNeverSends | components/chat/chat-window.tsx:233 | an input of only white space never sends |
| MessageBubble.LayoutOf | components/chat/message-bubble.tsx:24-247 | a missing or empty type is a plain text bubble; each media type and `template` gets its own layout; any other type falls to the plain bubble |
| MessageBubble.TickOf | components/chat/message-bubble.tsx:50-56 | incoming messages get no tick; an own optimistic message gets the clock, checked before any status; otherwise read ticks when the status is "read" or `is_read` holds, delivered ticks when the status is "delivered", else a single tick |
| MessageBubble.AudioLabel | components/chat/message-bubble.tsx:153 | "Voice Message" exactly when the voice flag is true, else "Audio" |
| MessageBubble.MediaControlsAgree | components/chat/message-bubble.tsx:124-147 | the document refresh button shows exactly when the media is not shown; play is disabled exactly when the media is not shown or a refresh is running; the image refresh shows only where the media is not |
| MessageBubble.MissingFlagOffersNoImageRefresh | components/chat/message-bubble.tsx:62-100 | with `s3_uploaded` absent, an image shows neither the media nor a refresh button, while a document offers a refresh |
| MessageBubble.StoredMediaShownIffUploaded | components/chat/message-bubble.tsx:62-98 | a descriptor written by the webhook shows its media exactly when its upload succeeded, and offers the image refresh exactly when it failed |
| UserInfoDialog.DisplayNameChain | components/chat/user-info-dialog.tsx:33-35 | the dialog's display name is the custom name, else the WhatsApp name, else the id |
| UserInfoDialog.DisplayNamesAgree | components/chat/user-info-dialog.tsx:33-35 | the dialog agrees with the chat window when a custom or WhatsApp name is set, and differs for a contact known only by a `name` other than its id |
| UserInfoDialog.Bucket | components/chat/user-info-dialog.tsx:37-64 | on the absolute difference: under a minute; then whole minutes (1-59) under an hour; whole hours (1-23) under a day; whole days (1-6) under a week; else a date; a timestamp that does not parse gets a date |
| UserInfoDialog.LastActiveWording | components/chat/user-info-dialog.tsx:36-63 | `formatLastActive` (`Label` of the bucket) says "Just now" under a minute; "N minutes ago", always plural, under an hour; "N hour(s) ago" under a day and "N day(s) ago" under a week, singular only for 1; otherwise, and for an unparseable timestamp, the locale's date |
| UserInfoDialog.FutureAndPastAlike | components/chat/user-info-dialog.tsx:40 | a time as far ahead as another is behind gets the same words |
| UserInfoDialog.SingularExactlyForOne | components/chat/user-info-dialog.tsx:47-52 | hour and day labels are singular exactly when the count is 1 |
| UserInfoDialog.NameEditor.constructor | components/chat/user-info-dialog.tsx:27-29 | not editing, not updating, and the edited name is the custom name or "" |
| UserInfoDialog.NameEditor.StartEdit | components/chat/user-info-dialog.tsx:87-90 | editing starts with the edited name reset to the custom name or "" |
| UserInfoDialog.NameEditor.CancelEdit | components/chat/user-info-dialog.tsx:82-85 | editing ends with the edited name reset to the custom name or "" |
| UserInfoDialog.NameEditor.BeginSave | components/chat/user-info-dialog.tsx:66-71 | while a save is running it submits nothing; otherwise it marks the save as running and submits the trimmed name; the editing fields are unchanged |
| UserInfoDialog.NameEditor.FinishSave | components/chat/user-info-dialog.tsx:72-79 | success ends editing; failure restores the custom name or ""; either way the save is over |
| FlowEndpoint.Respond | app/api/flow-endpoint/route.ts:4-98 | every response, including the error fallback, has version "7.2"; an unparseable body gets the error response; there is an action exactly for SIGN_IN with the demo credentials, and it navigates to SUCCESS_SCREEN |
| FlowEndpoint.SignInOutcomes | app/api/flow-endpoint/route.ts:16-45 | SIGN_IN stays on SIGN_IN; `email_error` appears exactly when the credentials are not the demo pair, and exactly when there is no action |
| FlowEndpoint.SignUpOutcomes | app/api/flow-endpoint/route.ts:46-77 | SIGN_UP gives `password_error` exactly when the passwords differ (two missing passwords count as equal) and a `status_message` otherwise, and never an action |
| FlowEndpoint.OtherScreensEchoed | app/api/flow-endpoint/route.ts:80-86 | any other screen id, even a missing one, is echoed with the thank-you `status_message` |
| FlowEndpoint.MissingFormDataIsError | app/api/flow-endpoint/route.ts:88-97 | SIGN_IN or SIGN_UP without a data object throws, and the answer is the SIGN_IN `error_message` response |

## Left out

- Database, authentication and RPC internals (Supabase). The tables are values in `Webhook.Store`. The route RPCs are function parameters, and the authenticated user is an optional parameter. An authentication error is treated like a missing user.
- Transport errors of the two tenant lookups (`.single()` at app/api/webhook/route.ts:76-85 and 257-283) are not modelled. A failed lookup is treated as no match, so the model gives 403 or a silent "OK". Only the per-message database answers come from the oracle.
- The day key function is a free parameter. The order of first appearance relies on `toDateString` keys never looking like integers, which JavaScript objects would order first. This is stated, not modelled.
- The debug listing of tenant phone numbers at app/api/webhook/route.ts:268-279. It only logs.
- Outbound HTTP. `getWhatsAppMediaUrl` and the object-store upload are oracle answers (`graphUrl`, `uploadUrl`). The API version fallback (line 287) only feeds that call and is not modelled.
- lib/aws-s3.ts is not part of this model. It is a stub that always returns null. The model lets the upload either succeed or fail, so it also covers a build where it works.
- Timestamp conversion and clocks. `new Date(parseInt(ts) * 1000).toISOString()` is an oracle answer that may be absent (it throws). `new Date().toISOString()` is a `now` parameter. The day key `toDateString()` is the function parameter `day`. The locale rendering of a date is a string parameter. Last-active times are whole milliseconds.
- JSON parsing. Parsed bodies and `media_data` are records. An unparseable body is `None`. Fields of a type other than the one the code expects are not modelled.
- Common.FormatAudioDuration: takes whole seconds, not the player's floating-point seconds. Together with the audio progress percentage, this floating-point handling is left out.
- Common.Upper: upper-cases ASCII letters only. JavaScript's `toUpperCase` covers all of Unicode.
- Common.Trim: string lengths and positions are counted in characters, not UTF-16 code units. The 100-character name limit is counted the same way.
- JSX rendering, template message rendering, audio playback, drag and drop, downloads, and the network calls of `refreshMediaUrl`. `refreshMediaUrl` is modelled only through its set of in-progress refreshes.
- `renderMessageContent` in chat-window.tsx. It duplicates the bubble's layout switch, which is modelled once in `MessageBubble`.
- The chat window's `isOptimistic` check (line 575) is the predicate `ChatWindow.IsOptimistic` (the id starts with `optimistic_`). The bubble receives the flag as a parameter.
- Concurrency between overlapping webhook deliveries, and between React state updates. Each handler runs alone. A save in the rename editor is split into `BeginSave` and `FinishSave`, around the awaited store call.
- The `GET` status handlers of the user routes, and app/api/templates/delete/route.ts.
