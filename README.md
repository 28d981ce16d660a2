# FPV logbook mailer — recipient selection and request decision

The mailer behind the FPV logbook exposes `POST /notify`. Given `{type, id}`,
it loads a meeting or a flight from the document store. It then picks the
users to email from the whole `users` collection, using each user's
notification preferences and whether the user is named in the record. It sends
one email to all of them and answers `{sent: n}`.

This project models that logic as pure Dafny functions over values:

- `Wrappers`: the `Option` datatype. `None` stands for a JavaScript `undefined`.
- `Js`: the JavaScript value rules the handler relies on: truthiness, `a || b`,
  and template interpolation. Interpolation renders `undefined` as the text
  "undefined".
- `Seqs`: `filter` and `map` over sequences, and the subsequence relation.
- `Prefs`: `DEFAULT_PREFS` and the field-by-field overlay `prefs(u)`.
- `Resolver`: users, meeting and flight documents, and the two recipient
  chains: filter on email, filter on the rule, map to the address.
- `Messages`: subjects, body texts, and the empty-list guard of `sendMail`.
- `Notify`: the handler as one function. It takes the configuration, the
  request and a snapshot of the store, and returns the response and the mail
  handed to the transport, if any.
- `Scenarios`: worked requests over small directories.

Identifiers and usernames are `Option<string>` and are compared as Options.
This keeps the `undefined === undefined` behaviour of the source: a user with
no username counts as "involved" in every event whose co-pilot (or host, or
pilot) is absent.

Three behaviours of the handler worth knowing:

- A truthy `type` other than `"meeting"` is not rejected. It is looked up in
  `flights` and handled as a flight (server.js:38).
- Subjects read "Nouveau rendez-vous: …" and "Nouveau vol: …" (server.js:53, 64).
- The meeting date is interpolated without a `|| ''` fallback, so a missing
  date renders as `Date: undefined` (server.js:54).

## Model

| member | source | states |
|---|---|---|
| `Js.InterpolateOrFallback` | server.js:53-54 | `${v \|\| fallback}` gives the value when it is truthy and the fallback otherwise; it is never "undefined" for an absent field |
| `Js.Truthy` | server.js:36 | the only falsy values of a string field are `undefined` and `""` |
| `Js.Or` | server.js:53-54 | `a \|\| b` is the left operand when it is truthy and the right one otherwise, and is truthy exactly when `a` or `b` is |
| `Js.Interpolate` | server.js:54 | `${v}` renders a string as itself; it renders "undefined" exactly for an absent value or the word itself |
| `Seqs.Filter` | server.js:46-49 | `filter` keeps only elements satisfying the predicate, and every such element of the input, in order: a subsequence, never longer |
| `Seqs.FilterCount` | server.js:46-49 | `filter` keeps every occurrence of a kept element and no occurrence of a dropped one |
| `Seqs.Map` | server.js:50 | `map` has the input's length and applies the function position by position |
| `Seqs.FilterAppend` | server.js:46-49 | filtering a concatenation is the concatenation of the filtered parts |
| `Seqs.MapAppend` | server.js:50 | mapping a concatenation is the concatenation of the mapped parts |
| `Seqs.MapSubsequence` | server.js:50 | mapping preserves the subsequence relation |
| `Seqs.SubsequenceTransitive` | server.js:46-49 | two filters in a row still give a subsequence of the input |
| `Prefs.Effective` | server.js:25-26 | a user with no preference record gets (true, true, false) |
| `Prefs.Overlay` | server.js:26 | the object spread: no record or `{}` leaves the base unchanged; each present field replaces its base value, each absent field keeps it |
| `Prefs.NoRecordGivesDefaults` | server.js:25-26 | no record and an empty record both give the defaults (true, true, false) |
| `Prefs.FullRecordWins` | server.js:26 | a record with all three fields set replaces the defaults entirely |
| `Prefs.SettingOneFieldIsLocal` | server.js:26 | setting one stored field changes only that effective field; the other two are unchanged |
| `Prefs.PartialRecordKeepsOtherDefaults` | server.js:25-26 | a record with a single field set keeps the defaults for the other two |
| `Resolver.Selected` | server.js:46-49 | a user is selected iff they are in the directory, have a truthy email and satisfy the event's rule; selection is a subsequence of the directory |
| `Resolver.Recipients` | server.js:46-50 | every recipient is a non-empty address; an address is listed iff some directory user with that email is selected; there are never more recipients than users |
| `Resolver.HasEmail` | server.js:46 | the email filter passes a user iff they have an email that is not empty, and that stored email is the address the map then reads |
| `Resolver.Involves` | server.js:48 | a user is involved iff their username (absent included) is among the identifiers the record names, so a user without a username is involved when any named identifier is absent |
| `Resolver.Wants` | server.js:47-49 | the rule: involvement always selects for a flight, and for a meeting with involving-me on; created on selects for a meeting; an uninvolved user is selected iff created (meeting) or new-flight (flight) is on |
| `Resolver.RecipientsAreSubsequence` | server.js:46-50 | the recipient list is a subsequence of the directory's addresses in directory order |
| `Resolver.RecipientsAppend` | server.js:46-50 | resolving a concatenated directory concatenates the results: order is kept and nothing is merged |
| `Resolver.RecipientsSingle` | server.js:46-50 | a one-user directory yields that user's address iff they have an email and the rule selects them |
| `Resolver.NoDeduplication` | server.js:50 | two selected users with the same address put it in the list twice |
| `Resolver.NoEmailNeverSelected` | server.js:46 | a user whose email is absent or empty is never selected, for either event kind |
| `Resolver.MeetingInclusion` | server.js:47-49 | for a meeting, a user with an email is selected iff created is on, or they are host or co-pilot and involving-me is on |
| `Resolver.MeetingInvolvedIncluded` | server.js:48-49 | a host or co-pilot with involving-me on is emailed even with created off |
| `Resolver.MeetingDefaultUserIncluded` | server.js:46-50 | a user with an email and no preference record is emailed about every meeting |
| `Resolver.FlightInvolvedIncluded` | server.js:59-60 | a pilot or co-pilot with an email is always emailed about the flight, whatever their preferences |
| `Resolver.FlightBystanderInclusion` | server.js:57-60 | a user who is neither pilot nor co-pilot is selected iff their stored new-flight preference is true |
| `Resolver.AnonymousUserInvolved` | server.js:48-60 | a user without a username is involved when the co-pilot is absent, and then always gets the flight email |
| `Messages.MeetingPlace` | server.js:54 | the "Lieu" value is the location name if truthy, else the address if truthy, else empty |
| `Messages.MeetingSubject` | server.js:53 | the meeting subject is the prefix followed by the location name, or "FPV" when it is absent or empty |
| `Messages.FlightSubject` | server.js:64 | the flight subject is the prefix followed by the spot, or "FPV" when it is absent or empty |
| `Messages.SendMail` | server.js:28-31 | no send iff the list is empty; otherwise one message carrying every recipient, the sender, the subject and the text |
| `Messages.MeetingText` | server.js:54 | when the date, location name and address hold no newline (`OneLine`), the body reads back as the Date line ("undefined" for a missing date) and the Lieu line, followed by the lines of `Notes: ` plus the notes (empty when absent), whatever the notes contain |
| `Messages.FlightText` | server.js:65 | when spot, pilot and co-pilot hold no newline (`OneLine`), the body reads back as the Spot, Pilote and Co-pilote lines (each empty when its field is absent or empty), followed by the lines of `Notes: ` plus the notes, whatever the notes contain |
| `Notify.CollectionFor` | server.js:38 | the `meetings` collection is chosen iff the type is exactly "meeting"; everything else goes to `flights` |
| `Notify.Lookup` | server.js:38-41 | a record is found iff its id is in the chosen collection; the found event is the stored document of that collection, a meeting iff the collection is `meetings` |
| `Notify.Authorized` | server.js:34 | with no key or an empty key every request passes; otherwise only a header identical to the key passes |
| `Notify.WellFormed` | server.js:36 | a request passes iff both `type` and `id` are present and non-empty |
| `Notify.Deliver` | server.js:43-68 | the response is `{sent: \|recipients\|}`; mail is sent iff the list is non-empty, to exactly those recipients |
| `Notify.Handle` | server.js:33-69 | mail goes out only with a successful response whose count equals the number of addressees; a rejection never sends |
| `Notify.ResponseClassification` | server.js:34-40 | each request gets 401, 400, 404 or a success under four exclusive conditions, checked in that order |
| `Notify.UnauthorizedFirst` | server.js:34 | with a key configured and a different header, the answer is 401 and no mail, whatever the body and store hold |
| `Notify.NoKeyNoCheck` | server.js:34 | with no key configured (absent or empty), no request is refused as unauthorized |
| `Notify.BadRequestBeforeStore` | server.js:35-36 | a falsy type or id gets 400 with no mail, and the store cannot change that outcome |
| `Notify.NotFoundSendsNothing` | server.js:38-40 | an id missing from the chosen collection gets 404 and no mail |
| `Notify.OtherTypesAreFlights` | server.js:38-61 | any truthy type other than "meeting" is served from `flights` as a flight; `meetings` plays no part |
| `Notify.MeetingTypeIsMeeting` | server.js:38-55 | the type "meeting" is served from `meetings` as a meeting carrying the stored document (404 when absent); `flights` plays no part |
| `Notify.SentCountIsRecipientCount` | server.js:44-68 | the sent count equals the recipient-list length, and no mail goes out exactly when the list is empty |
| `Scenarios.MeetingScenario` | server.js:45-55 | default-prefs Alice (the host) is emailed; opted-out Bob is not; the answer is `{sent: 1}` with a "FPV" subject |
| `Scenarios.FlightScenario` | server.js:56-61 | pilot Carol is emailed whatever her preferences; opted-out bystander Dave is not |
| `Scenarios.MissingIdScenario` | server.js:36 | a body without `id` gets 400, whatever the store holds |
| `Scenarios.UnknownMeetingScenario` | server.js:38-40 | a meeting id absent from `meetings` gets 404, even when `flights` holds that id |
| `Scenarios.MultiLineNotesScenario` | server.js:54 | a meeting with no date and two-line notes reads back as "Date: undefined", "Lieu: ", "Notes: a", "b" |

## Left out

- HTTP plumbing: the Express app, CORS, JSON body parsing, `app.listen` and the `GET /` liveness route (server.js:1-8, 71-73).
- Process configuration: reading environment variables and the startup check that throws when a credential is missing (server.js:10-17). `API_KEY` and `SENDGRID_FROM` are fields of `Notify.Config`.
- Store access: Firebase initialisation and the Firestore reads (server.js:19-23, 39, 43). The handler receives a `Notify.Store` snapshot: the `meetings` and `flights` documents by id, and the user list in the order the query returns it.
- The mail transport: `sgMail.send` itself, its failures and how they propagate (server.js:30). `sendMail` is modelled as "one message handed over" or "skipped".
- Failures of the store or the transport. The handler has no try/catch, so a failed store read or send aborts it before `res.send`. What the client then sees depends on the Express version. The model has no outcome for it.
- Transport-side refusals of a recipient list. `Resolver.NoDeduplication` shows that one address can appear twice in the list. If the transport refuses such a list, the real request fails while `Notify.Deliver` answers `Sent(n)`. Nothing in server.js guards against it.
- `async`/`await` sequencing: the request does nothing concurrent that could be verified.
- JSON values other than strings and `undefined`: fields holding numbers, `null`, objects or non-boolean preference values are not modelled. A non-string truthy `type` or `id` is outside the model's input types.
- `Notify.StatusCode` and the text sent with each rejection ("unauthorized", "missing type/id", "not found") carry no contract. They are fixed constants.
- The `id` that each user document carries in the directory is kept in `Resolver.User`. No rule reads it.
