# Voice-call lead generation: a Dafny model of the call core

The system places AI voice calls to sales leads. Its dashboard shows the leads, the agent personas and the call
history. The backend asks the voice provider to dial a lead over a Twilio leg, and hangs up a live leg by phone
number. When a call ends, the backend classifies its transcript and writes the outcome back to the lead. This
project models that core in Dafny and proves what each part promises.

| file | module | models |
|---|---|---|
| `types.dfy` | `Types` | the shared records: `Lead`, `AgentConfig`, `CallHistoryItem`, their enums, `Option` and `Result` |
| `text.dfy` | `Text` | the string built-ins the sources rely on: ASCII `toLowerCase`, `includes`, `join`, `replace` with a string pattern, decimal rendering, `padStart` |
| `phone.dfy` | `Phone` | `formatToE164`, the backend's phone-number normaliser |
| `qualification.dfy` | `Qualification` | `extractLeadDataFromTranscript`: transcript rendering, the three callback-time patterns (matched in backtracking order), and the keyword-priority classifier |
| `ultravox.dfy` | `Ultravox` | `createOutboundCall`: voice resolution and request composition; `getCallMessages` |
| `twilio.dfy` | `Twilio` | `endCallByPhoneNumber`: the priority search over call statuses, then the hang-up |
| `store.dfy` | `Store` | the `calls` and `leads` tables as a class whose fields the writes replace |
| `server.dfy` | `Server` | the `/outbound-call`, `/webhooks/ultravox/call-ended` and `/end-call` handlers |
| `call_session.dfy` | `CallSession` | the call-centre component `LiveCallSimulator`: its state and handlers, and the request body it posts |
| `call_history.dfy` | `CallHistory` | the call-history helpers: `HH:MM:SS` durations, id truncation, search, grouping by date label, pagination figures |
| `app.dfy` | `App` | the dashboard's list state and its fetch and update handlers |

Each provider and database answer is a parameter:
- the voice provider's reply to a request: the call it created, an error status with its text, or a thrown request;
- the messages fetch;
- the Twilio listing and update failures;
- every insert outcome and update success.

Clocks are a `now` string. A JavaScript value that is falsy or absent is `""` (or `None` where the source tells
`null` apart). The three schedule patterns are written as matchers that try the alternatives in a backtracking
engine's order, leftmost start first, each quantifier greedy.

Where the code does something other than what its names, messages and comments suggest, the model follows the code:
- `formatToE164("123")` returns `+91123` rather than failing. The `/outbound-call` endpoint then refuses it, because
  the result is shorter than ten characters (`Phone.FormatTooShort`, `Server.ShortNumberRefused`).
- A failed database insert at dispatch is only logged. The endpoint still answers 200, with no `dbCallId`.
- The end-of-call webhook answers 500 when the transcript fetch fails with anything other than a 404.
- The webhook replaces the lead's notes rather than appending to them.

## Model

| member | source | states |
|---|---|---|
| Text.JoinSnoc | server/services/ultravoxService.js:151 | joining one more line adds the separator and the line (the line alone for an empty list) |
| Text.IndexOfFrom | frontend/components/LiveCallSimulator.tsx:70 | the result is the first index at or after `from` where the pattern occurs; `None` exactly when it occurs nowhere from there |
| Text.ReplaceFirstAbsent | frontend/components/LiveCallSimulator.tsx:70 | `replace` with a pattern that does not occur returns the text unchanged |
| Text.ReplaceFirstAt | frontend/components/LiveCallSimulator.tsx:70 | `replace` rewrites only the first occurrence and keeps the text before and after it |
| Text.ReplaceFirst | frontend/components/LiveCallSimulator.tsx:70 | the length changes by the replacement's length minus the pattern's when the pattern occurs, and not at all otherwise |
| Text.NatToString | frontend/components/CallHistory.tsx:25 | a number renders as a non-empty string of decimal digits |
| Text.ParseNatToString | frontend/components/CallHistory.tsx:25 | reading back a rendered number gives the number |
| Text.NatToStringLength | frontend/components/CallHistory.tsx:25 | numbers below 10 take one digit, below 100 two, from 100 on at least three |
| Text.ParseNatLeadingZero | frontend/components/CallHistory.tsx:25 | the `0` that `padStart` adds does not change the value read back |
| Text.ContainsNothingInEmpty | server/services/ultravoxService.js:205 | no non-empty keyword occurs in the empty transcript |
| Phone.FormatToE164 | server/index.js:43-81 | the result is `null` exactly when the input is empty |
| Phone.Clean | server/index.js:47 | the stripped number is no longer than the input and holds only digits and `+` |
| Phone.CleanAppend | server/index.js:47 | stripping is a per-character filter: it distributes over concatenation |
| Phone.CleanOne | server/index.js:47 | a single character survives exactly when it is a digit or `+` |
| Phone.CleanOnlyKept | server/index.js:47 | the stripped number holds only digits and `+` |
| Phone.CleanFixesKept | server/index.js:47 | a number of digits and `+` is left unchanged by stripping |
| Phone.FormatShape | server/index.js:43-81 | with a `+digits` default code, every result starts with `+` and holds only digits and `+` |
| Phone.FormatIdempotent | server/index.js:43-81 | normalising a normalised number returns it unchanged |
| Phone.FormatKeepsDigits | server/index.js:47-80 | the result ends with the whole stripped number, or drops only its `00` prefix, and adds at most three characters |
| Phone.FormatTenDigitMobile | server/index.js:59-62 | any ten digits starting with 6 to 9 get `+91` |
| Phone.FormatIndianMobile | server/index.js:59-62 | `9876543210` becomes `+919876543210` |
| Phone.FormatPlusKept | server/index.js:49-52 | a stripped number with a leading `+` is returned as it is |
| Phone.FormatAlreadyInternational | server/index.js:49-52 | `+15551234567` is kept |
| Phone.FormatInternationalPrefix | server/index.js:54-57 | `00` followed by any digits becomes `+` and the digits |
| Phone.FormatDoubleZero | server/index.js:54-57 | `005551234567` becomes `+5551234567` |
| Phone.FormatTooShort | server/index.js:79-80 | `123` falls through to the default code and becomes `+91123` |
| Qualification.TranscriptSkipsUnspoken | server/services/ultravoxService.js:148-151 | a system (or other non-spoken) turn adds nothing to the transcript |
| Qualification.TranscriptAppendsSpoken | server/services/ultravoxService.js:148-151 | a user or assistant turn is appended as `role: text` on a new line |
| Qualification.TranscriptOfUnspoken | server/services/ultravoxService.js:148-151 | a call without user or assistant turns has an empty transcript |
| Qualification.Transcript | server/services/ultravoxService.js:148-151 | the transcript is empty exactly when no user or assistant turn was spoken |
| Qualification.SpaceRun | server/services/ultravoxService.js:189-191 | the run of `\s` characters at a position is the maximal one: it stays inside the text, every character in it is whitespace, and the character after it, if any, is not |
| Qualification.TimeEnds | server/services/ultravoxService.js:189-191 | the time group can end somewhere exactly when a digit starts it, and every end lies past that digit and inside the text |
| Qualification.GreedyTime | server/services/ultravoxService.js:189-190 | a time is captured exactly when a digit starts it, and the capture starts with a digit and occurs in the text |
| Qualification.OneDigitWithMeridiem | server/services/ultravoxService.js:189-191 | a digit directly followed by `am` or `pm` is captured together with that suffix |
| Qualification.OneDigitKeepsTrailingSpace | server/services/ultravoxService.js:189-191 | the greedy `\s*` inside the group keeps trailing whitespace: a digit followed by one space and then a character other than whitespace, `a` or `p` is captured as the digit and the space (`5 ` from `at 5 ok`) |
| Qualification.TomorrowAtAt | server/services/ultravoxService.js:189 | a `tomorrow at` match starts with the words `tomorrow at ` |
| Qualification.CallBackAtAt | server/services/ultravoxService.js:190 | any capture of `call (me )?(back )?at (time)` at a position starts with a digit and occurs in the text |
| Qualification.CallBackAtAtFirstLead | server/services/ultravoxService.js:190 | the capture is the time after the first lead-in, in the order the optional words are tried (`me back`, `me`, `back`, neither), that occurs at the position with a time after it; there is no capture exactly when no lead-in does |
| Qualification.CallMeBackAtFivePm | server/services/ultravoxService.js:190 | `call me back at 5pm` captures `5pm` |
| Qualification.FirstWithTail | server/services/ultravoxService.js:191 | a chosen end is one of the candidate ends of the time group, inside the text, after which `(ku\|la)? call pannunga` follows |
| Qualification.FirstWithTailIsFirst | server/services/ultravoxService.js:191 | the chosen end is the first candidate, in backtracking order, after which `(ku\|la)? call pannunga` follows; none is chosen exactly when no candidate admits it |
| Qualification.PannungaAt | server/services/ultravoxService.js:191 | a `call pannunga` capture starts with a digit and occurs in the text |
| Qualification.MatchAt | server/services/ultravoxService.js:188-192 | any pattern's capture at a position starts with a digit and occurs in the text |
| Qualification.FindFrom | server/services/ultravoxService.js:195 | the found capture starts with a digit and occurs in the text |
| Qualification.FindFromLeftmost | server/services/ultravoxService.js:195 | the search from a position returns the match at the least start at or after it where the pattern matches, and nothing exactly when it matches at no such start |
| Qualification.FindFromWitness | server/services/ultravoxService.js:195 | a match found from a position is the match at some start position at or after it |
| Qualification.Find | server/services/ultravoxService.js:195 | a pattern's capture starts with a digit and occurs in the lower-cased text |
| Qualification.FindLeftmost | server/services/ultravoxService.js:195 | `match` returns the capture at the leftmost start where the pattern matches, and null exactly when it matches nowhere |
| Qualification.FirstSchedule | server/services/ultravoxService.js:188-202 | a scheduled time is a digit-initial piece of the text captured by one of the three patterns; nothing is scheduled exactly when no pattern matches |
| Qualification.FirstScheduleInOrder | server/services/ultravoxService.js:194-202 | trying the patterns in order and stopping at the first match gives the first matching pattern's capture; no pattern matching gives none |
| Qualification.Qualify | server/services/ultravoxService.js:147-225 | the result keeps the transcript, its level is never `unknown`, and its note is never empty |
| Qualification.ExtractLeadDataFromTranscript | server/services/ultravoxService.js:147-225 | the field-by-field procedure (schedule loop, then the interest if-chain with `notes \|\| default`) yields `Qualify` |
| Qualification.ScheduledTimeOccurs | server/services/ultravoxService.js:194-199 | a scheduled time starts with a digit and is a piece of the lower-cased transcript |
| Qualification.NegativeKeywordWins | server/services/ultravoxService.js:205-207 | a negative keyword gives `Not Interested`, whatever interest keywords also occur |
| Qualification.HighInterestRequiresFollowUp | server/services/ultravoxService.js:208-211 | a high-interest keyword with no negative one gives `Interested` and forces follow-up |
| Qualification.ModerateInterestLeavesFollowUp | server/services/ultravoxService.js:212-214 | a moderate keyword alone gives `Interested`; follow-up is then required exactly when a callback was requested |
| Qualification.CallbackRequestRecorded | server/services/ultravoxService.js:194-202 | the first pattern's capture becomes the scheduled time and the note `Callback requested: <time>`, and requires follow-up whatever the level |
| Qualification.NoSignalMeansContacted | server/services/ultravoxService.js:215-222 | with no keyword and no callback, the level is `Contacted` and no follow-up is required; the note depends on a length above 100 |
| Qualification.NothingScheduledInEmpty | server/services/ultravoxService.js:188-202 | no pattern matches the empty text |
| Qualification.NoKeywordInEmpty | server/services/ultravoxService.js:205-212 | no keyword list matches the empty text |
| Qualification.SilentCallIsBrief | server/services/ultravoxService.js:148-160 | a call without spoken turns (the empty list included) is a brief call: `Contacted`, no follow-up, nothing scheduled |
| Qualification.TomorrowAtMentions | server/services/ultravoxService.js:189 | a `tomorrow at` match leaves the word `tomorrow` in the text |
| Qualification.TomorrowMatchMentionsTomorrow | server/services/ultravoxService.js:189 | a text the `tomorrow at` pattern matches contains `tomorrow` |
| Qualification.TomorrowRequestIsNeverMerelyContacted | server/services/ultravoxService.js:165-211 | since `tomorrow` is a high-interest keyword, a `tomorrow at` request always ends interested or declined, with follow-up |
| Ultravox.ResolveVoice | server/services/ultravoxService.js:28-44 | a voice becomes an ElevenLabs definition (`Custom Voice`, `eleven_turbo_v2_5`) exactly when it is non-empty and shorter than 30; anything else is passed on unchanged |
| Ultravox.UuidPassesThrough | server/services/ultravoxService.js:30-32 | a UUID in either letter case is passed on unchanged |
| Ultravox.DefaultVoiceIsWrapped | server/services/ultravoxService.js:16-44 | the default voice `terrence` is short and not a UUID, so it is sent as an ElevenLabs id |
| Ultravox.CreateOutboundCall | server/services/ultravoxService.js:13-87 | nothing is sent without an API key; the request carries the number, the origin (`twilioFrom`, else the environment's), the resolved voice, the language hint (default `en-US`), user-first speaking, recording on, the metadata, and a callback exactly when a base URL is given; the reply decides success, a provider error carrying the status and text, or a failure carrying the thrown error's message |
| Ultravox.GetCallMessages | server/services/ultravoxService.js:119-139 | an empty id and a 404 give an empty list; a body gives its `results`; any other status or network failure is an error |
| Twilio.TwilioAccount.constructor | server/services/twilioService.js:14 | the account starts with the given calls |
| Twilio.WithStatus | server/services/twilioService.js:36-39 | the listing holds only calls of the account with the requested status |
| Twilio.Listed | server/services/twilioService.js:36-39 | a listing holds at most 20 calls, each of the account and with the requested status |
| Twilio.FindParty | server/services/twilioService.js:41 | the first listed call whose `to` or `from` is the number; `None` exactly when there is none |
| Twilio.Search | server/services/twilioService.js:31-47 | a call found is one of the account's, of a searched status, and to or from the number |
| Twilio.CompleteCall | server/services/twilioService.js:57 | the call with the sid becomes completed and every other call is unchanged |
| Twilio.AfterTermination | server/services/twilioService.js:49-60 | the account changes only when a call is found and the update does not fail |
| Twilio.EndCallByPhoneNumber | server/services/twilioService.js:21-66 | no client gives `Twilio configuration missing`; a listing failure, no call found and an update failure each end the call not at all with their message; otherwise the first call found in priority order is completed and its sid returned |
| Twilio.SearchPriority | server/services/twilioService.js:31-47 | the call chosen is the first of its status's listing, and no call of the number is listed under an earlier status |
| Twilio.SearchFindsNothing | server/services/twilioService.js:35-52 | without failures, nothing is found exactly when no in-progress, ringing or queued listing holds a call of the number |
| Twilio.CompleteCallChangesOnlyTarget | server/services/twilioService.js:57 | a hang-up changes one call's status and nothing else |
| Store.ProviderIdRows | server/index.js:202-206 | the rows selected by provider call id are exactly the table's rows with that id |
| Store.SingleRow | server/index.js:202-206 | `.single()` gives a row exactly when one row matches, and that row is in the table with the id |
| Store.UnknownProviderIdHasNoRow | server/index.js:202-208 | a provider id no row carries selects no row |
| Store.CompleteByProviderId | server/index.js:187-195 | every row of the provider call is completed with the end, duration and summary, and every other row is unchanged |
| Store.CompleteById | frontend/components/LiveCallSimulator.tsx:97-101 | the rows with the database id are completed with the end and summary, and every other row is unchanged |
| Store.CompletionKeepsIdentity | server/index.js:187-195 | completing keeps each row's id, lead, provider id and start |
| Store.Database.constructor | server/index.js:134-144 | the tables start as given |
| Store.Database.InsertCall | server/index.js:134-148 | a successful insert appends the row under the generated id and returns it; a failed one changes nothing |
| Store.Database.CompleteProviderCall | server/index.js:187-195 | a successful update completes the provider call's rows; the leads are untouched |
| Store.Database.CompleteCallRow | frontend/components/LiveCallSimulator.tsx:97-101 | a successful update completes the row with that id; the leads are untouched |
| Store.Database.UpdateLead | server/index.js:209-215 | a successful update sets the status and notes of the lead with that id, and nothing changes when no lead has it |
| Store.Database.InsertLead | frontend/components/LiveCallSimulator.tsx:137-147 | a successful insert stores the lead under the generated id and returns it |
| Server.DialableByCleanedLength | server/index.js:96-103 | the endpoint accepts a `+` number of ten characters, a `00` number of eleven, and otherwise seven digits |
| Server.Dialable | server/index.js:96-103 | a number passes the length check only when its stripped form has at least seven characters |
| Server.ShortNumberRefused | server/index.js:96-103 | `123` is refused |
| Server.OutboundCall | server/index.js:87-166 | a missing number is a 400 and a number that normalises to fewer than ten characters is a 400, both with no request and no row; otherwise the request carries the defaults (prompt, `terrence`, `en-US`) and the callback; the reply is 200 exactly when the key is set and the provider creates the call, and then one `ongoing` row is logged if the insert succeeds; a provider error or a thrown request is a 500 with no row; every error reply's message is `OutboundError`'s |
| Server.OutboundError | server/index.js:91-103 | empty exactly when the endpoint answers 200; a missing number gives `Phone number is required`; an undialable number gives the `Invalid phone number format` text showing the number and its normal form (`null` when none) |
| Server.FailureMessage | server/index.js:159-164 | never empty: the thrown error's message, or `Failed to initiate call` when that is empty |
| Server.CallSummary | server/index.js:193 | the summary is the transcript's first 500 characters, or `Call completed` for an empty transcript |
| Server.LeadStatusOf | server/index.js:208-215 | a classified level maps to the lead status of the same name, never `New` or `Scheduled` |
| Server.CallEnded | server/index.js:172-226 | a failed transcript fetch is a 500 that changes nothing; otherwise the call's rows are completed with the classified transcript's summary and, when exactly one row with a lead resolves, that lead gets the level and the note |
| Server.UnknownCallChangesNoLead | server/index.js:187-218 | a webhook for a call no row belongs to completes no row and resolves no lead |
| Server.NormalisedNumberPresent | server/index.js:241-243 | a present number always normalises to a non-empty text, so the raw fallback is never used |
| Server.EndCall | server/index.js:232-255 | a missing number is a 400; otherwise the normalised number's call is ended as the termination service says, and each of its failures is a 404 |
| CallSession.FindAgent | frontend/components/LiveCallSimulator.tsx:59 | the first agent with the id; `None` exactly when no agent has it |
| CallSession.RequestBody | frontend/components/LiveCallSimulator.tsx:58-72 | the body carries the lead's number and id and the selected id, always a voice, and `ta-IN` exactly when the selected agent speaks formal Tamil, `en-US` otherwise |
| CallSession.RequestVoice | frontend/components/LiveCallSimulator.tsx:69 | the selected agent's voice when it has one, `terrence` otherwise |
| CallSession.PromptFor | frontend/components/LiveCallSimulator.tsx:70 | no prompt without an agent; a script without placeholders is sent as written |
| CallSession.PlainScriptSentVerbatim | frontend/components/LiveCallSimulator.tsx:70 | a script without placeholders is sent as it is |
| CallSession.CustomerNameFilledIn | frontend/components/LiveCallSimulator.tsx:70 | the first `{customer_name}` is replaced by the lead's name, with the script kept around it |
| CallSession.NoAgentUsesServerDefaults | server/index.js:105-115 | without a selected agent the backend sends its own prompt, the default voice and English |
| CallSession.ManualLead | frontend/components/LiveCallSimulator.tsx:137-147 | the manual lead is `New`, from `Manual`, with the form's name and number and `Manual Call` for a missing business |
| CallSession.LiveCallSimulator.constructor | frontend/components/LiveCallSimulator.tsx:19-28 | idle, no lead, the first agent selected, an empty log, an empty form |
| CallSession.LiveCallSimulator.SyncSelectedAgent | frontend/components/LiveCallSimulator.tsx:32-36 | with agents present the selection names an existing agent: a valid selection is kept, and a selection no agent has is reset to the first agent's id; without agents nothing changes |
| CallSession.LiveCallSimulator.StartCall | frontend/components/LiveCallSimulator.tsx:38-90 | the lead becomes active and the attempt ends not connecting; it connects exactly when the backend accepts; the client's row and the backend's row are appended; the log gains the initiating line and then `OutcomeLog`'s line; a logged row's id becomes the current call |
| CallSession.LiveCallSimulator.Dispatch | frontend/components/LiveCallSimulator.tsx:56-89 | the backend half: connected exactly on a 200, the backend's row, and one log line, `OutcomeLog`'s: `Call Initiated! SID: <id>` with the provider's id on a 200, `Error: <message>` with the backend's `RefusalMessage` otherwise, `Backend Connection Failed: <exception>` when the backend cannot be reached |
| CallSession.LiveCallSimulator.Post | frontend/components/LiveCallSimulator.tsx:56-74 | the reply is 200 exactly when the attempt is `Accepted`, then with the provider's call id; an error reply carries `RefusalMessage`; only the backend's row is appended |
| CallSession.RefusalMessage | server/index.js:91-103 | empty exactly when the attempt is `Accepted` |
| CallSession.LiveCallSimulator.FinalizeCall | frontend/components/LiveCallSimulator.tsx:92-106 | the call state is reset and, when a row was logged, it is completed with the joined log |
| CallSession.LiveCallSimulator.EndCall | frontend/components/LiveCallSimulator.tsx:108-126 | the backend ends the active lead's call when the lead has a number and the backend is reachable; the state is reset and the row completed with the log as it was when the handler started |
| CallSession.LiveCallSimulator.HandleManualCall | frontend/components/LiveCallSimulator.tsx:128-157 | without a name or a number nothing changes; otherwise `Creating manual lead for <name>...` is logged first; a stored manual lead is then made active, the form is cleared and the initiating line follows; a failed store logs only that line and keeps the leads, the calls, the form, the modal, the agent and the call state |
| CallSession.LiveCallSimulator.CallStoredLead | frontend/components/LiveCallSimulator.tsx:149-151 | the modal is closed and the form cleared; the lead becomes active; the log gains the initiating line and one line after it; the lead list is unchanged |
| CallHistory.SplitDuration | frontend/components/CallHistory.tsx:21-24 | hours, minutes and seconds add back up to the duration, with minutes and seconds below 60 |
| CallHistory.FormatDuration | frontend/components/CallHistory.tsx:21-26 | the text is at least eight characters and always ends in `:MM:SS`, two digits each |
| CallHistory.TwoDigits | frontend/components/CallHistory.tsx:25 | a part below 100 renders as two digits that read back as the part |
| CallHistory.FormatDurationRoundTrip | frontend/components/CallHistory.tsx:21-26 | below 100 hours the text is `HH:MM:SS` and reads back as the duration |
| CallHistory.LongDurationsWiden | frontend/components/CallHistory.tsx:21-26 | from 100 hours on the text is longer than eight characters |
| CallHistory.TruncateId | frontend/components/CallHistory.tsx:97-99 | ids of at most eight characters are kept; longer ones become their first eight characters followed by `...`, eleven in all |
| CallHistory.TruncateIdIdempotent | frontend/components/CallHistory.tsx:97-99 | shortening a shortened id changes nothing |
| CallHistory.ShownId | frontend/components/CallHistory.tsx:221 | at most eleven characters, showing the provider's call id when it is present and the row id otherwise: all of it when short, its first eight characters when long |
| CallHistory.FilterCalls | frontend/components/CallHistory.tsx:61-70 | the kept calls are exactly those matching the term in a field, case-insensitively |
| CallHistory.Matches | frontend/components/CallHistory.tsx:61-69 | an empty search matches every call; a non-empty search matches only a call with some text field present |
| CallHistory.FilterCallsAppend | frontend/components/CallHistory.tsx:61-70 | filtering keeps order and multiplicity: it distributes over concatenation |
| CallHistory.EmptySearchKeepsAll | frontend/components/CallHistory.tsx:62 | an empty search keeps the list as it is |
| CallHistory.FirstSeenLabels | frontend/components/CallHistory.tsx:72-79 | the group labels are exactly the calls' labels, each once |
| CallHistory.MembersExactly | frontend/components/CallHistory.tsx:72-79 | a group holds exactly the calls carrying its label |
| CallHistory.EachCallInOneGroup | frontend/components/CallHistory.tsx:72-79 | every call is in its own label's group and in no other |
| CallHistory.TotalGrows | frontend/components/CallHistory.tsx:78 | pushing one call onto an existing group adds one to the calls counted |
| CallHistory.OpenGroupTotal | frontend/components/CallHistory.tsx:75-78 | a group opened under a new label adds its size to the calls counted |
| CallHistory.JoinGroup | frontend/components/CallHistory.tsx:75-78 | a call whose label has a group joins the end of it, and the grouping stays exact |
| CallHistory.OpenGroup | frontend/components/CallHistory.tsx:75-78 | a call with a new label opens a group after the others, and the grouping stays exact |
| CallHistory.GroupCalls | frontend/components/CallHistory.tsx:72-85 | the groups are opened in order of first appearance, each holds its label's calls in list order, and together they hold every call once |
| CallHistory.TotalPages | frontend/components/CallHistory.tsx:86 | the pages are the least number that holds every call |
| CallHistory.PageRange | frontend/components/CallHistory.tsx:267 | the shown range never passes the total; on a non-empty page it starts after the earlier pages and spans less than a page |
| App.SetStatus | frontend/App.tsx:76 | only the leads with the id get the new status; length and order are kept |
| App.ReplaceById | frontend/App.tsx:98 | the agents with the id are replaced by the new agent; the rest are kept in place |
| App.RemoveById | frontend/App.tsx:108 | removal never lengthens the list |
| App.SetStatusChangesOnlyStatus | frontend/App.tsx:73-76 | a status update keeps the ids in order and every other field of every lead |
| App.SetStatusIdempotent | frontend/App.tsx:76 | setting the same status twice is setting it once |
| App.SetStatusUnknownId | frontend/App.tsx:76 | an id no lead carries leaves the list as it was |
| App.ReplaceByIdInstalls | frontend/App.tsx:98 | after the update an agent with the id is the new agent, and the list holds it exactly when it held the id |
| App.RemoveByIdKeeps | frontend/App.tsx:108 | the kept agents are exactly those with another id |
| App.RemoveByIdKeepsOrder | frontend/App.tsx:108 | removal keeps the order: it distributes over concatenation |
| App.RemoveByIdAbsent | frontend/App.tsx:108 | removing an id no agent carries leaves the list as it was |
| App.AppState.constructor | frontend/App.tsx:14-19 | empty lists, nothing loading |
| App.AppState.BeginFetchLeads | frontend/App.tsx:27-28 | the leads flag is raised before the query is awaited |
| App.AppState.FinishFetchLeads | frontend/App.tsx:29-36 | the leads are replaced on success and kept on failure; the flag is lowered either way |
| App.AppState.BeginFetchAgents | frontend/App.tsx:39-40 | the agents flag is raised before the query is awaited |
| App.AppState.FinishFetchAgents | frontend/App.tsx:41-48 | the agents are replaced on success and kept on failure; the flag is lowered either way |
| App.AppState.BeginFetchCalls | frontend/App.tsx:51-52 | the calls flag is raised before the query is awaited |
| App.AppState.FinishFetchCalls | frontend/App.tsx:53-60 | the calls are replaced on success and kept on failure; the flag is lowered either way |
| App.AppState.AddLead | frontend/App.tsx:63-71 | the saved lead is prepended exactly as returned; a failure leaves the list |
| App.AppState.UpdateLeadStatus | frontend/App.tsx:73-80 | the status update is applied only once the service call succeeds |
| App.AppState.AddAgent | frontend/App.tsx:83-93 | the saved agent is prepended and returned; a failure leaves the list and returns nothing |
| App.AppState.UpdateAgent | frontend/App.tsx:95-103 | the replacement is applied only once the service call succeeds |
| App.AppState.DeleteAgent | frontend/App.tsx:105-113 | the removal is applied only once the service call succeeds |

## Left out

- HTTP, Express routing, CORS, environment loading, console logging and `alert` are not modelled. Each provider and database exchange is a parameter.
- Time is not modelled: `new Date().toISOString()` is a `now` parameter, and the log lines drop their `toLocaleTimeString()` prefix.
- The call-history date label (`getDateLabel`) depends on the clock and the locale, so it is a function parameter. `formatTime` is left out for the same reason.
- `toLowerCase` is modelled for ASCII letters only. String lengths count characters, not UTF-16 code units.
- `replace` with a string pattern is modelled, but not the `$&`-style replacement patterns it would expand in a lead's name.
- `getCallStatus`, `listVoices` and the read-through status and recording routes are not part of this model. They are proxies to the provider.
- The Supabase service wrappers and their field renaming are not part of this model. Their results and failures are parameters.
- `Ultravox.CreateOutboundCall`: the destructuring defaults are modelled as `Option` arguments. The backend always passes voice and language, so their defaults apply only to other callers.
- `Server.CallEnded`: a missing `callId` in the webhook body is modelled as `""`. A `null` duration is `None`; a fractional duration is not modelled.
- `Server.CallEnded`: the fallback note `Call completed. Interest: ...` is modelled but cannot be reached, because qualification never yields an empty note (`Qualification.Qualify`).
- `Store.Database.InsertCall`: the generated id is an input. Uniqueness of ids is not modelled.
- `CallHistory.PageRange`: the figures are modelled. The rendered list is not sliced by page in the source, so no slicing is modelled.
- React's batching and the interleaving of concurrent handlers are not modelled. Each handler runs to completion.
- `CallSession.LiveCallSimulator.EndCall`: `finalizeCall` sees the log of the render the handler belongs to, so the summary is the log before `Ending call session...` was added.
- `CallSession.LiveCallSimulator.FinalizeCall`: `currentCallId` is never cleared. After a failed client-side log, a later call completes the previous call's row again; the model keeps this.
- `CallSession.LiveCallSimulator.HandleManualCall`: when the lead is stored, the contract states the stored lead, the active lead, the cleared form, the kept agent and the first two log lines. Whether the call connects, the rows it adds and its outcome line are stated by `StartCall` only, which the handler calls; they are not repeated through `CallStoredLead`.
- `CallSession.LiveCallSimulator.CallStoredLead`: the form is cleared after `startCall` instead of before it. `startCall` does not read the form, so the final state is the same.
- `CallHistoryItem.durationSeconds` is a `nat`. The database's integer durations are `Option<int>` on the calls table.
- Audio decoding and playback, the lead finder's maps search, the dashboard's static figures, and other pure UI are not part of this model.
