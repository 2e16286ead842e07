# Wedease dashboard: a verified model of the RSVP console

This project models, in Dafny, the core of the wedding-RSVP admin console
(a React single-page application):

- the **RSVP page**, in three parts:
  - its WhatsApp connection state, driven by socket events and by the
    Reinitialize and Logout commands;
  - the invitation dialog, whose template placeholders are checked against
    the uploaded CSV's headers;
  - the guest log table with its statistics cards.
- the **guest table**:
  - the column descriptions: status colours, the two comparators, the
    timestamp renderer and the sample rows;
  - each column's filter drop-down: its distinct options and their order,
    the checkbox toggle, the value filter and the day filter.
- the **auth provider**, with the browser **storage wrapper** it writes
  through. The stored token and user are JSON text, so the project carries
  its own encoder and parser for the JSON subset involved, with proved round
  trips.
- the **sign-in page** and the **route guard**.
- the **guest chat**: the optimistic send, the status a sent message settles
  on, and the window that merges history with local messages.
- the **add-wedding form**'s mandatory-field flag.

Components that change state in place are classes with `modifies` clauses:
`Auth.AuthProvider`, `Storage.StorageService`, `RsvpPageState.RsvpPage`,
`Chat.ChatPage`, `Chat.MessageInput`, `Chat.Message`, `Login.LoginPage` and
`WeddingForm.AddWeddingForm`. Each method's `ensures` states the whole new
state. Pure logic is made of functions with lemmas beside them.

Anything the browser or a server decides is a parameter:

- socket events, and the answers to HTTP requests;
- `Date.parse` and the local date parts;
- `toLocaleString`;
- `Date.now()` message ids;
- whether storage is available.

The files, one module each:

- `wrappers.dfy` — `Option`.
- `js_text.dfy` — the JavaScript string functions used.
- `interface.dfy` — the records.
- `form_fields.dfy` — the blank-field test shared by both forms.
- `invite_template.dfy` — the placeholder scan and the template validation.
- `connection.dfy` — the WhatsApp state machine.
- `rsvp_page.dfy` — the RSVP page class.
- `guest_table.dfy` and `columns.dfy` — the guest table.
- `json.dfy` and `storage.dfy` — JSON and storage.
- `auth.dfy`, `login.dfy` and `routes.dfy` — sign-in and routing.
- `chat.dfy` — the chat.
- `wedding_form.dfy` — the add-wedding form.

## Model

| member | source | states |
|---|---|---|
| JsText.TrimStart | src/components/MessageInput.tsx:29 | the result is the suffix left after a leading run of white space, and it does not start with white space |
| JsText.TrimEnd | src/components/MessageInput.tsx:29 | the result is the prefix left before a trailing run of white space, and it does not end with white space |
| JsText.Trim | src/components/AddWeddingForm.tsx:15 | a trimmed string is empty or starts and ends with a non-space character |
| JsText.TrimEmptyIff | src/components/AddWeddingForm.tsx:15 | `s.trim() === ''` exactly when every character of `s` is white space (both directions) |
| JsText.TrimIdempotent | src/components/RSVPInviteForm.tsx:55 | trimming twice is trimming once |
| JsText.LowerChar | src/components/RSVPTable.tsx:25 | no upper-case ASCII letter survives, and every other character is kept |
| JsText.Lower | src/components/RSVPTable.tsx:156 | same length; each character is lowered on its own |
| JsText.LowerIdempotent | src/components/RSVPTable.tsx:156 | lowering twice is lowering once |
| JsText.ContainsEmpty | src/components/RSVPTable.tsx:25 | every string includes the empty search text, so an empty search matches every option |
| JsText.NatDigits | src/contants/constant.ts:75 | `String(n)` is a non-empty digit string without a leading zero |
| JsText.NatDigitsRoundTrip | src/contants/constant.ts:75 | the digits read back as the number |
| JsText.DecimalString | src/components/RSVPTable.tsx:25 | `String(n)` is the digits of the magnitude, with a `-` before a negative number |
| JsText.DecimalStringInjective | src/components/RSVPTable.tsx:25 | different integers print as different strings |
| JsText.PadStart2 | src/contants/constant.ts:75-83 | a string of 2 or more characters is unchanged; a shorter one gets zeros in front up to length 2 |
| JsText.Pad2RoundTrip | src/contants/constant.ts:75-83 | a number below 100 pads to exactly two digits that read back as the number |
| JsText.Compare | src/components/RSVPTable.tsx:29 | a three-way result that is 0 exactly when the strings are equal |
| JsText.CompareAntisymmetric | src/components/RSVPTable.tsx:29 | swapping the arguments negates the result |
| JsText.LessEqTotal | src/components/RSVPTable.tsx:29 | any two strings are ordered one way or the other |
| JsText.LessEqTransitive | src/components/RSVPTable.tsx:29 | the order is transitive |
| FormFields.ValueOf | src/components/RSVPInviteForm.tsx:65 | `form.getFieldValue(field)`: the stored value, and absent for a field never set |
| FormFields.IsEmptyValue | src/components/RSVPInviteForm.tsx:66 | the per-field test `!value \|\| value.trim() === ''`; `EmptyValueMeaning` says which values it accepts |
| FormFields.EmptyValueMeaning | src/components/RSVPInviteForm.tsx:64-67 | a field counts as empty exactly when it is absent or holds only white space; a falsy value is empty |
| FormFields.HasEmptyFields | src/components/RSVPInviteForm.tsx:64-67 | true exactly when some listed field holds an empty value |
| InviteTemplate.CloseFrom | src/components/RSVPInviteForm.tsx:31 | the lazy `(.*?)}}` finds the nearest `}}` that no line terminator separates from the start, and fails only when no such `}}` exists |
| InviteTemplate.CloseFromFindsNearest | src/components/RSVPInviteForm.tsx:31 | the converse: an unbroken run up to the first `}}` is always found |
| InviteTemplate.Exec | src/components/RSVPInviteForm.tsx:34 | a match found by `exec` lies at or after `lastIndex` and inside the text, and is a real match |
| InviteTemplate.ExecLeftmost | src/components/RSVPInviteForm.tsx:34 | `exec` returns the leftmost match at or after `lastIndex`, and fails only when there is none |
| InviteTemplate.ExecSkipsNonOpeners | src/components/RSVPInviteForm.tsx:34 | positions without `{{` never start a match |
| InviteTemplate.ScanFrom | src/components/RSVPInviteForm.tsx:31-36 | the captures of the global regex's matches from a position on, each search resuming after the previous `}}` |
| InviteTemplate.Placeholders | src/components/RSVPInviteForm.tsx:30-38 | the scan from position 0; `ExtractPlaceholders` proves the loop returns it |
| InviteTemplate.ExtractPlaceholders | src/components/RSVPInviteForm.tsx:30-38 | the `while ((match = regex.exec(text)))` loop pushes exactly the captures of the global scan, in order |
| InviteTemplate.ScanFromUnfold | src/components/RSVPInviteForm.tsx:34-36 | one loop turn: a match adds its capture, and the search resumes after its `}}` |
| InviteTemplate.PlaceholderShape | src/components/RSVPInviteForm.tsx:31 | every name found has no line terminator and no `}}` inside, and occurs in the template as `{{name}}` |
| InviteTemplate.NoPlaceholdersIff | src/components/RSVPInviteForm.tsx:30-38 | the scan finds nothing exactly when the template holds no `{{` … `}}` pair without a line break between them |
| InviteTemplate.Invalid | src/components/RSVPInviteForm.tsx:43 | keeps exactly the placeholders that are not headers; the result is empty exactly when every placeholder is a header |
| InviteTemplate.InvalidAppend | src/components/RSVPInviteForm.tsx:43 | the filter keeps order: it distributes over concatenation |
| InviteTemplate.ValidateTemplate | src/components/RSVPInviteForm.tsx:40-47 | returns the scan's placeholders, and as invalid exactly those missing from the headers |
| InviteTemplate.ParametersValid | src/components/RSVPInviteForm.tsx:79 | the "parameters valid" flag holds exactly when every placeholder is a header |
| InviteTemplate.TemplateText | src/components/RSVPInviteForm.tsx:75 | `form.getFieldValue("template") \|\| ""`: the template's text, or "" when absent |
| InviteTemplate.NonEmpty | src/components/RSVPInviteForm.tsx:55 | `.filter(Boolean)` keeps exactly the non-empty strings |
| InviteTemplate.NonEmptyAppend | src/components/RSVPInviteForm.tsx:55 | the filter distributes over concatenation |
| InviteTemplate.TrimAll | src/components/RSVPInviteForm.tsx:55 | every header is trimmed, and the positions are kept |
| InviteTemplate.NormalizeHeaders | src/components/RSVPInviteForm.tsx:54-55 | the kept headers are exactly the non-blank trimmed field names (none when `meta.fields` is absent), and none has white space at either end |
| InviteTemplate.NormalizeHeadersKeepsOrder | src/components/RSVPInviteForm.tsx:54-55 | consecutive field lists normalise to consecutive header lists |
| InviteTemplate.InviteFormIncomplete | src/components/RSVPInviteForm.tsx:61-70 | true exactly when csv, template or inviteType is absent, empty or blank |
| InviteTemplate.GreetingPlaceholders | src/components/RSVPInviteForm.tsx:30-38 | `Hi {{name}}, see you {{when}}` yields `name` then `when` |
| InviteTemplate.GreetingValidation | src/components/RSVPInviteForm.tsx:40-47 | against the headers `name` and `phone`, only `when` is invalid, so the parameters are not valid |
| InviteTemplate.EmptyNameExample | src/components/RSVPInviteForm.tsx:31 | `{{}}` yields one empty name |
| InviteTemplate.DuplicatesKeptExample | src/components/RSVPInviteForm.tsx:35 | a repeated name is reported each time it occurs |
| InviteTemplate.LineBreakStopsExample | src/components/RSVPInviteForm.tsx:31 | a pair split by a line break is no placeholder |
| WhatsAppConnection.EndsSession | src/pages/RSVPPage.tsx:124-149 | the four events `logged_out`, `disconnected`, `disconnect` and `auth_failure` |
| WhatsAppConnection.Step | src/pages/RSVPPage.tsx:95-153 | each socket event's handler: `qr` shows the code and stops loading; `ready` overwrites all four fields; `authenticated` sets the flag and clears the code; the four session-ending events disconnect, clear the code and start loading; the others change nothing |
| WhatsAppConnection.Emitted | src/pages/RSVPPage.tsx:95-98 | on `connect` the page emits `get_ready_status` and then `set_wedding_id`; on no other event does it emit anything |
| WhatsAppConnection.Run | src/pages/RSVPPage.tsx:95-153 | the state after a sequence of events, handled in delivery order |
| WhatsAppConnection.RunOne | src/pages/RSVPPage.tsx:95-153 | running one event is one handler step |
| WhatsAppConnection.RunAppend | src/pages/RSVPPage.tsx:95-153 | events are handled in delivery order: running a followed by b is running b after a |
| WhatsAppConnection.ReinitializeCommand | src/pages/RSVPPage.tsx:272-279 | without a socket nothing changes; with one, loading starts and the code is cleared, while the connected flag and the number stay |
| WhatsAppConnection.LogoutCommand | src/pages/RSVPPage.tsx:281-289 | like Reinitialize, and also not connected; the number stays |
| WhatsAppConnection.CommandEmits | src/pages/RSVPPage.tsx:273-274 | with a socket exactly the one command is emitted; without one nothing is |
| WhatsAppConnection.LoginModalVisible | src/pages/RSVPPage.tsx:431 | the login modal is closed exactly when connected and not loading |
| WhatsAppConnection.Inv | src/pages/RSVPPage.tsx:105-108 | a QR code is shown only when not loading |
| WhatsAppConnection.StepKeepsInv | src/pages/RSVPPage.tsx:95-153 | every handler keeps the invariant "a QR code is shown only when not loading" |
| WhatsAppConnection.CommandsKeepInv | src/pages/RSVPPage.tsx:272-289 | both commands keep the invariant |
| WhatsAppConnection.RunKeepsInv | src/pages/RSVPPage.tsx:95-153 | any sequence of events keeps the invariant |
| WhatsAppConnection.ReachableInv | src/pages/RSVPPage.tsx:36-39 | every state that events reach from the initial state satisfies the invariant |
| WhatsAppConnection.QrShownOnlyInModal | src/pages/RSVPPage.tsx:431-435 | a QR code on screen is inside the open modal exactly when the page is not connected |
| WhatsAppConnection.SessionEndIdempotent | src/pages/RSVPPage.tsx:124-149 | the four session-ending events lead to the same state, and applying one twice is applying it once |
| WhatsAppConnection.ReadyForgetsHistory | src/pages/RSVPPage.tsx:110-116 | after `ready`, the state is fixed by that event alone, whatever came before |
| WhatsAppConnection.ReadyAfterQr | src/pages/RSVPPage.tsx:105-116 | a pending QR code followed by `ready` leaves the page connected with the number and no code |
| WhatsAppConnection.QrWhileConnected | src/pages/RSVPPage.tsx:105-108 | a `qr` event after `ready` leaves a connected page showing a code, with the modal closed |
| WhatsAppConnection.NumberSurvivesLogout | src/pages/RSVPPage.tsx:124-129 | after `ready` and then `logout`, the page is disconnected but still holds the number |
| RsvpPageState.OrElse | src/pages/RSVPPage.tsx:63-67 | `value or fallback`: the value when it is present and non-empty, otherwise the fallback |
| RsvpPageState.LatestAttempt | src/pages/RSVPPage.tsx:59 | the last attempt, present exactly when the attempt list is present and not empty |
| RsvpPageState.TransformRow | src/pages/RSVPPage.tsx:59-71 | one row built from one log entry and its position; `RowFromLatestAttempt` and `RowDefaults` state its fields |
| RsvpPageState.TransformLogs | src/pages/RSVPPage.tsx:58-72 | one row per log entry, in order, each built from the entry at its position |
| RsvpPageState.TransformLogsNumbering | src/pages/RSVPPage.tsx:61-62 | rows are numbered 1 to n with distinct numbers, and each row keeps its entry's id |
| RsvpPageState.RowFromLatestAttempt | src/pages/RSVPPage.tsx:66-70 | the status and the localised timestamp come from the last attempt, and an empty one reads "N/A" |
| RsvpPageState.RowDefaults | src/pages/RSVPPage.tsx:63-70 | without attempts, status and timestamp read "N/A"; a missing name, phone or invite type reads "N/A"; a missing response reads "No responses" |
| RsvpPageState.SumCounts | src/pages/RSVPPage.tsx:170 | the reduce as a left fold over the invite-type counts, starting from 0 |
| RsvpPageState.SumCountsAppend | src/pages/RSVPPage.tsx:170 | the reduce's total distributes over concatenation |
| RsvpPageState.SumCountsBounds | src/pages/RSVPPage.tsx:170 | with counts that are not negative, the total is not negative and bounds every single count |
| RsvpPageState.MemoizedStats | src/pages/RSVPPage.tsx:167-181 | nothing exactly when there are no statistics; otherwise the total is the sum of the invite-type counts, the yes and no counts are the answer's, and each percentage gains a `%` |
| RsvpPageState.CardFigures | src/pages/RSVPPage.tsx:400-402 | zeros and "0.0%" without statistics, otherwise the computed figures |
| RsvpPageState.TipFor | src/pages/RSVPPage.tsx:187-216 | invalid parameters take priority over the recognised ones, which take priority over the missing-CSV hint; each hint carries its own list |
| RsvpPageState.ImportParts | src/pages/RSVPPage.tsx:299-321 | the file and its URL come first when a CSV was uploaded; the attachment URL comes next, right before the last four parts; the last four parts are inviteType, template, weddingId and senderNumber, each defaulting to the empty string |
| RsvpPageState.NoAttachmentWithoutMedia | src/pages/RSVPPage.tsx:309-315 | without a media file no part carries an attachment URL |
| RsvpPageState.TextOf | src/pages/RSVPPage.tsx:318-319 | `values.field \|\| ""` for a text field |
| RsvpPageState.Validated | src/components/RSVPInviteForm.tsx:73-84 | what the validation effect leaves: placeholders, invalid list and both flags agree with the form and the headers |
| RsvpPageState.SendDisabled | src/pages/RSVPPage.tsx:384 | Send is disabled when the form is incomplete, a parameter is invalid, or a send is under way |
| RsvpPageState.DialogTip | src/pages/RSVPPage.tsx:187-216 | the hint for the dialog's current lists and CSV field |
| RsvpPageState.RsvpPage.constructor | src/pages/RSVPPage.tsx:32-47 | the page's initial state: not connected, loading, no code, no number, dialog closed, parameters valid, Send enabled, logs loading |
| RsvpPageState.RsvpPage.OnEvent | src/pages/RSVPPage.tsx:95-153 | the connection fields change exactly as `Step` says; the emitted events grow by those of `Emitted`; the dialog and the table are untouched |
| RsvpPageState.RsvpPage.HandleReinitialize | src/pages/RSVPPage.tsx:272-279 | the connection state follows `ReinitializeCommand` and the emission follows `CommandEmits`; nothing else changes |
| RsvpPageState.RsvpPage.LogoutWhatsAppClient | src/pages/RSVPPage.tsx:281-289 | the connection state follows `LogoutCommand` and the emission follows `CommandEmits`; nothing else changes |
| RsvpPageState.RsvpPage.Revalidate | src/components/RSVPInviteForm.tsx:73-84 | afterwards the dialog is `Validated`: the placeholders, the invalid list, the "parameters valid" flag and the mandatory flag agree with the form and the headers; the values, the headers, the visibility, the sending flag, the connection and the table are kept |
| RsvpPageState.RsvpPage.HandleValuesChange | src/components/RSVPInviteForm.tsx:88-97 | the new values are stored; the dialog is revalidated when a template is defined, and its derived fields are otherwise untouched |
| RsvpPageState.RsvpPage.UploadCsv | src/components/RSVPInviteForm.tsx:50-58 | the upload is refused (returns false); the headers become the normalised field names, and the dialog is revalidated |
| RsvpPageState.RsvpPage.RemoveCsv | src/components/RSVPInviteForm.tsx:111 | the header list empties and the dialog is revalidated |
| RsvpPageState.RsvpPage.ToggleModal | src/pages/RSVPPage.tsx:218-220 | the dialog's visibility flips and nothing else changes |
| RsvpPageState.RsvpPage.BeginSend | src/pages/RSVPPage.tsx:294 | Send is disabled while the request is under way; nothing else changes |
| RsvpPageState.RsvpPage.FinishSend | src/pages/RSVPPage.tsx:343-354 | success resets the form, closes the dialog, empties the headers, revalidates, and then refreshes the log: a given answer replaces the rows and the statistics, a failed refresh keeps them, and log loading ends; failure marks the form incomplete and changes nothing else; either way sending is enabled again |
| RsvpPageState.RsvpPage.FetchLogs | src/pages/RSVPPage.tsx:52-80 | a successful answer replaces the rows with the transformed log and the statistics with the answer's; a failed one keeps both; loading ends either way; the dialog and the connection are untouched |
| RsvpPageState.SendEnabledMeansReady | src/pages/RSVPPage.tsx:384 | on a validated dialog, an enabled Send means csv, template and inviteType are filled, every placeholder is a header, and no send is under way |
| RsvpPageState.TipAgreesWithFlag | src/pages/RSVPPage.tsx:187-197 | on a validated dialog, the red hint shows exactly when the parameters are flagged invalid, and the green hint lists only headers |
| GuestTable.Dedup | src/components/RSVPTable.tsx:19-20 | `Array.from(new Set(xs))` holds the same elements, each once |
| GuestTable.KeepTruthy | src/components/RSVPTable.tsx:21 | `.filter(Boolean)` keeps exactly the truthy cells and keeps them distinct |
| GuestTable.ColumnValues | src/components/RSVPTable.tsx:20 | the column's cell for each row, in row order |
| GuestTable.UniqueValues | src/components/RSVPTable.tsx:19-21 | the drop-down's options are distinct and are exactly the truthy values the column takes in some row |
| GuestTable.Matches | src/components/RSVPTable.tsx:25-26 | the option's text includes the search text, both lowercased |
| GuestTable.OptionLe | src/components/RSVPTable.tsx:24-30 | the comparator read as an order: a match before a non-match, otherwise by text; the next rows prove it total and transitive |
| GuestTable.OptionLeTotal | src/components/RSVPTable.tsx:24-30 | the drop-down's comparator orders any two options one way or the other |
| GuestTable.OptionLeTransitive | src/components/RSVPTable.tsx:24-30 | the comparator is transitive |
| GuestTable.Insert | src/components/RSVPTable.tsx:24-30 | inserting into a sorted option list gives a sorted list with one more occurrence of the option |
| GuestTable.SortOptions | src/components/RSVPTable.tsx:24 | the sort's result is a sorted permutation of its input |
| GuestTable.FilteredOptions | src/components/RSVPTable.tsx:19-30 | the listed options are a sorted permutation of the unique truthy values |
| GuestTable.MatchesFirst | src/components/RSVPTable.tsx:27-28 | every option that matches the search comes before every option that does not |
| GuestTable.FilteredOptionsDistinct | src/components/RSVPTable.tsx:19-30 | after sorting, the options are still distinct and still exactly the unique values |
| GuestTable.Toggle | src/components/RSVPTable.tsx:55-59 | clicking an option flips its membership and leaves every other option's; an unchecked one joins at the end |
| GuestTable.Without | src/components/RSVPTable.tsx:57 | `filter(k => k !== val)` removes exactly that value, and the list gets shorter when the value was in it |
| GuestTable.WithoutAppend | src/components/RSVPTable.tsx:57 | the filter keeps the remaining keys in their order: it distributes over concatenation |
| GuestTable.ToggleTwice | src/components/RSVPTable.tsx:55-59 | two clicks on the same option restore the selected set |
| GuestTable.ValueFilter | src/components/RSVPTable.tsx:155-156 | a row passes when its field's text equals the chosen value, ignoring case |
| GuestTable.OptionKeepsSomeRow | src/components/RSVPTable.tsx:155-156 | every option the drop-down offers keeps at least one row under the value filter |
| GuestTable.ValueFilterIgnoresCase | src/components/RSVPTable.tsx:155-156 | the case of the chosen value does not change which rows match |
| GuestTable.PickDay | src/components/RSVPTable.tsx:121-123 | a clicked day becomes the selection |
| GuestTable.ShownDay | src/components/RSVPTable.tsx:106 | the day box shows the first selected key, or nothing |
| GuestTable.TypeDay | src/components/RSVPTable.tsx:107 | typing gives the text as the only key, and typing nothing gives no key (both directions) |
| GuestTable.TypeDayShown | src/components/RSVPTable.tsx:106-123 | the day box shows back what was typed, and a clicked day becomes the whole selection |
| GuestTable.UniqueDays | src/components/RSVPTable.tsx:93-101 | the offered days are distinct and are exactly the days of the timestamps that parse |
| GuestTable.SomeValues | src/components/RSVPTable.tsx:101 | dropping the nulls keeps exactly the days present, and keeps them distinct |
| GuestTable.DayFilterAsWritten | src/components/RSVPTable.tsx:139-143 | the filter throws (None) exactly when the row's timestamp does not parse |
| GuestTable.DayFilterThrowsOnMissingTimestamp | src/components/RSVPTable.tsx:139-143 | a row whose timestamp is "N/A" makes the written filter throw |
| GuestTable.DayFilter | src/components/RSVPTable.tsx:139-143 | the corrected filter: a row passes exactly when its timestamp parses to the chosen day |
| GuestTable.DayFilterAgrees | src/components/RSVPTable.tsx:93-101 | where the written filter answers, the corrected one gives the same answer; a day is offered exactly when some row passes the corrected filter |
| GuestTable.SearchPropsFor | src/components/RSVPTable.tsx:89-157 | the timestamp column gets the day filter and every other column the value filter on its own field |
| GuestTable.AssembleColumn | src/components/RSVPTable.tsx:166-186 | a column gets search props exactly when search is enabled, and a sorter exactly when sort is enabled and a sorter is given |
| GuestTable.AssembleColumns | src/components/RSVPTable.tsx:162-186 | one column per description, in order, each keeping its title, key and field; no descriptions give no columns |
| Columns.StatusColor | src/contants/constant.ts:8-16 | the four known statuses map to green, blue, orange and red; every other status maps to "default" (both directions) |
| Columns.StatusColorsDistinct | src/contants/constant.ts:9-14 | the four known statuses get four different colours |
| Columns.NameOrder | src/contants/constant.ts:30 | two names compare equal exactly when they agree ignoring case |
| Columns.NameOrderIgnoresCase | src/contants/constant.ts:30 | names that differ only in case sort alike against any row |
| Columns.NameOrderAntisymmetric | src/contants/constant.ts:30 | swapping the rows negates the comparison |
| Columns.TimestampOrder | src/contants/constant.ts:63-70 | when both timestamps parse, the result is the difference of their times; otherwise it is a text comparison that is 0 exactly on equal texts |
| Columns.TimestampOrderAntisymmetric | src/contants/constant.ts:63-70 | swapping the rows negates the comparison, in both branches |
| Columns.Hour12 | src/contants/constant.ts:81-82 | the clock hour lies in 1 to 12 and agrees with the hour of the day modulo 12 |
| Columns.Meridiem | src/contants/constant.ts:80 | "AM" exactly before noon, and "PM" exactly from noon on |
| Columns.Hour12Recovers | src/contants/constant.ts:80-83 | the clock hour and the meridiem together give back the hour of the day |
| Columns.DateHead | src/contants/constant.ts:75-76 | `dd-mm-` is six characters long |
| Columns.TimeTail | src/contants/constant.ts:78-84 | ` hh:mm AM` is nine characters long |
| Columns.FormatDate | src/contants/constant.ts:84 | the rendered text is 15 characters plus the year's digits long |
| Columns.RenderTimestamp | src/contants/constant.ts:71-87 | a value that does not parse is shown unchanged; one that parses is shown formatted |
| Columns.ReadRendered | src/contants/constant.ts:84 | only text long enough to be a rendered date reads back as one |
| Columns.HeadReadsBack | src/contants/constant.ts:75-76 | the rendered `dd-mm-` reads back as the day and the month number |
| Columns.TailReadsBack | src/contants/constant.ts:78-84 | the rendered ` hh:mm AM/PM` reads back as the hour of the day and the minutes |
| Columns.RenderReadsBack | src/contants/constant.ts:71-87 | rendering loses nothing: for a year that is not negative, the shown text reads back as the same date and time |
| Columns.ColumnFlags | src/contants/constant.ts:18-89 | only name and timestamp sort, every column but the serial number is searchable, and the keys are distinct |
| Columns.AssembledColumns | src/contants/constant.ts:18-89 | once assembled, exactly name and timestamp carry a sorter, and only timestamp gets the day filter |
| Columns.FixtureSerials | src/contants/constant.ts:91-392 | thirty sample rows, row i with serial number i + 1 |
| Columns.FixtureNumbering | src/contants/constant.ts:91-392 | each sample row's id is its serial number printed |
| Columns.FixtureIdsDistinct | src/contants/constant.ts:91-392 | the sample ids are distinct |
| Json.HexValue | src/services/storage/localStorage.ts:22 | a hex digit's value lies in 0 to 15 |
| Json.HexRoundTrip | src/services/storage/localStorage.ts:13 | a written hex digit reads back as its value |
| Json.EscapeChar | src/services/storage/localStorage.ts:13 | an escape is 1 to 6 characters and never starts with a quote; only the quote, the backslash and control characters are escaped |
| Json.EscapeAll | src/services/storage/localStorage.ts:13 | each character escaped in turn; `ReadEscaped` and `BodyRoundTrip` read it back |
| Json.Quote | src/services/storage/localStorage.ts:13 | `JSON.stringify(s)` starts and ends with a quote |
| Json.DecodeEscape | src/services/storage/localStorage.ts:22 | an escape sequence that is read uses at least 2 characters of the input |
| Json.ReadChar | src/services/storage/localStorage.ts:22 | reading a character uses at least one character of the input |
| Json.ParseBody | src/services/storage/localStorage.ts:22 | the text left after a string body is shorter than the input |
| Json.ParseString | src/services/storage/localStorage.ts:22 | the text left after a string literal is shorter than the input |
| Json.ReadEscaped | src/services/storage/localStorage.ts:13-22 | every escape reads back as the character it escapes |
| Json.BodyRoundTrip | src/services/storage/localStorage.ts:13-22 | an escaped body followed by a quote reads back as the string, with the rest untouched |
| Json.QuoteRoundTrip | src/services/storage/localStorage.ts:13-22 | a quoted string reads back as itself, whatever follows it |
| Json.ParseJsonString | src/services/storage/localStorage.ts:22 | `JSON.parse` succeeds only on text that is exactly one string literal |
| Json.JsonStringRoundTrip | src/services/storage/localStorage.ts:13-22 | `JSON.parse(JSON.stringify(s)) == s` for every string |
| Json.ParseValue | src/services/storage/localStorage.ts:41 | the text left after a value is shorter than the input |
| Json.ValueRoundTrip | src/services/storage/localStorage.ts:32-41 | a written value reads back as itself, whatever follows it |
| Json.EncodeObject | src/services/storage/localStorage.ts:32 | an encoded object starts with `{` |
| Json.ParseMember | src/services/storage/localStorage.ts:41 | the text left after a member is shorter than the input |
| Json.ParseMembers | src/services/storage/localStorage.ts:41 | the text left after a member list is shorter than the input |
| Json.ParseObject | src/services/storage/localStorage.ts:41 | `JSON.parse` of text that must be exactly one flat object; `ObjectRoundTrip` proves it inverts the encoder |
| Json.MemberRoundTrip | src/services/storage/localStorage.ts:32-41 | a written `"key":value` member reads back as itself |
| Json.LastMemberRoundTrip | src/services/storage/localStorage.ts:32-41 | a last member and its closing brace read back as a one-member list |
| Json.NextMemberRoundTrip | src/services/storage/localStorage.ts:32-41 | a member, a comma and further members read back as one longer list |
| Json.MembersRoundTrip | src/services/storage/localStorage.ts:32-41 | any member list followed by `}` reads back as the same members, in order |
| Json.ObjectRoundTrip | src/services/storage/localStorage.ts:32-41 | `JSON.parse(JSON.stringify(obj))` gives the same members in the same order |
| Storage.UserMembers | src/services/storage/localStorage.ts:32 | the members `JSON.stringify(user)` writes, in field order, leaving out absent fields |
| Storage.EncodeUser | src/services/storage/localStorage.ts:32 | `JSON.stringify(user)` |
| Storage.Apply | src/context/AuthContext.tsx:124 | one member spread over a user: a known key replaces its field, another key is dropped |
| Storage.Merge | src/context/AuthContext.tsx:124 | object spread: the members applied in order, so a later duplicate wins |
| Storage.MergeAppend | src/context/AuthContext.tsx:124 | spreading a then b is spreading b over the result of a |
| Storage.MergeOne | src/context/AuthContext.tsx:124 | spreading one member is applying it |
| Storage.UserMembersRoundTrip | src/services/storage/localStorage.ts:41 | a user's members, spread over an empty object, give back the user field for field |
| Storage.TokenIn | src/services/storage/localStorage.ts:21-22 | `getToken` over the local map: none without the key or with an empty value, else the parsed JSON string |
| Storage.UserIn | src/services/storage/localStorage.ts:40-41 | `getUser` over the local map: none without the key or with an empty value, else the parsed object spread over an empty user |
| Storage.TokenRoundTrip | src/services/storage/localStorage.ts:11-27 | storing a token and then reading it gives the token back |
| Storage.KeysIndependent | src/services/storage/localStorage.ts:11-46 | writing the user leaves the token as it reads, and writing the token leaves the user |
| Storage.UserRoundTrip | src/services/storage/localStorage.ts:30-46 | storing a user and then reading it gives the user back |
| Storage.StorageService.constructor | src/services/storage/localStorage.ts:109 | the service starts over the given storage maps |
| Storage.StorageService.Token | src/services/storage/localStorage.ts:19-27 | what `getToken` returns: the stored token, or none without storage |
| Storage.StorageService.StoredUser | src/services/storage/localStorage.ts:38-46 | what `getUser` returns: the stored user, or none without storage |
| Storage.StorageService.SetToken | src/services/storage/localStorage.ts:11-17 | writes the token as a JSON string under `token`, and `getToken` then returns it; without storage, nothing changes |
| Storage.StorageService.GetToken | src/services/storage/localStorage.ts:19-27 | returns the stored token; it returns one only when storage works and holds the key |
| Storage.StorageService.SetUser | src/services/storage/localStorage.ts:30-36 | writes the user as JSON under `user`, and `getUser` then returns it, while `getToken` returns what it did before; without storage, nothing changes |
| Storage.StorageService.GetUser | src/services/storage/localStorage.ts:38-46 | returns the stored user; it returns one only when storage works and holds the key |
| Storage.StorageService.SetSessionItem | src/services/storage/localStorage.ts:49-55 | sets the session key and changes nothing else |
| Storage.StorageService.GetSessionItem | src/services/storage/localStorage.ts:57-64 | the value is present exactly when storage works and holds the key, and it is the stored value |
| Storage.StorageService.RemoveSessionItem | src/services/storage/localStorage.ts:66-72 | removes that session key only |
| Storage.StorageService.ClearAuthData | src/services/storage/localStorage.ts:75-83 | removes the token, the user and the saved location and nothing else; no token or user can be read afterwards |
| Storage.StorageService.ClearAll | src/services/storage/localStorage.ts:86-93 | empties both storages when storage works |
| Storage.StorageService.IsStorageAvailable | src/services/storage/localStorage.ts:96-105 | true exactly when storage works, and the probe key is gone afterwards |
| Auth.Present | src/context/AuthContext.tsx:109 | a truthy query parameter: present and not empty |
| Auth.Acceptable | src/context/AuthContext.tsx:50 | `userData && userData.email && userData.username` |
| Auth.OAuthErrorMessage | src/context/AuthContext.tsx:142-148 | the two known codes get their messages; every other code gets the generic one (both directions) |
| Auth.OAuthDefaults | src/context/AuthContext.tsx:112-118 | email and username come from the parameters, the role defaults to "viewer", the department to null, and isGoogleAuth is true |
| Auth.OAuthUser | src/context/AuthContext.tsx:112-128 | the defaults, overridden member by member by a parseable `user` parameter |
| Auth.OAuthUserDefaults | src/context/AuthContext.tsx:120-128 | without a parseable `user` parameter the defaults stand; with one, a field it does not name keeps its default |
| Auth.MergeUntouched | src/context/AuthContext.tsx:124 | spreading an object leaves alone every field it does not name |
| Auth.ParseBearer | src/context/AuthContext.tsx:215 | reads the token back out of `Bearer <token>` |
| Auth.BearerRoundTrip | src/context/AuthContext.tsx:215 | the `Bearer` header carries the token back out |
| Auth.CheckAuthInstalls | src/context/AuthContext.tsx:78-103 | the user `checkAuth` installs: only with a stored token and user, and only a complete one; a valid answer's user, or the cached user after a thrown verification |
| Auth.CheckAuthClears | src/context/AuthContext.tsx:89-100 | `checkAuth` clears storage after an answer without a valid user, or after a thrown verification with an incomplete cached user |
| Auth.CheckAuthExclusive | src/context/AuthContext.tsx:82-102 | `checkAuth` never both installs and clears, and without a stored token and user it does neither |
| Auth.CheckedLocal | src/context/AuthContext.tsx:78-103 | the local store after `checkAuth`: the installed user written, or token and user removed, or unchanged |
| Auth.CheckedSession | src/context/AuthContext.tsx:78-103 | the session store after `checkAuth`: the saved location removed exactly when it clears |
| Auth.RedirectSucceeds | src/context/AuthContext.tsx:109 | the redirect carries a token, an email and a username |
| Auth.RedirectInstalls | src/context/AuthContext.tsx:109-132 | a redirect installs the OAuth user exactly when it succeeds and that user is complete |
| Auth.RedirectLocal | src/context/AuthContext.tsx:105-155 | the local store after the redirect: token, then the user when installed; token and user removed after an error; otherwise unchanged |
| Auth.RedirectSession | src/context/AuthContext.tsx:142-154 | the session store after the redirect: the saved location removed exactly after an error redirect |
| Auth.CheckedLocalOverwritten | src/context/AuthContext.tsx:66-67 | writing both the token and the user erases whatever `checkAuth` did to the local store |
| Auth.RedirectOverridesCheck | src/context/AuthContext.tsx:66-67 | after a redirect that installs a user, the local store is what the redirect alone leaves, and the token and user read back as the redirect's |
| Auth.ErrorRedirectClears | src/context/AuthContext.tsx:66-67 | after an error redirect, the token, the user and the saved location are gone, whatever `checkAuth` did first |
| Auth.AuthProvider.constructor | src/context/AuthContext.tsx:45-47 | authenticated, loading, no user and no calls |
| Auth.AuthProvider.UserComplete | src/context/AuthContext.tsx:49-52 | the in-memory user, when there is one, has an email and a username |
| Auth.AuthProvider.HasValidToken | src/context/AuthContext.tsx:206-210 | true exactly when a non-empty token is stored and so is a user with an email |
| Auth.AuthProvider.AuthHeader | src/context/AuthContext.tsx:213-216 | a header exists exactly when a non-empty token is stored, and it carries that token |
| Auth.AuthProvider.SetUserData | src/context/AuthContext.tsx:49-61 | accepts exactly a user with an email and a username, then installs it and stores it so that `getUser` returns it; the stored token is untouched; on refusal nothing changes |
| Auth.AuthProvider.ClearAuth | src/context/AuthContext.tsx:183-185 | only the stored auth data goes; the in-memory state stays |
| Auth.AuthProvider.CheckAuth | src/context/AuthContext.tsx:78-103 | does nothing without a stored token and user; otherwise it installs the user `CheckAuthInstalls` names (a valid answer's user, or a complete cached user after a thrown verification), and the stores become `CheckedLocal` and `CheckedSession`: the installed user written under `user`, or token, user and saved location removed on an invalid answer or an incomplete cached user |
| Auth.AuthProvider.HandleOAuthCallback | src/context/AuthContext.tsx:105-155 | with token, email and username: the stored token is the redirect's, the OAuth user is installed and stored when complete, and the URL is cleaned; otherwise with an error: token, user and saved location are removed and the URL is cleaned, with the code's message (which the source only logs); otherwise nothing; the stores become `RedirectLocal` and `RedirectSession` |
| Auth.AuthProvider.Logout | src/context/AuthContext.tsx:167-181 | calls the backend, clears the token, the user and the saved location, signs out, forgets the user and navigates home, in that order; without storage both stores are unchanged |
| Auth.AuthProvider.RefreshUser | src/context/AuthContext.tsx:187-200 | an acceptable answer is installed, written under `user` so that it reads back, and returned; a refused one changes nothing; a failure removes token, user and saved location, signs out and is passed on |
| Auth.AuthProvider.UpdateUser | src/context/AuthContext.tsx:202-204 | same as setUserData; an accepted user can then be read back from storage |
| Auth.AuthProvider.LoginWithGoogle | src/context/AuthContext.tsx:157-165 | starts loading, saves the current path under `preAuthLocation` (without storage the session is unchanged), keeps the local store, and starts the Google flow |
| Auth.AuthProvider.Initialize | src/context/AuthContext.tsx:63-76 | `checkAuth` and then the redirect: the stores become `RedirectLocal` of `CheckedLocal` (and the same for the session); a user the redirect installs wins over the one `checkAuth` installed, which otherwise stands; the message and the calls are the redirect's; loading ends |
| Login.LoginErrorMessage | src/pages/Login.tsx:21-31 | the intended lookup: the three known codes get their messages; every other code, inherited property names included, gets the generic one (both directions) |
| Login.LoginErrorLookup | src/pages/Login.tsx:21-31 | the lookup as written: a text message exactly when the code is not an inherited property name nor `__proto__`, and then the intended message |
| Login.InheritedCodesNotGeneric | src/pages/Login.tsx:21-31 | `constructor` finds an inherited function and `__proto__` the prototype object, where the intended lookup gives the generic message |
| Login.TablesAgree | src/pages/Login.tsx:21-31 | the page and the provider give the same message for every code except `authentication_failed` |
| Login.LoginPage.constructor | src/pages/Login.tsx:7-8 | no message and not processing |
| Login.LoginPage.ShowsSpinner | src/pages/Login.tsx:47 | the spinner replaces the page while loading or processing |
| Login.LoginPage.SpinnerCaption | src/pages/Login.tsx:53 | "Processing authentication..." exactly while processing, otherwise "Loading..." |
| Login.LoginPage.OnMount | src/pages/Login.tsx:16-39 | an `error` parameter sets its intended message (`LoginErrorMessage`), stops processing and strips the query; a `token` parameter then starts processing, so it wins over the error |
| Login.LoginPage.OnAuthChange | src/pages/Login.tsx:10-14 | processing ends once loading is over and the user is authenticated, and is otherwise kept |
| Login.LoginPage.HandleGoogleLogin | src/pages/Login.tsx:41-45 | processing, no message, the provider starts the Google flow with the current path saved under `preAuthLocation` and the local store kept, and the spinner shows |
| Routes.Guard | src/routes/AllRoutes.tsx:11-19 | the spinner while loading, then the page if authenticated, otherwise the sign-in page |
| Routes.RouteTable | src/routes/AllRoutes.tsx:24-27 | four routes, all guarded, with distinct paths and distinct pages |
| Routes.Render | src/routes/AllRoutes.tsx:24-27 | a guarded route shows what the guard decides |
| Routes.FreshVisitor | src/context/AuthContext.tsx:45-76 | a first visit with nothing stored and no redirect reaches the dashboard, with nobody signed in |
| Routes.AfterLogout | src/context/AuthContext.tsx:167-181 | until the navigation home completes, every route shows the sign-in page; the reload then builds a new provider over the cleared storage, and the visitor lands on the dashboard with nobody signed in |
| Chat.FromHistory | src/components/ChatWindow.tsx:24-30 | a history message is not new, is `sent` exactly when the system wrote it, and is otherwise unchanged |
| Chat.MapHistory | src/components/ChatWindow.tsx:25 | each history message is converted, in order |
| Chat.AllMessages | src/components/ChatWindow.tsx:24-32 | the converted history (none when absent) comes first, then the local messages unchanged |
| Chat.StatusIcon | src/components/ChatWindow.tsx:8-18 | a check exactly for sent, a cross exactly for failed, a clock for sending or no status |
| Chat.IsSystem | src/components/ChatWindow.tsx:47 | the message was written by the system |
| Chat.ShownIcon | src/components/ChatWindow.tsx:68-70 | only system messages get an icon; a new one shows its own status, any other shows a check |
| Chat.Alignment | src/components/ChatWindow.tsx:47 | exactly the system's messages sit on the right |
| Chat.HistoryIcons | src/components/ChatWindow.tsx:24-32 | every history message the system wrote shows a check, and the guest's show none |
| Chat.Settled | src/components/MessageInput.tsx:43-52 | sent exactly when the answer's `success` is truthy, otherwise failed; never sending |
| Chat.Recipient | src/components/MessageInput.tsx:44 | the log's number, or "" without a log |
| Chat.Message.Display | src/components/ChatWindow.tsx:44 | a message object as the window draws it, with its current status |
| Chat.Displays | src/components/ChatWindow.tsx:44 | each message object is drawn as it currently is, in order |
| Chat.SendsOnKey | src/components/MessageInput.tsx:67 | Enter without Shift sends |
| Chat.Message.constructor | src/components/MessageInput.tsx:31-38 | the message holds exactly the given fields |
| Chat.ChatPage.constructor | src/pages/ChatPage.tsx:18-19 | no local messages and the placeholder log |
| Chat.ChatPage.Window | src/pages/ChatPage.tsx:42 | the window shows the log's history, then the local messages as they currently are |
| Chat.ChatPage.WindowEndsWithLast | src/pages/ChatPage.tsx:42 | the window's last entry is the newest local message |
| Chat.ChatPage.HandleSendMessage | src/pages/ChatPage.tsx:35-37 | the message goes at the end of the local list |
| Chat.ChatPage.FetchMessages | src/pages/ChatPage.tsx:21-29 | no request without an id; an answer replaces the log (an empty answer gives the placeholder); a failure keeps the log |
| Chat.MessageInput.constructor | src/components/MessageInput.tsx:14 | empty input and no requests |
| Chat.MessageInput.Edit | src/components/MessageInput.tsx:65 | the input becomes the typed value |
| Chat.MessageInput.BeginSend | src/components/MessageInput.tsx:28-44 | a blank input does nothing; otherwise a new system message holding the raw input, with status sending, is appended to the page; the input is cleared and the request goes to the recipient's number |
| Chat.MessageInput.Settle | src/components/MessageInput.tsx:43-52 | the message object's status is overwritten in place with the settled status |
| Chat.MessageInput.HandleSend | src/components/MessageInput.tsx:28-53 | a blank input changes nothing; otherwise the page's list grows by one entry at its end holding the raw input, the given id and time, and the settled status, earlier entries are kept, the input is cleared, and one request goes to the log's number with that input; the page's log and its fetches are untouched |
| Chat.MessageInput.KeyDown | src/components/MessageInput.tsx:66-71 | Enter without Shift sends as `HandleSend` does, with the same list entry, cleared input and request; any other key, or a blank input, leaves the input, the requests and the list as they were; the page's log and its fetches are untouched |
| WeddingForm.WeddingFormIncomplete | src/components/AddWeddingForm.tsx:11-19 | true exactly when coupleNames, hostName, weddingDate or location is absent, empty or blank |
| WeddingForm.FilledFormComplete | src/components/AddWeddingForm.tsx:12-16 | four non-blank texts in the required fields make the form complete, whatever else it holds |
| WeddingForm.OtherFieldsIrrelevant | src/components/AddWeddingForm.tsx:12 | a field outside the four never changes the flag |
| WeddingForm.AddWeddingForm.constructor | src/components/AddWeddingForm.tsx:10 | the form's values and nothing reported yet |
| WeddingForm.AddWeddingForm.CheckMandatoryFields | src/components/AddWeddingForm.tsx:11-19 | computes the flag, reports it once and returns it |
| WeddingForm.AddWeddingForm.Mount | src/components/AddWeddingForm.tsx:25-27 | the flag for the current values is reported once |
| WeddingForm.AddWeddingForm.HandleValuesChange | src/components/AddWeddingForm.tsx:21-23 | the flag for the new values is reported twice: once inside the check and once by the handler |

## Left out

- Socket transport, connection options and clean-up on unmount: the socket is
  reduced to its named events, which arrive as values. A missing socket
  address (`SOCKET_URL`) is the `hasSocket` flag.
- The S3 presigned-URL upload, the import `fetch` and its response parsing:
  `handleSend` is split into `BeginSend` and `FinishSend`, and
  `ImportParts`. The upload URLs and the success or failure of the request
  are inputs.
- The log export (`handleExport`), which downloads a file the server builds.
- CSV parsing: the header row that papaparse returns is an input to
  `UploadCsv`.
- Time and locale:
  - `Date.parse`, `new Date(...).getDate()` and similar, `toISOString` and
    `toLocaleString` are inputs (`epochOf`, `dateOf`, `dayOf`, `localize`).
  - `localeCompare` is replaced by code-point order.
  - `toLowerCase` lowers only ASCII letters.
- `decodeURIComponent`: the OAuth parameters arrive already decoded, and a
  `URIError` is not modelled.
- `Date.now()` and `Math.random()`: message ids and toast keys are
  parameters or left out.
- Presentation: toasts, `console` logging, styles, the chat window's clock
  time, textarea resizing, the statistics cards' layout and the modal
  components.
- Login.LoginPage.OnMount: stores the intended message, `LoginErrorMessage`.
  For an error code that names an inherited property (`constructor`,
  `__proto__`, ...), the page as written stores the non-text value that
  `Login.LoginErrorLookup` returns; that case is the second row under
  "## Findings", and the page model does not reproduce it.
- Columns.StatusColor: a status that names an inherited property of a
  plain object (such as `constructor`) is not modelled. The model returns
  "default" for it.
- Columns.RenderTimestamp: `dateOf` (the local date parts) and the `epochOf`
  that `Columns.TimestampOrder` takes are independent inputs. The model does
  not require that both come from the same `Date`, so it does not prove that
  the sort order agrees with the shown dates.
- Storage availability is one flag for both storages, fixed for the
  service's lifetime.
- JSON is limited to what the storage writes: strings, and flat objects
  whose values are strings, `null` or booleans, without white space between
  tokens. A `\u` escape for a surrogate half is rejected rather than
  combined into a pair.
- Storage.UserMembersRoundTrip: the model does not show object keys other
  than the five user fields, so keys outside them are dropped. A known key
  whose value has the wrong JSON type empties a required field and removes
  an optional one.
- Auth.AuthProvider.HandleOAuthCallback: the `user` parameter must parse as
  a flat object. Any other JSON value counts as unparseable, so the defaults
  stand.
- RsvpPageState.RsvpPage.FetchLogs: the `loading` flag is set and cleared
  within one call. The state while the request is in flight is not
  observable in the model.
- RsvpPageState.RsvpPage.HandleValuesChange: a template that is `null`
  counts as absent. The source revalidates for `null`, because it compares
  with `undefined` only.
- RsvpPageState.SendDisabled: the Send button also carries `loading={loading}`
  (src/pages/RSVPPage.tsx:387), so it ignores clicks while the log loads. The
  model states the `disabled` expression only; `FetchLogs` sets and clears
  that flag within one call.
- Chat.MessageInput.HandleSend: the chat window redraws only when React
  renders again. The in-place status change is modelled, but not when the
  window shows it.
- React Router path matching: `Routes.Render` takes the matched route as
  given.
- The QR code stays on screen when a `qr` event follows `ready`, and a
  `logout` event keeps the number. The model follows the handlers as written:
  `WhatsAppConnection.QrWhileConnected` and
  `WhatsAppConnection.NumberSurvivesLogout` show both.
- `Routes.FreshVisitor` models the code as written: the provider's
  authenticated flag starts `true`, so an anonymous visitor passes the
  guard.
- `Dashboard`, `RSVPDashboard`, the Google auth service and the API client
  are not part of this model. Their calls appear only as recorded external
  calls or inputs.

## Findings

| source | as written | input that shows it | evidently intended | confidence | as-written member | corrected member |
|---|---|---|---|---|---|---|
| src/components/RSVPTable.tsx:139-143 | the day filter calls `toISOString()` on the row's date without checking that it is valid | a row built from a log entry without attempts has timestamp "N/A"; `new Date("N/A").toISOString()` throws a RangeError when a day is chosen | skip rows whose timestamp is not a valid date, as the option list at lines 93-101 already does | not executed | GuestTable.DayFilterAsWritten, GuestTable.DayFilterThrowsOnMissingTimestamp | GuestTable.DayFilter, GuestTable.DayFilterAgrees |
| src/pages/Login.tsx:21-31 | the error code indexes a plain object literal, so inherited property names find a value | `?error=constructor` sets a function as the error, and `?error=__proto__` sets `Object.prototype`, which React cannot render as the message | the generic message for every code outside the table | not executed | Login.LoginErrorLookup, Login.InheritedCodesNotGeneric | Login.LoginErrorMessage |
