# Medical CRM: verified model of the page and route logic

This project models the deterministic rules of a medical CRM web
application, written in TypeScript with Next.js, and proves properties
about them. Each page or route is one module:

- **service catalog** (`Services`): service categories and services kept
  as in-memory lists by the page, and its create, save and delete handlers.
  A new category gets sort order max + 1. A category that still has
  services cannot be deleted. Both lists have case-insensitive search
  filters.
- **appointments calendar** (`Calendar`):
  - the 42-day month grid;
  - the selected day range, dragged in either direction;
  - the day-view time slots and their labels;
  - the clamping of an appointment into the 08:00–17:00 window;
  - the grouping of appointments by day.
- **workflow list** (`WorkflowList`): stage, workflow and action rows joined
  into summaries, the send-mode column, and deleting a workflow.
- **workflow editor** (`WorkflowEditor`): the form, loaded from the stored
  "deal stage changed" workflow or preset from stage names. Saving inserts
  or updates the workflow row, then updates or inserts its single
  `draft_email_patient` action.
- **chat page** (`ChatPage`):
  - conversation titles;
  - coercion of stored message rows;
  - loading;
  - creating a conversation;
  - the submit handler;
  - moving the replied-to conversation to the front of the list.
- **chat route** (`ChatRoute`): `POST /api/chat` checks the posted messages,
  cuts each to 8000 characters and drops blank ones. It then prepends the
  system message, and maps the model's answer to a status.
- **e-mail draft route** (`GenerateEmail`):
  `POST /api/patients/generate-email` checks its inputs and builds the
  patient summary. It picks the subject and body, with fallbacks for an
  answer that is missing or cannot be read.
- **users route** (`UsersList`): `GET /api/users/list` flattens directory
  users to an id, a display name and an e-mail address.

`Text` models the JavaScript string operations used throughout: `trim`,
`toLowerCase` (for the capitals U+0041–005A, U+00C0–00DE without U+00D7, U+0391–03A9 and U+0400–042F only), `includes`, `slice`, `join`, and number rendering.
`Seqs` holds `filter` and `find` with their lemmas.

Some code does not run inside the page or route: datastore queries, the
sign-in directory, the language model and `JSON.parse`. Each such call
becomes a parameter that says how the call ended: `InsertResult`,
`WriteResult`, `CreateOutcome`, `ReplyOutcome`, `Completion`, `Lookup`,
`Parsed`, `Listing` and `Fault`. The model assumes that a row the
datastore returns after a write holds the values written. Clock values
(message ids, `updated_at`) are parameters too. Dates are day numbers
(day 0 is 1 January 1970, a Thursday). Times of day are minutes after
midnight.

Pages that update component state step by step are classes:
`ServiceCatalog`, `WorkflowsPage`, `Editor` and `Chat`. Their methods
change fields and state the whole new state. Loops in the source are
methods with loop invariants, proved against a specification function:
- `GridDates`, `ActiveRangeDates`, `TimeSlots` and `AppointmentsByDay`;
- `BuildStageIndex` and `Summaries`;
- `BuildSummary`.
Pure expressions are functions, and their properties are lemmas.

## Model

| member | source | states |
|---|---|---|
| Services.OptionalText | src/app/services/page.tsx:170 | `text.trim() \|\| null` is none exactly for blank text, otherwise the nonempty trimmed text |
| Services.NextSortOrder | src/app/services/page.tsx:160-163 | 1 for an empty list; otherwise above every existing sort order and equal to one of them plus 1 (max + 1) |
| Services.InsertKeepsSorted | src/app/services/page.tsx:181 | one insertion step of the stable sort keeps a sorted list sorted |
| Services.SortIsSorted | src/app/services/page.tsx:181 | sorting by sort order yields a list in ascending sort order |
| Services.SortIsPermutation | src/app/services/page.tsx:181 | the sorted list is a permutation (same multiset) of the input |
| Services.SortKeepsRows | src/app/services/page.tsx:181 | every input row is in the sorted list and every sorted row is an input row |
| Services.SortSortedIsIdentity | src/app/services/page.tsx:181 | sorting an already sorted list changes nothing |
| Services.CreateAppendsInOrder | src/app/services/page.tsx:160-181 | a new category with the max + 1 sort order ends up last after the re-sort, with every old row in its old order |
| Services.ReplaceCategory | src/app/services/page.tsx:302-308 | only rows with the saved id take the new name and description; ids, sort orders and every other row are unchanged |
| Services.SaveNeedsNoReorder | src/app/services/page.tsx:302-308 | replacing a category keeps the list sorted and its ids unique, so the re-sort has no effect |
| Services.RemoveCategory | src/app/services/page.tsx:344 | the result holds exactly the rows whose id differs from the deleted one |
| Services.RemoveCategoryKeepsInvariant | src/app/services/page.tsx:344 | removing a category keeps the list sorted and the ids unique |
| Services.ReplaceService | src/app/services/page.tsx:430-434 | only rows with the saved id take the new name, description, category and price; ids and active flags stay |
| Services.RemoveService | src/app/services/page.tsx:464 | the result holds exactly the services whose id differs from the deleted one |
| Services.FirstIdOrEmpty | src/app/services/page.tsx:346-349 | the category selected after deleting the selected one: the first remaining id, or "" |
| Services.ReadPrice | src/app/services/page.tsx:207-215 | blank text is no price; otherwise a NaN or negative parse is rejected, and a price is the parsed non-negative value |
| Services.VisibleCategoriesSpec | src/app/services/page.tsx:578-588 | a blank search shows every category in sort order; otherwise the shown rows are sorted, all match the lower-cased term in name + description, and every matching row is shown |
| Services.CategoryIndex | src/app/services/page.tsx:473 | the id map has exactly the listed ids as keys, each mapped to a row with that id |
| Services.VisibleServicesSpec | src/app/services/page.tsx:822-831 | a blank search shows every service in order; otherwise exactly the services matching the term in name, description and category name |
| Services.ServiceCatalog.constructor | src/app/services/page.tsx:96-130 | after a load the lists are the loaded rows and the first category is selected |
| Services.ServiceCatalog.CreateCategory | src/app/services/page.tsx:149-193 | a blank name is refused with nothing changed; a failed insert shows its message; success appends the new row (trimmed name, max + 1 order) to a still-sorted list and selects it if none was selected |
| Services.ServiceCatalog.AddCategory | src/app/services/page.tsx:181 | the new category is appended after the re-sort, keeping the list sorted with unique ids |
| Services.ServiceCatalog.SaveCategory | src/app/services/page.tsx:276-319 | a blank name is refused; a failed update shows its message; success replaces only the saved row and keeps the list sorted |
| Services.ServiceCatalog.DeleteCategory | src/app/services/page.tsx:321-357 | a category with services is refused with both lists unchanged; success removes exactly that id and moves the selection to the first remaining category or "" |
| Services.ServiceCatalog.CreateService | src/app/services/page.tsx:195-261 | requires a selected category, a non-blank name and a valid price, in that order; success appends one active row with the selected category, trimmed name and price or null |
| Services.ServiceCatalog.SaveService | src/app/services/page.tsx:380-447 | requires a non-blank name and a valid price; success replaces only the row with that id |
| Services.ServiceCatalog.DeleteService | src/app/services/page.tsx:449-471 | a failed delete shows its message with the list unchanged; success removes exactly that id |
| Calendar.Weekday | src/app/appointments/page.tsx:171 | `getDay()` of a day number, 0 (Sunday) to 6 |
| Calendar.PrevMonth | src/app/appointments/page.tsx:245-249 | the month before, as a valid month one below in the running month count |
| Calendar.NextMonth | src/app/appointments/page.tsx:251-255 | the month after, as a valid month one above in the running month count |
| Calendar.PrevNextInverse | src/app/appointments/page.tsx:245-255 | the previous and next month moves undo each other |
| Calendar.MonthsAreContiguous | src/app/appointments/page.tsx:165-170 | the first day of the next month follows the last day of this one |
| Calendar.EpochIsThursday | src/app/appointments/page.tsx:165-171 | the day numbering starts on 1 January 1970, a Thursday |
| Calendar.GridDates | src/app/appointments/page.tsx:163-189 | 42 consecutive days starting on a Sunday at most 6 days before, and never after, the first of the month |
| Calendar.GridCoversMonth | src/app/appointments/page.tsx:163-189 | every day of the visible month is in the grid |
| Calendar.ActiveRangeDates | src/app/appointments/page.tsx:194-211 | the day-counter loop yields exactly the active range |
| Calendar.ActiveRangeSpec | src/app/appointments/page.tsx:194-211 | empty with no selection; the selected day alone in day view or with no range end; otherwise every day between the two ends, inclusive, the same whichever way the drag went |
| Calendar.InRangeIffActive | src/app/appointments/page.tsx:347-356 | a mini-calendar day is highlighted exactly when it is in the active range |
| Calendar.TimeSlots | src/app/appointments/page.tsx:213-223 | 36 slots, from 480 in 15-minute steps, all below 1020 |
| Calendar.JsRem | src/app/appointments/page.tsx:230 | JavaScript's `%` (sign of the dividend) on integers |
| Calendar.HourLabel | src/app/appointments/page.tsx:225-238 | a whole hour h reads exactly as the decimal digits of h mod 12 (12 in place of 0), then ":00 ", then PM exactly when h >= 12 and AM otherwise |
| Calendar.LabelOnlyOnHours | src/app/appointments/page.tsx:225-234 | apart from the last slot ("5:00 PM"), a label is shown exactly on whole hours |
| Calendar.PlaceAppointment | src/app/appointments/page.tsx:703-734 | the start is clamped to 480..1005; a missing end means one hour; an end not after the start means two slots; the end is capped at 1020; so start < end <= 1020 and the duration is at least 15 |
| Calendar.Clamp | src/app/appointments/page.tsx:707-713 | the start-minute clamp: inside the bounds, equal to the value when it is already inside |
| Calendar.AppointmentsByDay | src/app/appointments/page.tsx:138-161 | empty when appointments are hidden; otherwise the per-day grouping of the listed appointments |
| Calendar.GroupByDayKeys | src/app/appointments/page.tsx:138-161 | a day has an entry exactly when a listed appointment falls on it |
| Calendar.GroupByDayContents | src/app/appointments/page.tsx:138-161 | a day's list is exactly the listed appointments with that day key, in input order |
| WorkflowList.BuildStageIndex | src/app/workflows/all/page.tsx:80-84 | the loop builds the stage index |
| WorkflowList.StageIndexKeys | src/app/workflows/all/page.tsx:80-84 | the index's keys are exactly the stage ids |
| WorkflowList.StageIndexLastWins | src/app/workflows/all/page.tsx:80-84 | of stages sharing an id, the last one is indexed |
| WorkflowList.EmailAction | src/app/workflows/all/page.tsx:103-109 | the chosen action belongs to the workflow and has type `draft_email_patient`; there is none exactly when no action matches |
| WorkflowList.EmailActionIsFirst | src/app/workflows/all/page.tsx:103-109 | no earlier matching action is passed over |
| WorkflowList.SummarizeWorkflow | src/app/workflows/all/page.tsx:89-162 | one summary: id, name, trigger and active flag copied; stages null unless the id is nonempty and indexed; pipeline from the config; e-mail columns from the first e-mail action |
| WorkflowList.EmailSettings | src/app/workflows/all/page.tsx:111-147 | subject only when nonempty; send mode "immediate" unless set; the three numbers only when present |
| WorkflowList.Summaries | src/app/workflows/all/page.tsx:80-163 | one summary per workflow row, in order, each built from the stage index |
| WorkflowList.RenderSendMode | src/app/workflows/all/page.tsx:181-201 | "Delay N min" iff the delay is positive, else "Delay"; in recurring mode the positive parts joined by ", " or "Recurring"; otherwise "Immediate" |
| WorkflowList.JoinTwo | src/app/workflows/all/page.tsx:197 | joining one or two parts |
| WorkflowList.RemoveWorkflow | src/app/workflows/all/page.tsx:396 | the table keeps exactly the summaries with another id |
| WorkflowList.RemoveAbsentIsIdentity | src/app/workflows/all/page.tsx:396 | removing an id not in the table changes nothing |
| WorkflowList.RemoveKeepsOrder | src/app/workflows/all/page.tsx:396 | the remaining summaries keep their relative order |
| WorkflowList.WorkflowsPage.constructor | src/app/workflows/all/page.tsx:49-53 | the page starts empty, with no error and no dialog |
| WorkflowList.WorkflowsPage.Load | src/app/workflows/all/page.tsx:58-171 | a throw shows its message or "Failed to load workflows."; otherwise missing data counts as no rows and the table is one summary per row |
| WorkflowList.WorkflowsPage.AskToDelete | src/app/workflows/all/page.tsx:342 | opens the dialog for that summary; the table is unchanged |
| WorkflowList.WorkflowsPage.CancelDelete | src/app/workflows/all/page.tsx:371 | closes the dialog; the table is unchanged |
| WorkflowList.WorkflowsPage.ConfirmDelete | src/app/workflows/all/page.tsx:379-404 | a failed workflow delete shows the fixed error with the table unchanged; success removes exactly that workflow and closes the dialog |
| WorkflowEditor.SavedName | src/app/workflows/page.tsx:172 | the trimmed name, or "Deal stage change automation" when blank; never empty |
| WorkflowEditor.SavedConfig | src/app/workflows/page.tsx:173-178 | from stage null iff empty; pipeline null iff blank, else trimmed; to stage kept |
| WorkflowEditor.UpdateWorkflow | src/app/workflows/page.tsx:201-208 | only rows with the id take the new name, active flag and config |
| WorkflowEditor.UpdateActionConfig | src/app/workflows/page.tsx:234-237 | only rows with the id take the new config |
| WorkflowEditor.UpsertLeavesOneEmailAction | src/app/workflows/page.tsx:215-256 | from unique ids and at most one e-mail action, exactly one e-mail action of the workflow remains, holding the new templates, and no other row changes |
| WorkflowEditor.UpsertKeepsUniqueIds | src/app/workflows/page.tsx:243-250 | inserting with a fresh id keeps action ids distinct |
| WorkflowEditor.UpsertInsertsWhenAbsent | src/app/workflows/page.tsx:242-250 | with no e-mail action, exactly one `draft_email_patient` row with sort order 1 is appended |
| WorkflowEditor.SaveAddsAtMostOneWorkflow | src/app/workflows/page.tsx:180-213 | the first save appends one "deal_stage_changed" row; a save with an id rewrites that row in place and adds none |
| WorkflowEditor.Override | src/app/workflows/page.tsx:121-126 | a stored template replaces the form's only when nonempty |
| WorkflowEditor.FormFromWorkflow | src/app/workflows/page.tsx:93-127 | the form takes the workflow's id, name, active flag and config entries (null as ""), and its e-mail action's nonempty templates |
| WorkflowEditor.FormWithDefaultStages | src/app/workflows/page.tsx:128-141 | the from and to stages become the first stages whose lower-cased names contain "request for information" and "request processed" |
| WorkflowEditor.Editor.constructor | src/app/workflows/page.tsx:38-59 | the form starts with the fixed default name, templates and active flag |
| WorkflowEditor.Editor.Load | src/app/workflows/page.tsx:63-150 | a throw shows its message; otherwise the first stage-change workflow fills the form, or the stages are preset from their names |
| WorkflowEditor.Editor.Submit | src/app/workflows/page.tsx:159-266 | without a to stage only the error is set and nothing is written; otherwise as `Save` |
| WorkflowEditor.Editor.Save | src/app/workflows/page.tsx:167-265 | the workflow row is inserted (first save) or updated and its id remembered; then the e-mail action is upserted and the success message shown; a failing call stops there with its message |
| WorkflowEditor.Editor.WriteWorkflow | src/app/workflows/page.tsx:180-213 | insert with a fresh id when the form has none, else update that row; a failed write changes nothing and sets the create or save message |
| WorkflowEditor.Editor.InsertWorkflow | src/app/workflows/page.tsx:183-199 | appends one "deal_stage_changed" row under the next fresh id |
| WorkflowEditor.Editor.ActionStep | src/app/workflows/page.tsx:215-262 | a failed action query or write stops with its message; otherwise the action is upserted and success shown |
| WorkflowEditor.Editor.SaveEmailAction | src/app/workflows/page.tsx:227-255 | the actions table becomes the upsert of the templates |
| ChatPage.FormatConversationTitle | src/app/chat/page.tsx:19-23 | the trimmed title when nonempty, else "Untitled chat" |
| ChatPage.FormatConversationTitleIdempotent | src/app/chat/page.tsx:19-23 | formatting an already formatted title changes nothing |
| ChatPage.FirstMessageTitle | src/app/chat/page.tsx:167-169 | at most 80 characters, "New chat" exactly when the message is blank |
| ChatPage.FirstMessageTitleIsPrefix | src/app/chat/page.tsx:167-169 | otherwise the title is the first 80 characters of the trimmed message |
| ChatPage.ReplyTitle | src/app/chat/page.tsx:370-373 | a non-blank title is kept; otherwise the first 80 characters of the user message, or "New chat" |
| ChatPage.CoerceRow | src/app/chat/page.tsx:127-136 | the role is "user" only for "user" rows, else "assistant"; missing content is "" |
| ChatPage.CoerceRows | src/app/chat/page.tsx:127-139 | no kept message is blank |
| ChatPage.CoerceRowsKeepsContent | src/app/chat/page.tsx:127-139 | exactly the rows with non-blank content are kept, coerced |
| ChatPage.CoerceRowsAppend | src/app/chat/page.tsx:127-139 | coercion keeps the rows' order |
| ChatPage.PromoteConversation | src/app/chat/page.tsx:358-381 | the conversation comes first with the new time, followed by the others in their old order |
| ChatPage.PromoteListsOnce | src/app/chat/page.tsx:358-381 | afterwards the conversation appears exactly once |
| ChatPage.PromoteTitle | src/app/chat/page.tsx:362-373 | its title is the reply title of its old title, or of none when it was not listed |
| ChatPage.PromoteTwice | src/app/chat/page.tsx:358-381 | a second reply to the same conversation only moves its time |
| ChatPage.Chat.constructor | src/app/chat/page.tsx:26-40 | the page starts empty |
| ChatPage.Chat.LoadConversations | src/app/chat/page.tsx:44-96 | a sign-in lookup that throws shows "Failed to load conversations." and keeps the user; signed out: no user and no list; a failed query shows its message; otherwise the rows are listed and the first becomes active |
| ChatPage.Chat.LoadMessages | src/app/chat/page.tsx:98-149 | no active conversation or a failed query shows no messages; otherwise the coerced rows |
| ChatPage.Chat.EnsureConversation | src/app/chat/page.tsx:157-199 | the active id is returned unchanged; signed out gives none; otherwise a created conversation titled after the message is prepended and becomes active |
| ChatPage.Chat.StartNewConversation | src/app/chat/page.tsx:201-242 | nothing happens when signed out or loading; success prepends a "New chat" conversation, makes it active and clears the messages |
| ChatPage.Chat.Submit | src/app/chat/page.tsx:244-393 | blank input or a pending reply changes nothing; otherwise the input is cleared and the trimmed message shown. When a needed conversation cannot be created, nothing is sent and that error is shown. Otherwise the whole history is sent, the created conversation is put in front of the list and made active, and then either the reply is appended and its conversation promoted (other conversations keep their order), or the messages and list stay as sent and the fallback error of the failure is shown |
| ChatPage.Chat.ReceiveReply | src/app/chat/page.tsx:304-393 | a non-ok status, an empty reply and a network error each set their message; a reply is appended and promotes the conversation |
| ChatRoute.Truncate | src/app/api/chat/route.ts:32-35 | the role is kept; the content is at most 8000 characters and a prefix of the posted content |
| ChatRoute.Prepare | src/app/api/chat/route.ts:32-37 | no more messages than posted, each at most 8000 characters and not blank |
| ChatRoute.PrepareKeepsMessages | src/app/api/chat/route.ts:32-37 | each forwarded message is a posted one, with its role and a prefix of its content; every posted message whose cut content is not blank is forwarded |
| ChatRoute.PrepareAppend | src/app/api/chat/route.ts:32-37 | forwarding keeps the posted order |
| ChatRoute.ShortMessagePassesUnchanged | src/app/api/chat/route.ts:32-37 | a short non-blank message is forwarded as it is |
| ChatRoute.Post | src/app/api/chat/route.ts:19-81 | unreadable body 500; missing or empty array 400; all blank 400 with no model call; upstream is the system message then exactly the prepared list; threw 500; missing content 502; else 200 with the reply |
| ChatRoute.AllBlankIsRefused | src/app/api/chat/route.ts:39-44 | a request of only blank messages is refused with 400 whatever the model would say |
| GenerateEmail.FullName | src/app/api/patients/generate-email/route.ts:54-56 | the nonempty name parts joined by one space |
| GenerateEmail.BuildSummary | src/app/api/patients/generate-email/route.ts:60-68 | the known fields' lines joined by newlines, or the fixed sentence when none is known |
| GenerateEmail.SummaryLinesPerField | src/app/api/patients/generate-email/route.ts:60-66 | one line per known field: the name line at index 0, the e-mail line right after it, the phone line last |
| GenerateEmail.ChooseSubjectAndBody | src/app/api/patients/generate-email/route.ts:100-122 | subject: trimmed parsed subject when usable, else "Clinic update"; body: trimmed parsed body when usable; after a read that throws, trimmed raw text when not blank; else the default greeting; neither empty |
| GenerateEmail.Post | src/app/api/patients/generate-email/route.ts:20-132 | missing key 500; unreadable body 500; blank patient id or description 400; patient not found 404; the prompt's summary, description, tone and greeting; a model failure 500; otherwise a draft whose subject is the trimmed usable parsed subject or "Clinic update", and whose body is the trimmed usable parsed body, or after a read that throws the trimmed raw answer, else the default greeting |
| GenerateEmail.Tone | src/app/api/patients/generate-email/route.ts:32 | the trimmed tone, or "professional and reassuring" when none is given |
| UsersList.FullName | src/app/api/users/list/route.ts:19-26 | the nonempty name parts joined by a space, else the e-mail, else none; never "" |
| UsersList.Flatten | src/app/api/users/list/route.ts:27-29 | id and e-mail copied, display name as above |
| UsersList.Get | src/app/api/users/list/route.ts:4-38 | a listing gives one record per user in order; an error or no users 500 with the message; a throw 500 |
| UsersList.NamedUserKeepsBothParts | src/app/api/users/list/route.ts:19-26 | a user with both name parts is shown as "first last" |
| UsersList.NoNameIff | src/app/api/users/list/route.ts:19-26 | no display name exactly when there are no name parts and no e-mail |
| UsersList.GetAppend | src/app/api/users/list/route.ts:18-29 | records keep the users' order and do not depend on each other |

## Left out

- Datastore, sign-in, language-model and `fetch` calls are parameters giving how each call ended. The model assumes a row returned after a write echoes the values written.
- Prompt wording, the model name's effect, and temperature (a floating-point value) are not modelled beyond the fields passed to the prompt.
- `Number()` price parsing: the caller passes the parse result. Prices and the summaries' numbers are integers, not JavaScript doubles.
- Time zones, `toISOString` day keys and locale formatting: dates are day numbers. A day key is the first 10 characters of the stored timestamp text.
- Pixel geometry of the day view (`top`/`height`), JSX and rendering.
- `isMounted`/`cancelled` guards, `Promise.all`, loading and saving flags other than the chat page's `loading`, and mouse-drag listeners.
- The workflow editor's query-then-insert race on the e-mail action. The save is modelled as one step on the in-memory tables.
- WorkflowEditor.Editor.Save: an insert that fails with an error object lacking a message shows "Failed to create workflow." where the page would show "Failed to save workflow.". `Fault` records only whether a message is present.
- WorkflowList.WorkflowsPage.ConfirmDelete: the result of deleting the workflow's actions afterwards is ignored, as the page ignores it. That delete is not modelled.
- WorkflowEditor.UpsertLeavesOneEmailAction: unique action ids and at most one e-mail action per workflow are preconditions of the lemma, not invariants of the `Editor` class. Nothing in the page guarantees at most one e-mail action: it updates the first row its query returns. The model takes the first such row in table order.
- Chat page message saves (`chat_messages` inserts and the `updated_at` update) only log on failure. They change no page state and are not modelled.
- Services.ServiceCatalog.constructor models only a successful load. The load errors clear both lists and show a message.
- Editing-field state (`editingCategoryId`, `handleStartEdit…`/`handleCancelEdit…`) is not modelled. Save methods take the edited values as parameters.
- The chat page's `initialMessagesLoading` and `conversationsLoading` flags are not modelled.
- UsersList.FullName: a name entry that is truthy but not a string is treated as absent. The route would join its string form.
- GenerateEmail.Post: a `patientId` that is not a string makes `trim` throw, which gives a 500 response. The model takes the request entries as strings or absent.
- Services.VisibleCategoriesSpec: the search folds case only for the capitals U+0041–005A, U+00C0–00DE without U+00D7, U+0391–03A9 and U+0400–042F. `toLowerCase` also folds every other capital: Latin Extended letters such as Ł, Greek capitals with tonos or dialytika such as Ά, Cyrillic capitals from U+0460 on such as Ґ, and those of other scripts. It writes a word-final Σ as ς where the model gives σ, and turns a few letters such as U+0130 into two characters. So a term such as "łukasz" finds "Łukasz" on the page, and not in the model.
- Services.VisibleServicesSpec: the same case folding as the category search (only U+0041–005A, U+00C0–00DE without U+00D7, U+0391–03A9 and U+0400–042F, no final-sigma rule), so a term may find services on the page that the model does not show.
- Calendar.AppointmentsByDay: the patient-name filter (`SearchName`, `ListedWith`) uses the same case folding (only U+0041–005A, U+00C0–00DE without U+00D7, U+0391–03A9 and U+0400–042F, no final-sigma rule), so a patient such as "Łukasz" may be missed by the model for the term "łukasz".
- WorkflowEditor.FormWithDefaultStages: the stage-name match (`StageNamed`) uses the same case folding (only U+0041–005A, U+00C0–00DE without U+00D7, U+0391–03A9 and U+0400–042F). The preset phrases are ASCII, so only a stage name with a capital outside those ranges that folds into an ASCII letter (such as the Kelvin sign U+212A) is treated differently.
- ChatPage.FirstMessageTitle: the 80-character cut counts Unicode scalar values. `slice` counts UTF-16 code units, so a message with characters outside the Basic Multilingual Plane (emoji) is cut later in the model, and `slice` can split a surrogate pair.
- ChatRoute.Truncate: the 8000-character cut counts Unicode scalar values, not UTF-16 code units, with the same difference for text outside the Basic Multilingual Plane.
- ChatPage.ReplyTitle: an untitled conversation takes `userMessage.content.slice(0, 80)` as its title after a reply. The model's cut counts scalar values, so a message with emoji gets a longer title than on the page.
- ChatRoute.Truncate: a posted `content` that is not a string (a number, say) is forwarded through `toString()`, and a `null` element of `messages` makes reading `role` throw, which gives a 500. The model takes each posted message as a role and a string or missing content.
- Services.NextSortOrder: a category whose `sort_order` is null counts as 1 in the maximum (`?? 1`). The model's sort order is always an integer, so that case is not represented.
