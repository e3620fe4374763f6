# JIRA ticket-query extension: a Dafny model

The extension has two pages. The **popup** (`popup.js`) probes the JIRA
project endpoint. Once that probe resolves, it fills the form with the saved
project and user and wires two buttons. Each button checks the form, stores
one query record (`ticketStatus` or `activity`) and opens the results page.
The **results page** (`ticketQuery.js`) reads the stored record and dispatches
on its type. A ticket-status query becomes a JIRA search URL; its JSON answer
is shown as a heading and a list of items, each the id, the assignee and the summary joined by a space-bar-space separator. An
activity query becomes an activity-feed URL; the Atom entries it returns are
shown as a list of `date - title` items. Both pages share one request helper,
`make_request`, which decides how a response settles its promise.

The model is organised like this:

- `Common`: `Option`/`Result` and small string facts (where a piece occurs in a concatenation, splitting before a character).
- `Request`: the decisions of `make_request`. It covers the `onload` verdict, the 401 check and the text a rejection produces after `'ERROR. '`.
- `Queries`: the stored query record.
- `Popup`: form validation as functions, and a `PopupPage` class whose fields are the form, the status element, the stored-query slot and the opened tabs.
- `JsNumber`: how JavaScript's loose `status == 1` reads a string.
- `TicketQuery`: the URL builders with parsers as their partners, the status label, the item lists, and a `ResultsPage` class. Each `ResultsPage` method is proved against a function of the page's previous state (`View() == TicketLoaded(old(View()), q, env)` and so on), and the page properties are lemmas about those functions.

The world outside the pages is a parameter. An `Environment` gives how each request settles, the locale's date formatting, the text of a title fragment, and the message of the error thrown on a missing search body. Markup is modelled as the strings the pages assign.

Three points of the code's behaviour are easy to miss:

- The model fixes no order between `onreadystatechange` and `onload`, so `Request.MaySettle` allows either verdict on a 401, and `Request.UnauthorizedMayRequireLogin` proves that the login message is a possible outcome. In a browser that follows the XMLHttpRequest Standard, `readystatechange` at ready-state 4 fires before `load`, so the 401 check settles the promise first and the login message always wins. The page lemmas take the settlement as a parameter, so they hold under either order.
- A missing activity user's error is overwritten by the heading written right after it (see "## Findings").
- `status == 1` is JavaScript's loose equality, so `' 1 '` and `'01'` (`JsNumber.SpacesAndZerosIgnored`) and `'1.0'` (`JsNumber.FractionZerosIgnored`) are also Open.

## Model

| member | source | states |
|---|---|---|
| Request.OnLoad | ticketQuery.js:44-51 | rejects with `ApiError(errorMessages[0])` exactly when a body is present with a non-empty `errorMessages`; otherwise resolves with the body unchanged, a missing body included (the popup's copy at popup.js:24-31 is the same) |
| Request.OnReadyStateChange | ticketQuery.js:57-61 | yields the login rejection exactly at ready-state 4 with status 401 |
| Request.ReasonText | ticketQuery.js:55 | the text each rejection reason becomes when appended to a string; the network error reads `Error: Network Error` |
| Request.ErrorStatus | ticketQuery.js:88 | a failure's status line is `ERROR. ` followed by the message, verbatim |
| Request.MaySettle | ticketQuery.js:44-61 | the settlements the three handlers can produce: the load verdict is always possible for a delivered response; a resolved promise always carries the delivered body; a lost response rejects only as a network error (the popup's copy at popup.js:24-41 is the same) |
| Request.SettlementDetermined | ticketQuery.js:44-61 | away from status 401, the only possible settlement is the load verdict; a lost response always rejects as a network error |
| Request.UnauthorizedMayRequireLogin | ticketQuery.js:57-61 | on a 401 the login message is a possible settlement whatever the body holds |
| Request.ApiErrorShownVerbatim | ticketQuery.js:46-47 | a server error message reaches the status line unchanged after `ERROR. ` |
| Popup.LoadOptions | popup.js:8-16 | the project and user are the stored ones, or `Sunshine` and `nyx.linden` when nothing is stored |
| Popup.TicketQueryFromForm | popup.js:66-83 | accepted exactly when project and days are non-empty, as `ticketStatus` with the inputs unchanged; otherwise the project message if the project is empty, else the days message |
| Popup.ActivityQueryFromForm | popup.js:92-101 | accepted exactly when the user is non-empty, as `activity` with that user; otherwise `Please enter a user.` |
| Popup.ProjectCheckedFirst | popup.js:73-83 | with project and days both empty, the project message is the one shown |
| Popup.StatusNeverValidated | popup.js:73-83 | the status value never changes whether a ticket query is accepted, nor the message shown |
| Popup.StoredQueriesWellFormed | popup.js:66-71 | every record the popup can store is a ticket query with project and days, or an activity query with a non-empty user |
| Popup.PopupPage.constructor | popup.js:58 | a fresh popup has an empty status, unwired buttons, no tabs opened and the earlier stored query |
| Popup.PopupPage.ShowStatus | popup.js:74-75 | writes the status text and shows it, changing nothing else |
| Popup.PopupPage.Setup | popup.js:57-111 | a resolved probe fills project and user from the saved options and wires the buttons; a rejected one shows `ERROR. ` and its reason and wires nothing |
| Popup.PopupPage.OnQueryClick | popup.js:65-88 | a failed check shows its message and leaves the stored query and tabs alone; a valid form overwrites the stored query with the ticket query and opens `ticketQuery.html` once |
| Popup.PopupPage.OnFeedClick | popup.js:91-106 | an empty user shows its message and stores nothing; otherwise the activity query overwrites the stored one and `ticketQuery.html` opens once |
| JsNumber.TrimStart | ticketQuery.js:97 | removes exactly the leading JavaScript white space |
| JsNumber.TrimEnd | ticketQuery.js:97 | removes exactly the trailing JavaScript white space |
| JsNumber.SelectOpen | ticketQuery.js:97 | the select value `1` equals one |
| JsNumber.SelectInProgress | ticketQuery.js:97 | the select value `2` does not |
| JsNumber.OtherLeadingCharacter | ticketQuery.js:97 | in the decimal reading, a string starting with anything but white space, `+`, `0` or `1` is not one |
| JsNumber.FractionZerosIgnored | ticketQuery.js:97 | `1` followed by a `.` and any number of zeros equals one, `1.0` among them |
| JsNumber.NegativeOne | ticketQuery.js:97 | `-1` is not one |
| JsNumber.TrimStartSpaces | ticketQuery.js:97 | leading white space before a non-space is stripped completely |
| JsNumber.TrimEndSpaces | ticketQuery.js:97 | trailing white space after a non-space is stripped completely |
| JsNumber.SpacesAndZerosIgnored | ticketQuery.js:97 | surrounding white space and leading zeros around a `1` still make it equal one |
| TicketQuery.BuildJQL | ticketQuery.js:68-72 | the URL starts with the search endpoint and ends with the fields and result-count parameters |
| TicketQuery.InSearchUrl | ticketQuery.js:69-70 | anything in the search expression is in the URL, shifted past the endpoint |
| TicketQuery.InStatusPart | ticketQuery.js:70 | anything in the status clauses is in the URL |
| TicketQuery.BuildJQLSplicesProject | ticketQuery.js:70 | the URL contains `project=` followed by the project, verbatim |
| TicketQuery.BuildJQLSplicesStatus | ticketQuery.js:70 | the URL contains `status=` followed by the status, verbatim |
| TicketQuery.BuildJQLSplicesChangedTo | ticketQuery.js:70 | the URL contains `status+changed+to+` followed by the status, verbatim |
| TicketQuery.BuildJQLSplicesDays | ticketQuery.js:70 | the URL contains `before+-`, the days and `d`, verbatim |
| TicketQuery.ParseJQL | ticketQuery.js:70 | a parsed query is a ticket query whose project and status hold no `+` |
| TicketQuery.JqlRoundTrip | ticketQuery.js:70 | when project and status hold no `+`, the URL gives back the query it was built from |
| TicketQuery.JqlCollision | ticketQuery.js:70 | with no encoding, two different queries give the same URL: a project that carries a first status's clauses, and days that carry a second status's clauses |
| TicketQuery.FeedUrl | ticketQuery.js:15 | the feed URL starts with the activity endpoint and user stream filter and ends with the issues provider |
| TicketQuery.GetJIRAFeed | ticketQuery.js:9-15 | a missing user is refused with `Unknown user` and no URL; any present user gets its feed URL |
| TicketQuery.FeedUserOf | ticketQuery.js:15 | a user read from a URL is one whose feed URL is exactly that URL |
| TicketQuery.FeedUrlRoundTrip | ticketQuery.js:15 | any user, whatever its characters, is read back unchanged from its feed URL |
| TicketQuery.FeedUrlSplicesUser | ticketQuery.js:15 | the URL contains `streams=user+IS+`, the user and `&providers=issues`, verbatim |
| TicketQuery.StatusLabel | ticketQuery.js:97 | the label is `Open` exactly when the status loosely equals 1, otherwise `In Progress` |
| TicketQuery.StatusLabelOfSelect | ticketQuery.js:97 | the two select values get `Open` and `In Progress` |
| TicketQuery.AssigneeText | ticketQuery.js:110 | the assignee's display name, or `Not assigned` when there is none |
| TicketQuery.IssueLine | ticketQuery.js:108-113 | an item starts with the id and the bar separator, ends with the bar separator and the summary, with exactly the assignee text between them |
| TicketQuery.FieldRoundTrip | ticketQuery.js:113 | a field without a bar is split off again at its bar separator |
| TicketQuery.IssueLineRoundTrip | ticketQuery.js:113 | when id and assignee hold no bar, an item gives back id, assignee text and summary |
| TicketQuery.UnassignedIssueLine | ticketQuery.js:110-113 | an issue without assignee reads back `Not assigned` as its middle field |
| TicketQuery.IssueLines | ticketQuery.js:107-116 | one item per issue, in issue order |
| TicketQuery.IssueItems | ticketQuery.js:104-118 | the `forEach` loop builds exactly the item list |
| TicketQuery.TicketRegion | ticketQuery.js:103-121 | a positive total lists one item per issue in order; otherwise the region is the no-results paragraph for the project |
| TicketQuery.EntryLine | ticketQuery.js:147-150 | an activity item starts with the formatted date and ` - ` and ends with ` - ` and the title text, with nothing else between |
| TicketQuery.EntryLines | ticketQuery.js:146-152 | one activity item per entry, in document order |
| TicketQuery.ActivityItems | ticketQuery.js:146-152 | the `for` loop completes exactly when every entry has a title and an update time, and then builds exactly the activity list |
| TicketQuery.Route | ticketQuery.js:170-177 | `ticketStatus` selects the ticket flow, `activity` the activity flow, a missing query or any other type neither |
| TicketQuery.UnprocessableQueryShowsError | ticketQuery.js:174-177 | without a usable query the status is exactly `Error - unable to process query.`, nothing is sent and the result region is untouched |
| TicketQuery.TicketQuerySendsSearch | ticketQuery.js:81-85 | a ticket query sends exactly its search URL, as JSON |
| TicketQuery.TicketFailureShowsError | ticketQuery.js:85-90 | a failed search shows `ERROR. ` and the reason, visible, and leaves the result region as it was |
| TicketQuery.ActivityFailureShowsError | ticketQuery.js:129-134 | a failed feed request shows `ERROR. ` and the reason, leaves the result region as it was, and sent exactly the feed request |
| TicketQuery.TicketResultsListed | ticketQuery.js:94-125 | a positive total shows the project heading with the status label, visible, and lists every issue in order |
| TicketQuery.EmptyFeedKeepsRegion | ticketQuery.js:155-162 | a feed without entries shows the no-activity message, visible, reveals the result region without filling it, and sent the feed request |
| TicketQuery.FeedEntriesListed | ticketQuery.js:140-163 | a feed with entries keeps the user heading and lists every entry in document order |
| TicketQuery.UnknownUserOverwritten | ticketQuery.js:128-138 | as written, a missing user ends with the heading naming user `undefined`, not the error, and no request |
| TicketQuery.UnknownUserReported | ticketQuery.js:9-13 | corrected, a missing user leaves `ERROR. Unknown user` visible and sends nothing |
| TicketQuery.CorrectionKeepsDefinedUsers | ticketQuery.js:128-138 | for a present user the corrected and the as-written flows give the same page |
| TicketQuery.CorrectionKeepsStoredQueries | ticketQuery.js:166-179 | on every record the popup can store, the load handler as written and the corrected one give the same page |
| TicketQuery.ResultsPage.constructor | ticketQuery.js:166 | a fresh results page has both regions empty and hidden and has sent nothing |
| TicketQuery.ResultsPage.ShowStatus | ticketQuery.js:88-89 | writes the status text and shows it, changing nothing else |
| TicketQuery.ResultsPage.DisplayTicketStatus | ticketQuery.js:94-125 | the page becomes the heading plus the search answer's region, revealed |
| TicketQuery.ResultsPage.LoadTicketStatus | ticketQuery.js:81-91 | records the search request, then shows the answer, or `ERROR. ` and the failure |
| TicketQuery.ResultsPage.DisplayActivity | ticketQuery.js:140-163 | the page becomes the entry list or the no-activity message; a document without a feed or an incomplete entry changes nothing |
| TicketQuery.ResultsPage.AnswerActivity | ticketQuery.js:129-134 | a rejected feed shows `ERROR. ` and the reason; a missing document changes nothing; a document is displayed |
| TicketQuery.ResultsPage.LoadActivityAsWritten | ticketQuery.js:128-138 | the page follows the source's order: error or request, then heading, then the feed's answer |
| TicketQuery.ResultsPage.LoadActivity | ticketQuery.js:128-138 | the corrected order: heading first, then the missing-user error or the request and its answer |
| TicketQuery.ResultsPage.OnContentLoaded | ticketQuery.js:166-179 | the page after loading is the dispatch of the stored query, with the activity flow as written |
| TicketQuery.ResultsPage.OnContentLoadedCorrected | ticketQuery.js:166-179 | the same dispatch with the corrected activity flow |

## Left out

- `Request.MaySettle` fixes no order between `onreadystatechange` and `onload`, and allows either verdict on a 401. In a browser that follows the XMLHttpRequest Standard, `readystatechange` at ready-state 4 fires before `load`, so the login message always wins on a 401; the model does not state that. `XMLHttpRequest` and promise scheduling are not modelled; how a request settles is a parameter of the page flows, whose lemmas hold under either order.
- The `try`/`catch` in `checkProjectExists` (popup.js:48-55) is left out. `make_request` never throws synchronously, so that branch cannot run. Only how the probe settles is modelled.
- `loadOptions` answers asynchronously. `Popup.PopupPage.Setup` fills the form at once, so the model does not capture a click that arrives before storage answers.
- `chrome.storage.sync` is one `Option<Query>` slot. `chrome.tabs.create` appends to a list of opened pages. The storage write and the tab opening are treated as one step.
- The DOM is left out. `createElement`, `innerHTML` and `outerHTML` become strings or lists of item strings, so the list's serialised markup is not modelled. `getElementsByTagName` matches descendants; the model takes a feed's entries as a list already in document order.
- `domify` (DOMParser) and `new Date(updated).toLocaleString()` are uninterpreted functions in the `Environment` (`textOf`, `showDate`).
- The text of the `TypeError` thrown when a search resolves with no body comes from the JavaScript engine. It is the parameter `nullResultsError`.
- Malformed search answers (a missing `issues` array, an issue without `fields`) are left out. A search body is always a total and a list of issues.
- `JsNumber.LooselyEqualsOne` reads only short decimal spellings: white space, an optional `+`, leading zeros, `1` and a `.` followed by zeros. JavaScript also rounds a string to the nearest double and accepts other forms. So `1.00000000000000001`, `.99999999999999999`, `1e0`, `0b1`, `0o1` and `0x1` all equal 1 in JavaScript but not in the model. The popup only stores the select's values `1` and `2`, which the model reads correctly.
- `TicketQuery.StatusLabel` labels `In Progress` every spelling of 1 that the decimal reading above misses (`1.00000000000000001`, `.99999999999999999`, `1e0`, `0b1`, `0o1`, `0x1`), where `query.status == 1` gives `Open`.
- `JsNumber.OtherLeadingCharacter` holds only for the decimal reading: in JavaScript `.99999999999999999` starts with `.` and still equals 1.
- No HTML escaping or URL encoding is added, because the code has none. `TicketQuery.JqlCollision` shows one consequence.
- `Queries.Query` does not tell a missing field from a `null` one. A stored `{type: 'activity', user: null}` is read as a missing user, but line 136 writes `null` there where `TicketQuery.ActivityHeading` gives `undefined`. A ticket-status record always holds project, status and days; a record missing one, which lines 70, 99 and 120 would splice as `undefined`, is not modelled.
- `Popup.PopupPage.Fill` is how the user edits the form. It has no counterpart in the source.

## Findings

| source | as written | input that shows it | evidently intended | confidence | as-written member | corrected member |
|---|---|---|---|---|---|---|
| ticketQuery.js:128-138 | `getJIRAFeed` reports `Unknown user` at once through the error callback; line 136 then overwrites the status with `Displaying Jira activity for user undefined` | a stored record `{type: 'activity'}` without a `user` | the error `ERROR. Unknown user` stays visible | medium, not executed | TicketQuery.ResultsPage.LoadActivityAsWritten | TicketQuery.ResultsPage.LoadActivity |

`TicketQuery.UnknownUserOverwritten` proves the as-written outcome. `TicketQuery.UnknownUserReported` proves the corrected one. `TicketQuery.CorrectionKeepsDefinedUsers` shows the two agree whenever a user is present. The load handler as written (`TicketQuery.Dispatched`, `TicketQuery.ResultsPage.OnContentLoaded`) uses the as-written flow. The corrected one (`TicketQuery.DispatchedCorrected`, `TicketQuery.ResultsPage.OnContentLoadedCorrected`) uses the corrected flow. `TicketQuery.CorrectionKeepsStoredQueries` shows the two agree on every record the popup stores.
