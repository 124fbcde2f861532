# Complaint views of a civic complaint tracker: a Dafny model

This project models the logic inside three browser views of a municipal
complaint-tracking system. The markup is not modelled.

- **The maintenance task page** (`MaintenanceTasks`). It takes the
  complaints assigned to a maintenance team member and turns each one into a
  task record. A task has a title, an address, a priority, an estimated
  effort and an overdue flag. The page counts the tasks per status and lists
  the tasks under the selected counter card. It offers Start Work or Mark as
  Resolved depending on the status. It colours the priority and status
  badges and picks the map target for Navigate. A resolve dialog holds the
  selected task, a completion comment and a photo.
- **The complaints-list card** (`ComplaintsListWidget`). It queries page 1
  (50 per page) of complaints for a set of filters. It shows an error panel,
  a skeleton, an empty-state hint or a table of labelled rows, and it keeps
  the state of an update modal.
- **The administrator dashboard** (`AdminDashboard`). One page over five
  queries. Missing figures fall back to zeros and missing lists to empty
  lists. KPI labels and health badges are threshold classifiers, and a
  progress bar is bounded.

Shared pieces:

- `Js` holds the JavaScript semantics that the views rely on: a property
  that is a string, `undefined` or `null`; truthiness and `||`; template
  printing; `replace` with a one-character pattern; `slice(-n)`; `trim`.
- `Ui` holds the badge colours.
- `ComplaintsApi` holds the raw complaint record and the two accepted
  response shapes, with their normaliser `Complaints`. It also holds the
  effects a handler asks of the query library: a status update, a refetch,
  a notification to the parent.

The query library's answers are parameters. A mutation's result is an
`Outcome` (`Succeeded` or `Failed`). Loading and error flags are booleans.
The current time `now` is an integer. In `Tasks` and `ToTask` it is the time
the memoised task list was last computed: the factory depends only on the
response, so the overdue flags and counter do not advance on later renders
until the response changes. A handler does not perform its requests: it
returns the effects it asks for, in order.

Some facts about the code that the model keeps:

- CRITICAL is gray on the task page; CLOSED and REOPENED are gray in the
  list card.
- Stale-response handling belongs to the query library and is not part of
  these views.
- Submitting the resolve dialog is two steps, the request and its
  settlement, because the handler awaits the mutation. Nothing changes in
  between, so a second click sends a second request. Settlement clears
  whatever task is selected by then, even one chosen during the await.

## Model

| member | source | states |
|---|---|---|
| `Js.TrimEmptyIffBlank` | client/pages/MaintenanceTasks.tsx:605 | `comment.trim()` is empty exactly when every character of the comment is ECMAScript white space |
| `Js.ReplaceFirst` | client/components/ComplaintsListWidget.tsx:164 | `replace("_", " ")` keeps the length and changes only the first underscore, at the first index where one occurs |
| `Js.SliceLast` | client/components/ComplaintsListWidget.tsx:156 | `slice(-6)` is the last six characters, or the whole string when it is shorter |
| `ComplaintsApi.Complaints` | client/components/ComplaintsListWidget.tsx:50-54 | the nested `data.complaints` array is taken if present, else the top-level `data` array, else `[]`; an absent response gives `[]`; a non-empty result comes from one of the two shapes |
| `ComplaintsApi.ShapesAgree` | client/pages/MaintenanceTasks.tsx:78-116 | `{data: {complaints: xs}}` and `{data: xs}` normalise to the same list `xs`, in order |
| `ComplaintsApi.UnknownShapeIsEmpty` | client/pages/MaintenanceTasks.tsx:118 | an absent response, a non-array `data` or a non-array `data.complaints` gives the empty list, not an error |
| `MaintenanceTasks.TitleOf` | client/pages/MaintenanceTasks.tsx:81 | the title is never empty: the complaint's own title when non-empty, otherwise the printed type followed by " Issue" |
| `MaintenanceTasks.AddressParts` | client/pages/MaintenanceTasks.tsx:83 | the address starts with the printed area; ", landmark" then ", address" follow, each only when non-empty; with neither, it is the area alone |
| `MaintenanceTasks.PriorityOf` | client/pages/MaintenanceTasks.tsx:84 | the displayed priority is the complaint's own when non-empty, and "MEDIUM" otherwise |
| `MaintenanceTasks.EstimatedTime` | client/pages/MaintenanceTasks.tsx:122-135 | CRITICAL gives "2-4 hours", HIGH "4-8 hours", LOW "2-5 days"; "1-2 days" exactly for every other value, MEDIUM included |
| `MaintenanceTasks.EstimateMatchesDisplayedPriority` | client/pages/MaintenanceTasks.tsx:84-86 | the estimate of the raw priority equals the estimate of the displayed priority, so a missing priority gets "1-2 days" |
| `MaintenanceTasks.IsOverdue` | client/pages/MaintenanceTasks.tsx:88 | overdue iff a deadline exists, it is strictly before now, and the status is neither RESOLVED nor CLOSED |
| `MaintenanceTasks.DeadlineNowIsNotOverdue` | client/pages/MaintenanceTasks.tsx:88 | a deadline equal to now is not overdue; one unit earlier it is, unless the task is resolved or closed |
| `MaintenanceTasks.PhotoOf` | client/pages/MaintenanceTasks.tsx:92 | the photo is the first attachment's url exactly when there is a first attachment with a non-empty url; otherwise none |
| `MaintenanceTasks.DeriveTasks` | client/pages/MaintenanceTasks.tsx:79-96 | one task per complaint: same length, and the i-th task is derived from the i-th complaint |
| `MaintenanceTasks.Tasks` | client/pages/MaintenanceTasks.tsx:77-119 | the task list has the normalised list's length and order, and task i is derived at time `now` from complaint i (title, address, priority, estimate, overdue flag, photo); no response gives no tasks |
| `MaintenanceTasks.TasksAsWrittenThrows` | client/pages/MaintenanceTasks.tsx:77-135 | as written, the list fails with a ReferenceError iff the response holds at least one complaint; an empty list renders as intended |
| `MaintenanceTasks.AsWrittenOnceInitialized` | client/pages/MaintenanceTasks.tsx:86 | with the helper initialised before use, the map as written yields exactly the intended task list |
| `MaintenanceTasks.Select` | client/pages/MaintenanceTasks.tsx:149-164 | filtering returns no more tasks than it was given; a task is in the result iff it is in the input and the predicate keeps it |
| `MaintenanceTasks.Counts` | client/pages/MaintenanceTasks.tsx:139-146 | the total is the number of tasks; the pending, resolved, reopened and in-progress counters together never exceed it |
| `MaintenanceTasks.CountsPartition` | client/pages/MaintenanceTasks.tsx:141-145 | the pending, resolved, reopened and in-progress counters together never exceed the number of tasks, since each task has one status |
| `MaintenanceTasks.FilterMatchesCounter` | client/pages/MaintenanceTasks.tsx:139-164 | the pending, overdue, resolved and reopened cards each list exactly as many tasks as their counter (pending is ASSIGNED); "all" and unknown keys list the task list unchanged; the "inProgress" branch (159-160) holds too but no card sets that filter |
| `MaintenanceTasks.FilterPreservesOrder` | client/pages/MaintenanceTasks.tsx:149-164 | filtering distributes over concatenation, so it keeps the tasks' order |
| `MaintenanceTasks.ActionsExclusive` | client/pages/MaintenanceTasks.tsx:520-538 | no task gets both Start Work and Mark as Resolved; Start Work goes exactly with the pending card, Mark as Resolved with in-progress or reopened |
| `MaintenanceTasks.StartWork` | client/pages/MaintenanceTasks.tsx:167-178 | Start Work requests exactly IN_PROGRESS, with no remarks, for the task; on success it then refetches, on failure it asks for nothing more |
| `MaintenanceTasks.StatusText` | client/pages/MaintenanceTasks.tsx:458 | the card's status text has only its first underscore turned into a space; with an undefined or null status it throws a TypeError (no `?.` guard) |
| `MaintenanceTasks.PriorityColor` | client/pages/MaintenanceTasks.tsx:234-245 | HIGH red, MEDIUM yellow, LOW green; gray exactly for every other priority, CRITICAL included |
| `MaintenanceTasks.StatusColor` | client/pages/MaintenanceTasks.tsx:247-260 | ASSIGNED blue, IN_PROGRESS orange, RESOLVED green, REOPENED purple; gray exactly for every other status |
| `MaintenanceTasks.NavigateTarget` | client/pages/MaintenanceTasks.tsx:212-221 | coordinates are used iff both are present and non-zero; otherwise the search is for the task's address |
| `MaintenanceTasks.ZeroCoordinateFallsBack` | client/pages/MaintenanceTasks.tsx:213 | a latitude or longitude of exactly 0 falls back to the address search |
| `MaintenanceTasks.View` | client/pages/MaintenanceTasks.tsx:277-313 | loading is tested first: the skeleton iff loading, the error state iff not loading and failed |
| `MaintenanceTasks.TaskPage.constructor` | client/pages/MaintenanceTasks.tsx:54-58 | the page starts on "all" with the dialog closed, no task, an empty comment and no photo |
| `MaintenanceTasks.TaskPage.SelectFilter` | client/pages/MaintenanceTasks.tsx:329-331 | clicking a card sets the active filter and nothing else |
| `MaintenanceTasks.TaskPage.MarkResolved` | client/pages/MaintenanceTasks.tsx:180-183 | selects the task and opens the dialog; the comment and photo are left as they were |
| `MaintenanceTasks.TaskPage.EditComment` | client/pages/MaintenanceTasks.tsx:567-573 | typing replaces the comment and nothing else |
| `MaintenanceTasks.TaskPage.ChoosePhoto` | client/pages/MaintenanceTasks.tsx:582 | choosing a file sets the photo (or clears it) and nothing else |
| `MaintenanceTasks.TaskPage.DismissDialog` | client/pages/MaintenanceTasks.tsx:553 | the dialog closing itself only clears the open flag; the task and comment stay |
| `MaintenanceTasks.TaskPage.SubmitEnabled` | client/pages/MaintenanceTasks.tsx:603-605 | Mark Resolved is enabled iff the comment holds a character that is not white space |
| `MaintenanceTasks.TaskPage.SubmitMarkResolved` | client/pages/MaintenanceTasks.tsx:185-192 | with no task, nothing is requested; otherwise RESOLVED is requested for the selected task with the comment as remarks; the page state is unchanged while the request is in flight |
| `MaintenanceTasks.TaskPage.ResolveSettled` | client/pages/MaintenanceTasks.tsx:192-208 | success clears the open flag, comment, photo and task, whichever is selected by then, and refetches; failure changes nothing; the dialog is never open without a task |
| `MaintenanceTasks.TaskPage.CancelResolve` | client/pages/MaintenanceTasks.tsx:594-599 | Cancel closes the dialog and clears the comment, photo and task |
| `ComplaintsListWidget.QueryArgs` | client/components/ComplaintsListWidget.tsx:43-47 | the query always has page 1 and limit 50; every other filter key passes through unchanged; no key is lost |
| `ComplaintsListWidget.QueryArgsOverridePaging` | client/components/ComplaintsListWidget.tsx:43-47 | the caller's own `page` and `limit`, present or absent, never change the query |
| `ComplaintsListWidget.HasFiltersIgnoresInactive` | client/components/ComplaintsListWidget.tsx:88-94 | undefined, null, "" and [] entries never change `hasFilters`; a single 0 or false makes it true; no filters means false |
| `ComplaintsListWidget.DisplayId` | client/components/ComplaintsListWidget.tsx:156 | "#" then the reference code when non-empty, else the last six characters of the id (all of it when shorter) |
| `ComplaintsListWidget.UnderscoreLabel` | client/components/ComplaintsListWidget.tsx:164 | a non-empty type or status shows with only its first underscore turned into a space; otherwise the fallback ("N/A" or "Unknown") |
| `ComplaintsListWidget.OnlyFirstUnderscoreReplaced` | client/components/ComplaintsListWidget.tsx:176 | in a label, the first underscore becomes a space and any later underscore survives |
| `ComplaintsListWidget.InProgressLabel` | client/components/ComplaintsListWidget.tsx:176 | IN_PROGRESS is labelled "IN PROGRESS" |
| `ComplaintsListWidget.StatusColor` | client/components/ComplaintsListWidget.tsx:56-71 | REGISTERED yellow, ASSIGNED blue, IN_PROGRESS orange, RESOLVED green; gray exactly for CLOSED and every other status, REOPENED included |
| `ComplaintsListWidget.PriorityColor` | client/components/ComplaintsListWidget.tsx:73-86 | LOW green, MEDIUM yellow, HIGH orange, CRITICAL red; gray exactly for every other priority |
| `ComplaintsListWidget.TitleOrDefault` | client/components/ComplaintsListWidget.tsx:30 | the card title is the `title` prop when passed, "Complaints" otherwise |
| `ComplaintsListWidget.View` | client/components/ComplaintsListWidget.tsx:97-139 | the header shows the title (by default "Complaints") and the number of complaints in every state; the body is the error panel iff failed; the skeleton iff not failed and loading; the empty state iff neither and no complaints, with its hint chosen by `hasFilters` alone; otherwise one row per complaint, in order |
| `ComplaintsListWidget.AfterUpdate` | client/components/ComplaintsListWidget.tsx:215-218 | after an update the list refetches exactly once, then the parent is notified iff it passed `onComplaintUpdate`, and nothing else happens |
| `ComplaintsListWidget.Widget.constructor` | client/components/ComplaintsListWidget.tsx:35-36 | the modal starts closed with no complaint |
| `ComplaintsListWidget.Widget.ShowUpdateModal` | client/components/ComplaintsListWidget.tsx:219-222 | records the complaint and opens the modal; open iff a complaint is selected |
| `ComplaintsListWidget.Widget.CloseUpdateModal` | client/components/ComplaintsListWidget.tsx:238-241 | closing clears the open flag and the complaint |
| `ComplaintsListWidget.Widget.UpdateSucceeded` | client/components/ComplaintsListWidget.tsx:242-247 | success clears both, then refetches and notifies as after any update |
| `Ui.BadgeClassesDistinct` | client/pages/MaintenanceTasks.tsx:234-260 | each badge colour has its own "bg-…-100 text-…-800" classes, so the colour a switch returns fixes its class string |
| `AdminDashboard.View` | client/pages/AdminDashboard.tsx:110-170 | the loading page iff any of the five queries loads; the error page iff none loads and any failed; the dashboard only when all five are settled and fine |
| `AdminDashboard.CardViewOf` | client/pages/AdminDashboard.tsx:766-775 | a card shows its body iff its query is neither loading nor failed |
| `AdminDashboard.CardFallbacksUnreachable` | client/pages/AdminDashboard.tsx:861-870 | once the dashboard renders, the user-activity and system-health cards can only show their body |
| `AdminDashboard.StatsOrZero` | client/pages/AdminDashboard.tsx:97-106 | stats are the loaded ones, or all eight counters zero |
| `AdminDashboard.ActiveUsers` | client/pages/AdminDashboard.tsx:218 | "Active Users" is ward officers plus maintenance team: at least each of them when both are non-negative |
| `AdminDashboard.MissingStatsAreZero` | client/pages/AdminDashboard.tsx:97-106 | without stats, every counter and "Active Users" are zero |
| `AdminDashboard.KpisOf` | client/pages/AdminDashboard.tsx:121-126 | each KPI is its metric or 0; without analytics or metrics all four are 0 |
| `AdminDashboard.MissingMetricsAreZero` | client/pages/AdminDashboard.tsx:118-126 | without analytics, or with metrics lacking every field, all KPIs are 0; a missing list is empty |
| `AdminDashboard.AvgTimeLabel` | client/pages/AdminDashboard.tsx:536-538 | "On target" iff the average resolution time is at most 3 days |
| `AdminDashboard.ResolutionRateLabel` | client/pages/AdminDashboard.tsx:566-570 | "Excellent" iff at least 90, "Good" iff in [75, 90), "Needs improvement" iff below 75 |
| `AdminDashboard.SlaLabel` | client/pages/AdminDashboard.tsx:594-598 | "Excellent" iff at least 85, "Good" iff in [70, 85), "Below target" iff below 70 |
| `AdminDashboard.SatisfactionLabel` | client/pages/AdminDashboard.tsx:622-624 | "Above target" iff at least 4.0 |
| `AdminDashboard.LabelsAreMonotone` | client/pages/AdminDashboard.tsx:536-624 | a better figure never earns a worse label (for resolution time, a lower figure is better) |
| `AdminDashboard.ResponseProgress` | client/pages/AdminDashboard.tsx:541-546 | the progress value is in (0, 100]; it is 100 iff the average is at most 3, i.e. iff the label says "On target"; above 3 it is 300 divided by the average |
| `AdminDashboard.DatabaseBadge` | client/pages/AdminDashboard.tsx:880-891 | green "Healthy" iff the status is exactly "healthy"; any other status, or none, gives red "Unhealthy" |
| `AdminDashboard.EmailBadge` | client/pages/AdminDashboard.tsx:899-909 | green iff the status is "operational", else red; the label is the status, or "Unknown" when missing |
| `AdminDashboard.StorageColor` | client/pages/AdminDashboard.tsx:913-922 | red iff usage is above 90, yellow iff above 75 and at most 90, green otherwise; a missing value counts as 0 |
| `AdminDashboard.MemoryColor` | client/pages/AdminDashboard.tsx:936-947 | no badge without a memory reading; otherwise red iff the percentage is above 80, yellow iff above 60 and not above 80, green otherwise, including a reading without a percentage |
| `AdminDashboard.UsageBadgesAreMonotone` | client/pages/AdminDashboard.tsx:913-947 | more usage never gives a milder badge; exactly 90/75 and 80/60 fall on the milder side |
| `AdminDashboard.ActivityIcon` | client/pages/AdminDashboard.tsx:172-191 | complaint blue file, resolution green check, assignment orange user-check, login blue user-check, user and user_created purple users, alert red triangle; the gray default icon goes exactly to the other types |
| `AdminDashboard.ActivityIconsDistinguishTypes` | client/pages/AdminDashboard.tsx:172-191 | apart from that pair, different known activity types get different icons |
| `AdminDashboard.UserActivityShown` | client/pages/AdminDashboard.tsx:796-805 | the card shows the first min(3, n) activities, a prefix of the list; none when the list is missing |

## Findings

| source | as written | input that shows it | evidently intended | confidence | as-written member | corrected member |
|---|---|---|---|---|---|---|
| client/pages/MaintenanceTasks.tsx:77-135 | `getPriorityEstimatedTime` is a `const` declared at line 122. The `useMemo` factory calls it at lines 86 and 106, and that factory runs during render before line 122 is reached, so the call throws a ReferenceError | any response holding at least one complaint, such as `{data: [c]}` | every complaint gets its estimated time, and the page lists all tasks | high; not executed | `MaintenanceTasks.TasksAsWrittenThrows` (over `MaintenanceTasks.TasksAsWritten`) | `MaintenanceTasks.Tasks`, with `MaintenanceTasks.AsWrittenOnceInitialized` |

## Left out

- Markup, styling, icons other than the activity mapping, and the charts. Colour switches return a `Ui.Color`; `Ui.BadgeClass` gives its class string. The status icons of the task page (client/pages/MaintenanceTasks.tsx:262-275) are presentation only.
- The query hooks and the status mutation. Each is an outcome or a loading/error flag. Requests are not sequenced, cancelled or checked for staleness here; that is the query library's job.
- `window.open` and `encodeURIComponent`. Navigate is modelled only up to its choice of target. Viewing a photo is not modelled.
- Date parsing and formatting. Deadlines and the current time are integers, and `dueDate` keeps the deadline itself. An unparseable deadline (NaN date) is not modelled. The list card's date column (`toLocaleDateString`) is left out.
- `toFixed` display, the development-only blocks and their `reduce` sums, and `JSON.stringify` of the errors.
- The unfinished photo upload: the resolve dialog's upload stub, `PhotoUploadModal`, `handlePhotoUpload` and its two state fields. The modal is imported but never rendered. `ComplaintQuickActions` and `UpdateComplaintModal` are not part of this model. Only the callbacks the list card hands them are modelled.
- Record properties are strings, `undefined` or `null`; coordinates and metrics are numbers or missing. Other JSON types in those places are not modelled, and neither is NaN. The complaint `id` is always a string.
- The filter-card title capitalisation (client/pages/MaintenanceTasks.tsx:431) is not modelled.
- The completion-photo log line after a successful resolve (client/pages/MaintenanceTasks.tsx:194-197) is console output only.
- DisplayId: `slice(-6)` counts UTF-16 code units, while a Dafny `string` counts code points; for ids with characters outside the Basic Multilingual Plane the two differ, and the model takes six code points.
- Dashboard text fallbacks that only print: uptime and API response time `|| "N/A"`, the database response-time suffix, the user-activity metrics `|| 0`, and the satisfaction bar `/ 5 * 100`. Stats counters are taken to be numbers, so `wardOfficers + maintenanceTeam` never concatenates or yields NaN.
- The refresh, retry and "Try Again" buttons only ask for a refetch. They are not modelled separately.
