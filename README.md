# Bug-tracking dashboard — a Dafny model of its client-side logic

The application is a small team dashboard. Developers, sprints and bugs live in a hosted database. Every bug carries a penalty in VND and a penalty status: pending, paid or waived. The web client reads those tables, aggregates them into charts and leaderboards, filters them, classifies them for display, and writes them back through forms.

This project models that client-side logic in Dafny and proves properties of it:

- the aggregations of the dashboard page, the statistics view and the per-sprint leaderboard;
- the filters of the bug list, the statistics view and the dashboard's query parameters;
- the classification rules: the sprint badges, status colours, pending-only actions, sidebar highlighting and avatar initials;
- the validators of the login form and the sprint sheets;
- the store updates made by every form handler;
- the query-key families of the data-fetching cache.

Layout, one module per file:

- `wrappers.dfy`: `Option`.
- `seqs.dfy`: filter, map, sum and subsequence, with their laws.
- `types.dfy`: the records, plus the JavaScript coercions the components use. These are `Number(x) || 0`, `x || null`, `x || ""`, `x || fallback` and truthiness.
- `dates.dfy`: `yyyy-MM-dd` dates, the day line, UTC instants and local days.
- `grouping.dfy`: grouping by first occurrence, a stable descending sort, and the mutable `Tally` dictionary the components fill in place.
- `store.dfy`: the database as maps keyed by id, plus the authentication service's users. Each request takes its success or failure as a parameter.
- `date_range.dfy`: the date-range picker shared by the sprint sheets.
- The remaining files each model one component or query file: `stats_section`, `dashboard`, `leaderboard`, `bug_list_with_filters`, `bug_filters`, `dashboard_filters`, `sprint_list`, `bug_list`, `developer_list`, `sidebar`, `login_form`, `add_bug_dialog`, `edit_bug_dialog`, `add_sprint_dialog`, `edit_sprint_dialog`, `add_developer_dialog`, `edit_developer_dialog`, `account_form`, `query_keys`, `sprint_queries`, `bug_queries` and `developer_queries`.

Code that updates state in place becomes a class. This covers the dictionaries filled inside `forEach` (`Grouping.Tally`), the component state set by handlers, and the database. Its methods state the whole new state. Pure code becomes functions, and lemmas state the properties.

Each grouping loop is a method that fills a `Tally` in place. It is proved equal to the functional grouping `Grouping.Grouped`, and the counts, sums, key uniqueness and order are proved about that function.

## Model

| member | source | states |
|---|---|---|
| Types.Amount | components/stats-section.tsx:52 | `Number(x) \|\| 0`: a missing or non-numeric amount is 0, any other is itself |
| Types.NoneIf | components/add-bug-dialog.tsx:56 | a text that stands for nothing when it is the sentinel: `s \|\| null` with "" as the sentinel, and the filter selects' "all" item (components/bug-filters.tsx:61, components/dashboard-filters.tsx:40) with "all"; null exactly for the sentinel, otherwise the text itself |
| Types.EmptyIfNull | components/edit-bug-dialog.tsx:105 | `x \|\| ""`: the text, or "" for null |
| Types.PrefillRoundTrip | components/edit-bug-dialog.tsx:105-192 | prefilling from a column and saving untouched gives the column back, except that "" becomes null |
| Types.OrElse | app/page.tsx:115-117 | `x \|\| fallback`: the text when present and non-empty, otherwise the fallback |
| Types.StatusName | lib/types.ts:26 | a status is written as one of the texts "pending", "paid" or "waived" |
| Types.StatusNameInjective | lib/types.ts:26 | distinct statuses have distinct texts |
| Types.Initials | components/bug-list.tsx:152 | the first two characters (fewer for a shorter name), each upper-cased, and no lower-case ASCII letter left |
| Seqs.FilterIsSubsequence | components/bug-list-with-filters.tsx:23 | a filter keeps an order-preserving subsequence of its input |
| Seqs.FilterIdempotent | components/bug-list-with-filters.tsx:22-35 | filtering twice by the same predicate is filtering once |
| Seqs.SumFilterAtMost | components/stats-section.tsx:56-58 | with no negative amount, the sum over a filtered list is at most the sum over the whole |
| Grouping.GroupedIsPerKey | components/stats-section.tsx:67-77 | grouping yields one entry per distinct key in first-occurrence order, holding that key's count, amount sum and first name |
| Grouping.GroupedTotals | app/page.tsx:114-136 | the counts over the groups add up to the number of items, and the penalties to the sum of their amounts |
| Grouping.GroupedKeys | app/page.tsx:138-159 | the group keys are distinct and are exactly the keys of the items |
| Grouping.FirstNameIsFirst | components/developer-leaderboard.tsx:44-49 | a group's name is the name of the first item with its key |
| Grouping.SortDescProperties | components/developer-leaderboard.tsx:57-60 | the sort is a permutation: it keeps both sums and orders descending by the chosen ranking |
| Grouping.SortDescStable | components/developer-leaderboard.tsx:57-60 | the sort is stable: the groups of any one rank come out in the order they went in |
| Grouping.SortDescKeepsKeys | components/stats-section.tsx:79 | sorting keeps the set of keys and their distinctness |
| Grouping.Tally.Add | components/stats-section.tsx:68-76 | adding one item to the in-place dictionary gives the functional grouping step: a new entry for a new key, otherwise that entry's count plus 1 and penalty plus the amount |
| Grouping.Tally.constructor | components/stats-section.tsx:65 | the dictionary starts empty |
| Dates.FormatIsoDate | components/add-sprint-dialog.tsx:57-58 | `format(d, "yyyy-MM-dd")`: ten characters, digits with dashes at positions 4 and 7 |
| Dates.ParseIsoDate | components/sprint-list.tsx:95-96 | reading a stored date gives a real calendar day or nothing |
| Dates.ParseFormat | components/add-sprint-dialog.tsx:57-58 | every written date reads back as the same day |
| Dates.FormatParse | components/edit-sprint-dialog.tsx:32-33 | every text that reads as a date is exactly that date's written form |
| Dates.EpochDayOrder | app/page.tsx:72-77 | the day number respects calendar order and tells days apart |
| Dates.PreviousDayIsDayBefore | components/edit-sprint-dialog.tsx:32-33 | the day before is a real day, one step back on the day line |
| Dates.LocalDayOfMidnight | components/edit-sprint-dialog.tsx:32-33 | the local day of midnight UTC of `d`, in a zone within a day of UTC, is the day holding that wall-clock instant |
| Dates.InstantVersusMidnight | components/sprint-list.tsx:95-98 | within a UTC day, comparing the clock with a midnight agrees with comparing the days, except for the midnight instant itself |
| StatsSection.FilteredBugsSpec | components/stats-section.tsx:35-47 | the filtered bugs are an order-preserving subsequence holding exactly the selected bugs; with mode "all" or an empty selection they are the whole list |
| StatsSection.StatsFacts | components/stats-section.tsx:50-61 | total is the filtered length and totalPenalty the sum of coerced amounts; the status counts partition the list together with the bugs lacking a status; with no negative amount, 0 ≤ pendingPenalty ≤ totalPenalty |
| StatsSection.StatusCounts | components/stats-section.tsx:53-55 | each status count equals a bug-by-bug count, and the counts plus the bugs without a status add up to the list length |
| StatsSection.StatusDataFacts | components/stats-section.tsx:113-117 | every shown slice is positive, each status is shown exactly when its count is positive, and the order pending, paid, waived is kept |
| StatsSection.DeveloperData | components/stats-section.tsx:64-80 | the in-place walk over all bugs equals the grouping by developer id, sorted by penalty |
| StatsSection.SprintData | components/stats-section.tsx:83-99 | the same walk and result, keyed by sprint id |
| StatsSection.ChartDataTotals | components/stats-section.tsx:64-99 | chart counts add up to the number of all bugs, and penalties to their total penalty |
| StatsSection.ChartDataKeys | components/stats-section.tsx:68-74 | one entry per id, and the ids are exactly those of the bugs |
| StatsSection.ChartDataSorted | components/stats-section.tsx:79 | entries go by non-increasing penalty |
| StatsSection.ChartEntriesArePerKey | components/stats-section.tsx:69-76 | each entry holds its id's bug count, penalty sum and the first bug's name |
| StatsSection.StatsFilters.ChangeMode | components/stats-section.tsx:133-137 | choosing a filter mode clears both selections |
| StatsSection.StatsFilters.SelectDeveloper | components/stats-section.tsx:31 | only the developer selection changes |
| StatsSection.StatsFilters.SelectSprint | components/stats-section.tsx:32 | only the sprint selection changes |
| StatsSection.StatsFilters.constructor | components/stats-section.tsx:30-32 | mode "all" with empty selections |
| StatsSection.ModeChangeShowsAll | components/stats-section.tsx:133-137 | right after a mode change the view shows every bug |
| Dashboard.ChartLists | app/page.tsx:104-159 | the single walk filling three in-place maps yields the by-developer-name, by-sprint-name and by-status lists |
| Dashboard.ChartListTotals | app/page.tsx:83-87 | counts over each list add up to the number of fetched bugs; penalties over the developer list, and over the sprint list, add up to totalPenalty |
| Dashboard.DeveloperListByName | app/page.tsx:115-124 | entries are keyed by the developer's name, with "Unassigned" as fallback: names are distinct, are exactly the rows' labels, and each entry counts and sums the rows with its label |
| Dashboard.SprintListByName | app/page.tsx:116-133 | the same for sprint names, with "No Sprint" as fallback |
| Dashboard.StatusListByLabel | app/page.tsx:117-135 | one count per status text, a missing status counted as "pending" |
| Dashboard.Fallbacks | app/page.tsx:115-117 | the three fallback labels |
| Dashboard.NoData | app/page.tsx:83-87 | with no data the total penalty is 0 and all three lists are empty |
| Dashboard.ActiveSprintsFacts | app/page.tsx:72-77 | the active count is at most the number of sprints, and is zero exactly when no sprint's range holds today |
| Dashboard.NamedListFacts | app/page.tsx:114-133 | for any labelling of the rows, the grouped list has distinct names, exactly the labels, and each entry counts and sums the rows with its label |
| Leaderboard.CurrentSprintId | components/developer-leaderboard.tsx:26 | the selected id, else the active sprint's id, else "" |
| Leaderboard.ComputeLeaderboard | components/developer-leaderboard.tsx:29-60 | the in-place walk and sort equal the ranking of the current sprint's bugs |
| Leaderboard.EmptyWithoutSprint | components/developer-leaderboard.tsx:29-30 | with no bugs loaded or no sprint id, the leaderboard is empty |
| Leaderboard.RankingFacts | components/developer-leaderboard.tsx:31-60 | bug counts add up to the number of the sprint's bugs and penalties to their sum; the order is by count descending, then penalty descending |
| Leaderboard.RankingKeys | components/developer-leaderboard.tsx:34-50 | one entry per developer id, exactly the ids of the sprint's bugs |
| Leaderboard.EntriesArePerDeveloper | components/developer-leaderboard.tsx:35-49 | each entry holds that developer's bug count, penalty sum and the first bug's name ("Unknown" without a developer) |
| BugListWithFilters.PassesIsMatchesAll | components/bug-list-with-filters.tsx:22-35 | the early-return predicate equals matching every set field |
| BugListWithFilters.FilteredBugsSpec | components/bug-list-with-filters.tsx:22-35 | soundness and completeness, order-preserving subsequence, and the shown count at most the total |
| BugListWithFilters.NoFiltersShowsAll | components/bug-list-with-filters.tsx:15-19 | with all filters null the list is unchanged |
| BugListWithFilters.EmptyStateIffNoneMatch | components/bug-list-with-filters.tsx:46 | the list below the panel shows its empty-state message exactly when no bug passes the filters |
| BugListWithFilters.EmptyStringIsNoFilter | components/bug-list-with-filters.tsx:24-30 | a filter value of "" behaves like null |
| BugListWithFilters.FilterAgainChangesNothing | components/bug-list-with-filters.tsx:22-35 | filtering the output again with the same filters returns it |
| BugFilters.WithField | components/bug-filters.tsx:41-42 | only the chosen field takes the new value |
| BugFilters.SelectShownRoundTrip | components/bug-filters.tsx:61-101 | choosing the item a select shows stores the same filter again |
| BugFilters.ActiveFilterCount | components/bug-filters.tsx:137 | the badge is at most 3, is 0 exactly when no filter is active, and is 3 exactly when all three are set |
| BugFilters.BugFiltersPanel.constructor | components/bug-filters.tsx:33-37 | all three fields start null |
| BugFilters.BugFiltersPanel.HandleFilterChange | components/bug-filters.tsx:41-44 | the state changes in the chosen field only, and the parent receives exactly the new state |
| BugFilters.BugFiltersPanel.HandleReset | components/bug-filters.tsx:47-50 | all three fields become null and the parent receives that state |
| BugFilters.ResetClearsEverything | components/bug-filters.tsx:53 | after a reset nothing is active and the reset button is disabled |
| BugFilters.ChoosingActivates | components/bug-filters.tsx:53-119 | choosing a value other than "all" makes a filter active; "all" on the only set field clears them |
| DashboardFilters.Get | components/dashboard-filters.tsx:17-18 | a parameter's value, or null when absent |
| DashboardFilters.WithFilter | components/dashboard-filters.tsx:20-27 | a truthy value sets the key, anything else deletes it, and every other parameter is unchanged |
| DashboardFilters.DashboardUrl.UpdateFilter | components/dashboard-filters.tsx:20-27 | the address's parameters become exactly the updated map |
| DashboardFilters.DashboardUrl.ClearFilters | components/dashboard-filters.tsx:30-32 | navigating to "/" drops every parameter |
| DashboardFilters.DashboardUrl.constructor | components/dashboard-filters.tsx:15-18 | the page starts from the address's parameters |
| DashboardFilters.ChooseDeveloper | components/dashboard-filters.tsx:40 | choosing a developer selects it, "all" removes it, and the sprint selection is kept |
| DashboardFilters.ChooseSprint | components/dashboard-filters.tsx:57 | the same for the sprint, keeping the developer selection |
| DashboardFilters.HasFiltersIff | components/dashboard-filters.tsx:34 | "Clear" is offered exactly when either parameter is present and non-empty |
| SprintList.BadgeListFacts | components/sprint-list.tsx:105-107 | exactly one badge shows, each exactly when its condition holds |
| SprintList.BadgesAsWritten | components/sprint-list.tsx:95-107 | the card as written shows one badge: "Active" exactly when both dates read and now lies between their midnights UTC, "Completed" exactly when now is past midnight UTC of the end date |
| SprintList.Badges | components/sprint-list.tsx:95-107 | the card compared by day (see Findings) shows one badge: "Active" exactly when both dates read and today lies within them, "Completed" exactly when the end date is before today |
| SprintList.ShowsEmptyState | components/sprint-list.tsx:85-87 | the empty-state message shows exactly when there are no sprints |
| SprintList.ExactlyOneBadge | components/sprint-list.tsx:97-107 | exactly one badge shows, both as written and when compared by day |
| SprintList.BadgesAgreeWithDashboard | components/sprint-list.tsx:97 | a sprint is badged active exactly when the dashboard counts it active |
| SprintList.AsWrittenDiffersOnlyOnLastDay | components/sprint-list.tsx:95-98 | the as-written badges agree with the daily ones except after the first instant of the last day |
| SprintList.LastDayShownCompleted | components/sprint-list.tsx:97-98 | a concrete sprint shown "Completed" on its last day while the dashboard counts it active |
| SprintList.PenaltyUrlPatch | components/sprint-list.tsx:63-66 | the save writes the payment URL column only, with empty text as null |
| SprintList.UntouchedUrlRoundTrip | components/sprint-list.tsx:63-66 | opening the URL dialog and saving untouched keeps the sprint, except that "" becomes null |
| SprintList.SprintListView.OpenPenaltyUrl | components/sprint-list.tsx:122-125 | the dialog opens prefilled with the URL or "" |
| SprintList.SprintListView.HandleSavePenaltyUrl | components/sprint-list.tsx:59-78 | only that sprint's URL is written; on success the dialog clears, on failure it stays |
| SprintList.SprintListView.HandleDelete | components/sprint-list.tsx:41-57 | nothing happens with nothing pending; otherwise only that id is deleted, its bugs go as the database's delete rule says, and the pending state clears on both outcomes |
| SprintList.SprintListView.AskDelete | components/sprint-list.tsx:42 | marks the sprint pending deletion, nothing else |
| SprintList.SprintListView.constructor | components/sprint-list.tsx:34-37 | no sprint is being edited, deleted or given a URL, and the URL field is empty |
| BugList.StatusColourFacts | components/bug-list.tsx:84-93 | paid is green, waived gray, everything else red |
| BugList.PendingActionsAreRed | components/bug-list.tsx:122-133 | a card offering payment actions has a red badge |
| BugList.HandlePay | components/bug-list.tsx:57-64 | opens the sprint's payment URL exactly when it is set, otherwise reports an error |
| BugList.MarkPaidWritesOnlyStatus | components/bug-list.tsx:68 | mark as paid changes only the status, to paid |
| BugList.HandleMarkAsPaid | components/bug-list.tsx:66-78 | only that bug's row changes, and only its status |
| BugList.AvatarFallback | components/bug-list.tsx:152 | the developer's initials, nothing without a developer |
| BugList.ShowsEmptyState | components/bug-list.tsx:80-82 | the empty-state message shows exactly when there are no bugs to list |
| BugList.BugListView.HandleDelete | components/bug-list.tsx:39-55 | a no-op with nothing pending; otherwise only that id is removed and the pending state always clears |
| BugList.BugListView.AskDelete | components/bug-list.tsx:39-40 | marks the bug pending deletion, nothing else |
| BugList.BugListView.constructor | components/bug-list.tsx:34-35 | no bug is being edited or deleted |
| DeveloperList.DeveloperListView.HandleDelete | components/developer-list.tsx:35-51 | a no-op with nothing pending; otherwise only that developer's id is deleted, its bugs go as the database's delete rule says, and the pending state clears on both outcomes |
| DeveloperList.AvatarFallback | components/developer-list.tsx:66 | the first two characters of the name, fewer for a shorter one, upper-cased |
| DeveloperList.SameFallbackOnBugCards | components/developer-list.tsx:66 | a developer's card and the cards of their bugs (components/bug-list.tsx:152) show the same fallback |
| DeveloperList.ShowsEmptyState | components/developer-list.tsx:53-55 | the empty-state message shows exactly when there are no developers |
| DeveloperList.DeveloperListView.AskDelete | components/developer-list.tsx:36 | marks the developer pending deletion, nothing else |
| DeveloperList.DeveloperListView.constructor | components/developer-list.tsx:30-31 | no developer is being edited or deleted |
| Sidebar.ActiveRoutes | components/sidebar.tsx:14-45 | the highlighted routes are exactly the active ones |
| Sidebar.AtMostOneActive | components/sidebar.tsx:14-45 | no path highlights two routes |
| Sidebar.ExactlyWhere | components/sidebar.tsx:19-31 | "/" highlights only the dashboard, and a path under "/sprints" only the sprints |
| Sidebar.MobileMenu.Toggle | components/sidebar.tsx:50 | the button flips `isOpen`, and with it the overlay |
| Sidebar.MobileMenu.Close | components/sidebar.tsx:66-80 | a link or the overlay closes the menu, and the overlay goes away |
| Sidebar.MobileMenu.ShowsOverlay | components/sidebar.tsx:80 | the overlay is present exactly while the menu is open |
| Sidebar.MobileMenu.constructor | components/sidebar.tsx:12 | the menu starts closed |
| LoginForm.Toggled | components/login-form.tsx:183-185 | the footer link always switches to the other mode |
| LoginForm.ShowsConfirmField | components/login-form.tsx:160 | the confirmation field is part of the form exactly in sign-up mode |
| LoginForm.ToggleTwice | components/login-form.tsx:183-185 | switching twice returns to the same mode |
| LoginForm.CheckSignUp | components/login-form.tsx:69-88 | a mismatch is reported whenever the passwords differ, whatever the length; a too-short password only when they match |
| LoginForm.LoginFormState.constructor | components/login-form.tsx:17-21 | the form starts in login mode with empty fields, not loading |
| LoginForm.LoginFormState.ToggleMode | components/login-form.tsx:183-185 | only the mode changes, so the confirmation field appears or goes away |
| LoginForm.LoginFormState.Enter | components/login-form.tsx:145-168 | typing changes the three fields only |
| LoginForm.LoginFormState.HandleLogin | components/login-form.tsx:30-63 | one sign-in request with the entered credentials; on success the move to the dashboard is put on a timer; `loading` ends false |
| LoginForm.LoginFormState.HandleSignUp | components/login-form.tsx:65-125 | a failed check sends nothing and keeps the fields; an accepted one sends one account request and on success clears the three fields and puts the switch back to login on a timer; `loading` ends false on every path; every request sent has a password of at least six characters |
| LoginForm.LoginFormState.Submit | components/login-form.tsx:136 | login mode has the whole outcome of a login; sign-up mode the whole outcome of the checked sign-up: nothing sent on a failed check, otherwise one account request, and on success the three fields cleared and the switch back to login scheduled |
| AddBugDialog.NewBug | components/add-bug-dialog.tsx:50-58 | the new row is always pending; its image link is present exactly when the field is non-empty and reads back as the field; the other fields are copied |
| AddBugDialog.NewBugIsOutstanding | components/add-bug-dialog.tsx:57 | a new bug offers the payment actions under a red badge, and its penalty counts in full |
| AddBugDialog.AddBugDialogState.OnSubmit | components/add-bug-dialog.tsx:37-71 | inserts the new bug; the dialog closes only on success; `loading` ends false |
| AddBugDialog.AddBugDialogState.constructor | components/add-bug-dialog.tsx:33-34 | the dialog starts closed and not loading |
| AddBugDialog.AddBugDialogState.SetOpen | components/add-bug-dialog.tsx:74 | opening or closing changes `open` only |
| EditBugDialog.Prefill | components/edit-bug-dialog.tsx:94-192 | the form shows the bug's values, with null description and image as "" |
| EditBugDialog.EditPatch | components/edit-bug-dialog.tsx:53-61 | all seven editable columns are written, status included, with an empty image link as null |
| EditBugDialog.SaveOverwritesEditableColumns | components/edit-bug-dialog.tsx:53-62 | the saved bug depends only on its id and creation time and the form, and prefills back to that form |
| EditBugDialog.UntouchedSave | components/edit-bug-dialog.tsx:53-192 | an untouched save keeps the bug exactly when its description is not null and its image link is not "" |
| EditBugDialog.EditBugDialogState.OnSubmit | components/edit-bug-dialog.tsx:37-75 | updates the row with the bug's id only; closes only on success; `loading` ends false |
| EditBugDialog.EditBugDialogState.constructor | components/edit-bug-dialog.tsx:32-33 | the dialog holds the given bug and open flag, not loading |
| DateRanges.Selected | components/add-sprint-dialog.tsx:130 | a cleared calendar selection leaves both ends unset |
| AddSprintDialog.NewSprint | components/add-sprint-dialog.tsx:55-59 | the row holds the name and the two dates in `yyyy-MM-dd` form that read back as the chosen days, and no payment URL |
| AddSprintDialog.NewSprintBadge | components/add-sprint-dialog.tsx:55-59 | on the corrected card compared by day (see Findings), a created sprint is badged active exactly while today is within the chosen range, and completed exactly after it |
| AddSprintDialog.NewSprintBadgeAsWritten | components/sprint-list.tsx:95-98 | on the card as written, a created sprint is active exactly from midnight UTC of its first day through midnight UTC of its last day, and completed exactly after that instant |
| AddSprintDialog.AddSprintSheet.OnSubmit | components/add-sprint-dialog.tsx:41-73 | without both ends nothing happens, `loading` included; otherwise the insert happens, and on success the sheet closes and the range resets; `loading` ends false |
| AddSprintDialog.AddSprintSheet.Select | components/add-sprint-dialog.tsx:130 | the calendar's choice, or a cleared range |
| AddSprintDialog.AddSprintSheet.constructor | components/add-sprint-dialog.tsx:28-33 | the sheet starts closed, not loading, with no dates chosen |
| AddSprintDialog.AddSprintSheet.SetOpen | components/add-sprint-dialog.tsx:76 | opening or closing keeps the chosen dates |
| EditSprintDialog.InitialRangeAsWritten | components/edit-sprint-dialog.tsx:28-34 | the initial range as written: the local days of midnight UTC of the stored dates (see Findings) |
| EditSprintDialog.WestOfGreenwichShiftsSprint | components/edit-sprint-dialog.tsx:32-33 | at UTC-5 an untouched save of 1-14 June stores 31 May - 13 June |
| EditSprintDialog.UntouchedSaveAsWritten | components/edit-sprint-dialog.tsx:32-58 | as written, an untouched save keeps the dates at or east of Greenwich and moves both back a day west of it |
| EditSprintDialog.InitialRange | components/edit-sprint-dialog.tsx:28-34 | the initial range is the sprint's stored days, each formatting back to its stored text |
| EditSprintDialog.EditPatch | components/edit-sprint-dialog.tsx:55-59 | name and both dates are written, and `penalty_url` is left alone |
| EditSprintDialog.UntouchedSaveKeepsSprint | components/edit-sprint-dialog.tsx:53-60 | saving the initial range and name untouched keeps the sprint |
| EditSprintDialog.EditSprintSheet.OnSubmit | components/edit-sprint-dialog.tsx:39-73 | without both ends nothing happens; otherwise only `sprint.id` is updated; closes only on success; `loading` ends false |
| EditSprintDialog.EditSprintSheet.constructor | components/edit-sprint-dialog.tsx:28-34 | the corrected sheet starts from the sprint's stored days (see Findings) |
| EditSprintDialog.EditSprintSheet.AsWritten | components/edit-sprint-dialog.tsx:28-34 | the sheet as written starts from the local days of midnight UTC of the stored dates |
| EditSprintDialog.EditSprintSheet.Select | components/edit-sprint-dialog.tsx:123 | the calendar's choice, or a cleared range |
| EditSprintDialog.LocalDayOfStored | components/edit-sprint-dialog.tsx:32-33 | `new Date(text)` seen in local time: defined exactly when the text reads as a date, and then the local day holding midnight UTC of that date |
| AddDeveloperDialog.RoleOf | components/add-developer-dialog.tsx:48 | the role, or "user" when it is missing or empty |
| AddDeveloperDialog.NewDeveloper | components/add-developer-dialog.tsx:57-63 | the row takes the account's id; an empty avatar link is null; the role defaults to "user" |
| AddDeveloperDialog.RowMatchesAccount | components/add-developer-dialog.tsx:42-63 | the row and the account agree on email, name and role |
| AddDeveloperDialog.AddDeveloperDialogState.OnSubmit | components/add-developer-dialog.tsx:30-77 | a sign-up error inserts nothing; without a user nothing is inserted but the dialog closes; with a user the row is inserted under its id and the dialog closes only if that succeeds; the account is never rolled back; `loading` ends false |
| AddDeveloperDialog.AddDeveloperDialogState.constructor | components/add-developer-dialog.tsx:25-26 | the dialog starts closed and not loading |
| EditDeveloperDialog.Prefill | components/edit-developer-dialog.tsx:71-81 | the form shows the developer, with a null avatar link as "" |
| EditDeveloperDialog.EditPatch | components/edit-developer-dialog.tsx:37-42 | writes name, email and avatar link (empty as null), and never the role |
| EditDeveloperDialog.SaveKeepsRole | components/edit-developer-dialog.tsx:37-43 | a save keeps id, creation time and role, and the form reads back from the saved row |
| EditDeveloperDialog.UntouchedSave | components/edit-developer-dialog.tsx:37-81 | an untouched save keeps the developer exactly unless the avatar link was "" |
| EditDeveloperDialog.EditDeveloperSheet.OnSubmit | components/edit-developer-dialog.tsx:26-56 | updates `developer.id` only; closes only on success; `loading` ends false |
| EditDeveloperDialog.EditDeveloperSheet.constructor | components/edit-developer-dialog.tsx:22 | the sheet holds the given developer and open flag, not loading |
| AccountForm.SavePatch | components/account-form.tsx:39-45 | writes name and avatar link (empty as null) only, never email or role |
| AccountForm.SaveKeepsEmailAndRole | components/account-form.tsx:39-86 | saving never changes email or role, so it cannot grant or remove the badge |
| AccountForm.IsSuperAdmin | components/account-form.tsx:74 | the "Super Admin" badge shows exactly for the role "super_admin" |
| AccountForm.AccountFormState.constructor | components/account-form.tsx:23-25 | the form starts from the developer's name and avatar, null shown as "" |
| AccountForm.AccountFormState.HandleSave | components/account-form.tsx:34-64 | updates the current developer's name and avatar only; `loading` ends false |
| AccountForm.AccountFormState.SetName | components/account-form.tsx:96 | typing changes the name field only |
| AccountForm.AccountFormState.SetAvatarUrl | components/account-form.tsx:108 | typing changes the avatar field only |
| QueryKeys.ScopeKey | lib/queries/sprints.ts:8-12 | `[...all, tag]`, the shape of `lists()`, `details()` and `active()` in all three families, lies under `all` |
| QueryKeys.EntryKey | lib/queries/bugs.ts:10-11 | `[...all, tag, id]`, the shape of `detail(id)`, `bySprint(id)` and `byDeveloper(id)`, lies under its scope and ends with the id |
| QueryKeys.ListKey | lib/queries/developers.query.ts:9 | `list(filters)` lies under `lists()` and ends with the filters |
| QueryKeys.ScopesApart | lib/queries/sprints.ts:6-13 | scopes with different tags cover none of each other's keys, an entry key determines its tag and id, and a filtered list key is no entry key |
| QueryKeys.DistinctRootsDisjoint | lib/queries/bugs.ts:7 | keys under different roots never cover one another |
| QueryKeys.Invalidations | lib/queries/sprints.ts:37-81 | every successful mutation invalidates `all`; an update in a family that refreshes details also invalidates `detail(data.id)`, and nothing else is invalidated |
| SprintQueries.RunsUnlessNoId | lib/queries/sprints.ts:29-35 | a sprint query runs unless it is `useSprint` without an id (`enabled: !!id`), whose key is then the only one never fetched |
| SprintQueries.SprintInvalidations | lib/queries/sprints.ts:37-81 | create and delete invalidate `all`; an update invalidates `all` and that sprint's detail key |
| SprintQueries.MutationsRefreshEverything | lib/queries/sprints.ts:43 | the `all` invalidation after create, update and delete covers every sprint key |
| SprintQueries.KeysApart | lib/queries/sprints.ts:8-12 | the list, detail and active keys never cover one another, and detail keys are injective in the id |
| BugQueries.RunsUnlessNoId | lib/queries/bugs.ts:21-35 | a bug query runs unless it asks for a sprint's or a developer's bugs with an empty id (`enabled: !!sprintId`, `enabled: !!developerId`) |
| BugQueries.BugInvalidations | lib/queries/bugs.ts:37-80 | every bug mutation invalidates `all` only |
| BugQueries.MutationsRefreshEverything | lib/queries/bugs.ts:6-12 | the `all` invalidation of every mutation covers every bug key |
| BugQueries.KeysApart | lib/queries/bugs.ts:8-11 | per-sprint and per-developer keys never coincide, each is injective in its id, and the lists key covers neither |
| BugQueries.SeparateFromSprints | lib/queries/bugs.ts:7 | invalidating sprints leaves bug queries alone, and the other way round |
| DeveloperQueries.RunsUnlessNoId | lib/queries/developers.query.ts:21-27 | a developer query runs unless it is `useDeveloper` without an id (`enabled: !!id`) |
| DeveloperQueries.DeveloperInvalidations | lib/queries/developers.query.ts:29-73 | create and delete invalidate `all`; an update invalidates `all` and that developer's detail key |
| DeveloperQueries.MutationsRefreshEverything | lib/queries/developers.query.ts:35 | the `all` invalidation covers every developer key |
| DeveloperQueries.KeysApart | lib/queries/developers.query.ts:8-11 | detail keys are injective, and the list and detail scopes cover none of each other's keys |
| Store.PatchBug | components/edit-bug-dialog.tsx:53-62 | an update never touches id or creation time, and a column left out of the payload keeps its value |
| Store.PatchSprint | components/edit-sprint-dialog.tsx:53-60 | an update never touches id or creation time, and a column left out keeps its value |
| Store.PatchDeveloper | components/edit-developer-dialog.tsx:37-43 | an update never touches id or creation time, and a column left out keeps its value |
| Store.Database.InsertBug | components/add-bug-dialog.tsx:50 | an insert succeeds exactly when the request does and the id is new; the other tables are unchanged |
| Store.Database.UpdateBug | components/edit-bug-dialog.tsx:51-62 | patches exactly the row with that id, if present |
| Store.Database.SignUp | components/add-developer-dialog.tsx:42-52 | a reported user is recorded with the given metadata; the tables are unchanged |
| Store.Database.constructor | lib/types.ts:1-33 | the database holds the given tables |
| Store.Database.DeleteBug | components/bug-list.tsx:43 | a delete removes exactly that id when the request succeeds; other tables unchanged |
| Store.Database.InsertSprint | components/add-sprint-dialog.tsx:55 | an insert succeeds exactly when the request does and the id is new |
| Store.Database.UpdateSprint | components/edit-sprint-dialog.tsx:53-60 | patches exactly the row with that id, if present |
| Store.Database.DeleteSprint | components/sprint-list.tsx:45 | removes exactly that id when the request succeeds, and the bugs pointing at it by the delete rule |
| Store.Database.InsertDeveloper | components/add-developer-dialog.tsx:57 | an insert succeeds exactly when the request does and the id is new |
| Store.Database.UpdateDeveloper | components/edit-developer-dialog.tsx:37-43 | patches exactly the row with that id, if present |
| Store.Database.DeleteDeveloper | components/developer-list.tsx:39 | removes exactly that id when the request succeeds, and the bugs pointing at it by the delete rule |
| Store.BugsAfterDelete | components/sprint-list.tsx:215 | bugs that do not point at the deleted row are untouched; under cascade the ones that did are gone ("all associated bugs"), under set-null only their reference is cleared, and under either none points at it any more |
| Store.DeleteKeepsReferencesValid | components/sprint-list.tsx:215 | deleting a sprint or developer under cascade or set-null leaves every bug pointing only at existing rows; keeping the bugs leaves the ones of a deleted sprint dangling |
| Store.EmptyPatchesChangeNothing | components/edit-bug-dialog.tsx:53-61 | a payload writing no column changes no record |

## Left out

- Rendering is not modelled: charts, currency and date display formats, icons, toasts, skeletons and loading pages.
- Router navigation and refresh are not modelled. `login-form.tsx` puts the move to the dashboard (500 ms) and the switch back to login mode (2 s) on timers; the model records that they are scheduled, but not the timers firing.
- The database and the authentication service are modelled as maps, with success or failure passed as a parameter. Row-level security, the generated ids and timestamps, and the sign-up e-mail are outside the model. What the schema does with the bugs of a deleted sprint or developer is not visible in the client, so Store.Database.DeleteSprint and Store.Database.DeleteDeveloper take that rule (keep, cascade, set null) as a parameter; the sprint card's warning promises the cascade.
- The `lib/api/*` wrappers, `lib/auth.ts` and `lib/hooks/use-current-user.ts` are left out. They pass calls straight to the hosted service and hold no logic of their own.
- React Query caching and the mutation hooks are left out. Only the key prefixes, which queries are enabled, and what each mutation invalidates are modelled.
- Browser form validation is not modelled: `required`, `min="0"`, `step="1000"` and `type="email"`. Submitted values are taken as given.
- JavaScript floating-point numbers are not modelled. Amounts are integers; null or NaN count as 0.
- Only characters are modelled. Upper-casing touches ASCII letters only, and string lengths count characters, not UTF-16 units.
- `URLSearchParams` is modelled as a map holding one value per name. Its text encoding is left out.
- A JavaScript object with integer-like keys enumerates them first; this cannot happen because the ids are UUIDs, and the model keeps insertion order.
- Grouping.SortDesc: the in-place `Array.prototype.sort` is modelled as a stable insertion sort on values, so the model says nothing about aliasing of the sorted array.
- StatsSection.DeveloperData and StatsSection.SprintData require every bug to have its developer (or sprint) joined. The source reads `bug.developer.name` unguarded and would throw.
- EditBugDialog.Prefill requires the developer, sprint, penalty and status to be set. These are required fields, and a form whose required field is empty is never submitted.
- EditSprintDialog.EditSprintSheet.constructor starts from the corrected range, the stored days, and not from `new Date(stored)` read in local time as edit-sprint-dialog.tsx:32-33 does; the sheet as written is EditSprintDialog.EditSprintSheet.AsWritten.
- EditSprintDialog.InitialRangeAsWritten requires a zone within a day of UTC and a stored date other than 0000-01-01, whose previous day has no four-digit year.
- EditSprintDialog.InitialRange and EditSprintDialog.LocalDayOfStored: a stored date that does not read as a date becomes an unset range end in the model, where `new Date` would give an Invalid Date that passes the submit guard and makes `format` throw. The date column cannot hold one.
- Dates.EpochDay is proved to respect calendar order, not to equal JavaScript's day count in every detail.

## Findings

| source | as written | input that shows it | evidently intended | confidence | as-written member | corrected member |
|---|---|---|---|---|---|---|
| components/sprint-list.tsx:95-98 | The card compares the current instant with `new Date(end_date)`, which is midnight UTC at the start of the last day. | Sprint 2024-06-01 to 2024-06-14, clock at 2024-06-14 10:00 UTC: the card shows "Completed", while the dashboard (app/page.tsx:72-77) counts the sprint as active. | The sprint is active through its whole last day, as the dashboard's date comparison has it. | not executed; high | SprintList.BadgesAsWritten, SprintList.LastDayShownCompleted, AddSprintDialog.NewSprintBadgeAsWritten | SprintList.Badges, SprintList.BadgesAgreeWithDashboard, AddSprintDialog.NewSprintBadge |
| components/edit-sprint-dialog.tsx:32-33 | The sheet starts from `new Date(start_date)` and `new Date(end_date)`, which are midnight UTC. It then formats them in the browser's local time when saving (lines 57-58). | In a zone at UTC-5, opening the sprint 2024-06-01 to 2024-06-14 and saving it untouched stores 2024-05-31 to 2024-06-13. | An untouched save keeps the stored dates. | not executed; medium (only browsers west of Greenwich) | EditSprintDialog.InitialRangeAsWritten, EditSprintDialog.WestOfGreenwichShiftsSprint, EditSprintDialog.EditSprintSheet.AsWritten | EditSprintDialog.InitialRange, EditSprintDialog.UntouchedSaveKeepsSprint, EditSprintDialog.EditSprintSheet.constructor |
