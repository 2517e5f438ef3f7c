# Task-flow dashboard: a Dafny model of its state logic

The dashboard is a single-page React application that runs on mock data. This
project models the parts of it that compute or change state, one Dafny module
per source file:

- **CustomizeDashboard** and **Dashboard** hold the widget preference store. It is an ordered
  list of `{id, name, enabled}` that the customize sheet toggles and reorders by
  drag-and-drop. They also hold the visibility lookup each widget slot consults, and the rule for
  showing the team overview.
- **Risks** holds six risk records and the page's filter: a text query, a severity select and a
  status select. It also holds the four summary cards, the Resolve/Escalate
  buttons and the empty-state text.
- **Profile** (skills list), **Auth** (the four sign-in modes and the submit
  handler), **AIAssistant** (the chat log), **Settings** (theme, notification
  switches, password form), **GenerateReportModal** (the report form and its
  buttons) are the small page-level state machines.
- **RecentActivityWidget** (the activity type tabs), **AggregateCard** (trend
  badge) and **Header** (unread count) are pure view rules.

Each React component whose handlers update state becomes a class. Its fields are the
component's `useState` variables and its methods are the handlers. A method's `ensures`
gives the complete new state. Pure `filter`/`map`/`find` expressions become
functions. The properties the source promises are lemmas about those
functions. The helper modules `JsArray` and `JsString` model the JavaScript
library calls the code relies on: `filter`, `findIndex`, `find`, the two
`splice` calls (as in-place array algorithms), `trim`, `toLowerCase` and
`includes`. `Optional` stands for `T | null`.

Three facts about the code shape the model:

- `handleDragOver` puts the dragged widget at the index the target had before
  the move. A downward drag therefore lands it just after the target and an
  upward drag just before it (`ReorderSideOfTarget`).
- `handleDragOver` runs on every drag-over event, not once on drop, so the
  model also states what a whole pointer path does (`AfterDragOversPermutes`).
- On the six sample records the "Medium" card counts two open medium risks,
  records 3 and 5 (`SampleSummary`).

## Model

| member | source | states |
|---|---|---|
| `CustomizeDashboard.IndexOfId` | src/components/dashboard/CustomizeDashboard.tsx:43-44 | `findIndex` by id: -1 exactly when no widget has the id; otherwise the first widget with that id |
| `CustomizeDashboard.Reorder` | src/components/dashboard/CustomizeDashboard.tsx:41-47 | the emitted list is as long as the input and holds the dragged widget at the target's original index |
| `CustomizeDashboard.ReorderPermutes` | src/components/dashboard/CustomizeDashboard.tsx:41-47 | the reordered list has the same length and the same multiset of widgets |
| `CustomizeDashboard.ReorderPlacesDragged` | src/components/dashboard/CustomizeDashboard.tsx:43-47 | the dragged widget ends at the target's original index; with it removed, the others keep their relative order |
| `CustomizeDashboard.ReorderSideOfTarget` | src/components/dashboard/CustomizeDashboard.tsx:46-47 | dragging down lands the widget just after the target, dragging up just before it |
| `CustomizeDashboard.ReorderIds` | src/components/dashboard/CustomizeDashboard.tsx:46-47 | whole widget objects move: the id list is moved the same way, so names and flags go with their ids |
| `CustomizeDashboard.ReorderKeepsIds` | src/components/dashboard/CustomizeDashboard.tsx:41-47 | the multiset of ids is unchanged by a reorder |
| `CustomizeDashboard.AfterDragOvers` | src/components/dashboard/CustomizeDashboard.tsx:38-50 | a gesture of any number of drag-overs keeps the list's length |
| `CustomizeDashboard.AfterDragOversPermutes` | src/components/dashboard/CustomizeDashboard.tsx:38-50 | any sequence of drag-over events along a pointer path yields a permutation of the widgets and of their ids |
| `CustomizeDashboard.CustomizeDashboardPanel.constructor` | src/components/dashboard/CustomizeDashboard.tsx:32 | nothing is dragged initially |
| `CustomizeDashboard.CustomizeDashboardPanel.HandleDragStart` | src/components/dashboard/CustomizeDashboard.tsx:34-36 | drag start records the dragged id |
| `CustomizeDashboard.CustomizeDashboardPanel.HandleDragEnd` | src/components/dashboard/CustomizeDashboard.tsx:52-54 | drag end clears the dragged id |
| `CustomizeDashboard.CustomizeDashboardPanel.HandleDragOver` | src/components/dashboard/CustomizeDashboard.tsx:38-50 | nothing is emitted when no (or the empty) id is dragged or it is the target; otherwise the copy, spliced in place, equals the reorder of the unchanged input |
| `JsArray.SpliceOut` | src/components/dashboard/CustomizeDashboard.tsx:46 | `splice(i, 1)` returns the element at `i` and shifts the later slots down by one |
| `JsArray.SpliceIn` | src/components/dashboard/CustomizeDashboard.tsx:47 | `splice(j, 0, x)` shifts the slots from `j` up by one and writes `x` at `j` |
| `JsArray.MoveInPlace` | src/components/dashboard/CustomizeDashboard.tsx:46-47 | the two splices together leave the array equal to the moved sequence |
| `JsArray.MoveAt` | src/components/dashboard/CustomizeDashboard.tsx:46-47 | every element of the moved sequence, by the index it came from |
| `Dashboard.InitialWidgetsWellFormed` | src/pages/Dashboard.tsx:39-47 | seven widgets with distinct ids, all enabled |
| `Dashboard.Toggle` | src/pages/Dashboard.tsx:63-67 | same length, ids and names; `enabled` flips exactly on the widgets whose id matches |
| `Dashboard.ToggleTwice` | src/pages/Dashboard.tsx:65 | toggling the same id twice restores the list |
| `Dashboard.ToggleAbsent` | src/pages/Dashboard.tsx:65 | toggling an id no widget has leaves the list unchanged |
| `Dashboard.IsWidgetEnabled` | src/pages/Dashboard.tsx:73-74 | the first widget with the id gives the answer; an unknown id counts as enabled |
| `Dashboard.ToggleFlipsVisibility` | src/pages/Dashboard.tsx:63-74 | a toggle flips the lookup's answer for its id and for no other id |
| `Dashboard.TeamOverviewRule` | src/pages/Dashboard.tsx:63-231 | the team overview is hidden on My Dashboard whatever the store says; in the team view toggling "team" flips it; an unlisted "team" shows it in the team view only |
| `Dashboard.TeamOverviewInitially` | src/pages/Dashboard.tsx:39-47 | with the initial store the overview is shown exactly in the team view |
| `Dashboard.ValidStoreHasDistinctIds` | src/pages/Dashboard.tsx:39-52 | any rearrangement of the initial ids is duplicate-free, seven long |
| `Dashboard.DashboardPage.constructor` | src/pages/Dashboard.tsx:50-52 | team view, all projects, the initial widgets |
| `Dashboard.DashboardPage.HandleToggleWidget` | src/pages/Dashboard.tsx:63-67 | the store becomes the toggled list and keeps its ids; the other state is untouched |
| `Dashboard.DashboardPage.HandleReorderWidgets` | src/pages/Dashboard.tsx:69-71 | the store is replaced by a rearrangement of itself, so it keeps the initial multiset of ids |
| `Dashboard.DashboardPage.DragOverWidget` | src/pages/Dashboard.tsx:138-142 | one drag-over either leaves the store alone or reorders it, keeping its multiset of ids |
| `Dashboard.DashboardPage.SetIsMyDashboard` | src/pages/Dashboard.tsx:97 | the header switch sets the view flag only |
| `Dashboard.DashboardPage.SetSelectedProject` | src/pages/Dashboard.tsx:115 | the project select sets the project only |
| `Risks.FilterRisks` | src/pages/Risks.tsx:136-146 | a subsequence of the records in original order, holding exactly the records that satisfy all three criteria, each kept record with all its copies |
| `Risks.FilterRisksIdempotent` | src/pages/Risks.tsx:136-146 | filtering the filtered list again with the same criteria changes nothing |
| `Risks.FilterRisksNoCriteria` | src/pages/Risks.tsx:137-145 | the empty query with "all"/"all" keeps every record |
| `Risks.FilterRisksIgnoresCase` | src/pages/Risks.tsx:137-139 | queries equal after lower-casing select the same records |
| `Risks.FilterRisksIgnoresCaseExample` | src/pages/Risks.tsx:137-139 | "proj-142" and "PROJ-142" select the same records |
| `Risks.EmptyQueryMatches` | src/pages/Risks.tsx:137-145 | with the empty query only the two selects decide |
| `Risks.SampleShape` | src/pages/Risks.tsx:27-94 | severities and statuses of the six sample records |
| `Risks.DefaultCriteriaOnShape` | src/pages/Risks.tsx:132-146 | on records shaped like the sample, the default criteria keep the first five and drop the sixth |
| `Risks.DefaultCriteriaOnSample` | src/pages/Risks.tsx:132-146 | the page first lists records 1-5 and hides resolved record 6 |
| `Risks.SummaryAgreesWithFilter` | src/pages/Risks.tsx:220-223 | each severity card equals the list for that severity with status "open"; "Resolved" equals the list for status "resolved" at any severity |
| `Risks.SummaryOf` | src/pages/Risks.tsx:220-223 | the four cards and the open low-severity records add up to the number of records |
| `Risks.SummaryPartition` | src/pages/Risks.tsx:220-223 | the four cards plus open low-severity records count every record exactly once |
| `Risks.SummaryOfShape` | src/pages/Risks.tsx:220-223 | records shaped like the sample give critical 1, high 2, medium 2, resolved 1 |
| `Risks.SampleSummary` | src/pages/Risks.tsx:27-94 | the sample cards read critical 1, high 2, medium 2, resolved 1 |
| `Risks.ActionButtonsMatchCards` | src/pages/Risks.tsx:220-295 | Escalate is offered only where Resolve is; Escalate buttons number critical plus high cards; Resolve buttons plus the Resolved card make up all records |
| `Risks.EmptyStateMessage` | src/pages/Risks.tsx:312-320 | the empty-state card appears iff nothing is listed; its "Great job" text iff the status select is "open" |
| `Risks.RisksPage.constructor` | src/pages/Risks.tsx:132-134 | query "", severity "all", status "open" |
| `Risks.RisksPage.FilteredRisks` | src/pages/Risks.tsx:136-146 | the rendered list: the records matching the page's current criteria, in order |
| `Risks.RisksPage.SetSearchQuery` | src/pages/Risks.tsx:186 | changes the query only |
| `Risks.RisksPage.SetSeverityFilter` | src/pages/Risks.tsx:191 | changes the severity criterion only |
| `Risks.RisksPage.SetStatusFilter` | src/pages/Risks.tsx:204 | changes the status criterion only |
| `JsString.Trim` | src/pages/Profile.tsx:30 | `trim` removes exactly the leading and trailing white space |
| `JsString.TrimEmptyIffAllWhiteSpace` | src/components/dashboard/AIAssistant.tsx:30 | a trimmed string is empty iff the input is all white space |
| `JsString.TrimIdempotent` | src/pages/Profile.tsx:30-31 | trimming twice is trimming once |
| `JsString.ToLower` | src/pages/Risks.tsx:138-139 | `toLowerCase` maps each character to its ASCII lower case |
| `JsString.ToLowerIdempotent` | src/pages/Risks.tsx:138-139 | lower-casing twice is lower-casing once |
| `JsString.Includes` | src/pages/Risks.tsx:138-139 | `includes` holds iff the query occurs at some index |
| `JsArray.FilterMultiplicity` | src/pages/Risks.tsx:136-146 | `filter` keeps every copy of an element that passes and none of one that fails |
| `Profile.InitialSkillsDistinct` | src/pages/Profile.tsx:13 | the five initial skills are distinct |
| `Profile.SkillsWithout` | src/pages/Profile.tsx:38 | every occurrence of the skill is gone, the rest kept in order with all their copies |
| `Profile.RemoveAbsentUnchanged` | src/pages/Profile.tsx:38 | removing a skill not listed changes nothing |
| `Profile.RemovePreservesDistinct` | src/pages/Profile.tsx:38 | removal keeps the list duplicate-free |
| `Profile.AddPreservesDistinct` | src/pages/Profile.tsx:30-31 | an accepted add keeps the list duplicate-free and lists the trimmed input |
| `Profile.RemoveUndoesAdd` | src/pages/Profile.tsx:30-38 | removing the skill just added restores the list |
| `Profile.ProfilePage.constructor` | src/pages/Profile.tsx:17-27 | the initial skills, an empty input, not editing, John Doe's profile |
| `Profile.ProfilePage.HandleEditButton` | src/pages/Profile.tsx:42-45 | the header button enters edit mode or, as Save, leaves it; skills and profile are kept |
| `Profile.ProfilePage.SetName` | src/pages/Profile.tsx:104-110 | only in edit mode; the name changes and nothing else |
| `Profile.ProfilePage.SetNewSkill` | src/pages/Profile.tsx:207-213 | only in edit mode; typing sets the input only |
| `Profile.ProfilePage.HandleAddSkill` | src/pages/Profile.tsx:29-35 | only in edit mode; appends the trimmed input iff it is non-empty and new; clears the input only then; the list stays duplicate-free |
| `Profile.ProfilePage.HandleRemoveSkill` | src/pages/Profile.tsx:37-40 | only in edit mode; the list loses the skill; the input is untouched |
| `Auth.With` | src/pages/Auth.tsx:191-275 | writing one form field leaves the others as they were |
| `Auth.WithOverwrites` | src/pages/Auth.tsx:191-275 | the last write to a field wins; writing a field's own value changes nothing |
| `Auth.SubmitOutcome` | src/pages/Auth.tsx:34-48 | forgot-password sends a reset link; a sign-up with differing passwords fails; everything else navigates to /dashboard with a mode-dependent toast |
| `Auth.LinkTransitions` | src/pages/Auth.tsx:225-325 | links lead login to forgot-password or sign-up, and every other mode back to login; none leads to reset-sent |
| `Auth.SocialLoginWithPasswordForms` | src/pages/Auth.tsx:121-160 | the social buttons show exactly in login and sign-up, where an empty form submits to the dashboard; the other modes offer no sign-up or sign-in link |
| `Auth.ResetSentOnlyFromForgot` | src/pages/Auth.tsx:34-35 | reset-sent is entered exactly by submitting the forgot-password form |
| `Auth.SubmitNavigatesUnlessStopped` | src/pages/Auth.tsx:34-48 | a submit navigates iff neither early return fires, and then the mode is unchanged |
| `Auth.AuthPage.constructor` | src/pages/Auth.tsx:15-25 | login mode, not loading, password hidden, empty form |
| `Auth.AuthPage.SetField` | src/pages/Auth.tsx:191-275 | an input's change updates its field only |
| `Auth.AuthPage.ToggleShowPassword` | src/pages/Auth.tsx:247 | flips the password visibility only |
| `Auth.AuthPage.FollowLink` | src/pages/Auth.tsx:81-325 | a link sets the mode to its target |
| `Auth.AuthPage.BeginSubmit` | src/pages/Auth.tsx:27-29 | submit raises the loading flag |
| `Auth.AuthPage.FinishSubmit` | src/pages/Auth.tsx:34-48 | every exit path lowers the loading flag; the mode changes only on forgot-password |
| `Auth.AuthPage.HandleSubmit` | src/pages/Auth.tsx:27-49 | the whole submit: outcome and new mode as above, loading false at the end, form untouched |
| `Auth.AuthPage.HandleSocialLogin` | src/pages/Auth.tsx:51-57 | navigates to /dashboard naming the provider, loading false at the end |
| `AIAssistant.InitialLogWellFormed` | src/components/dashboard/AIAssistant.tsx:15-21 | the log starts as the single greeting, odd in length |
| `AIAssistant.AppendExchangeWellFormed` | src/components/dashboard/AIAssistant.tsx:32-51 | appending an exchange keeps the old log as prefix, adds two and keeps roles alternating and the length odd |
| `AIAssistant.QuickActionsOnlyBeforeFirstExchange` | src/components/dashboard/AIAssistant.tsx:137 | `QuickActionsShown` holds iff the log is just the greeting; never after an exchange |
| `AIAssistant.SendDisabled` | src/components/dashboard/AIAssistant.tsx:166 | the send button is disabled iff the input is all white space |
| `AIAssistant.AIAssistantPanel.constructor` | src/components/dashboard/AIAssistant.tsx:24-27 | closed, not minimised, empty input, the greeting only |
| `AIAssistant.AIAssistantPanel.SetOpen` | src/components/dashboard/AIAssistant.tsx:57-106 | sets the open flag only |
| `AIAssistant.AIAssistantPanel.ToggleMinimized` | src/components/dashboard/AIAssistant.tsx:94 | flips the minimised flag only |
| `AIAssistant.AIAssistantPanel.SetInputValue` | src/components/dashboard/AIAssistant.tsx:159 | typing sets the input only |
| `AIAssistant.AIAssistantPanel.HandleSend` | src/components/dashboard/AIAssistant.tsx:29-41 | blank input changes nothing; otherwise the untrimmed input and its reply are appended and the input cleared |
| `AIAssistant.AIAssistantPanel.HandleKeyDown` | src/components/dashboard/AIAssistant.tsx:160 | Enter sends; any other key changes nothing |
| `AIAssistant.AIAssistantPanel.HandleQuickAction` | src/components/dashboard/AIAssistant.tsx:43-52 | appends the action and its reply, leaving the input untouched |
| `Settings.WithSetting` | src/pages/Settings.tsx:129-194 | a notification switch updates its own key only |
| `Settings.InitialSettings` | src/pages/Settings.tsx:30-36 | every notification starts on except desktop |
| `Settings.WithSettingRestores` | src/pages/Settings.tsx:129-194 | switching a key back to its old value restores the record |
| `Settings.WithPassword` | src/pages/Settings.tsx:220-259 | a password input updates its own field only |
| `Settings.AfterWritesValue` | src/pages/Settings.tsx:220-259 | after a series of input changes a field holds the value of the last write to it, or its old value when no write touched it |
| `Settings.SaveStaysDisabledUntilFilled` | src/pages/Settings.tsx:267-272 | from the empty form, Update Password enables only after each of the three fields has been given a non-empty value |
| `Settings.SettingsPage.constructor` | src/pages/Settings.tsx:26-42 | light theme, not saving, the initial notifications, empty password form |
| `Settings.SettingsPage.HandleThemeToggle` | src/pages/Settings.tsx:44-48 | flips the theme only; the toast names the new theme |
| `Settings.SettingsPage.SetNotification` | src/pages/Settings.tsx:129-194 | a switch changes the notifications record only |
| `Settings.SettingsPage.SetPasswordField` | src/pages/Settings.tsx:220-259 | an input changes the password form only |
| `Settings.SettingsPage.ToggleShowPassword` | src/pages/Settings.tsx:226 | flips password visibility only |
| `Settings.SettingsPage.BeginSavePassword` | src/pages/Settings.tsx:50-56 | differing passwords stop with an error and change nothing; otherwise saving starts and the button is disabled |
| `Settings.SettingsPage.FinishSavePassword` | src/pages/Settings.tsx:57-60 | saving ends and all three fields are emptied |
| `Settings.SettingsPage.HandleSavePassword` | src/pages/Settings.tsx:50-61 | the whole save: an error leaves saving and the fields unchanged; success ends not saving with the form empty and the button disabled |
| `GenerateReportModal.WithText` | src/components/dashboard/GenerateReportModal.tsx:91-138 | a select or the e-mail input updates its own field only |
| `GenerateReportModal.WithIncluded` | src/components/dashboard/GenerateReportModal.tsx:160-162 | a check box updates its own key only |
| `GenerateReportModal.InitialFormContents` | src/components/dashboard/GenerateReportModal.tsx:45-53 | empty project, developer and e-mail; every section included |
| `GenerateReportModal.WithIncludedRestores` | src/components/dashboard/GenerateReportModal.tsx:160-162 | re-ticking a box to its old value restores the form |
| `GenerateReportModal.SendEnabledImpliesDownloadEnabled` | src/components/dashboard/GenerateReportModal.tsx:178-194 | Send enabled implies Download enabled; they differ exactly when only the recipient is missing |
| `GenerateReportModal.ButtonsFollowForm` | src/components/dashboard/GenerateReportModal.tsx:45-194 | both buttons start disabled; a project enables Download only; an e-mail then enables Send; generating disables both |
| `GenerateReportModal.ReportDialog.constructor` | src/components/dashboard/GenerateReportModal.tsx:43-53 | closed, not generating, the initial form |
| `GenerateReportModal.ReportDialog.SetOpen` | src/components/dashboard/GenerateReportModal.tsx:70 | the dialog's open change sets the flag only |
| `GenerateReportModal.ReportDialog.SetText` | src/components/dashboard/GenerateReportModal.tsx:91-138 | a text control changes the form only |
| `GenerateReportModal.ReportDialog.SetIncluded` | src/components/dashboard/GenerateReportModal.tsx:160-162 | a check box changes the form only |
| `GenerateReportModal.ReportDialog.HandleGenerate` | src/components/dashboard/GenerateReportModal.tsx:55-67 | ends not generating with the dialog closed and the form kept; the toast depends on the action |
| `RecentActivityWidget.FilterActivities` | src/components/dashboard/RecentActivityWidget.tsx:76-79 | no type, "" or "all" gives the full list; any other type the activities of that type in order, with all their copies |
| `RecentActivityWidget.UnknownKindIsEmpty` | src/components/dashboard/RecentActivityWidget.tsx:78 | a type no activity has gives the empty list |
| `RecentActivityWidget.TypeTab` | src/components/dashboard/RecentActivityWidget.tsx:77-78 | the commit, pr and jira tabs take the filtering branch |
| `RecentActivityWidget.KindsPartition` | src/components/dashboard/RecentActivityWidget.tsx:78 | when every activity is a commit, pr or jira, the three counts add up to the total |
| `RecentActivityWidget.KindTabsPartition` | src/components/dashboard/RecentActivityWidget.tsx:76-79 | the three type tabs list every activity exactly once between them |
| `RecentActivityWidget.SampleShape` | src/components/dashboard/RecentActivityWidget.tsx:6-61 | the sample's types are commit, pr, jira, commit, pr, jira |
| `RecentActivityWidget.CountsOfSampleKinds` | src/components/dashboard/RecentActivityWidget.tsx:6-61 | two activities of each type |
| `RecentActivityWidget.SampleTabs` | src/components/dashboard/RecentActivityWidget.tsx:6-109 | each type tab lists two sample activities; the "all" tab lists all six |
| `AggregateCard.BadgeOf` | src/components/dashboard/AggregateCard.tsx:78-99 | a badge is rendered iff there is a trend |
| `AggregateCard.FlagsClassifySign` | src/components/dashboard/AggregateCard.tsx:56-57 | without a trend both flags are null; with one, positive iff value > 0 and neutral iff value = 0, never both |
| `AggregateCard.BadgeFollowsSign` | src/components/dashboard/AggregateCard.tsx:82-95 | the colour scheme and the icon follow the value's sign; "+" is shown iff the value is positive |
| `AggregateCard.OneStyleApplies` | src/components/dashboard/AggregateCard.tsx:82-84 | exactly one colour scheme applies |
| `Header.UnreadCountCounts` | src/components/dashboard/Header.tsx:60 | the count equals the number of unread notifications; unread plus read is the total, so it never exceeds it |
| `Header.BadgeShownIffSomeDot` | src/components/dashboard/Header.tsx:98-145 | the bell's badge shows iff some item in the popover has an unread dot, and it counts the dotted items |
| `Header.SampleUnreadCount` | src/components/dashboard/Header.tsx:27-60 | the sample notifications give a count of 2, so the badge shows |

## Left out

- Rendering: JSX markup, CSS classes and icons are presentational. The model keeps only the conditions that decide what is shown.
- `navigate`, `toast.*`, `scrollIntoView` and the theme's class-list toggle call into the browser or libraries and are not called by the model.
- Navigation: only the `/dashboard` target of the sign-in submit and the social buttons is returned (`Auth.Outcome`). The back arrows of Profile, Risks and Settings and the "My Profile", "Settings" and "Logout" entries of the Header menu only navigate and are not modelled.
- Toasts whose text is returned as a value: the sign-in and social sign-in toasts (Auth.tsx lines 46 and 54), the two report toasts (GenerateReportModal.tsx lines 60 and 62) and the theme toast (Settings.tsx line 47).
- Toasts reduced to a text-free outcome: "Passwords do not match" (Auth.tsx line 41) is `Auth.PasswordMismatch`; "New passwords don't match" and "Password updated successfully" (Settings.tsx lines 52 and 60) are `Settings.PasswordsDiffer` and `Settings.PasswordUpdated`.
- Toasts dropped: "Skill added", "Skill removed" and "Profile updated successfully" (Profile.tsx lines 33, 39 and 44); `Profile.ProfilePage.HandleAddSkill` returns only whether the skill was added.
- The simulated delays (`setTimeout` awaited in Auth, Settings and the report dialog) are not modelled. Each handler ends in the state it reaches once the wait is over. Nothing runs concurrently, and the model has no interleaving of events during a wait.
- The drag events' own plumbing (`preventDefault`, `draggable`) is not modelled. Only the reorder and the `draggedItem` field are.
- `CustomizeDashboard.CustomizeDashboardPanel.HandleDragOver` requires both ids to be listed. With a missing id, `findIndex` gives -1 and `splice(-1, 1)` would remove the last widget. The sheet only passes ids taken from the list it renders.
- `CustomizeDashboard.AfterDragOvers`: a drag-over naming an unlisted id is treated as changing nothing (`Reorders` is false), where the code would splice at -1; the sheet never produces one.
- `Auth.AuthPage.HandleSubmit` accepts any form, including empty fields. The browser's `required` and `type="email"` checks that block the submit event before the handler runs (Auth.tsx lines 194, 206, 213, 243 and 277) are not modelled.
- `Profile.ProfilePage`: the e-mail, role and manager inputs are always disabled, so only the name is editable and only the name is modelled as changing.
- `JsString.ToLower` folds ASCII letters only, not the full Unicode case mapping of `toLowerCase`.
- Trend values (`AggregateCard`): a trend's value is a whole number, so fractional and NaN values are not modelled.
- `GenerateReportModal.WithIncluded`: the check box's `"indeterminate"` state is not modelled. The value stored is a boolean.
- Risk severity and status filters are datatypes holding the values the selects offer, so arbitrary strings in those fields are not modelled.
- `handleResolve` and `handleEscalate` only show a toast and change no data.
- The "Mark all read" button in Header.tsx has no click handler, so it changes nothing.
- WorkloadWidget.tsx, TeamOverviewWidget.tsx, WorkSnapshotWidget.tsx, RiskDetectionWidget.tsx, AISummaryWidget.tsx and Logo.tsx are not part of this model. They hold static data and floating-point percentages only.
