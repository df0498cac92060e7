# Habit tracker core: meditation countdown, completion gating, routine and track lists

This project models the logic under the three screens of a habit tracker (progressmind): the
routines tab, the dashboard and the music tab. Each screen is a React component. It holds local
state that its event handlers replace, and it reports to a store through callbacks.

- `MeditationTimer` (meditation_timer.dfy) is the single countdown slot
  `{routineId, timeLeft, isRunning, totalTime, startTime}`, as values.
  `Start` is `startMeditation`. `Step` is one firing of the countdown effect: a tick, or an expiry
  that completes the owning routine and empties the slot. `Run` is `n` firings together with the
  completions they emit. The routines tab and the dashboard each define this slot, line for line
  the same (`src/components/Dashboard.tsx:14-26,35-59,73-93` repeats
  `src/components/RoutinesTab.tsx:33-45,119-143,169-189`). Both components use these functions.
- `TimeFormat` (time_format.dfy) is `formatTime`, which both components also define identically.
- `Routines` (routines.dfy) is the routine record and the morning/afternoon/evening split.
- `RoutinesTab`, `Dashboard` and `MusicTab` (routines_tab.dfy, dashboard.dfy, music_tab.dfy) each
  hold the component's pure helpers and a `class Component` for its state. The class fields are
  the component's `useState` variables. Its methods are the handlers. The ghost field `calls`
  records, in order, every store callback the component makes.
- `Seqs` (seqs.dfy) defines the JavaScript primitives used: `filter`, `find`, a summing `reduce` and `includes`.

JavaScript truthiness is written out wherever the code relies on it:
- `if (routineId)`, `if (editingRoutine)` and `!routine.inputValue` treat an empty string like an absent one.
- `routine.frequency && …` likewise.

Where the code does something a reader might not expect, the model follows the code:
- `startMeditation` checks nothing about the routine. Only the rendering hides the button for completed routines.
- A duration of 0 is accepted. It gives a total of 0 seconds, and the countdown expires on the first firing.
- Only the routines tab's toggle stops a countdown running for the toggled routine. The dashboard's toggle does not touch the slot.
- Completing, saving an entry and toggling only call `onCompleteRoutine`. Whether the store sets or flips `completed`, and how streaks and weeks advance, is not in the code shown. The model records the calls and assumes nothing about their effect.
- `getMeditationGuide` returns the first guide in list order whose week is not after the given
  week. It does not return the latest such guide. `GuideForAscending` shows the consequence: with
  guides listed by increasing week, every week gets the first guide. The guide data is not part of
  this model, so whether that is intended cannot be told here.
- The custom form has no input for category, colour or icon, so every custom routine is a morning
  routine in `bg-purple-500` with a star (`RoutinesTab.DefaultLook`, kept by `Component.Valid`).
- An id that is the empty string fails the `if (routineId)` test, so its countdown stalls at 0:00 and stays running (`EmptyOwnerStalls`).

## Model

| member | source | states |
|---|---|---|
| `Seqs.Filter` | src/components/RoutinesTab.tsx:115-117 | `filter` keeps exactly the elements that pass the test and never lengthens the list |
| `Seqs.Sum` | src/components/Dashboard.tsx:33 | a summing `reduce` is at least each of its terms, and zero exactly when every term is |
| `Seqs.FindFirst` | src/components/RoutinesTab.tsx:112 | `find` returns the first element that passes, and nothing only when no element passes |
| `Seqs.Includes` | src/components/Dashboard.tsx:115-117 | `includes` holds iff the keyword occurs at some position of the title |
| `MeditationTimer.Start` | src/components/RoutinesTab.tsx:169-179 | a started slot is running for the routine, with time left and total both `duration * 60`; it depends on no previous slot, so a previous run is discarded |
| `MeditationTimer.Step` | src/components/RoutinesTab.tsx:119-143 | one firing keeps the slot invariant (`0 <= timeLeft <= totalTime`, a stopped slot is empty); a completion is emitted only together with emptying the slot, and only for the slot's own non-empty id; otherwise the slot either stays as it was or loses exactly one second, all else unchanged |
| `MeditationTimer.Run` | src/components/RoutinesTab.tsx:119-143 | any number of firings keeps the slot invariant and emits at most one completion per firing |
| `MeditationTimer.IdleIsFixedPoint` | src/components/RoutinesTab.tsx:129-141 | firing the effect on the empty slot changes nothing and completes nothing |
| `MeditationTimer.RunFromIdle` | src/components/RoutinesTab.tsx:129-141 | after the slot emptied, any number of firings changes nothing and completes nothing |
| `MeditationTimer.TickDecrements` | src/components/RoutinesTab.tsx:122-127 | a tick removes exactly one second, keeps owner, total and start time, and stays within bounds |
| `MeditationTimer.ExpiryCompletesOwner` | src/components/RoutinesTab.tsx:129-140 | a running slot at zero with an owner completes that owner once and empties |
| `MeditationTimer.CountsDown` | src/components/RoutinesTab.tsx:122-127 | while time is left, `k` firings only remove `k` seconds and emit nothing |
| `MeditationTimer.ExpiresWithin` | src/components/RoutinesTab.tsx:119-143 | an owned running slot with fewer than `n` seconds left ends empty after `n` firings, having completed its owner exactly once |
| `MeditationTimer.NaturalExpiry` | src/components/RoutinesTab.tsx:169-179 | after `startMeditation`, `duration * 60` ticks leave the slot running at zero with nothing emitted, and every longer run ends empty with exactly one completion, for that routine |
| `MeditationTimer.EmptyOwnerStalls` | src/components/RoutinesTab.tsx:131 | a running slot at zero whose id is `""` never completes and never empties |
| `TimeFormat.Decimal` | src/components/RoutinesTab.tsx:194 | `toString` of a non-negative integer is one or more digits with no leading zero, a single digit exactly below 10 |
| `TimeFormat.DecimalValue` | src/components/RoutinesTab.tsx:194 | the digits of `n` read back as `n` |
| `TimeFormat.PadStart2` | src/components/RoutinesTab.tsx:194 | `padStart(2, '0')` keeps a string of two or more characters and left-fills a shorter one with zeros to length two |
| `TimeFormat.FormatTime` | src/components/RoutinesTab.tsx:191-195 | the text is digits, `:`, two digits; read back, minutes * 60 + seconds equals the input, the seconds are below 60 and the minutes carry no leading zero |
| `TimeFormat.FormatTimeExamples` | src/components/RoutinesTab.tsx:191-195 | 65 s shows `1:05`, 5 s `0:05`, 600 s `10:00`, 605 s `10:05` |
| `Routines.ByCategory` | src/components/Dashboard.tsx:28-30 | a section holds exactly the routines of its category and is no longer than the list |
| `Routines.SectionsPartition` | src/components/RoutinesTab.tsx:115-117 | the morning, afternoon and evening lists together hold every routine once |
| `Routines.SumBySection` | src/components/Dashboard.tsx:28-33 | any per-routine sum over the list equals the sum of the sums over the three sections |
| `Routines.SectionKeepsOrder` | src/components/Dashboard.tsx:28-30 | each section keeps the list's order |
| `RoutinesTab.FromTemplate` | src/components/RoutinesTab.tsx:64-79 | a routine from a template starts unchecked with streak 0 at week 1; `maxWeeks` is the plan's length and duration and description are those of the plan's first step; title, category, colour, icon and plan are the template's |
| `RoutinesTab.FromCustomForm` | src/components/RoutinesTab.tsx:83-97 | a custom routine is a non-progressive one-week routine whose only step is `{1, duration, description}` of the form, unchecked with streak 0, carrying the form's other fields |
| `RoutinesTab.EditFormOf` | src/components/RoutinesTab.tsx:145-154 | the edit form copies title, description and duration, with `''` for a missing reminder time and `false` for a missing notification flag |
| `RoutinesTab.GuideFor` | src/components/RoutinesTab.tsx:111-113 | the guide shown is the first in list order whose week is not after the given week, or the first guide when none qualifies |
| `RoutinesTab.GuideForAscending` | src/components/RoutinesTab.tsx:111-113 | with guides in increasing week order and the first one applicable, every week gets the first guide |
| `RoutinesTab.AfterToggle` | src/components/RoutinesTab.tsx:197-203 | the toggle empties a slot running for the toggled id and keeps any other slot, preserving the slot invariant |
| `RoutinesTab.ToggleSilencesTimer` | src/components/RoutinesTab.tsx:197-203 | after toggling a routine whose countdown runs, no later firing completes anything, so the toggle's call is the only completion |
| `RoutinesTab.CompletionCalls` | src/components/RoutinesTab.tsx:131-132 | a firing makes one `onCompleteRoutine` call exactly when it completed a routine, for that routine |
| `RoutinesTab.Component.constructor` | src/components/RoutinesTab.tsx:21-56 | the tab starts with an empty slot, no editor open, default forms, panels closed and no calls |
| `RoutinesTab.Component.ToggleTemplates` | src/components/RoutinesTab.tsx:211 | the add button flips the template panel |
| `RoutinesTab.Component.CloseTemplates` | src/components/RoutinesTab.tsx:353 | the catalogue's close button hides the template panel |
| `RoutinesTab.Component.OpenTemplates` | src/components/RoutinesTab.tsx:942 | the empty list's first-routine button shows the template panel |
| `RoutinesTab.Component.ToggleCustomForm` | src/components/RoutinesTab.tsx:279 | the custom link flips the custom form |
| `RoutinesTab.Component.CloseCustomForm` | src/components/RoutinesTab.tsx:342 | the custom form's cancel button hides the form, keeping what was typed |
| `RoutinesTab.Component.AddTemplate` | src/components/RoutinesTab.tsx:64-81 | exactly one add call, with the template's routine, then the panel closes; nothing else changes |
| `RoutinesTab.Component.SetCustomForm` | src/components/RoutinesTab.tsx:290-330 | the five inputs set title, description, duration, reminder time and notification flag; category, colour and icon keep their values, so the form stays a morning, purple, star form |
| `RoutinesTab.Component.AddCustomRoutine` | src/components/RoutinesTab.tsx:83-109 | exactly one add call built from the form as it was, a morning routine in `bg-purple-500` with a star; then the form is back to its defaults and hidden |
| `RoutinesTab.Component.BeginEdit` | src/components/RoutinesTab.tsx:145-154 | the editor opens on the routine's id with its current fields |
| `RoutinesTab.Component.SetEditForm` | src/components/RoutinesTab.tsx:584-623 | the editor's inputs replace the edit form |
| `RoutinesTab.Component.SaveEdit` | src/components/RoutinesTab.tsx:156-161 | with a non-empty id under edit: one edit call with the form, then the editor closes; otherwise nothing happens |
| `RoutinesTab.Component.CancelEdit` | src/components/RoutinesTab.tsx:638 | the editor closes |
| `RoutinesTab.Component.DeleteRoutine` | src/components/RoutinesTab.tsx:163-167 | one delete call when the user confirms, none otherwise |
| `RoutinesTab.Component.StartMeditation` | src/components/RoutinesTab.tsx:169-179 | the slot becomes `Start` of the routine whatever it held; no call is made for a discarded run |
| `RoutinesTab.Component.StopMeditation` | src/components/RoutinesTab.tsx:181-189 | the slot is empty from any state, so stopping twice equals stopping once |
| `RoutinesTab.Component.TimerStep` | src/components/RoutinesTab.tsx:119-143 | one firing moves the slot by `Step` and appends exactly the completion calls it emits |
| `RoutinesTab.Component.ToggleRoutine` | src/components/RoutinesTab.tsx:197-203 | exactly one completion call for the id; a countdown running for that id is stopped, any other slot is kept |
| `RoutinesTab.Component.CompleteDirectly` | src/components/RoutinesTab.tsx:668 | the afternoon and evening checkboxes make one completion call and leave the slot alone |
| `Dashboard.NeedsInput` | src/components/Dashboard.tsx:115-117 | an entry is needed exactly when `Gratitude`, `Planification` or `Affirmations` occurs in the title as spelled; never for a title under 9 characters |
| `Dashboard.NeedsInputForKeyword` | src/components/Dashboard.tsx:115-117 | a title with `Gratitude`, `Planification` or `Affirmations` anywhere in it needs an entry |
| `Dashboard.NeedsInputIsCaseSensitive` | src/components/Dashboard.tsx:115-117 | `Gratitude` needs an entry and `gratitude` does not |
| `Dashboard.ToggleDisabled` | src/components/Dashboard.tsx:143 | the checkbox is disabled exactly for an unchecked journal routine whose entry is absent or `''` and which is not under edit |
| `Dashboard.ToggleEnabledUnless` | src/components/Dashboard.tsx:143 | the checkbox is enabled for a routine needing no entry, a checked routine, a routine with an entry, and the routine being edited |
| `Dashboard.EmptyEntryStillGated` | src/components/Dashboard.tsx:143 | for an unchecked journal routine not under edit, an empty entry disables the checkbox just as a missing one does |
| `Dashboard.FrequencyLabel` | src/components/Dashboard.tsx:123-129 | `weekly` gives Hebdo, `monthly` gives Mensuel, and every other value, or none, gives Quotidien |
| `Dashboard.ShowsFrequencyBadge` | src/components/Dashboard.tsx:175 | the badge is hidden exactly for an unset, empty or `daily` frequency; any other unknown value shows as Quotidien |
| `Dashboard.FrequencyBadgeCases` | src/components/Dashboard.tsx:175 | no badge for an unset, empty or daily frequency; weekly and monthly show one with their own label |
| `Dashboard.CompletedToday` | src/components/Dashboard.tsx:32 | the number of checked routines is at most the number of routines, and equal to it iff every routine is checked |
| `Dashboard.CompletedTodayCounts` | src/components/Dashboard.tsx:32 | the same number counts the checked routines one by one, and is the sum of the three sections' counts |
| `Dashboard.TotalStreak` | src/components/Dashboard.tsx:33 | no routine's streak exceeds the total, which is zero exactly when every streak is |
| `Dashboard.TotalStreakBySection` | src/components/Dashboard.tsx:33 | the streak total is the sum of the three sections' totals |
| `Dashboard.CompletedMinutes` | src/components/Dashboard.tsx:351 | each checked routine's duration is within the total, which is zero exactly when no checked routine has a positive duration |
| `Dashboard.CompletedMinutesOverCompleted` | src/components/Dashboard.tsx:351 | the card's minutes are the summed durations of the checked routines, at most the durations of all routines |
| `Dashboard.TimeCard` | src/components/Dashboard.tsx:351 | hours * 60 + minutes is the completed minutes, with minutes below 60 |
| `Dashboard.Component.constructor` | src/components/Dashboard.tsx:12-26 | the dashboard starts with no editor, an empty entry, an empty slot and no calls |
| `Dashboard.Component.InputSave` | src/components/Dashboard.tsx:61-66 | exactly two calls in this order, the entry update with the typed text and then the completion, both for the id; then the editor closes and the entry clears |
| `Dashboard.Component.StartEditing` | src/components/Dashboard.tsx:68-71 | the editor opens on the routine with its stored entry, or `''` when it has none |
| `Dashboard.Component.SetInputValue` | src/components/Dashboard.tsx:281 | typing or picking a suggestion replaces the entry |
| `Dashboard.Component.CancelEditing` | src/components/Dashboard.tsx:299-302 | the editor closes and the unsaved entry is dropped |
| `Dashboard.Component.ToggleRoutine` | src/components/Dashboard.tsx:110-112 | exactly one completion call for the id, with no gate (the free-meditation button calls it directly); the slot is untouched |
| `Dashboard.Component.ClickCheckbox` | src/components/Dashboard.tsx:141-143 | a click on a disabled checkbox makes no call; any other click makes exactly one completion call for the routine |
| `Dashboard.Component.StartMeditation` | src/components/Dashboard.tsx:73-83 | the slot becomes `Start` of the routine whatever it held; no call is made for a discarded run |
| `Dashboard.Component.StopMeditation` | src/components/Dashboard.tsx:85-93 | the slot is empty from any state |
| `Dashboard.CompletionCalls` | src/components/Dashboard.tsx:47-48 | a firing makes one `onCompleteRoutine` call exactly when it completed a routine, for that routine |
| `Dashboard.Component.TimerStep` | src/components/Dashboard.tsx:35-59 | one firing moves the slot by `Step` and appends exactly the completion calls it emits |
| `MusicTab.FilteredTracks` | src/components/MusicTab.tsx:31-33 | under `all` the list is the whole track list; otherwise it holds exactly the tracks of the selected category |
| `MusicTab.FilteredKeepsOrder` | src/components/MusicTab.tsx:33 | the filtered list keeps the track list's order |
| `MusicTab.FilteredIdempotent` | src/components/MusicTab.tsx:31-33 | filtering the filtered list again changes nothing |
| `MusicTab.Component.constructor` | src/components/MusicTab.tsx:11-21 | no current track, paused, category `all`, form hidden and at its defaults, whose category is one the select offers, no calls |
| `MusicTab.Component.SelectCategory` | src/components/MusicTab.tsx:75 | a category button selects that category |
| `MusicTab.Component.TogglePlayPause` | src/components/MusicTab.tsx:35-40 | a given track becomes current and playback flips; without a track the current one stays, so two calls restore playback |
| `MusicTab.Component.SelectTrack` | src/components/MusicTab.tsx:228 | a row click makes that track current and leaves playback as it was |
| `MusicTab.Component.ToggleAddForm` | src/components/MusicTab.tsx:93 | the add button flips the form |
| `MusicTab.Component.CloseAddForm` | src/components/MusicTab.tsx:166 | the form's cancel button hides the form, keeping what was typed |
| `MusicTab.Component.SetNewTrack` | src/components/MusicTab.tsx:110-153 | the form's inputs replace the form; the category stays one of `motivation`, `focus`, `meditation`, `energy`, the select's only options |
| `MusicTab.Component.AddTrack` | src/components/MusicTab.tsx:42-56 | exactly one add call with the form's fields and `isCustom = true`, sent with one of the four select categories, then the form is at its defaults (empty, category `motivation`) and hidden |

## Left out

- Rendering: layout, CSS classes, icons, modals, the template catalogue's category tabs and the
  meditation-guide dialog's visibility. These decide only what is shown.
- The lower-cased `méditation` title test that decides whether a checkbox or the meditation buttons are drawn. It uses Unicode case folding and only selects which controls are rendered.
- The 1-second `setInterval` and React's effect scheduling. Each firing of the effect is an explicit `Step`/`TimerStep` call.
- `Date.now()`. The start time is a parameter. It is stored but never read.
- The progress bar's percentage. It uses floating-point division and `Math.round`. The slot invariant `0 <= timeLeft <= totalTime` bounds the elapsed time it shows.
- `parseInt` of the duration inputs and the `|| 5` fallback. Durations are naturals. JavaScript numbers are modelled as unbounded integers.
- `formatTime` on negative input. The slot invariant keeps `timeLeft` non-negative, so `FormatTime` takes a natural.
- `window.confirm` is browser I/O. Its answer is the `confirmed` parameter of `DeleteRoutine`.
- What the store does with the calls (`onCompleteRoutine`, `onUpdateRoutineInput`, `onAddRoutine`, `onEditRoutine`, `onDeleteRoutine`, `onAddTrack`). That code is not part of this model. It includes streak and week advancement and the daily reset.
- Template and guide contents (`../data/mockData`). They are parameters.
  - A template with an empty plan makes the source throw, so `FromTemplate` and `AddTemplate` require a non-empty plan.
  - An empty guide list also makes the source throw, so `GuideFor` requires a non-empty list.
- Audio playback, the fixed `1:23` progress text and the heart button. No audio engine exists behind them.
- AddCustomRoutine: does not model the browser's form validation. The title and description are `required` and the duration input has `min="5" max="120"` (`src/components/RoutinesTab.tsx:296,304-306,322`), so the browser does not submit an empty or out-of-range form. The model accepts any form.
- AddTrack: does not model the browser's form validation. Title, artist and duration are `required` and the URL input is `type="url"` (`src/components/MusicTab.tsx:117,125,136,150`), so the browser does not submit the form while one of them is empty or the URL is malformed. The model accepts any form.
- `e.stopPropagation()` on a row's play button. It keeps the click from also selecting the row, so `TogglePlayPause` is that click's only effect.
- The "Commencer" button of the meditation guide. It only closes the dialog.
- `isGoalLinked` and `encouragementMessage`. They only choose colours and a message to display.
