# Mood tracker history and dashboard helpers, in Dafny

This project models the logic in two screens of a mental-wellness web app.

**Mood tracker** (`mood_tracker.dfy`, module `MoodTracker`). The tracker keeps a
rolling history of at most seven day entries `{day, moodScore, anxiety, depression}`.
Picking an emotion, by hand or as the result of a webcam capture's analysis, does
one of two things:

- If there is an entry labelled with today's weekday, the first such entry gets
  the emotion's metrics. It keeps its position and its label.
- Otherwise a new entry for today is appended. If that makes more than seven
  entries, the entry at position 0 is dropped.

The session starts with a generated Mon..Sun week, and a reset generates a new one.

The model has two layers:

- Pure functions specify the update (`ApplyEmotion`), the `findIndex` lookup
  (`FindIndex`), the catalog `find` (`FindEmotion`) and the generated week
  (`InitialHistory`).
- The class `Tracker` holds the view's state: history, selected mood,
  results flag and captured images. Its methods change that state step by step,
  and each method is proved to produce exactly what the spec functions give for
  the old state.

`moodScore` is kept in integer tenths (4.8 is 48). The tracker only copies
scores and never computes with them.

**Dashboard** (`user_dashboard.dfy`, module `UserDashboard`). Two pieces live here:

- `cn` drops JavaScript-falsy arguments and joins the rest with single spaces.
- The "fitme" page shows the physical exercise list when `healthType` is
  `"physical"` and the mental list otherwise.

Behaviour of the code worth knowing:

- An update keeps today's entry at its position; only appends go at the end.
- A reset hides the results and clears the images. It does not clear the
  selected mood (`Tracker.Reset` keeps `selectedMood`).
- The update does not itself keep labels distinct: it looks up only the first
  entry for today. Labels are distinct in every reachable state because the
  generated week starts with distinct labels and every update keeps them so
  (`ApplyEmotionKeepsDistinct`, part of `Tracker.Valid`).
- The results panel reads its anxiety and depression figures from the last
  history entry (MoodTracker.jsx:194, 380, 401). From the generated Mon..Sun week,
  an update on any day but Sunday replaces in place, so that entry keeps
  Sunday's generated values rather than the mood just picked
  (`WeekdayUpdateKeepsLatest`).

The emoji glyphs of the catalog are written as the code points the source intends
(U+1F60A, U+1F614, U+1F621, U+1F61F, U+1F60C, U+1F610). Likewise the dashes,
arrow and apostrophe in the exercise descriptions.

## Model

| member | source | states |
|---|---|---|
| `MoodTracker.CatalogShape` | src/components/moodtracker/MoodTracker.jsx:35-42 | the catalog has six emotions, its moods are Happy, Sad, Angry, Anxious, Calm, Neutral in order, and they are pairwise distinct |
| `MoodTracker.FindEmotion` | src/components/moodtracker/MoodTracker.jsx:142 | `find`: None exactly when no entry has the label; otherwise the first entry whose mood is the label |
| `MoodTracker.FindEmotionExact` | src/components/moodtracker/MoodTracker.jsx:142 | in a list with distinct moods, looking up an entry's own mood returns that entry |
| `MoodTracker.CatalogLookup` | src/components/moodtracker/MoodTracker.jsx:142-146 | every catalog mood looks up exactly its own row; the lookup finds nothing exactly when the label is not one of the six moods |
| `MoodTracker.FindIndex` | src/components/moodtracker/MoodTracker.jsx:157 | `findIndex`: -1 exactly when no entry has today's label, otherwise the first position with it |
| `MoodTracker.NewEntry` | src/components/moodtracker/MoodTracker.jsx:166-171 | helper: the entry pushed for today, carrying the emotion's moodScore, anxiety and depression |
| `MoodTracker.ApplyEmotion` | src/components/moodtracker/MoodTracker.jsx:154-176 | result non-empty; at most 7 entries if the input had at most 7; replace branch: same length, only the first entry for today changes, it gets the emotion's metrics and keeps its day and position; append branch: today's new entry is last, preceded by the old entries in order, minus the one at index 0 when there were already 7 |
| `MoodTracker.ApplyEmotionIdempotent` | src/components/moodtracker/MoodTracker.jsx:157-174 | applying the same values twice on the same day gives the same history as applying them once |
| `MoodTracker.HappyOnMonday` | src/components/moodtracker/MoodTracker.jsx:157-164 | Happy over a Monday entry (3.0, 20, 20) yields (4.8, 18, 10) at the same position, length unchanged |
| `MoodTracker.ApplyEmotionKeepsDistinct` | src/components/moodtracker/MoodTracker.jsx:157-174 | an update keeps day labels pairwise distinct |
| `MoodTracker.ApplyEmotionKeepsLabels` | src/components/moodtracker/MoodTracker.jsx:157-164 | when today's label is present, the sequence of day labels is unchanged |
| `MoodTracker.ApplyAllWithinCapacity` | src/components/moodtracker/MoodTracker.jsx:165-174 | after any run of updates a history that started with at most 7 entries still has at most 7, and at least one once an update happened |
| `MoodTracker.WeekdayUpdateKeepsLatest` | src/components/moodtracker/MoodTracker.jsx:155-164 | from a Mon..Sun history, an update on Mon..Sat keeps 7 entries and leaves the last (Sunday) entry, which `latestData` reads, unchanged |
| `MoodTracker.WeekHistoryKeepsLabels` | src/components/moodtracker/MoodTracker.jsx:111-164 | from a Mon..Sun history, any run of updates made on weekdays always takes the replace branch: labels stay Mon..Sun |
| `MoodTracker.DaysDistinct` | src/components/moodtracker/MoodTracker.jsx:112 | the seven weekday labels are pairwise distinct |
| `MoodTracker.RandomBelow` | src/components/moodtracker/MoodTracker.jsx:116-117 | `Math.floor(Math.random() * n)` lies in 0..n-1 and is the floor of the product |
| `MoodTracker.RandomScore` | src/components/moodtracker/MoodTracker.jsx:115 | `toFixed(1)` of `r * 3 + 2` lies in 2.0..5.0 and is within half a tenth of the exact value |
| `MoodTracker.InitialEntry` | src/components/moodtracker/MoodTracker.jsx:113-118 | helper: the entry `days.map` builds for one label from that day's three draws |
| `MoodTracker.GenerateHistory` | src/components/moodtracker/MoodTracker.jsx:113-118 | `days.map`: one entry per label, in label order, each with metrics in the generated ranges |
| `MoodTracker.InitialHistory` | src/components/moodtracker/MoodTracker.jsx:111-119 | exactly 7 entries labelled Mon..Sun in order, distinct labels, moodScore 2.0..5.0, anxiety 10..69, depression 5..54 |
| `MoodTracker.Labels` | src/components/moodtracker/MoodTracker.jsx:157 | helper: the `day` fields that line 157 compares, in order, one per entry |
| `MoodTracker.Tracker.constructor` | src/components/moodtracker/MoodTracker.jsx:111-123 | a session starts with the generated week, no selected mood, results hidden, no images |
| `MoodTracker.Tracker.LatestData` | src/components/moodtracker/MoodTracker.jsx:194 | the last history entry, always defined because the history is never empty |
| `MoodTracker.Tracker.SelectEmoji` | src/components/moodtracker/MoodTracker.jsx:152-178 | selected mood becomes the emotion's; new history is `ApplyEmotion` of the old; images and results flag unchanged; history stays non-empty, within 7, distinct labels |
| `MoodTracker.Tracker.CaptureAndAnalyze` | src/components/moodtracker/MoodTracker.jsx:138-150 | the new image goes first, older ones follow in order; a catalog label selects that row's values and shows results; any other label leaves history, selected mood and results flag unchanged |
| `MoodTracker.Tracker.Reset` | src/components/moodtracker/MoodTracker.jsx:180-192 | results hidden, images emptied, history regenerated as a fresh Mon..Sun week; selected mood untouched |
| `UserDashboard.Truthy` | src/components/dashboard/UserDashboard.jsx:29 | the `Boolean` test of `filter(Boolean)`: `undefined`, `null`, `false` and `""` are falsy, every other argument is truthy |
| `UserDashboard.Join` | src/components/dashboard/UserDashboard.jsx:29 | `.join(" ")`; no ensures of its own, specified by `JoinAppend`, `JoinLength` and `WordsOfJoin` |
| `UserDashboard.Cn` | src/components/dashboard/UserDashboard.jsx:29 | `cn(...classes)`; no ensures of its own, specified by `CnEmpty`, `CnSingle`, `CnAppend`, `CnLength` and `CnWords` |
| `UserDashboard.Text` | src/components/dashboard/UserDashboard.jsx:29 | the text `join` writes for a surviving argument is never empty |
| `UserDashboard.Survivors` | src/components/dashboard/UserDashboard.jsx:29 | `filter(Boolean)`: every survivor is the text of a truthy argument, every truthy argument survives, none is empty; empty exactly when all arguments are falsy |
| `UserDashboard.SurvivorsAppend` | src/components/dashboard/UserDashboard.jsx:29 | filtering distributes over concatenation, so survivors keep their original order |
| `UserDashboard.JoinAppend` | src/components/dashboard/UserDashboard.jsx:29 | joining two non-empty lists puts exactly one space between the two joins |
| `UserDashboard.JoinLength` | src/components/dashboard/UserDashboard.jsx:29 | an empty join is ""; otherwise its length is the words' total length plus one per gap |
| `UserDashboard.CnEmpty` | src/components/dashboard/UserDashboard.jsx:29 | `cn` returns "" exactly when every argument (or there are none) is falsy |
| `UserDashboard.CnSingle` | src/components/dashboard/UserDashboard.jsx:29 | with exactly one truthy argument, `cn` returns its text unchanged |
| `UserDashboard.CnAppend` | src/components/dashboard/UserDashboard.jsx:29 | `cn` of a concatenation equals `cn` of the two halves' results: no doubled or stray spaces |
| `UserDashboard.CnLength` | src/components/dashboard/UserDashboard.jsx:29 | with at least one survivor, the length is the survivors' total length plus (survivors - 1) |
| `UserDashboard.WordsOfJoin` | src/components/dashboard/UserDashboard.jsx:29 | splitting a join of space-free words at single spaces returns the words |
| `UserDashboard.CnWords` | src/components/dashboard/UserDashboard.jsx:29 | when no survivor contains a space, `cn`'s output splits back into exactly the survivors, in order |
| `UserDashboard.Exercises` | src/components/dashboard/UserDashboard.jsx:572-575 | the physical list exactly when `healthType == "physical"`, the mental list for every other value |

## Left out

- The simulated analysis (`simulateMoodAnalysis`, MoodTracker.jsx:126-136) is not modelled. That covers its 1.5-second timer, the `analyzing` flag and the random pick. `Tracker.CaptureAndAnalyze` takes the detected label as a parameter and applies it in one step.
- Interleaving is not modelled. A capture's result can land after a manual selection or after a reset, and the model does not capture that.
- The `catch` branch of `handleCaptureAndAnalyze` is not modelled. It only logs, and the simulated analysis never rejects.
- Webcam screenshot capture (MoodTracker.jsx:51-58) is not modelled. The captured frame is an opaque string parameter.
- The current weekday (`new Date().toLocaleString`, line 155) is not read from a clock. It is the `today` parameter.
- `Math.random` is a parameter: one `Draw` of three reals in [0, 1) per day, in the order the source draws them.
- IEEE floating point is not modelled. `RandomBelow` and `RandomScore` use exact reals, and `toFixed(1)` is taken as round-half-up of the exact value.
- The window resize listener, the sidebar and page state (`collapsed`, `mobileOpen`, `page`) are not modelled, and neither is any rendering, animation or chart.
- The dashboard's `localStorage` persistence of the active page (UserDashboard.jsx:658-667) is not modelled.
- The rest of `renderContent` is view markup and is not modelled.
- Numbers, `NaN` and objects are not modelled as `cn` arguments, because no call site passes them.
- `src/components/sections/Home.jsx` is not part of this model. It is a static page with route navigation.
- `src/components/pages/ECommerce/ECommerceContents/AddProduct.jsx` is not part of this model. It is form plumbing with a timer-driven fake submit.
