# FitTrack session state in Dafny

FitTrack is a single-page fitness tracker. Its whole behaviour is the state
held by one component, `App` in `src/App.tsx`. That state is:

- a list of workouts, seeded with five entries;
- a list of friends, starting empty;
- the pending text of the add-workout and add-friend forms;
- two flags saying whether the add modals are open;
- a goal selector, weight loss or weight gain, which picks one of two fixed diet plans.

The event handlers replace these fields. A workout can be toggled, added and
deleted. A friend can be added and deleted. The goal can be switched.

This project models that state in two modules:

- `AppData` (`app_data.dfy`) holds the entities as datatypes and the seed list.
  It also holds the two diet plans and the two list transformations the handlers
  compute. `ToggleById` is the `map` that flips `completed`. `Without` is the
  `filter` that drops an id; it is written once and used for both lists.
  The lemmas about these functions live here too.
- `AppStore` (`app_store.dfy`) holds the class `Store`. It has one field per
  `useState` and one method per handler. Each method's contract gives the whole
  new state as the old state with the changed fields replaced, so it also says
  that nothing else changes. `Valid()` is the store invariant: every friend has
  `workouts == 0` and `progress == 0`. It holds because friends are created
  with those values and no handler changes them.

The environment's values come in as parameters: the clock reading used as an
id (`Date.now().toString()`), today's date (`toISOString().split('T')[0]`) and
the calorie parser (`parseInt`).

The handlers do only this:

- Adding a workout checks only that the name and calorie texts are non-empty.
  The parsed calorie value is not checked for being a number, or for being
  non-negative.
- Toggling an id that no entry carries changes nothing and reports nothing.
- Ids are not guaranteed unique. Two entries added in the same millisecond get
  the same id, and toggle and delete then act on both.
- No totals or counts are computed over the lists, so the model has none.

## Model

| member | source | states |
|---|---|---|
| AppData.SeedWorkouts | src/App.tsx:40-76 | the seed list has five entries, all dated today, with pairwise distinct ids and positive calories |
| AppData.DietFor | src/App.tsx:92-106 | the plan total is 1400 for loss and 2400 for gain; the loss goal gives exactly the loss plan and the gain goal exactly the gain plan |
| AppData.DietForInjective | src/App.tsx:455-481 | two goals show the same plan if and only if they are the same goal |
| AppData.ToggleById | src/App.tsx:108-112 | length is kept; each entry whose id matches has `completed` negated and every other field kept; every other entry is identical |
| AppData.ToggleInvolution | src/App.tsx:109-111 | toggling the same id twice gives back the original list |
| AppData.ToggleMissing | src/App.tsx:109-111 | when no entry has the id, toggling leaves the list unchanged |
| AppData.ToggleKeepsIds | src/App.tsx:109-111 | the set of ids present in the workout list is the same before and after a toggle |
| AppData.Without | src/App.tsx:146 | the result is no longer than the input; every entry in it comes from the input and has another id; if no entry matches, the list is unchanged |
| AppData.WithoutIsSubsequence | src/App.tsx:146 | the remaining entries keep their original order |
| AppData.WithoutMultiplicity | src/App.tsx:150 | every entry with the id is removed in all its occurrences; every other entry keeps all its occurrences |
| AppData.WithoutLength | src/App.tsx:146 | the list shrinks by exactly the number of entries whose id matches |
| AppData.WithoutIdempotent | src/App.tsx:145-151 | deleting the same id twice is the same as deleting it once |
| AppData.ToggleThenDelete | src/App.tsx:108-147 | deleting an id after toggling it gives the same list as deleting it directly |
| AppStore.Store.constructor | src/App.tsx:40-83 | the store starts with the seed workouts, no friends, both modals closed, empty forms and the loss goal, and satisfies the friend invariant |
| AppStore.Store.Diet | src/App.tsx:455 | the calorie total shown is 1400 under the loss goal and 2400 under the gain goal |
| AppStore.Store.ToggleWorkout | src/App.tsx:108-112 | the workouts become the toggled list; no other field changes |
| AppStore.Store.AddWorkout | src/App.tsx:114-128 | with both form texts non-empty, exactly one workout is appended with the given clock id, the form name, the parsed calories, `completed = false` and today's date; the form is reset and the modal closed; otherwise nothing changes |
| AppStore.Store.AddFriend | src/App.tsx:130-143 | with a non-empty name, exactly one friend is appended with `workouts = 0` and `progress = 0`; the form is reset and the modal closed; otherwise nothing changes; the friend invariant is kept |
| AppStore.Store.DeleteWorkout | src/App.tsx:145-147 | the workouts become the list without the id; no other field changes |
| AppStore.Store.DeleteFriend | src/App.tsx:149-151 | the friends become the list without the id; the workouts, the goal and every other field are untouched; the friend invariant is kept |
| AppStore.Store.SetGoal | src/App.tsx:374-395 | the goal selector takes the chosen value; no other field changes |
| AppStore.Store.SetWorkoutName | src/App.tsx:208 | only the pending workout name changes |
| AppStore.Store.SetWorkoutCalories | src/App.tsx:218 | only the pending calorie text changes |
| AppStore.Store.SetFriendName | src/App.tsx:253 | only the pending friend name changes |
| AppStore.Store.ShowAddWorkout | src/App.tsx:274 | only the add-workout modal flag changes (the open button at line 274, the close button at line 196) |
| AppStore.Store.ShowAddFriend | src/App.tsx:316 | only the add-friend modal flag changes (the open button at line 316, the close button at line 241) |
| AppStore.AddTwoDeleteFirst | src/App.tsx:130-151 | adding "Alice" and "Bob" under distinct ids and then deleting Alice's id leaves one friend, named "Bob" |
| AppStore.SetGoalTwice | src/App.tsx:375 | choosing a goal twice shows the same diet plan both times, with the total fixed for that goal |

## Left out

- Rendering, styling, icons and the tab selector `activeTab` (src/App.tsx:39, src/App.tsx:153-513): presentation only, with no effect on the store.
- `e.preventDefault()` and the browser's own `required` and `type="number"` checks on the form inputs: these belong to the browser. Only the handler's own guard is modelled.
- `Date.now()` and `new Date().toISOString()`: the clock is outside the model. The id and the date are parameters.
- `parseInt`: JavaScript numbers and `NaN` are outside the model. The parser is a parameter `string -> int`, and nothing about its result is assumed.
- The hard-coded current and target weights, the fixed 60% bar, the tip texts and the static `workoutProgress` list (src/App.tsx:85-90, src/App.tsx:411-427, src/App.tsx:489-503): constant display data with no behaviour.
- React's state batching and re-rendering: each handler is an atomic update of the store fields. Each handler reads the fields as they were before it runs.
