# Habit tracker core, modelled in Dafny

This project models the logic of four React components of a habit tracker.

- **HabitCheckbox** (`habit_checkbox.dfy`) is the daily habit ledger:
  - a fixed catalog of ten habits;
  - one record list per user and day, stored under `habits_<userName>_<today>`;
  - loading with a fallback to the catalog defaults;
  - the toggle;
  - the completion percentage;
  - the save step that runs after every change and reports the percentage to an optional observer;
  - the handler of the window's `habitsReset` event;
  - the category colours.

  A mounted component is a `Ledger` object. The window's listener list is a `ResetChannel`, and its `Publish` runs every registered handler in registration order, all against the storage as it was at dispatch, and then the save effects of the ledgers whose state changed.
- **MemoryLogger** (`memory_logger.dfy`) is the memory journal:
  - a newest-first list of entries under the key `memories`;
  - an add guarded by a `trim()` check;
  - delete by id;
  - the Enter-without-Shift keyboard rule.

  A successful add saves the list, clears the input, removes the key `habits_<today>` and broadcasts `habitsReset`. The ledger's key carries the user name, so that removal never hits it (`MemoryLogger.JournalResetKeyMissesLedgerKey`). A ledger that has saved today therefore never resets when a memory is added. `MemoryLogger.AddingMemoryKeepsTodaysHabits` shows this end to end: a ledger on an empty browser, with a habit checked off, keeps its records across an add.
  The removal of the user-less key `habits_<today>` looks like a leftover from before keys carried the user name. If the add cleared `habits_<userName>_<today>` instead, the current user's ledger would reset to a fresh day. The model follows the code as written, so that reset does not happen.
- **Greeting** (`greeting.dfy`):
  - the hour-to-greeting bands;
  - the heading `<greeting>, Friend!`;
  - the pick of one of five quotes.
- **HollaCharacter** (`holla_character.dfy`):
  - the mood-to-emoji switch, with `happy` as the default mood;
  - the speech bubble, shown only for a non-empty message.

The shared modules are `storage.dfy` and `wrappers.dfy`.

- `storage.dfy` models the browser's `localStorage` as a class. It holds a map from keys to JSON values and a trace of writes, removals and dispatched events.
- `wrappers.dfy` holds `Option` and `Result`.

## Model

| member | source | states |
|---|---|---|
| Storage.Browser.GetItem | src/components/HabitCheckbox.jsx:37 | `getItem` returns the stored value exactly when the key is present, and null otherwise |
| Storage.Browser.SetItem | src/components/HabitCheckbox.jsx:68 | `setItem` replaces exactly that key and appends one write to the trace |
| Storage.Browser.RemoveItem | src/components/MemoryLogger.jsx:53 | `removeItem` drops exactly that key, even when it is absent, and appends one removal to the trace |
| Storage.Browser.Dispatch | src/components/MemoryLogger.jsx:56 | dispatching an event leaves storage alone and appends the event to the trace |
| HabitCheckbox.DefaultHabits | src/components/HabitCheckbox.jsx:21-32 | the defaults are the ten catalog entries, in catalog order, all with `completed` false |
| HabitCheckbox.FreshDayFacts | src/components/HabitCheckbox.jsx:21-32 | a fresh day has ten records with distinct ids, none completed, and a percentage of 0 |
| HabitCheckbox.CatalogIdsDistinct | src/components/HabitCheckbox.jsx:21-32 | no two catalog entries share an id |
| HabitCheckbox.CompletedCount | src/components/HabitCheckbox.jsx:48 | the completed count is at most the length; it is 0 iff no record is completed, and equals the length iff every record is |
| HabitCheckbox.RoundHalfUp | src/components/HabitCheckbox.jsx:50 | `Math.round` of an exact fraction is within half a unit of it, with an exact half rounded up |
| HabitCheckbox.RoundHalfUpUnique | src/components/HabitCheckbox.jsx:50 | only one integer satisfies that bound, so the rounding is fully determined |
| HabitCheckbox.Percentage | src/components/HabitCheckbox.jsx:48-50 | the percentage is defined exactly when the list is non-empty; an empty list gives NaN in the source |
| HabitCheckbox.PercentageBounds | src/components/HabitCheckbox.jsx:48-50 | for a non-empty list the percentage lies in 0..100; it is 0 when nothing is done and 100 when everything is |
| HabitCheckbox.PercentOfRange | src/components/HabitCheckbox.jsx:50 | rounding c/t scaled to percent, with 0 <= c <= t, stays within 0..100 |
| HabitCheckbox.PercentageOfTen | src/components/HabitCheckbox.jsx:48-50 | on a ten-record list the percentage is exactly ten times the completed count |
| HabitCheckbox.Toggled | src/components/HabitCheckbox.jsx:76-80 | the toggle keeps the list's length |
| HabitCheckbox.ToggleFlipsOnlyMatching | src/components/HabitCheckbox.jsx:75-81 | the toggle flips `completed` exactly on the records with the given id; ids, labels, categories and order are unchanged |
| HabitCheckbox.ToggleTwice | src/components/HabitCheckbox.jsx:75-81 | toggling the same id twice restores the list |
| HabitCheckbox.ToggleUnknownId | src/components/HabitCheckbox.jsx:75-81 | toggling an id that no record carries changes nothing |
| HabitCheckbox.ToggleCompletedCount | src/components/HabitCheckbox.jsx:75-81 | toggling moves every matching open record to done and every matching done record back to open |
| HabitCheckbox.MatchingUnique | src/components/HabitCheckbox.jsx:78 | with distinct ids, the toggle's condition matches exactly one record |
| HabitCheckbox.CheckingOffAddsTen | src/components/HabitCheckbox.jsx:48-50 | checking off one open habit of a ten-record list with distinct ids raises the percentage by exactly 10 |
| HabitCheckbox.CategoryColor | src/components/HabitCheckbox.jsx:83-92 | each of the five named categories maps to its own colour; every other category maps to `#757575` (both directions) |
| HabitCheckbox.CatalogCategoriesColoured | src/components/HabitCheckbox.jsx:83-92 | no catalog habit is drawn in the fallback grey |
| HabitCheckbox.LoadHabits | src/components/HabitCheckbox.jsx:34-46 | a saved habit document is returned as it is; a missing key, an empty string or unparseable text gives the fresh-day defaults |
| HabitCheckbox.LoadAfterSave | src/components/HabitCheckbox.jsx:34-40 | what the save step writes is what the next load for the same user and day returns |
| HabitCheckbox.ReportOf | src/components/HabitCheckbox.jsx:70-72 | a save reports the current percentage once when an observer is given, and reports nothing otherwise |
| HabitCheckbox.LedgerKeyInjective | src/components/HabitCheckbox.jsx:37 | two users' keys for the same day coincide iff the users do |
| HabitCheckbox.SavedAfterResets | src/components/HabitCheckbox.jsx:56-58 | after the save effects that follow a reset broadcast, a key is saved iff it was saved at dispatch time or is one of the listeners' keys |
| HabitCheckbox.ResetWritesKeepSaved | src/components/HabitCheckbox.jsx:56-59 | a broadcast never overwrites or removes a key that was saved at dispatch time |
| HabitCheckbox.ResetTraceWritesUnsaved | src/components/HabitCheckbox.jsx:56-68 | every write after a broadcast puts the defaults under a listener key that was not saved at dispatch time |
| HabitCheckbox.ResetWritesOnlyTheirKeys | src/components/HabitCheckbox.jsx:56-59 | a broadcast touches no key other than the listeners' keys |
| HabitCheckbox.SameUserListenersBothReset | src/components/HabitCheckbox.jsx:54-73 | two listeners of the same user whose key was unsaved at dispatch both reset and both report, because neither handler sees the other's save |
| HabitCheckbox.Ledger.constructor | src/components/HabitCheckbox.jsx:34-73 | mounting loads the records, registers the reset handler and then saves: it writes the ledger key once and reports once |
| HabitCheckbox.Ledger.Progress | src/components/HabitCheckbox.jsx:48-50 | a ledger with records shows a percentage in 0..100 |
| HabitCheckbox.Ledger.Save | src/components/HabitCheckbox.jsx:66-73 | the save step writes only the ledger key, appends one write to the trace and reports the percentage; a later load returns the records |
| HabitCheckbox.Ledger.Toggle | src/components/HabitCheckbox.jsx:66-81 | the records become the toggled list, which is then saved and reported |
| HabitCheckbox.Ledger.HandleReset | src/components/HabitCheckbox.jsx:53-60 | the handler reads today's key; when it is not saved, the records become a fresh day, and otherwise they are kept and the stored value is not reloaded. It writes nothing, and reports whether it changed the state, which schedules the save effect |
| HabitCheckbox.ResetChannel.constructor | src/components/HabitCheckbox.jsx:62 | a new window has no listeners |
| HabitCheckbox.ResetChannel.Subscribe | src/components/HabitCheckbox.jsx:62 | `addEventListener` appends a listener unless it is already registered |
| HabitCheckbox.ResetChannel.Unsubscribe | src/components/HabitCheckbox.jsx:63 | `removeEventListener` drops exactly that listener and keeps the others in order |
| HabitCheckbox.ResetChannel.HandleAt | src/components/HabitCheckbox.jsx:54-60 | the next listener's handler runs on the unchanged storage; the handled prefix grows by one |
| HabitCheckbox.ResetChannel.HandleFrom | src/components/HabitCheckbox.jsx:54-60 | the remaining handlers run in order, none writes storage, and each one's flag is whether its key was unsaved at dispatch |
| HabitCheckbox.ResetChannel.NoneHandled | src/components/MemoryLogger.jsx:56 | before any handler has run, every listener is as it was |
| HabitCheckbox.ResetChannel.NoneSaved | src/components/HabitCheckbox.jsx:66-73 | after all handlers and before any save effect, storage and trace are as at dispatch |
| HabitCheckbox.ResetChannel.SaveAt | src/components/HabitCheckbox.jsx:66-73 | the next listener's save effect runs iff its handler changed its records; the saved prefix grows by one |
| HabitCheckbox.ResetChannel.SaveChanged | src/components/HabitCheckbox.jsx:66-73 | a listener that reset writes the defaults under its key, appends that write to the trace and reports once |
| HabitCheckbox.ResetChannel.SkipUnchanged | src/components/HabitCheckbox.jsx:57 | a listener that kept its records has no save effect and writes nothing |
| HabitCheckbox.ResetChannel.SaveFrom | src/components/HabitCheckbox.jsx:66-73 | the remaining save effects run in registration order |
| HabitCheckbox.ResetChannel.AllSaved | src/components/MemoryLogger.jsx:56 | once every save effect has run, storage and trace hold exactly the broadcast's writes and each listener is as `ResetApplied` says |
| HabitCheckbox.ResetChannel.Publish | src/components/MemoryLogger.jsx:56 | dispatching `habitsReset` records the event and then runs every handler, all on the storage as it was at dispatch. Then the save effects run. A ledger resets iff nothing was saved under its key at dispatch, and every other ledger is unchanged. The trace is the event followed by one defaults write per resetting ledger |
| MemoryLogger.JournalResetKeyMissesLedgerKey | src/components/MemoryLogger.jsx:53 | the journal removes `habits_<today>`, which is never a ledger's key `habits_<user>_<today>` |
| MemoryLogger.MemoriesKeyIsNoLedgerKey | src/components/MemoryLogger.jsx:44 | the key `memories` is never a ledger key |
| MemoryLogger.TrimEmptyIffBlank | src/components/MemoryLogger.jsx:35 | `trim()` leaves nothing iff every character is ECMAScript white space |
| MemoryLogger.TrimStart | src/components/MemoryLogger.jsx:35 | leading trim removes only white space, and the suffix it leaves is empty or starts with a visible character |
| MemoryLogger.TrimEnd | src/components/MemoryLogger.jsx:35 | trailing trim removes only white space, and the prefix it leaves is empty or ends with a visible character |
| MemoryLogger.CanAdd | src/components/MemoryLogger.jsx:35 | the add guard holds iff the input has a character that is not white space |
| MemoryLogger.LoadMemories | src/components/MemoryLogger.jsx:24-27 | a missing or empty `memories` key gives the empty list; a stored list is returned; other text fails to parse |
| MemoryLogger.WithoutIdMembers | src/components/MemoryLogger.jsx:61 | delete keeps exactly the entries whose id differs |
| MemoryLogger.WithoutIdAppend | src/components/MemoryLogger.jsx:61 | delete works piecewise, so the kept entries keep their order |
| MemoryLogger.WithoutAbsentId | src/components/MemoryLogger.jsx:61 | deleting an id that no entry carries leaves the list unchanged |
| MemoryLogger.WithoutId | src/components/MemoryLogger.jsx:61 | delete never lengthens the list |
| MemoryLogger.PrependKeepsNewestFirst | src/components/MemoryLogger.jsx:37-42 | prepending an entry whose clock is above every id keeps the list newest first |
| MemoryLogger.WithoutIdKeepsNewestFirst | src/components/MemoryLogger.jsx:61 | delete keeps a newest-first list newest first |
| MemoryLogger.Written | src/components/MemoryLogger.jsx:44-53 | after an add's own writes, `memories` loads the new list and `habits_<today>` is absent |
| MemoryLogger.AddNeverResetsSavedLedger | src/components/MemoryLogger.jsx:53-56 | a ledger whose key is saved keeps it through the add's writes and does not reset |
| MemoryLogger.ResetKeepsMemories | src/components/MemoryLogger.jsx:44-56 | reset handlers leave the journal's list where the add saved it |
| MemoryLogger.Journal.constructor | src/components/MemoryLogger.jsx:24-28 | mounting reads the list from storage and starts with an empty input; it requires that the stored text parses, because the source does not catch the error |
| MemoryLogger.Journal.SetInput | src/components/MemoryLogger.jsx:148 | the text field's change handler sets the input |
| MemoryLogger.Journal.AddEnabled | src/components/MemoryLogger.jsx:161 | the add button is enabled iff the input has a visible character |
| MemoryLogger.Journal.Persist | src/components/MemoryLogger.jsx:44-56 | saves the list, removes `habits_<today>` and dispatches `habitsReset`; the trace is exactly those three effects, in that order, followed by the ledgers' reset writes. Each ledger resets against the storage the add left, and the list stays saved |
| MemoryLogger.Journal.Add | src/components/MemoryLogger.jsx:34-58 | a blank input changes nothing (state, storage, trace, listeners). Otherwise the raw input with the given clock as id heads the list, and the old list is its tail. The list is saved, the input is cleared and `habits_<today>` is removed. Then `habitsReset` is dispatched, and the trace holds exactly those effects and the ledgers' reset writes |
| MemoryLogger.Journal.Delete | src/components/MemoryLogger.jsx:60-64 | the list loses every entry with that id and the result is saved under `memories` |
| MemoryLogger.Journal.HandleKeyPress | src/components/MemoryLogger.jsx:66-71 | Enter without Shift prevents the default and adds; any other key changes nothing |
| MemoryLogger.CheckedOffOnEmptyBrowser | src/components/HabitCheckbox.jsx:66-81 | a ledger mounted alone on an empty browser, after one toggle, holds a completed habit and has its key saved |
| MemoryLogger.AddBesideSavedLedger | src/components/MemoryLogger.jsx:53-56 | an add beside a ledger whose key is saved leaves that ledger's records alone |
| MemoryLogger.AddingMemoryKeepsTodaysHabits | src/components/MemoryLogger.jsx:51-56 | adding a memory the same day keeps a checked-off habit checked off: the reset after an add does not reset the ledger |
| Greeting.GetGreeting | src/components/Greeting.jsx:10-14 | "Good Morning" iff the hour is below 12, "Good Afternoon" iff it is 12..17, "Good Evening" iff it is 18 or more |
| Greeting.Band | src/components/Greeting.jsx:10-14 | each greeting has its position in the day |
| Greeting.EveryHourGreeted | src/components/Greeting.jsx:10-14 | every hour 0..23 gets one of the three greetings |
| Greeting.BandNeverGoesBack | src/components/Greeting.jsx:10-14 | the greeting's band never goes back as the hour advances |
| Greeting.ChangesOnlyAtBoundaries | src/components/Greeting.jsx:11-13 | between consecutive hours the greeting changes iff the new hour is 12 or 18 |
| Greeting.Heading | src/components/Greeting.jsx:59 | the heading is the greeting followed by `, Friend!` |
| Greeting.GreetingOf | src/components/Greeting.jsx:59 | reading the greeting back from a heading gives at most the heading |
| Greeting.HeadingShowsGreeting | src/components/Greeting.jsx:59 | reading the greeting back from the heading gives the hour's greeting |
| Greeting.HeadingsAgreeIffGreetingsAgree | src/components/Greeting.jsx:59 | two hours have the same heading iff they have the same greeting |
| Greeting.QuoteIndex | src/components/Greeting.jsx:25 | for a draw of num/den in [0, 1), the index i satisfies i <= draw * 5 < i + 1 and is below 5 |
| Greeting.Quote | src/components/Greeting.jsx:17-26 | the shown quote is always one of the five |
| Greeting.QuoteIndexUnique | src/components/Greeting.jsx:25 | each quote is picked for exactly the draws in its fifth of [0, 1) |
| HollaCharacter.MoodOrDefault | src/components/HollaCharacter.jsx:5 | an omitted mood is `happy` |
| HollaCharacter.GetEmoji | src/components/HollaCharacter.jsx:7-20 | the result is one of the four emojis. It is 🤩 iff the mood is `excited`, 🥳 iff `proud` and 💪 iff `encouraging`; it is 😊 otherwise, including `happy` and any unknown mood |
| HollaCharacter.MoodOf | src/components/HollaCharacter.jsx:7-20 | each emoji stands for one of the named moods |
| HollaCharacter.DefaultMoodSmiles | src/components/HollaCharacter.jsx:5-10 | with no mood the emoji is 😊, the same as for `happy` |
| HollaCharacter.EmojiRoundTrip | src/components/HollaCharacter.jsx:7-20 | every emoji is shown for the mood it stands for |
| HollaCharacter.MoodRoundTrip | src/components/HollaCharacter.jsx:7-20 | a mood is recovered from its emoji iff the switch names it |
| HollaCharacter.NamedMoodsDistinct | src/components/HollaCharacter.jsx:9-16 | distinct named moods show distinct emojis |
| HollaCharacter.Bubble | src/components/HollaCharacter.jsx:40-54 | the bubble is shown, with the message, iff the message is not empty |

## Left out

- JSON text is abstracted. `JSON.stringify` followed by `JSON.parse` is taken to be the identity on habit and memory lists. Any other stored text is either the empty string or text that does not parse. A document of the other component's shape is treated as text that does not parse. In the source `JSON.parse` accepts it: the ledger would adopt a memory list as its records, and the journal would load an empty habit list `[]` as an empty list. Only a storage the program itself never writes can hold such a document.
- LoadHabits: in the model only a parse failure reaches the fresh-day fallback. In the source the `catch` (HabitCheckbox.jsx:42-45) catches any throw inside the `try`, such as a `localStorage.getItem` that throws; storage reads never fail here. The `console.error` it logs is not modelled.
- HabitCheckbox.Percentage: computed with exact integer round-half-up. JavaScript's floating-point `Math.round((c / t) * 100)` can differ near .5 for large totals. NaN for an empty list is `None`.
- HabitCheckbox.CategoryColor: only the five own properties of the colour table are modelled. A category such as `toString`, which JavaScript finds on `Object.prototype`, is not.
- Clocks and dates are parameters of the operations that use them: `new Date().getHours()`, `toDateString()`, `toLocaleDateString()`, `toLocaleTimeString()` and `Date.now()`.
- Greeting.QuoteIndex: `Math.random()` is a parameter, an exact fraction num/den in [0, 1). Floating-point rounding of the product is not modelled.
- React's scheduling is replaced by explicit sequential calls: batched state updates, re-renders and effects.
  - The save effect runs right after each change to `habits`.
  - An add sets the journal's `memories` and input before its storage writes. In the source these state updates land after the handler returns; the storage writes and the event happen in the same order in both.
  - A reset handler that finds the key saved does not call `setHabits`, so no save follows it.
- The effect's dependency on `defaultHabits` re-registers the reset listener on every render. The model registers it once per mounted ledger; the set of listeners is the same between renders.
- The window's event mechanism is a `ResetChannel` that calls each registered ledger's handler directly, in registration order. The save effects that follow run in the same order; React runs sibling effects in tree order, which the model takes to be mount order.
- HabitCheckbox.Ledger: `userName` and `onProgressUpdate` are fixed at mount. In the source, a new `userName` prop re-runs the save effect, which writes the records loaded for the old user under `habits_<newUser>_<today>` without reloading. The reset listener is then re-registered for the new user. A new `onProgressUpdate` function re-runs the save effect and reports again. Neither prop change is modelled.
- Storage.Browser.SetItem: never fails. In the source `localStorage.setItem` can throw when the quota is exceeded, and neither the save effect (HabitCheckbox.jsx:68) nor the journal (MemoryLogger.jsx:44, 63) catches it.
- The `setTimeout` success banner, all rendering, styling and animation, and `e.preventDefault()` are left out. The last is modelled only as a returned flag.
- `App.jsx` is not part of this model. It composes the components and sets the theme, and it has no logic of its own.
- MemoryLogger.Journal.constructor: requires the stored `memories` text to parse, because the source throws during mount otherwise. `LoadMemories` models that failure as an error value.
