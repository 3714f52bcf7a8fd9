# VocabCardApp core, modelled in Dafny

VocabCardApp is a React Native app for vocabulary cards. Its logic lives in
screen event handlers. This project lifts those handlers out of the UI and
models them as operations over an abstract key-value store with three keys:

- `"vocabCards"` holds the card list.
- `"settings"` holds the reminder record `{notificationsEnabled, interval}`.
- `"appSettings"` holds the theme record `{darkMode}`.

Each stored value is a structured datatype (`Storage.StoredValue`) that stands
in for the JSON text the app writes. Every read, write, registration and
unregistration takes a boolean saying whether it fails, so the error paths
can be stated. The clock value `Date.now()` is a `nat` parameter.

Modules, one per component:

- `Text`: `String.prototype.trim`, as removal of white space from both ends.
- `Decimal`: the decimal rendering of the clock value that becomes a card id, and its parse.
- `Vocab`: the card datatype and the filter-by-id the delete handler applies.
- `Storage`: the key-value store (`AsyncStorage`) as a class over `map<string, StoredValue>`.
- `AddCard`: the add-card form and `handleAddCard`.
- `CardList`: the list screen's in-memory list, `loadCards` and `deleteCard`.
- `BackgroundFetch`: the OS task service. It holds a map from task name to options, plus a log of every request.
- `Reminders`: the settings screen's switch and interval, and their registration state machine.
- `Theme`: the dark-mode flag, its load and toggle, and the palette.

What the proofs make visible, following the code as written:

- Registration and unregistration swallow their own errors, so
  `toggleNotifications(true)` records and saves "enabled" even when nothing got
  registered (`Reminders.EnableWhenRegistrationFails`).
- `updateInterval` re-registers with the interval its handler captured, which
  is the value before the update. After enabling at 30 minutes and choosing
  60, the live registration keeps a minimum interval of 1800 seconds, while
  60 is recorded and saved (`Reminders.EnableThenChangeInterval`).
- Card ids are the decimal clock value. Two complete adds, one after the
  other, that read the same clock value (for instance after the device clock
  was set back) store two cards with the same id (`AddCard.SameInstantSameId`,
  `AddCard.DoubleTap`); deleting that id then removes both cards
  (`Vocab.DeleteRemovesTwins`). Ids from distinct clock values always differ
  (`Decimal.ToDecimalInjective`). Two presses that overlap in time are a
  different matter: both read the same stored list and the second write
  replaces the first, which is the race listed under "Left out".
- `deleteCard` writes the list even when no card carries the id. An absent
  id is not reported as an error.

Behaviours of the code the model keeps as written:

- Card ids are timestamps, which are not guaranteed unique.
- Deleting an id that no card carries is not an error.
- Registration and unregistration failures are logged and swallowed, not reported.
- Settings are saved without awaiting the write.
- Changing the interval re-registers with the interval from before the change.
- Reminder settings and the theme live under two separate keys, `"settings"` and `"appSettings"`.

## Model

| member | source | states |
|---|---|---|
| Text.TrimStart | VocabCardApp/src/screens/AddCardScreen.js:17 | the result is no longer than the input and does not start with white space |
| Text.TrimStartSuffix | VocabCardApp/src/screens/AddCardScreen.js:17 | the leading-space removal keeps a suffix of the input, and every character it drops is white space |
| Text.TrimEnd | VocabCardApp/src/screens/AddCardScreen.js:17 | the result is no longer than the input and does not end with white space |
| Text.TrimEndPrefix | VocabCardApp/src/screens/AddCardScreen.js:17 | the trailing-space removal keeps a prefix of the input, and every character it drops is white space |
| Text.Trim | VocabCardApp/src/screens/AddCardScreen.js:25-27 | the trimmed text is no longer than the input and neither starts nor ends with white space |
| Text.TrimSlice | VocabCardApp/src/screens/AddCardScreen.js:25-27 | the trimmed text is one contiguous slice of the input, and only white space lies before and after it |
| Text.TrimEmptyIffBlank | VocabCardApp/src/screens/AddCardScreen.js:17-20 | trimming yields the empty string exactly when the input is all white space, which is the validation test |
| Text.TrimKeepsTrimmed | VocabCardApp/src/screens/AddCardScreen.js:25-27 | a string with no white space at either end is left unchanged |
| Text.TrimIdempotent | VocabCardApp/src/screens/AddCardScreen.js:25-27 | trimming a trimmed field again changes nothing |
| Decimal.ToDecimal | VocabCardApp/src/screens/AddCardScreen.js:24 | the id text is non-empty, all digits, and has no leading zero except for "0" |
| Decimal.ParseToDecimal | VocabCardApp/src/screens/AddCardScreen.js:24 | reading the id text back as a number gives the clock value it was made from |
| Decimal.ToDecimalInjective | VocabCardApp/src/screens/AddCardScreen.js:24 | two clock values give the same id exactly when they are equal |
| Vocab.WithoutId | VocabCardApp/src/screens/CardListScreen.js:41 | no card of the result carries the id, and the length drops by exactly the number of cards that carried it |
| Vocab.WithoutIdMembers | VocabCardApp/src/screens/CardListScreen.js:41 | a card is in the result exactly when it was in the list and carries another id |
| Vocab.WithoutIdAppend | VocabCardApp/src/screens/CardListScreen.js:41 | filtering a concatenation is the concatenation of the filtered parts, so surviving cards keep their relative order |
| Vocab.WithoutAbsentId | VocabCardApp/src/screens/CardListScreen.js:41-43 | deleting an id that no card carries leaves the list unchanged as a value |
| Vocab.WithoutIdIdempotent | VocabCardApp/src/screens/CardListScreen.js:41 | deleting the same id twice removes nothing more |
| Vocab.WithoutIdKeepsUnique | VocabCardApp/src/screens/CardListScreen.js:41 | if ids were unique before the delete, they are unique after it |
| Vocab.AppendFreshKeepsUnique | VocabCardApp/src/screens/AddCardScreen.js:32 | appending a card whose id no card carries keeps ids unique |
| Vocab.DeleteRemovesTwins | VocabCardApp/src/screens/CardListScreen.js:41 | deleting an id that two cards share removes both of them |
| Storage.WriteKeepsShape | VocabCardApp/src/screens/AddCardScreen.js:33 | writing a record of the shape its key expects keeps every key holding its own shape of record; each handler that writes uses it, so the app's own writes never put a value of another shape under a key |
| Storage.AsyncStorage.GetItem | VocabCardApp/src/screens/AddCardScreen.js:30 | a read gives an error when the backend fails; otherwise it gives the stored value, or "missing" when the key is absent |
| Storage.AsyncStorage.SetItem | VocabCardApp/src/screens/AddCardScreen.js:33 | a write replaces the whole value under its key and nothing else, or changes nothing when it fails |
| AddCard.NewCard | VocabCardApp/src/screens/AddCardScreen.js:17-28 | a card is built exactly when neither the word nor the meaning is blank; its id is the decimal clock value and its text fields are the trimmed inputs; word and meaning are non-empty |
| AddCard.CardsAfterAdd | VocabCardApp/src/screens/AddCardScreen.js:30-32 | the list written back is the stored list followed by exactly the new card; it is the one-card list when the key is absent, and there is none when the stored value is not a list |
| AddCard.AddFreshIdKeepsUnique | VocabCardApp/src/screens/AddCardScreen.js:24-33 | when no stored card has the new id (or nothing is stored yet), the written list keeps ids unique |
| AddCard.SameInstantSameId | VocabCardApp/src/screens/AddCardScreen.js:24-33 | two successful adds with the same clock value leave a list whose ids are not unique |
| AddCard.AddCardScreen.constructor | VocabCardApp/src/screens/AddCardScreen.js:12-14 | the word, meaning and example inputs start empty |
| AddCard.AddCardScreen.HandleAddCard | VocabCardApp/src/screens/AddCardScreen.js:16-41 | blank word or meaning gives the validation alert and no storage change; success needs a successful read of a list (or no list) and a successful write; on success the store holds the stored list plus the new card and nothing else changes; every failure leaves the store unchanged; every key keeps its shape of record |
| AddCard.DoubleTap | VocabCardApp/src/screens/AddCardScreen.js:16-41 | two complete adds, one after the other, that read the same clock value, with no card list stored, store two cards with one id |
| CardList.CardListScreen.constructor | VocabCardApp/src/screens/CardListScreen.js:15 | the in-memory list starts empty |
| CardList.CardListScreen.LoadCards | VocabCardApp/src/screens/CardListScreen.js:25-37 | with nothing stored the list becomes empty; with a stored list it becomes exactly that list; on failure it is left as it was |
| CardList.CardListScreen.DeleteCard | VocabCardApp/src/screens/CardListScreen.js:39-48 | the filtered list is written even for an absent id; the in-memory list is replaced only when the write succeeds, and then it equals the stored list; on failure neither changes; every key keeps its shape of record |
| BackgroundFetch.TaskService.RegisterTask | VocabCardApp/src/screens/SettingsScreen.js:92-96 | a registration request is logged; on success it sets (or replaces) the options of that task name, and on failure nothing else changes |
| BackgroundFetch.TaskService.UnregisterTask | VocabCardApp/src/screens/SettingsScreen.js:104 | an unregistration request is logged; on success it removes that task name, and on failure nothing else changes |
| Reminders.SettingsScreen.constructor | VocabCardApp/src/screens/SettingsScreen.js:32-33 | reminders start disabled with a 30-minute interval |
| Reminders.SettingsScreen.LoadSettings | VocabCardApp/src/screens/SettingsScreen.js:39-50 | a stored record supplies both fields; an absent key, a failed read or a value of another shape keeps both |
| Reminders.SettingsScreen.SaveSettings | VocabCardApp/src/screens/SettingsScreen.js:52-58 | the whole record is written under "settings", and a failed write changes nothing and is swallowed; every key keeps its shape of record |
| Reminders.SettingsScreen.RegisterBackgroundFetch | VocabCardApp/src/screens/SettingsScreen.js:90-100 | the single task is requested with minimumInterval = interval * 60 seconds, stopOnTerminate false and startOnBoot true; a failure leaves the registrations as they were and is swallowed |
| Reminders.SettingsScreen.UnregisterBackgroundFetch | VocabCardApp/src/screens/SettingsScreen.js:102-108 | the single task is requested to be removed; a failure leaves the registrations as they were and is swallowed |
| Reminders.SettingsScreen.ToggleNotifications | VocabCardApp/src/screens/SettingsScreen.js:60-73 | "on" requests registration and "off" requests unregistration; the switch then takes the value whatever the outcome; the record is saved with the interval unchanged; no task name other than the single one appears; a successful request leaves the state mirroring the registration; every key keeps its shape of record |
| Reminders.SettingsScreen.UpdateInterval | VocabCardApp/src/screens/SettingsScreen.js:75-88 | the new interval is recorded and saved; when enabled the screen unregisters and then registers, in that order, with the pre-update interval; when disabled it makes no request; every key keeps its shape of record |
| Reminders.EnableWhenRegistrationFails | VocabCardApp/src/screens/SettingsScreen.js:60-73 | when registration fails, reminders are recorded and saved as enabled while no task is registered |
| Reminders.EnableThenChangeInterval | VocabCardApp/src/screens/SettingsScreen.js:75-100 | after enabling at 30 minutes and choosing 60, the saved interval is 60 but the registration still has a minimum interval of 1800 seconds |
| Theme.Colors | VocabCardApp/src/context/ThemeContext.js:43-57 | the palette depends on the flag alone; primary and secondary are the same in both; the text colour differs from the background and card colours, and the border colour from the background; white text exactly in dark mode |
| Theme.ThemeProvider.constructor | VocabCardApp/src/context/ThemeContext.js:7 | the flag starts false |
| Theme.ThemeProvider.LoadTheme | VocabCardApp/src/context/ThemeContext.js:13-23 | a stored record supplies the flag; an absent key, a failed read or a value of another shape keeps it |
| Theme.ThemeProvider.ToggleDarkMode | VocabCardApp/src/context/ThemeContext.js:25-38 | the flag is negated in memory whatever happens; on success exactly {darkMode: new flag} is stored under "appSettings", and no other key changes; a failed write leaves memory and storage apart when they agreed before; every key keeps its shape of record |
| Theme.ToggleTwice | VocabCardApp/src/context/ThemeContext.js:27-28 | two toggles restore the flag |

## Left out

- Rendering, styles, animations (including the scroll interpolation of the list), gradients, navigation, alerts' buttons and console logging: presentation only. An alert is modelled only as the outcome a handler returns.
- HomeScreen.js and AppNavigator.js: splash timing and navigator configuration, no logic.
- JSON encoding and decoding: each stored value is a structured datatype. A stored value of a different shape under a key is treated like a read or parse failure. This means `loadCards`, `loadSettings` and `loadTheme` leave state unchanged where the app would assign `undefined` fields or a non-list.
- The notification handler setup and the background task body (SettingsScreen.js:15-27): OS callbacks that only log and return `NewData`.
- Order between the settings save and the registration requests: the store and the task service are separate objects, so the contracts give each one's final state, and the order of the two unregister and register requests among themselves, but not when the save happened relative to them.
- Asynchronous interleaving: each handler is one atomic sequential step. This leaves out the lost-update race between overlapping adds and deletes, and the timing of the unawaited settings save.
- Text.Trim: removes only the listed white-space characters (ASCII white space, no-break space, line and paragraph separators, byte-order mark), not every Unicode space separator.
- Decimal.ToDecimal: renders every `nat` in plain digits; JavaScript switches to exponent notation from 10^21, far beyond any clock value.
- `Date.now()`: passed in as a `nat`; real time is not modelled.
- Reminders.SettingsScreen.UpdateInterval: requires the new interval to be one of the offered 15, 30, 60 or 120 minutes, the only values the screen passes.
