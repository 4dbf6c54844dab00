# drift — a verified model of the screensaver's logic

drift is a browser screensaver built with Next.js. It shows a floating clock, a
Pomodoro timer, a small to-do list and a Spotify playback panel. Beneath the view
code sits a small layer of stateful logic. This project models that layer in
Dafny and proves properties of it:

- **Pomodoro timer** (`pomodoro.dfy`, module `Pomodoro`). The countdown has a
  25-minute work phase and a 5-minute break, plus a cycle counter and a pause
  flag. Its callbacks are the once-a-second tick, reset and pause toggle. The
  hook's four state cells are a class whose methods are proved against pure
  transition functions. Invariants over every run of events are proved about
  those functions.
- **Display arithmetic** (`time_format.dfy`, module `TimeFormat`): the `MM:SS`
  countdown and the `m:ss` track position, both read back by a reference
  decoder. It also covers title truncation, the artist line, the cycle and
  phase labels, the completion overlay and the choice of playback panel.
- **JavaScript string primitives** (`text.dfy`, module `Text`): the
  `toString()`, `padStart`, `trim`, `includes` and `join` that the above rely
  on.
- **Settings dialog** (`settings.dfy`, module `Settings`). This is JavaScript's
  `parseInt` (whitespace, sign, `0x` prefix, leading digit run) and the range
  check on custom minutes. It also covers the preset-or-custom classification
  and the dialog's handlers as a class over the dialog's cells and the parent
  cells it writes.
- **To-do list** (`todos.dfy`, module `Todos`). Add, toggle and delete are pure
  list functions. The pending and completed views are order-preserving filters,
  and the display shows at most three completed tasks. The component's cells
  are a class whose handlers replace the list.
- **Spotify server actions** (`spotify_actions.dfy`, module `SpotifyActions`).
  This is an OAuth 2.0 client: the authorization-code exchange (section 4.1.3 of
  RFC 6749) and the refresh (section 6 of RFC 6749), with HTTP Basic client
  authentication (section 2.3.1 of RFC 6749). Player calls carry a Bearer token
  (section 2.1 of RFC 6750). The cookie jar is a map. The remote service is a
  script of replies, and the requests sent are logged. The recursive 401
  refresh-and-retry is a recursive method proved equal to a recursive function.
- **Spotify session** (`spotify_session.dfy`, module `SpotifySession`): the
  `useSpotify` hook's cells and handlers, with their guards and the disconnect
  on the literal "Authentication failed".
- **Web playback device** (`web_player.dfy`, module `WebPlayer`): the
  `useSpotifyWebPlayer` hook. It loads the SDK once and builds at most one
  player, and the player's events are reduced into device state.
- **Idle and fullscreen controller** (`controls.dfy`, module
  `ScreensaverControls`). This is `useScreensaverControls` with an explicit
  millisecond clock: the last mouse move wins, and the fullscreen flag follows
  the browser.

Behaviour of the code worth knowing:

- The timer hook counts down from fixed durations of 1500 s of focus and 300 s
  of break (lib/constants.ts:2-3) and takes no duration setting. A tick at one
  second left flips the phase at once, adds one to the cycle counter and
  restarts the countdown at the new phase's duration.
- A 401 from the player API triggers a refresh. Each time the refresh
  succeeds, the whole call is re-run, with no bound on the number of rounds.
  `SpotifyActions.ControlRetriesWithoutBound` proves this.
- A failed refresh makes the server action return "Authentication failed"
  and leaves the cookies as they were. The hook clears `isConnected` only when
  it sees that literal error.
- `startPlaylist` passes the remote's error string through verbatim, and a
  thrown call becomes "Network error".
- Todo ids are the decimal rendering of a clock reading, so two items can
  share an id. Nothing in the model relies on ids being unique.

## Model

| member | source | states |
|---|---|---|
| Text.DecimalString | components/screensaver/PomodoroTimer.tsx:29-33 | `n.toString()` is a non-empty digit string whose first digit is '0' only for 0, one digit exactly when n < 10 |
| Text.DecimalRoundTrip | components/screensaver/PomodoroTimer.tsx:29-33 | reading the rendered numeral back gives the number |
| Text.DecimalStringUnique | components/screensaver/PomodoroTimer.tsx:29-33 | every numeral without a leading zero is the rendering of the number it denotes (the rendering is the unique shortest one) |
| Text.PadStart | components/screensaver/PomodoroTimer.tsx:31-33 | `padStart(width, fill)` has length max(\|s\|, width), ends with s, and everything before s is the fill character |
| Text.PadZerosKeepsValue | components/screensaver/PomodoroTimer.tsx:31-33 | padding a numeral with '0' keeps it a numeral of the same value |
| Text.TrimStart | components/screensaver/TodoList.tsx:24 | the result is a suffix of s, what was dropped is all whitespace, and the result does not start with whitespace |
| Text.TrimStartSkips | components/screensaver/TodoList.tsx:24 | leading whitespace does not affect the left trim |
| Text.TrimEnd | components/screensaver/TodoList.tsx:24 | the result is a prefix of s, what was dropped is all whitespace, and the result does not end with whitespace |
| Text.TrimSpec | components/screensaver/TodoList.tsx:24-27 | `trim()` is an infix of s with only whitespace around it, neither end of a non-empty result is whitespace, and the result is empty iff s is all whitespace |
| Text.TrimEmptyIffWhitespace | components/screensaver/TodoList.tsx:24 | `newTodo.trim()` is falsy exactly when the input is whitespace only |
| Text.TrimIdempotent | components/screensaver/TodoList.tsx:27 | trimming a trimmed text changes nothing |
| Text.Trim | components/screensaver/TodoList.tsx:24-27 | `s.trim()`: the left trim followed by the right trim; `Text.TrimSpec`, `Text.TrimEmptyIffWhitespace` and `Text.TrimIdempotent` state what it keeps |
| Text.Includes | hooks/useSpotifyWebPlayer.ts:91 | `includes` is true iff the substring occurs at some index |
| Text.IncludesInfix | hooks/useSpotifyWebPlayer.ts:91 | a text built as before + sub + after includes sub |
| Text.JoinLength | components/screensaver/SpotifyPlayer.tsx:133 | `join(sep)` of n parts is as long as the parts plus n - 1 separators |
| Text.JoinSnoc | components/screensaver/SpotifyPlayer.tsx:133 | joining one more name appends the separator and that name, so names keep their order |
| Text.Join | components/screensaver/SpotifyPlayer.tsx:133 | `parts.join(sep)`: the parts in order with one separator between neighbours, "" for no parts; `Text.JoinLength` and `Text.JoinSnoc` state its length and order |
| TimeFormat.PaddedNumeral | components/screensaver/PomodoroTimer.tsx:29-33 | a zero-padded rendering of n is all digits and still denotes n |
| TimeFormat.TwoDigitsBelowHundred | components/screensaver/PomodoroTimer.tsx:30-33 | a number below 100 renders in at most two digits, so padding to two gives exactly two |
| TimeFormat.FormatPomodoroTime | components/screensaver/PomodoroTimer.tsx:28-34 | `formatPomodoroTime(seconds)`: minutes and seconds, each padded to two digits, joined by ':' (app/page.tsx:93-99 has the same helper); `TimeFormat.PomodoroTimeFields` and `TimeFormat.PomodoroTimeRoundTrip` state its fields and that it can be read back |
| TimeFormat.PomodoroTimeFields | components/screensaver/PomodoroTimer.tsx:28-34 | the countdown text is minutes ':' seconds; seconds is exactly two digits denoting s % 60 < 60; minutes has at least two digits, denotes s / 60 and ends with its full rendering (never cut short, also for s >= 6000); the page's copy at app/page.tsx:93-99 is the same function |
| TimeFormat.ParseClockFields | components/screensaver/PomodoroTimer.tsx:31-33 | the reference decoder reads a `M:S` text of two numerals as M * 60 + S |
| TimeFormat.PomodoroTimeRoundTrip | components/screensaver/PomodoroTimer.tsx:28-34 | decoding the countdown text gives back s for every s >= 0 |
| TimeFormat.ClockRoundTrip | components/screensaver/PomodoroTimer.tsx:31-33 | a text made of two numerals whose values combine to v decodes to v |
| TimeFormat.FormatTrackTime | components/screensaver/SpotifyPlayer.tsx:96-101 | `formatTime(ms)`: unpadded minutes of the whole seconds, ':', seconds padded to two digits; `TimeFormat.TrackTimeFields` and `TimeFormat.TrackTimeRoundTrip` state its fields and that it can be read back |
| TimeFormat.TrackTimeFields | components/screensaver/SpotifyPlayer.tsx:96-101 | the track time is the unpadded minutes of floor(ms / 1000), ':', and exactly two digits holding the seconds within the minute (0..59) |
| TimeFormat.TrackTimeRoundTrip | components/screensaver/SpotifyPlayer.tsx:96-101 | decoding the track time gives floor(ms / 1000), so minutes * 60 + secs is the whole seconds |
| TimeFormat.Truncate | components/screensaver/SpotifyPlayer.tsx:103-107 | `truncateText(text, maxLength)`: the text when it fits, else its first maxLength characters and "..."; `TimeFormat.TruncateSpec` states the result |
| TimeFormat.TruncateSpec | components/screensaver/SpotifyPlayer.tsx:103-107 | text within the limit is unchanged; longer text is its first maxLength characters then "...", of length maxLength + 3; the result always starts with as much of the text as fits |
| TimeFormat.TrackTitle | components/screensaver/SpotifyPlayer.tsx:128-130 | the track name cut to 25 characters by `truncateText` |
| TimeFormat.ArtistLine | components/screensaver/SpotifyPlayer.tsx:131-135 | the artist names joined with ", " in their order and cut to 30 characters; `TimeFormat.ArtistLineShort` states when it is the joined names themselves |
| TimeFormat.ArtistLineShort | components/screensaver/SpotifyPlayer.tsx:129-135 | artist names whose joined length fits in 30 are shown as `join(', ')` untruncated, a single name as itself |
| TimeFormat.DisplayCycle | components/screensaver/PomodoroTimer.tsx:91-92 | the shown cycle n = floor(cycle / 2) + 1 is the n with 2(n - 1) <= cycle < 2n, so cycles 0..4 show 1, 1, 2, 2, 3; app/page.tsx:234 shows the same |
| TimeFormat.PhaseLabel | components/screensaver/PomodoroTimer.tsx:75 | "Break" on a break, "Focus" otherwise |
| TimeFormat.CompletionHeadline | components/screensaver/PomodoroTimer.tsx:75 | "✨ ", the phase label, " Complete! ✨" |
| TimeFormat.CompletionHint | components/screensaver/PomodoroTimer.tsx:77-78 | "Great work! Time to " then "focus" after a break, "take a break" after focus |
| TimeFormat.CompletionLabels | components/screensaver/PomodoroTimer.tsx:75-78 | the headline is the current phase's label ("Break"/"Focus") between a leading "✨ " and a trailing " Complete! ✨", and the hint ends with the other phase ("focus"/"break") |
| TimeFormat.CurrentDuration | components/screensaver/PomodoroTimer.tsx:36-38 | the duration the progress bar measures the countdown against: the break duration during a break, the work duration during focus |
| TimeFormat.SelectView | components/screensaver/SpotifyPlayer.tsx:26-58 | the panel is nothing iff loading, the connect prompt iff not loading and disconnected, "No music playing" iff connected without an item, else the player |
| Pomodoro.AfterTick | hooks/usePomodoroTimer.ts:24-38 | paused: no change; more than 1 s left: one second less, phase and cycle kept; at 1 s or less: phase flips, cycle + 1, countdown 300 for a break else 1500; the pause flag is never touched |
| Pomodoro.AfterReset | hooks/usePomodoroTimer.ts:12-17 | whatever the state, reset gives 1500 s, work phase, cycle 0, running |
| Pomodoro.AfterTogglePause | hooks/usePomodoroTimer.ts:19-21 | the toggle flips the pause flag and keeps the countdown, phase and cycle |
| Pomodoro.Step | hooks/usePomodoroTimer.ts:12-38 | one event of the hook: an interval tick, the reset button or the pause button, as the matching transition |
| Pomodoro.Run | hooks/usePomodoroTimer.ts:12-41 | the state after a sequence of those events in order; `Pomodoro.RunValid`, `Pomodoro.RunAppend` and `Pomodoro.ReachableValid` state what it keeps |
| Pomodoro.InitialValid | hooks/usePomodoroTimer.ts:5-10 | the initial state satisfies the timer invariant |
| Pomodoro.TickValid | hooks/usePomodoroTimer.ts:27-35 | a tick preserves the invariant (countdown in [1, 1500], at most 300 in a break, cycle odd iff break) |
| Pomodoro.ResetIdempotent | hooks/usePomodoroTimer.ts:12-17 | reset is idempotent and ends in the initial state |
| Pomodoro.TogglePauseTwice | hooks/usePomodoroTimer.ts:19-21 | toggling the pause twice restores the state exactly |
| Pomodoro.RunValid | hooks/usePomodoroTimer.ts:12-41 | under any sequence of ticks, resets and pause toggles the invariant holds throughout |
| Pomodoro.ReachableValid | hooks/usePomodoroTimer.ts:5-41 | in every state reachable from the start the countdown is in [1, 1500] (never 0) and the cycle is odd exactly during a break |
| Pomodoro.PausedTicksFreeze | hooks/usePomodoroTimer.ts:25 | while paused, any number of ticks leaves the state unchanged |
| Pomodoro.CountDown | hooks/usePomodoroTimer.ts:35 | k running ticks with more than k seconds left lower the countdown by exactly k and change nothing else |
| Pomodoro.FirstBreak | hooks/usePomodoroTimer.ts:27-33 | from the start, 1500 ticks end in the first break: 300 s left, cycle 1, running |
| Pomodoro.RunAppend | hooks/usePomodoroTimer.ts:23-41 | running two event sequences one after the other is running their concatenation |
| Pomodoro.DisplayCycleOnTick | hooks/usePomodoroTimer.ts:27-33 | the shown cycle number goes up by one exactly on the tick that ends a break, and stays the same on every other tick |
| Pomodoro.PomodoroTimer.constructor | hooks/usePomodoroTimer.ts:5-10 | the cells start at 1500 s, work phase, cycle 0, running |
| Pomodoro.PomodoroTimer.Tick | hooks/usePomodoroTimer.ts:24-38 | the interval callback moves the cells to the tick's transition (the page's copy at app/page.tsx:45-57 is the same body with literal 5 * 60 and 25 * 60) |
| Pomodoro.PomodoroTimer.ResetPomodoro | hooks/usePomodoroTimer.ts:12-17 | the cells become the initial state (app/page.tsx:101-106 is the same) |
| Pomodoro.PomodoroTimer.TogglePause | hooks/usePomodoroTimer.ts:19-21 | only the pause cell flips (the page's pause button at app/page.tsx:257 is the same) |
| Settings.ParseIntDecimalPrefix | components/screensaver/SettingsDialog.tsx:95 | `parseInt` of a numeral followed by non-digits reads the numeral, so "30x" gives 30 |
| Settings.ParseIntNumeral | components/screensaver/SettingsDialog.tsx:95 | a leading digit run (leading zeros allowed, not a `0x` prefix) followed by a non-digit parses to its value |
| Settings.ParseIntUnsigned | components/screensaver/SettingsDialog.tsx:95 | a text starting with a digit and no hex prefix parses as its leading decimal number |
| Settings.ParseIntSkipsWhitespace | components/screensaver/SettingsDialog.tsx:95 | leading whitespace does not change what `parseInt` returns |
| Settings.ParseInt | components/screensaver/SettingsDialog.tsx:95 | `parseInt(value)`: skip leading JavaScript white space, an optional sign, base 16 after "0x", then the longest digit run; NaN when there is no digit; the `Settings.ParseInt…` lemmas state its cases |
| Settings.ParseIntNoDigits | components/screensaver/SettingsDialog.tsx:95-96 | a text with no decimal digit at all, such as "" or "abc", is NaN |
| Settings.AcceptedMinutes | components/screensaver/SettingsDialog.tsx:94-106 | a value is accepted iff `parseInt` gives a number n with lo <= n <= hi, and then it is n |
| Settings.TypedMinutes | components/screensaver/SettingsDialog.tsx:94-106 | a typed number n (with any non-digit tail) is accepted as work minutes iff 1 <= n <= 120, and as break minutes iff 1 <= n <= 60 |
| Settings.AcceptedDurationRange | components/screensaver/SettingsDialog.tsx:96-104 | an accepted work duration is 60..7200 s, an accepted break duration 60..3600 s |
| Settings.CustomClassification | components/screensaver/SettingsDialog.tsx:65-68 | with the custom flag clear, m whole minutes count as custom iff m is not a preset; a duration that is not whole minutes always counts as custom |
| Settings.WholeMinutesPreset | components/screensaver/SettingsDialog.tsx:62-68 | a preset number of minutes stored as seconds is recognised as that preset and is at least 60 s |
| Settings.IsCustom | components/screensaver/SettingsDialog.tsx:65-68 | custom when the custom option was picked or the duration divided by 60 is not a preset; `Settings.CustomClassification` and `Settings.WholeMinutesPreset` state both cases |
| Settings.PresetOptionParses | components/screensaver/SettingsDialog.tsx:108-126 | each preset option of the two selects parses to its own number of minutes, which is one of that select's presets |
| Settings.SettingsDialog.constructor | components/screensaver/SettingsDialog.tsx:57-60 | the custom texts start empty and both custom flags clear; the parent's cells are as given |
| Settings.SettingsDialog.IsCustomWorkDuration | components/screensaver/SettingsDialog.tsx:65-66 | `isCustomWorkDuration` over the work cells and the presets 20, 25, 30, 45 |
| Settings.SettingsDialog.IsCustomBreakDuration | components/screensaver/SettingsDialog.tsx:67-68 | `isCustomBreakDuration` over the break cells and the presets 5, 10, 15 |
| Settings.SettingsDialog.ValidateAndSetWorkDuration | components/screensaver/SettingsDialog.tsx:94-99 | an accepted value n (1..120) sets the work duration to n * 60; a rejected one (NaN or out of range) leaves it unchanged |
| Settings.SettingsDialog.ValidateAndSetBreakDuration | components/screensaver/SettingsDialog.tsx:101-106 | an accepted value n (1..60) sets the break duration to n * 60; a rejected one leaves it unchanged |
| Settings.SettingsDialog.HandleWorkDurationChange | components/screensaver/SettingsDialog.tsx:108-116 | "custom" sets the flag and copies the minutes into the text, duration unchanged; a preset clears the flag and sets the duration to its minutes * 60, which is then not custom; nothing else changes |
| Settings.SettingsDialog.SelectCustomWork | components/screensaver/SettingsDialog.tsx:109-111 | the custom flag is set and the text shows the current minutes |
| Settings.SettingsDialog.SelectPresetWorkOption | components/screensaver/SettingsDialog.tsx:112-115 | a preset option clears the flag and sets the work duration to the option's minutes * 60 |
| Settings.SettingsDialog.SelectPresetWork | components/screensaver/SettingsDialog.tsx:113-114 | a preset number of minutes clears the flag and stores minutes * 60, which is not custom |
| Settings.SettingsDialog.HandleBreakDurationChange | components/screensaver/SettingsDialog.tsx:118-126 | as for work, over the break cells and the break presets |
| Settings.SettingsDialog.SelectCustomBreak | components/screensaver/SettingsDialog.tsx:119-121 | the break custom flag is set and the text shows the current minutes |
| Settings.SettingsDialog.SelectPresetBreakOption | components/screensaver/SettingsDialog.tsx:122-125 | a preset option clears the flag and sets the break duration to the option's minutes * 60 |
| Settings.SettingsDialog.SelectPresetBreak | components/screensaver/SettingsDialog.tsx:123-124 | a preset number of minutes clears the flag and stores minutes * 60, which is not custom |
| Settings.SettingsDialog.HandleCustomWorkDurationChange | components/screensaver/SettingsDialog.tsx:128-136 | the text field always takes the value; an empty value never validates, so the duration is unchanged; a non-empty value sets the duration iff accepted; nothing else changes |
| Settings.SettingsDialog.HandleCustomBreakDurationChange | components/screensaver/SettingsDialog.tsx:138-146 | as for work, over the break cells |
| Settings.SettingsDialog.HandleClockAnimationChange | components/screensaver/SettingsDialog.tsx:148-150 | clock bounce becomes true iff the value is "floating" |
| Settings.SettingsDialog.HandleTimeFormatChange | components/screensaver/SettingsDialog.tsx:152-154 | 24-hour time becomes true iff the value is "24hour" |
| Todos.FilterMembers | components/screensaver/TodoList.tsx:50 | an element is in the filtered list iff it is in the list and kept |
| Todos.FilterConcat | components/screensaver/TodoList.tsx:67-68 | filtering a concatenation is concatenating the filtered parts, so filters keep order |
| Todos.FilterSplits | components/screensaver/TodoList.tsx:67-68 | a filter and its complement together hold each element exactly as often as the list does |
| Todos.FilterAll | components/screensaver/TodoList.tsx:50 | a filter that keeps every element returns the list itself |
| Todos.Filter | components/screensaver/TodoList.tsx:50 | `filter(keep)`: the kept elements in their order, never more than the list; `Todos.FilterMembers`, `Todos.FilterConcat`, `Todos.FilterSplits` and `Todos.FilterAll` state this |
| Todos.Added | components/screensaver/TodoList.tsx:23-31 | blank input leaves the list as is; otherwise exactly one new open item is appended, holding the trimmed non-empty text, the clock reading as a decimal id and the creation time, and all earlier items are kept |
| Todos.AddedChanges | components/screensaver/TodoList.tsx:24 | adding changes the list iff the input is not whitespace only |
| Todos.Toggled | components/screensaver/TodoList.tsx:37-46 | the list keeps its length and order; each item keeps its id, text and creation time, and its completed flag flips iff its id matches |
| Todos.ToggledTwice | components/screensaver/TodoList.tsx:40-42 | toggling the same id twice restores the list |
| Todos.ToggledAbsent | components/screensaver/TodoList.tsx:40-42 | toggling an id no item has leaves the list unchanged |
| Todos.Deleted | components/screensaver/TodoList.tsx:48-53 | the result holds exactly the items whose id differs |
| Todos.DeletedConcat | components/screensaver/TodoList.tsx:50 | deleting distributes over concatenation, so the rest keep their relative order |
| Todos.DeletedAbsent | components/screensaver/TodoList.tsx:50 | deleting an id no item has leaves the list unchanged |
| Todos.Pending | components/screensaver/TodoList.tsx:67 | the pending view holds exactly the open items |
| Todos.Completed | components/screensaver/TodoList.tsx:68 | the completed view holds exactly the done items |
| Todos.PendingCompletedPartition | components/screensaver/TodoList.tsx:67-68 | pending and completed together are a permutation of the list, and their lengths sum to its length |
| Todos.PendingCompletedConcat | components/screensaver/TodoList.tsx:67-68 | both views are order-preserving: the view of a concatenation is the concatenation of the views |
| Todos.ShownCompleted | components/screensaver/TodoList.tsx:165 | the display shows the first min(3, done count) completed items |
| Todos.AddedIsPending | components/screensaver/TodoList.tsx:31 | a successful add appends the new item to the end of the pending view and leaves the completed view unchanged |
| Todos.TodoList.constructor | components/screensaver/TodoList.tsx:19-21 | the list is the stored one, the input is empty and adding mode is closed |
| Todos.TodoList.AddTodo | components/screensaver/TodoList.tsx:23-35 | the list becomes the added list; after a successful add the input is cleared and adding mode closed, after a blank one both are unchanged |
| Todos.TodoList.ToggleTodo | components/screensaver/TodoList.tsx:37-46 | the list becomes the toggled list |
| Todos.TodoList.DeleteTodo | components/screensaver/TodoList.tsx:48-53 | the list becomes the list without the id |
| Todos.TodoList.HandleKeyDown | components/screensaver/TodoList.tsx:55-65 | Enter adds; Enter on blank input changes nothing; Escape closes adding mode and clears the input without touching the list; any other key changes nothing |
| Todos.TodoList.StartAdding | components/screensaver/TodoList.tsx:115 | adding mode opens |
| Todos.TodoList.Cancel | components/screensaver/TodoList.tsx:101-104 | adding mode closes and the input is cleared |
| Todos.TodoList.SetNewTodo | components/screensaver/TodoList.tsx:86 | the input takes the typed value |
| SpotifyActions.ActionVerb | lib/spotify-actions.ts:160 | the verb is POST iff the action is next or previous, PUT iff play or pause |
| SpotifyActions.RedirectUri | lib/spotify-actions.ts:7-8 | a configured non-empty redirect URI is used, else the local default; it is never empty |
| SpotifyActions.Fetch | lib/spotify-actions.ts:12-25 | sending a request logs it, consumes one scripted reply and leaves the cookie jar alone |
| SpotifyActions.AccessToken | lib/spotify-actions.ts:100-103 | the access token is present iff its cookie exists and is non-empty, and then it is the cookie's value |
| SpotifyActions.IsConnected | lib/spotify-actions.ts:186-189 | connected iff a non-empty access-token cookie exists |
| SpotifyActions.ClearTokens | lib/spotify-actions.ts:105-110 | exactly the two token cookies are removed; every other cookie keeps its value |
| SpotifyActions.ClearDisconnects | lib/spotify-actions.ts:105-110 | after clearing, both tokens are absent and the connection check reports not connected |
| SpotifyActions.Exchange | lib/spotify-actions.ts:10-55 | one POST to the token endpoint with the code, Basic credentials and the redirect URI; success iff the reply carries an access token; the access token is then stored, the refresh token only when present; otherwise "Failed to exchange code" (or "Exchange failed" when the call throws) with the jar unchanged |
| SpotifyActions.Refresh | lib/spotify-actions.ts:57-98 | without a stored refresh token: "No refresh token", no request; otherwise one refresh POST; success iff the reply carries an access token, which then overwrites only the access-token cookie; on failure the jar is unchanged and the error is "Failed to refresh token" or "Refresh failed" |
| SpotifyActions.RefreshKeepsRefreshToken | lib/spotify-actions.ts:82-90 | a successful refresh keeps the stored refresh token and leaves the client connected |
| SpotifyActions.CurrentTrack | lib/spotify-actions.ts:112-147 | the call only appends to the request log and only consumes replies; its classification is stated by the two lemmas below |
| SpotifyActions.Control | lib/spotify-actions.ts:149-184 | the call only appends to the request log and only consumes replies; its classification is stated by the lemmas below |
| SpotifyActions.NoTokenNoRequest | lib/spotify-actions.ts:153-157 | without an access token both calls return "No access token" and send no request |
| SpotifyActions.ControlFirstRequest | lib/spotify-actions.ts:159-167 | with a token, the first request sent goes to /me/player/{action} with the action's verb and the Bearer token |
| SpotifyActions.ControlClassification | lib/spotify-actions.ts:169-183 | for a non-401 reply exactly one request is sent: 200 or 204 give success, any other status "Control action failed", a rejected fetch "Control failed" |
| SpotifyActions.ControlUnauthorized | lib/spotify-actions.ts:171-176 | on a 401 one refresh is attempted before anything else: on failure "Authentication failed" with no further call, on success the whole call is re-run |
| SpotifyActions.TrackClassification | lib/spotify-actions.ts:129-146 | for a non-401 reply: 200 gives the data (or "Fetch failed" when the body is not JSON), 204 gives no data, other statuses "Failed to fetch track", a rejected fetch "Fetch failed" |
| SpotifyActions.TrackUnauthorized | lib/spotify-actions.ts:134-139 | on a 401: refresh failure gives "Authentication failed", refresh success re-runs the fetch |
| SpotifyActions.RetryScript | lib/spotify-actions.ts:171-175 | the script of k rejected-then-refreshed rounds followed by acceptance has 2k + 1 replies and ends with a 204 |
| SpotifyActions.ControlRetriesWithoutBound | lib/spotify-actions.ts:171-175 | for every k, a service that answers 401 k times (each refresh succeeding) and then 204 gets 2k + 1 requests and the call succeeds: the retry has no bound |
| SpotifyActions.ControlAccepted | lib/spotify-actions.ts:169-170 | a first reply of 204 gives success after one request |
| SpotifyActions.RejectedRound | lib/spotify-actions.ts:171-174 | one 401 followed by a successful refresh costs two requests and leaves the client connected with the same refresh token, then re-runs the call |
| SpotifyActions.SpotifyServer.constructor | lib/spotify-actions.ts:5-8 | the server starts with the given jar and script, an empty request log and the configured or default redirect URI |
| SpotifyActions.SpotifyServer.SendRequest | lib/spotify-actions.ts:12-25 | the request is logged and the next reply consumed, as the transport function states |
| SpotifyActions.SpotifyServer.GetSpotifyAccessToken | lib/spotify-actions.ts:100-103 | returns the non-empty access-token cookie, else none |
| SpotifyActions.SpotifyServer.ClearSpotifyTokens | lib/spotify-actions.ts:105-110 | removes both token cookies and reports success |
| SpotifyActions.SpotifyServer.CheckSpotifyConnection | lib/spotify-actions.ts:186-189 | reports connected iff an access token is present |
| SpotifyActions.SpotifyServer.ExchangeSpotifyCode | lib/spotify-actions.ts:10-55 | outcome and new state are those of the exchange |
| SpotifyActions.SpotifyServer.RefreshSpotifyToken | lib/spotify-actions.ts:57-98 | outcome and new state are those of the refresh |
| SpotifyActions.SpotifyServer.FetchCurrentTrack | lib/spotify-actions.ts:112-147 | outcome and new state are those of the recursive track function |
| SpotifyActions.SpotifyServer.ControlPlayback | lib/spotify-actions.ts:149-184 | outcome and new state are those of the recursive control function |
| SpotifySession.ConnectedAfter | hooks/useSpotify.ts:181-183 | the session stays connected iff it was and the error is not literally "Authentication failed" |
| SpotifySession.StartResult | hooks/useSpotify.ts:141-161 | "Not connected" when disconnected; "Web player not ready" when not ready or without a device id; otherwise success, the remote's error verbatim, or "Network error" when the call throws |
| SpotifySession.ToggleAction | hooks/useSpotify.ts:177 | pause when playing, play otherwise |
| SpotifySession.LoginQuery | hooks/useSpotify.ts:163-172 | the authorization query is response_type=code, the client id (empty when unset), the scopes, the redirect URI and show_dialog=true, in that order |
| SpotifySession.SpotifySession.constructor | hooks/useSpotify.ts:46-55 | disconnected, loading, no playlists, no token, nothing fetched, no device, no current track |
| SpotifySession.SpotifySession.CheckConnection | hooks/useSpotify.ts:57-76 | loading ends; a rejected `checkSpotifyConnection` call means disconnected; no access cookie means disconnected; with one, connected and holding the client token, unless fetching it throws, which means disconnected |
| SpotifySession.SpotifySession.HandleCallback | hooks/useSpotify.ts:78-108 | only after loading, with a code and while disconnected, is the code stripped and exchanged once; a rejected exchange call leaves only the stripped code (disconnected, same token, no navigation, server untouched); a failed exchange leaves the session disconnected; a successful one connects it, stores the client token and navigates home, unless fetching the client token throws, which leaves it connected with the old token and without navigating |
| SpotifySession.SpotifySession.FetchPlaylists | hooks/useSpotify.ts:110-127 | a no-op when disconnected; on success the list is stored and marked fetched; "Authentication failed" disconnects; other errors and throws keep the list |
| SpotifySession.SpotifySession.AutoFetchPlaylists | hooks/useSpotify.ts:205-209 | fetches only when connected and not yet fetched, and otherwise changes nothing; after a fetch the loading flag is off; a list reply is stored and marks the lists fetched, an error reply leaves them unfetched and may disconnect, a thrown call leaves them unfetched |
| SpotifySession.SpotifySession.Logout | hooks/useSpotify.ts:129-139 | after the clear succeeds: disconnected, no playlists, no token, not fetched, both cookies gone; if the clear throws, nothing changes |
| SpotifySession.SpotifySession.StartPlaylist | hooks/useSpotify.ts:141-161 | returns the start result; the remote is called, with the device id, only when connected and ready with a device |
| SpotifySession.SpotifySession.TogglePlayPause | hooks/useSpotify.ts:174-187 | a no-op when disconnected or without a current track; otherwise the play/pause control runs and only "Authentication failed" disconnects, while a rejected call changes nothing; since the current track is never supplied, it is always a no-op |
| SpotifySession.SpotifySession.SkipTrack | hooks/useSpotify.ts:189-203 | a no-op when disconnected or when the call rejects; otherwise the next/previous control runs and only "Authentication failed" disconnects |
| SpotifySession.SpotifySession.Login | hooks/useSpotify.ts:163-172 | navigates to https://accounts.spotify.com/authorize with the login query |
| WebPlayer.Apply | hooks/useSpotifyWebPlayer.ts:67-99 | ready sets the device id, readiness, no error and no Premium flag; not_ready only clears readiness; error events set the error and keep id and readiness; only an account error can raise the Premium flag, exactly when its message contains "premium users only" |
| WebPlayer.Replay | hooks/useSpotifyWebPlayer.ts:67-99 | the device state after the player's events arrive in order; `WebPlayer.PremiumSticky` and `WebPlayer.DeviceIdFromLastReady` state what it keeps |
| WebPlayer.PremiumMessage | hooks/useSpotifyWebPlayer.ts:88-94 | an account error whose message contains "premium users only" anywhere raises the Premium flag |
| WebPlayer.PremiumSticky | hooks/useSpotifyWebPlayer.ts:67-99 | once raised, the Premium flag stays raised through any events without a ready |
| WebPlayer.DeviceIdFromLastReady | hooks/useSpotifyWebPlayer.ts:67-76 | after a run of events the device id is that of the last ready, or unchanged when there was none |
| WebPlayer.WebPlayerHook.constructor | hooks/useSpotifyWebPlayer.ts:33-38 | no player, SDK not loaded, no device, not ready, no error, no Premium flag |
| WebPlayer.WebPlayerHook.LoadSDK | hooks/useSpotifyWebPlayer.ts:40-54 | when loaded or the script is present, only the loaded flag is set and no script is added; otherwise exactly one script is added and the ready callback installed |
| WebPlayer.WebPlayerHook.SdkReady | hooks/useSpotifyWebPlayer.ts:51-53 | the installed callback marks the SDK loaded |
| WebPlayer.WebPlayerHook.InitializePlayer | hooks/useSpotifyWebPlayer.ts:56-103 | a no-op without the SDK, without a token or with a player; otherwise one player is built with the token and connected; at most one player is ever built |
| WebPlayer.WebPlayerHook.InitEffect | hooks/useSpotifyWebPlayer.ts:109-114 | the player is built, with the current token, and connected only once the SDK is loaded, a token is known and there is no player; otherwise nothing changes |
| WebPlayer.WebPlayerHook.HandleEvent | hooks/useSpotifyWebPlayer.ts:67-99 | with a player the device cells follow the event reducer; without one nothing listens |
| WebPlayer.WebPlayerHook.Cleanup | hooks/useSpotifyWebPlayer.ts:116-122 | a player that exists is disconnected |
| ScreensaverControls.AfterMouseMove | hooks/useScreensaverControls.ts:9-17 | a move shows the controls and replaces any pending timer with one due 3000 ms from now |
| ScreensaverControls.AfterAdvance | hooks/useScreensaverControls.ts:14-16 | when the clock reaches the timer's deadline the controls hide and the timer is gone; before that nothing but the clock changes |
| ScreensaverControls.AfterFullscreenChange | hooks/useScreensaverControls.ts:42-44 | the flag becomes whether a fullscreen element exists, whatever the toggle did |
| ScreensaverControls.ToggleRequest | hooks/useScreensaverControls.ts:19-39 | the request is enter iff not fullscreen, exit otherwise |
| ScreensaverControls.AfterToggle | hooks/useScreensaverControls.ts:19-39 | the flag is set to the requested state only when the call exists and resolves; a rejection is swallowed and nothing changes |
| ScreensaverControls.AfterCleanup | hooks/useScreensaverControls.ts:49-55 | the listeners go and the pending timer is cancelled |
| ScreensaverControls.Step | hooks/useScreensaverControls.ts:9-17 | one event: a mouse move, or the clock running on by some milliseconds |
| ScreensaverControls.Run | hooks/useScreensaverControls.ts:9-17 | the state after a sequence of moves and waits in order; `ScreensaverControls.LastMoveWins` and `ScreensaverControls.QuietHides` state it |
| ScreensaverControls.LastMoveWins | hooks/useScreensaverControls.ts:9-17 | after any run of moves and waits containing a move, the controls are shown iff less than 3000 ms passed since the last move, and the one pending timer is due 3000 ms after it |
| ScreensaverControls.QuietHides | hooks/useScreensaverControls.ts:14-16 | 3000 ms without a move always hide the controls |
| ScreensaverControls.Controls.constructor | hooks/useScreensaverControls.ts:5-7 | controls hidden, not fullscreen, no timer, listeners attached |
| ScreensaverControls.Controls.HandleMouseMove | hooks/useScreensaverControls.ts:9-17 | the cells follow the mouse-move transition |
| ScreensaverControls.Controls.AdvanceTo | hooks/useScreensaverControls.ts:14-16 | the cells follow the clock transition |
| ScreensaverControls.Controls.HandleFullscreenChange | hooks/useScreensaverControls.ts:42-44 | the cells follow the fullscreen-change transition |
| ScreensaverControls.Controls.ToggleFullscreen | hooks/useScreensaverControls.ts:19-39 | the cells follow the toggle transition, and the request made is enter or exit by the old flag, none when the call is missing |
| ScreensaverControls.Controls.Cleanup | hooks/useScreensaverControls.ts:49-55 | the cells follow the cleanup transition |

## Left out

- Rendering, CSS and animation, the floating particles, the corner indicators and the info dialog: these are presentational.
- The wall clock (`components/screensaver/Clock.tsx`, `formatTime` in `app/page.tsx`): it is locale formatting by the host's `toLocaleTimeString`, whose output is not specified.
- Progress-bar percentages: they are floating-point divisions. `TimeFormat.CurrentDuration` only selects the duration they divide by.
- The page's automatic fullscreen request (app/page.tsx:59-65): it sits in the page effect that re-runs on every phase flip and pause toggle (app/page.tsx:82), so it is scheduled again one second after each re-run; its timeout is never cleared and its result is ignored.
- The page's own mouse handler (app/page.tsx:67-71): the same show-and-rearm step as `ScreensaverControls.AfterMouseMove`, but the page effect's cleanup (app/page.tsx:76-81) runs on every phase flip and pause toggle, clears the pending hide timer and leaves the controls shown until the next move. `ScreensaverControls.LastMoveWins` and `ScreensaverControls.QuietHides` are stated for the hook only and do not hold for the page's handler across such a re-run.
- Timers and scheduling (`setInterval`, `setTimeout`, React re-renders, stale closures and the interleaving of awaited calls): each tick, timeout or awaited call is one method call, and the web player's 100 ms initialization delay is taken to fire at once.
- The settings dialog's four effects (`SettingsDialog.tsx:70-92`), which copy the minutes into the custom text and clear the custom flag when the duration becomes a preset: they run on React dependency changes, which are not modelled.
- The widget visibility switches of the settings dialog: they are plain setters of the parent's booleans.
- `parseInt` on text that is not plain ASCII: Unicode white space beyond the JavaScript set listed in `Text.IsJsWhitespace` is not distinguished.
- UTF-16 code units versus characters: a string is a sequence of characters here. `Settings.ParseInt`, `TimeFormat.Truncate`, `TimeFormat.TrackTitle` and `TimeFormat.ArtistLine` count characters, whereas `truncateText` and `parseInt` count UTF-16 code units, so JavaScript can cut a surrogate pair in half where the model keeps the whole character.
- Settings.SettingsDialog.constructor: it requires both durations to be whole minutes of at least 60 s. The defaults and every handler produce only such values. A parent that stored a fractional, zero or negative duration is not modelled.
- Persistence: the to-do list and preferences live in `useLocalStorage`, which is not part of this model. The list is a constructor argument.
- Clock readings: `Date.now()` for todo ids and timestamps is a parameter of the add handlers.
- Cookie attributes (`httpOnly`, `secure`, `sameSite`, `maxAge`) and expiry: the jar is a name-to-value map.
- Base64 encoding of the client credentials, form URL-encoding, JSON decoding beyond "token members, other data, or not JSON", and the `fetch` transport: the remote side is a script of replies.
- `getUserPlaylists`, `playPlaylist` and `getSpotifyAccessTokenForClient` are not part of this model: their results, or the fact that they threw, are parameters of the handlers that await them.
- A rejected call into a modelled server action (`checkSpotifyConnection`, `exchangeSpotifyCode`, `controlPlayback`, `clearSpotifyTokens`): each handler's `callThrows` input (`clearThrows` for logout) says the awaited call rejected, and the model takes such a call not to have reached the server, so the cookies and the request log stay as they were. `exchangeSpotifyCode` and `controlPlayback` catch their own failures (lib/spotify-actions.ts:51, 180), so for them only the round trip can reject; a `clearSpotifyTokens` that fails after deleting one of its two cookies is not modelled.
- `isPremiumRequired` as returned by `useSpotify` (hooks/useSpotify.ts:55): it is the constant false, whatever the web player reports, and no modelled operation reads it.
- The current track in `useSpotify`: the web-player hook does not return one, so it is always absent and `SpotifySession.SpotifySession.TogglePlayPause` never sends a command. No push or poll updates are invented.
- URL encoding of the authorization query: `SpotifySession.LoginQuery` states the parameter list, not the encoded URL.
- The SDK script's loading and the `Spotify.Player` object: the player is represented by flags (built, connected, disconnected) and its events are inputs.
- SpotifyActions.CurrentTrack: its own contract only states the frame facts (log grows, replies shrink); the classification is stated by `SpotifyActions.TrackClassification` and `SpotifyActions.TrackUnauthorized`.
- SpotifyActions.Control: its own contract only states the frame facts; the classification is stated by `SpotifyActions.ControlClassification`, `SpotifyActions.ControlUnauthorized` and `SpotifyActions.ControlRetriesWithoutBound`.
- Settings.SettingsDialog.HandleWorkDurationChange: it requires a value among the select's options ("20", "25", "30", "45", "custom"), the only values the select can send; any other string would yield NaN * 60 in the code.
- Settings.SettingsDialog.HandleBreakDurationChange: it requires a value among the select's options ("5", "10", "15", "custom"), for the same reason.
