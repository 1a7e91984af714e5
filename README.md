# Productivity dashboard widgets: a Dafny model

The dashboard page has three widgets, and each one contains a small,
deterministic state machine. This project models those machines and proves
properties about them:

- **Pomodoro timer** (`Pomodoro.dfy`, module `Pomodoro`). The state is a
  countdown in two modes: 25 minutes of work and 5 minutes of break. It also
  holds a running flag and a counter of completed work sessions. A tick
  arrives once a second, and the user can start/pause, reset, or pick a mode.
  The transitions are functions on the `TimerState` datatype. The class
  `Timer` holds the four state fields. Each of its methods is proved to make
  exactly the matching transition, and to keep the invariant
  `1 <= timeLeft <= Duration(mode)`.
- **Task list** (`Todos.dfy`, module `Todos`). The state is an ordered list of
  `Todo` entries plus the text in the input box. Adding, toggling and deleting
  are functions on `seq<Todo>`, each with lemmas about order, idempotence and
  "nothing else changes". The class `TodoStore` holds the two fields and
  replaces them through those functions.
- **Spotify remote control** (`Spotify.dfy`, module `Spotify`). Web API
  answers are modelled as input datatypes: a response with its status and
  decoded JSON body, or a `fetch` that failed. Three pieces are pure
  functions: classifying an answer, mapping the payload to a `Track`, and the
  local progress step. The class `Player` holds `track`, `isPlaying`,
  `progress`, `volume` and `message`. It also holds the list of requests
  sent so far, so the model states which command each handler sends.
- **JavaScript string behaviour** (`Text.dfy`, module `Text`). The widgets
  depend on `String(n)`, `padStart`, the truncating `%` operator and `trim`.
  Each is modelled, and each has a partner: a decimal parser that reads the
  digits back, or a characterisation of what `trim` removes.

The model follows the code in these details, which are easy to misread:

- A null `item` means "idle" only on status 200 (204 is idle on its status
  alone). On a 2xx status other than 200 and 204, the code reads
  `data.item.id` of a null item and throws.
- The play/pause flip happens after the command's answer, not before it.
  Also, if the command's `fetch` fails, the flip does not happen at all.
- Todo ids are not guaranteed unique. So toggling flips every entry with the
  id, and deleting removes every one.
- The volume command is never classified, so it never sets a message.

## Model

| member | source | states |
|---|---|---|
| Pomodoro.Duration | app/components/PomodoroTimer.tsx:16-17 | the full length of a mode: 1500 s for work and 300 s for break, as reset and the mode switch use it |
| Pomodoro.Initial | app/components/PomodoroTimer.tsx:10-13 | the widget starts in work mode with 1500 s left, stopped, with 0 sessions; this state satisfies the invariant |
| Pomodoro.AfterComplete | app/components/PomodoroTimer.tsx:43-53 | completion stops the timer and flips the mode; the countdown becomes the new mode's full length; sessions go up by exactly one after work and stay the same after break; the invariant holds afterwards |
| Pomodoro.AfterTick | app/components/PomodoroTimer.tsx:19-29 | a tick does nothing unless the timer is running with time left; from more than 1 s it decrements by exactly 1; from 1 s it completes; it preserves the invariant; sessions grow by at most one |
| Pomodoro.AfterToggle | app/components/PomodoroTimer.tsx:61-63 | toggling flips the running flag and changes nothing else |
| Pomodoro.AfterReset | app/components/PomodoroTimer.tsx:65-68 | reset stops the timer and restores the current mode's full length; mode and sessions are kept |
| Pomodoro.AfterSwitchMode | app/components/PomodoroTimer.tsx:70-74 | choosing mode m sets m, stops the timer and sets m's full length whatever the previous state; sessions are kept |
| Pomodoro.TicksCountDown | app/components/PomodoroTimer.tsx:20-28 | for fewer ticks than the seconds left, a running timer with k ticks has exactly k seconds less |
| Pomodoro.TicksComplete | app/components/PomodoroTimer.tsx:20-28 | a running timer with t seconds left completes on exactly the t-th tick |
| Pomodoro.StoppedTicksIdle | app/components/PomodoroTimer.tsx:19-34 | a stopped timer is unchanged by any number of ticks |
| Pomodoro.WorkPeriodCompletes | app/components/PomodoroTimer.tsx:19-53 | a fresh running work period after 1500 ticks (and any number more) is a stopped break with 300 s left and one more session |
| Pomodoro.RunPreservesInv | app/components/PomodoroTimer.tsx:16-74 | every sequence of ticks, toggles, resets and mode switches keeps 1 <= timeLeft <= full length of the mode, and never lowers the session count |
| Pomodoro.ReachableStatesValid | app/components/PomodoroTimer.tsx:10-74 | every state reachable from the initial one satisfies the invariant |
| Pomodoro.Minutes | app/components/PomodoroTimer.tsx:76 | the minutes shown are the floor of the countdown over 60: m*60 <= timeLeft < m*60 + 60 |
| Pomodoro.Seconds | app/components/PomodoroTimer.tsx:77 | for a non-negative countdown, the seconds are in 0..59 and minutes*60 + seconds is the countdown; for a negative one they are in -59..0, as JavaScript's `%` gives |
| Pomodoro.ClockFace | app/components/PomodoroTimer.tsx:136 | the clock face is always at least five characters long; its partner ClockFaceReadsBack fixes its shape and what it reads back as |
| Pomodoro.ClockFaceReadsBack | app/components/PomodoroTimer.tsx:136 | for a countdown below 100 minutes, the clock face is five characters "mm:ss"; the first field reads back as timeLeft / 60 and the second as timeLeft % 60 |
| Pomodoro.SessionDots | app/components/PomodoroTimer.tsx:163 | the number of session dots is the session count capped at 8 |
| Pomodoro.Timer.constructor | app/components/PomodoroTimer.tsx:10-13 | the fields start in the initial state and satisfy the invariant |
| Pomodoro.Timer.Complete | app/components/PomodoroTimer.tsx:43-53 | the fields become the completion transition of their old values, and the invariant holds |
| Pomodoro.Timer.Tick | app/components/PomodoroTimer.tsx:19-29 | the fields become the tick transition of their old values, and the invariant is kept |
| Pomodoro.Timer.Toggle | app/components/PomodoroTimer.tsx:61-63 | the fields become the toggle transition of their old values, and the invariant is kept |
| Pomodoro.Timer.Reset | app/components/PomodoroTimer.tsx:65-68 | the fields become the reset transition of their old values, and the invariant holds |
| Pomodoro.Timer.SwitchMode | app/components/PomodoroTimer.tsx:70-74 | the fields become the mode-switch transition of their old values, and the invariant holds |
| Todos.Seed | app/components/TodoList.tsx:15-19 | the list starts with three entries with distinct ids, exactly one of them completed |
| Todos.HasContent | app/components/TodoList.tsx:23 | the add guard holds exactly when the input is not whitespace only (its partner is Text.TrimEmptyIffBlank) |
| Todos.AfterAdd | app/components/TodoList.tsx:22-32 | whitespace-only input leaves the list unchanged; any other input appends exactly one entry at the end with the untrimmed text, the new id and completed false; earlier entries keep their order |
| Todos.ToggleEntry | app/components/TodoList.tsx:36 | one entry under the toggle keeps its id and text, and its completed flag flips exactly when its id is the given one |
| Todos.Toggled | app/components/TodoList.tsx:34-38 | same length, ids, texts and order; completed is flipped exactly on the entries with the given id |
| Todos.ToggleTwice | app/components/TodoList.tsx:34-38 | toggling an id twice gives back the original list |
| Todos.ToggleUnknownId | app/components/TodoList.tsx:34-38 | toggling an id that no entry has changes nothing |
| Todos.Deleted | app/components/TodoList.tsx:40-42 | an entry survives deletion exactly when it was in the list and its id differs from the given id |
| Todos.DeletedConcat | app/components/TodoList.tsx:40-42 | deletion distributes over concatenation, so the survivors keep their relative order |
| Todos.DeletedUnknownId | app/components/TodoList.tsx:40-42 | deleting an id that no entry has changes nothing |
| Todos.DeletedIdempotent | app/components/TodoList.tsx:40-42 | deleting the same id twice equals deleting it once |
| Todos.CompletedCount | app/components/TodoList.tsx:50-51 | the completed count is at most the total, and equals it exactly when every entry is completed |
| Todos.CompletedCountAppend | app/components/TodoList.tsx:50 | appending an entry raises the completed count by one exactly when that entry is completed |
| Todos.AddKeepsCompletedCount | app/components/TodoList.tsx:22-51 | adding a task never changes the completed count |
| Todos.ProgressPercent | app/components/TodoList.tsx:93 | the progress width times the number of entries is 100 times the number completed; it lies between 0 and 100; it is 0 for an empty list; it is 100 exactly when every entry is completed |
| Todos.TodoStore.constructor | app/components/TodoList.tsx:15-20 | the list starts as the three seeded entries and the input as empty |
| Todos.TodoStore.SetInput | app/components/TodoList.tsx:75 | typing replaces the input and leaves the list alone |
| Todos.TodoStore.AddTodo | app/components/TodoList.tsx:22-32 | the list becomes the add result; the input is cleared exactly when it had non-whitespace content |
| Todos.TodoStore.ToggleTodo | app/components/TodoList.tsx:34-38 | the list becomes the toggle result; the input is unchanged |
| Todos.TodoStore.DeleteTodo | app/components/TodoList.tsx:40-42 | the list becomes the delete result; the input is unchanged |
| Todos.TodoStore.HandleKeyPress | app/components/TodoList.tsx:44-48 | Enter behaves exactly like the add button; any other key changes nothing |
| Text.IsJsWhitespace | app/components/TodoList.tsx:23 | the characters trim removes: ECMAScript's WhiteSpace (tab, vertical tab, form feed, space, no-break space, byte-order mark, the Unicode space separators) and LineTerminator (line feed, carriage return, line and paragraph separators) |
| Text.TrimStart | app/components/TodoList.tsx:23 | the result is a suffix of the input; everything removed is whitespace; the result does not start with whitespace |
| Text.TrimEnd | app/components/TodoList.tsx:23 | the result is a prefix of the input; everything removed is whitespace; the result does not end with whitespace |
| Text.Trim | app/components/TodoList.tsx:23 | trim's result is no longer than the input and has no whitespace at either end |
| Text.TrimmedMiddle | app/components/TodoList.tsx:23 | cutting the leading whitespace and then the trailing whitespace leaves a slice of the input with only whitespace before and after it, and none at its own ends |
| Text.TrimEmptyIffBlank | app/components/TodoList.tsx:23 | the trimmed input is empty exactly when the input is whitespace only |
| Text.NatToString | app/components/SpotifyPlayer.tsx:145 | String(n) is a non-empty string of digits with no leading zero, and has one digit exactly when n < 10 |
| Text.ParseNatToString | app/components/SpotifyPlayer.tsx:145 | reading String(n) back as a decimal gives n |
| Text.IntToString | app/components/SpotifyPlayer.tsx:145 | String(i) is never empty, reads back to i, has a minus sign first exactly when i is negative, and its digits never start with a redundant zero |
| Text.NoSlashInNumber | app/components/SpotifyPlayer.tsx:136 | String(i) never contains a "/" |
| Text.IntToStringInjective | app/components/SpotifyPlayer.tsx:136 | different integers give different strings |
| Text.PadStart | app/components/PomodoroTimer.tsx:136 | padStart gives length max(length, width), keeps the string as its suffix, and fills the front with the fill character |
| Text.TwoDigits | app/components/SpotifyPlayer.tsx:145 | a number below 100 padded to two digits is two digits that read back to the number |
| Text.CanonicalDigits | app/components/SpotifyPlayer.tsx:145 | digits without a redundant leading zero are exactly String() of their value |
| Text.TwoDigitsUnique | app/components/SpotifyPlayer.tsx:145 | any two digits are the two-character padded form of their value |
| Text.JsRem | app/components/PomodoroTimer.tsx:77 | the remainder of division truncated toward zero; it takes the sign of the dividend and has magnitude below the divisor |
| Spotify.IsOk | app/components/SpotifyPlayer.tsx:47 | `res.ok`: the status lies in 200..299 |
| Spotify.JoinNames | app/components/SpotifyPlayer.tsx:58 | the joined artist text is empty for no artists and the name for one artist, and starts with the first name; with JoinNamesAppend this fixes the join for every list |
| Spotify.JoinNamesAppend | app/components/SpotifyPlayer.tsx:58 | joining two non-empty artist lists equals joining each, with one ", " between them |
| Spotify.WholeSeconds | app/components/SpotifyPlayer.tsx:61 | Math.floor(ms / 1000) is the unique s with s*1000 <= ms < s*1000 + 1000 |
| Spotify.ToTrack | app/components/SpotifyPlayer.tsx:55-62 | id, title and album are the item's id, name and album name; the duration is the floor of duration_ms/1000; the artists are joined by ", "; the cover is the first image, which must exist |
| Spotify.ClassifyPlayback | app/components/SpotifyPlayer.tsx:41-67 | idle exactly on 204 or on 200 with a null item; unavailable exactly on non-2xx; loaded exactly on 2xx other than 204 with an item that has an image, carrying the mapped track, is_playing and floor(progress_ms/1000); anything else throws |
| Spotify.ClassifyCommand | app/components/SpotifyPlayer.tsx:100-107 | no device exactly on 404; rejected exactly on other non-2xx statuses; accepted exactly on 2xx; a failed fetch throws |
| Spotify.MessageAfter | app/components/SpotifyPlayer.tsx:100-107 | a command that threw leaves the message; otherwise the message is cleared exactly on success; a failure shows the no-device text exactly for a missing device and the rejection text exactly for a refusal |
| Spotify.MessageAfterRepeat | app/components/SpotifyPlayer.tsx:100-107 | the same answer twice leaves the message as the first answer left it |
| Spotify.AfterFetch | app/components/SpotifyPlayer.tsx:41-67 | after the playback query's answer: a thrown answer changes nothing; idle or unavailable clears the track and sets its own text; a loaded track sets track, playing flag and progress and clears the text; only a loaded track touches the playing flag and progress |
| Spotify.AfterFetchRepeat | app/components/SpotifyPlayer.tsx:70-74 | a poll that gets the same answer again changes nothing more |
| Spotify.Verb | app/components/SpotifyPlayer.tsx:89-141 | the playback query is the only GET; next and previous are POSTs; play, pause and volume are PUTs; each handler's contract states the method of the request it sends |
| Spotify.Endpoint | app/components/SpotifyPlayer.tsx:110-141 | every endpoint is one non-empty path segment with no "/" |
| Spotify.Url | app/components/SpotifyPlayer.tsx:89-98 | every request URL starts with the player base URL and is followed by a single path segment |
| Spotify.UrlInjective | app/components/SpotifyPlayer.tsx:89-141 | different requests go to different URLs |
| Spotify.VolumeUrlReadsBack | app/components/SpotifyPlayer.tsx:136 | the volume request's query value reads back as the requested percentage |
| Spotify.ProgressStep | app/components/SpotifyPlayer.tsx:80-83 | a local step raises progress by at most one second; it stays put exactly at or past the duration; it never passes the duration from at or below it |
| Spotify.ProgressStepsClamp | app/components/SpotifyPlayer.tsx:78-84 | from at or below the duration, n local steps give min(p + n, duration) |
| Spotify.FormatTime | app/components/SpotifyPlayer.tsx:144-145 | the time text is at least four characters long; its partners FormatTimeReadsBack and FormatTimeUnique fix what it reads back as, and that no other text does |
| Spotify.ReadTime | app/components/SpotifyPlayer.tsx:144-145 | the reader of "m:ss" text: a result means a colon before exactly two characters, minutes with no redundant leading zero, and seconds below 100 |
| Spotify.FormatTimeReadsBack | app/components/SpotifyPlayer.tsx:144-145 | for s >= 0 the text reads back, as minutes, a colon and exactly two digits, to floor(s/60) and s % 60 |
| Spotify.FormatTimeUnique | app/components/SpotifyPlayer.tsx:144-145 | for s >= 0 any text that reads back as floor(s/60) and s % 60 is formatTime(s), so the round trip fixes the text |
| Spotify.Player.HasToken | app/components/SpotifyPlayer.tsx:32 | `!accessToken` fails exactly when a token is stored and it is not the empty string |
| Spotify.Player.constructor | app/components/SpotifyPlayer.tsx:20-29 | no track, not playing, progress 0, volume 70, no message, nothing sent |
| Spotify.Player.FetchCurrent | app/components/SpotifyPlayer.tsx:31-68 | without a token, nothing changes; otherwise the query is sent as a GET and track, isPlaying, progress and message become AfterFetch of their old values and the classified answer; volume and the pending refetches are never touched |
| Spotify.Player.RunRefetch | app/components/SpotifyPlayer.tsx:106 | a scheduled refetch is used up; then, as FetchCurrent does, without a token nothing else changes, and with one the query is sent and the display becomes AfterFetch of its old value and the answer |
| Spotify.Player.ProgressTick | app/components/SpotifyPlayer.tsx:76-87 | while a track is loaded and playing, progress takes one local step against that track's duration; nothing else changes |
| Spotify.Player.Api | app/components/SpotifyPlayer.tsx:89-108 | without a token, nothing changes; otherwise the command is sent; the message becomes the no-device or rejection text, or is cleared on success (which also schedules a refetch); track, isPlaying, progress and volume are untouched |
| Spotify.Player.PlayPause | app/components/SpotifyPlayer.tsx:110-122 | with no track, it sends play (a PUT) and keeps isPlaying; with a track, it sends pause when playing and play otherwise, both PUTs, then negates isPlaying unless the call threw; a refetch is scheduled exactly when a token is present and the answer is 2xx |
| Spotify.Player.Next | app/components/SpotifyPlayer.tsx:124-126 | sends next as a POST; the message becomes the command's message; a refetch is scheduled exactly when a token is present and the answer is 2xx; nothing else changes |
| Spotify.Player.Previous | app/components/SpotifyPlayer.tsx:128-130 | sends previous as a POST; the message becomes the command's message; a refetch is scheduled exactly when a token is present and the answer is 2xx; nothing else changes |
| Spotify.Player.SetVolume | app/components/SpotifyPlayer.tsx:132-142 | the volume becomes the slider value, even without a token; with a token, the volume request is sent as a PUT; nothing else changes |

## Left out

- Network I/O. `fetch` and `res.json()` are not modelled: their results are
  the inputs `PlaybackReply` and `CommandReply`. A body that is present but
  malformed (for example an item without `artists`) is not modelled; a body
  that is not JSON at all is.
- Timers. `setInterval`, `setTimeout` and their clearing are not modelled.
  The caller invokes each callback as one atomic method call: `Tick`,
  `ProgressTick`, and `FetchCurrent` for the 5-second poll. The 400 ms
  refetch is a counter, `pendingRefetches`, that `RunRefetch` consumes. The
  race between a poll answer and the local progress tick is therefore
  reduced to some order of whole method calls. Each async handler is also
  one atomic step from its request to its answer, so a poll that lands
  between a command being sent and its answer arriving (for example between
  `app/components/SpotifyPlayer.tsx:116` and line 117) is not modelled.
- React semantics: the update queue, effect cleanup and StrictMode's double
  call of updaters. In the source, completion calls `setTimeLeft` from
  inside a `setTimeLeft` updater whose own result is 0
  (`app/components/PomodoroTimer.tsx:23-25`). The model resolves that nested
  update in favour of the new mode's full length, as a single transition.
  The invariant's lower bound of 1 rests on that choice. If React applied
  the updater's 0 last instead, the clock would show 00:00 after a
  completion, and the invariant would have to be 0 <= timeLeft. The
  interval is only started while `timeLeft > 0`
  (`app/components/PomodoroTimer.tsx:19`), so in that reading a later
  toggle would not restart the countdown until a reset or a mode switch.
- Floating point: the timer's progress percentage, the SVG dash offsets and
  the Spotify progress bar are left out. `Todos.ProgressPercent` is stated
  over exact reals, so JavaScript rounding is not captured.
- The browser Notification raised on completion (it is external output).
- JSX rendering and styling, other than the text of the clock face, the
  session dots and `formatTime`.
- The OAuth routes (the authorization code grant of section 4.1 of RFC 6749).
  `app/api/auth/spotify/route.ts` builds the authorize URL from fixed scopes
  and environment values with `URLSearchParams` and redirects to it.
  `app/api/auth/spotify/callback/route.ts` hands the code to an external
  library and redirects with the tokens it returns. Neither changes state
  the widgets keep.
- Storage and redirect glue: `app/page.tsx`, `app/dashboard/page.tsx` and
  `app/callback/page.tsx` (local storage, URL query parsing, redirects). The
  access token is the `Player` constructor's argument.
- JavaScript numbers: `duration_ms`, `progress_ms`, `timeLeft` and the
  volume percentage are unbounded integers in the model. Fractions,
  precision above 2^53 and the exponent form that `String()` uses from
  1e21 upwards are not captured.
- Todo ids: `Date.now()` is a clock, so the new id is a parameter of
  `AddTodo`. Nothing makes ids unique.
- Spotify.Player.SetVolume: the volume request can fail, and that failure is
  not modelled, because the handler ignores the answer and the local volume
  is set before the request goes out.
- Spotify.FormatTimeReadsBack: only non-negative times are characterised.
  `FormatTime` models negative inputs too (JavaScript gives "-1:-5" for -5),
  but such inputs arise only from a negative `progress_ms` or `duration_ms`.
- Pomodoro.ClockFaceReadsBack: limited to countdowns below 100 minutes. That
  covers every reachable countdown (at most 25 minutes), and longer ones do
  not have the "mm:ss" shape.
