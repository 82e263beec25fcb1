# Multi-Twitch chat overlay: relay and desktop shell, modelled in Dafny

The system relays Twitch chat to overlay pages. It has two parts:

- `index.js` is the relay server. It reads the list of channels from the
  `TWITCH_CHANNELS` environment variable. It turns each incoming chat line into
  a chat record and sends the record to every connected viewer whose WebSocket
  is open. It keeps a set of connected viewers and reports on them at
  `/health`.
- `electron-main.js` is the desktop shell. It holds the always-on-top flag and
  the channel list chosen on the setup page. It writes `TWITCH_CHANNELS`,
  loads the relay in its own process, and tries to load the setup page up to
  ten times. It manages the window slot through the `closed` and `activate`
  handlers.

The model has three modules:

- `JsCore` (`js_core.dfy`) holds the JavaScript runtime pieces the code relies
  on: `undefined`/`null` as `Option`, truthiness of an optional string, and
  `trim`, `split(',')`, `join(',')` and `replace('#', '')`. Each is defined on
  `seq<char>` and comes with its own properties, such as the split/join round
  trips.
- `Relay` (`relay.dfy`) models `index.js`. Channel parsing and the chat-record
  mapping are functions. The viewer set is a `Server` class whose methods
  update it. A viewer is a `Session` object, and broadcasting changes the
  received log of every open session in the set.
- `DesktopShell` (`desktop_shell.dfy`) models `electron-main.js`. The
  module-level variables are fields of a `MainProcess` class, and each IPC or
  app handler is a method. The retry loop is a method with a loop.

Two pieces of behaviour are modelled as the code has them, and the lemmas make
them explicit:

- The relay module is loaded only once: Node caches `require`. So the relay
  reads `TWITCH_CHANNELS` when the first window is created, which is before the
  setup page can send a list. The list accepted by `start-with-channels` is
  stored and written to the environment, but the running relay keeps the
  default channels (`DesktopShell.SetupSequence`).
- `activate` re-creates the window only when `closed` has set the slot to
  `null`. Before the first window exists the slot is `undefined`, and
  `activate` then does nothing.

Channel names are not cleaned up beyond `trim` (see "## Left out").
`Relay.ParseKeepsEverything` states that names, duplicates and empty pieces are
kept as written. `Relay.ParseConfigured` states that there is one channel per
comma-separated piece, so any number of channels is kept; `Relay.ParseHasNoCap`
is a six-channel example of it. A session leaves the set only on its `close`
event.

## Model

| member | source | states |
|---|---|---|
| JsCore.IsSpace | index.js:22 | the characters `trim` removes: the ECMAScript white-space and line-terminator characters |
| JsCore.Truthy | index.js:21 | an absent value and the empty string are falsy; every other string is truthy |
| JsCore.LeadingSpace | index.js:22 | counts the white space at the start: every counted character is white space and the next one is not |
| JsCore.TrailingSpace | index.js:22 | counts the white space at the end: every counted character is white space and the one before is not |
| JsCore.Trim | index.js:22 | `trim` leaves no white space at either end of its result |
| JsCore.TrimIsSlice | index.js:22 | `trim` keeps one contiguous middle part of the string and drops only white space on either side of it |
| JsCore.TrimEmpty | index.js:22 | `trim` returns "" exactly when the string is all white space |
| JsCore.TrimOfTrimmed | index.js:22 | `trim` is the identity on a string with no white space at either end |
| JsCore.TrimIdempotent | index.js:22 | trimming twice gives the same result as trimming once |
| JsCore.Split | index.js:22 | `split` always returns at least one piece |
| JsCore.SplitShape | index.js:22 | `split` returns one more piece than there are separators, and no piece contains the separator |
| JsCore.Join | electron-main.js:11 | `join` returns "" exactly for `[]` and `[""]` |
| JsCore.JoinCons | electron-main.js:160 | proof step for JoinSplit and SplitJoin, unfolding `join` once: `join` on two or more elements is the head, one separator, then the join of the rest |
| JsCore.SplitStep | index.js:22 | proof step for JoinSplit, unfolding `split` once: a leading separator starts a new empty piece; any other character goes in front of the first piece |
| JsCore.JoinSplit | index.js:22 | joining the pieces of a split with the same separator gives back the original string |
| JsCore.SplitNoSep | index.js:22 | a string without the separator splits into a single piece, itself |
| JsCore.SplitAfterPiece | index.js:22 | a separator-free head followed by the separator splits off as a piece of its own, followed by the pieces of the rest |
| JsCore.SplitJoin | electron-main.js:160 | joining a non-empty list whose elements contain no separator, then splitting, gives back the same list in the same order |
| JsCore.RemoveFirst | index.js:67 | `replace('#', '')` removes at most one character |
| JsCore.RemoveFirstAt | index.js:67 | only the first '#' is removed, wherever it is, and the text on both sides of it is kept |
| JsCore.RemoveFirstAbsent | index.js:67 | a string without '#' is returned unchanged |
| Relay.DefaultChannels | index.js:23 | the channels monitored when TWITCH_CHANNELS is unset or empty: 'brz_ren', 'vavo_tv' and 'fuzzyrjtv', in that order |
| Relay.TrimAll | index.js:22 | `map(ch => ch.trim())` keeps the count and order, and element i of the result is the trim of element i |
| Relay.TrimAllTrimmed | index.js:22 | mapping `trim` over names that are already trimmed changes nothing |
| Relay.ParseChannels | index.js:21-23 | the channel list is never empty, and no channel in it has white space at either end |
| Relay.ParseConfigured | index.js:21-22 | a non-empty TWITCH_CHANNELS gives one channel per comma-separated piece, in order: one more channel than there are commas, each the trim of its piece |
| Relay.ParseTrimmedPieces | index.js:21-22 | when no piece has white space at either end, the channel list is exactly the pieces |
| Relay.ParseUnset | index.js:21-23 | an unset or empty TWITCH_CHANNELS gives the default list ['brz_ren', 'vavo_tv', 'fuzzyrjtv'] |
| Relay.ParseKeepsEverything | index.js:21-22 | names are kept as written, a piece that trims to empty is kept as "", and duplicates are kept |
| Relay.SplitThree | index.js:22 | `name, ,name` splits into `name`, `" "` and `name` |
| Relay.TrimThree | index.js:22 | trimming those three pieces gives `name`, `""` and `name` |
| Relay.ParseHasNoCap | index.js:21-22 | an example of ParseConfigured: six comma-separated names give six channels, so there is no cap |
| Relay.Or | index.js:68 | `a \|\| b` returns one of its two operands, and its result is truthy exactly when either operand is |
| Relay.Sender | index.js:68 | the sender is the display name or the login name, and it is truthy exactly when either of them is |
| Relay.SenderChoice | index.js:68 | the sender is a truthy display name if there is one, otherwise the login name as it is |
| Relay.ChatRecord | index.js:62-71 | a line the relay sent itself gives no record; any other line gives a record with platform "Twitch", the text unchanged, the clock value and the chosen sender |
| Relay.ChatRecordChannel | index.js:67 | the record's channel is the channel name with its first '#' removed, the text on both sides kept |
| Relay.ChatRecordTwitchChannel | index.js:67 | the channel "#name" becomes "name" |
| Relay.ChatRecordPlainChannel | index.js:67 | a channel without '#' is kept as it is |
| Relay.Delivery | index.js:43-44 | a session receives exactly one copy of the payload when it is open, and nothing otherwise |
| Relay.Session.constructor | index.js:29 | a new session has the given ready state and has received nothing |
| Relay.Session.Send | index.js:44 | `send` appends the payload to what the session has received |
| Relay.Server.constructor | index.js:21-26 | loading the relay fixes the channel list from TWITCH_CHANNELS and starts with no viewer |
| Relay.Server.OnConnection | index.js:29-31 | a connecting viewer is added to the set |
| Relay.Server.OnClose | index.js:33-36 | a closing viewer is removed from the set |
| Relay.Server.BroadcastMessage | index.js:40-47 | the message is serialised once; every open session in the set receives that one payload and no other session receives anything; the set and the ready states are unchanged |
| Relay.Server.OnMessage | index.js:62-75 | a line the relay sent itself reaches nobody; any other line's record is broadcast to every open session |
| Relay.Server.Health | index.js:90-97 | `/health` reports "ok", the Twitch client's state, the channel list read at load and the number of viewers in the set |
| DesktopShell.DefaultEnv | electron-main.js:11 | the TWITCH_CHANNELS string used when no channel is configured: "brz_ren,vavo_tv,fuzzyrjtv" |
| DesktopShell.MaxRetries | electron-main.js:53 | the number of attempts at loading the setup page before the local copy is used: 10 |
| DesktopShell.StartupEnv | electron-main.js:11 | with no configured channel, TWITCH_CHANNELS is set to "brz_ren,vavo_tv,fuzzyrjtv" |
| DesktopShell.DefaultEnvMatchesRelay | electron-main.js:11 | the shell's default string, once parsed by the relay, is the relay's own default list |
| DesktopShell.DefaultChannelsJoin | electron-main.js:11 | the relay's default list joined with ',' is the shell's default string |
| DesktopShell.DefaultChannelsPlain | index.js:23 | no default channel contains ',' or has white space at either end |
| DesktopShell.JoinParseRoundTrip | electron-main.js:160 | a list joined by the shell and parsed by the relay comes back unchanged, when the list is not [""] and no name contains ',' or has white space at either end |
| DesktopShell.JoinParseTrimmed | electron-main.js:160 | the same round trip, with the trimming stated for the whole list |
| DesktopShell.StartupEnvReachesRelay | electron-main.js:11 | the relay reads the configured channels back from the shell's string, or the default list when none is configured or the list is [""] |
| DesktopShell.LoneEmptyChannel | electron-main.js:11 | the list [""] joins to "", which the relay treats as unset, so it monitors the default channels |
| DesktopShell.TryLoadSetup | electron-main.js:52-66 | at most ten requests; it stops at the first success; the local setup file is loaded exactly when all ten requests failed |
| DesktopShell.MainProcess.constructor | electron-main.js:22-24 | at start there is no window (`undefined`), the window is not on top, and no channel is configured |
| DesktopShell.MainProcess.StartIntegratedServer | electron-main.js:7-19 | TWITCH_CHANNELS is set from the configured list; the relay reads it only on the first load |
| DesktopShell.MainProcess.CreateWindow | electron-main.js:26-50 | a new window takes the slot and the server is started; the always-on-top flag is kept |
| DesktopShell.MainProcess.OnClosed | electron-main.js:84-86 | `closed` clears the slot to `null` |
| DesktopShell.MainProcess.Activate | electron-main.js:190-194 | a window is re-created only when the slot was cleared by `closed`. It then takes the slot and TWITCH_CHANNELS is written again, but a relay already loaded keeps the list it read first. Otherwise nothing changes |
| DesktopShell.MainProcess.ToggleAlwaysOnTop | electron-main.js:103-127 | with a window, the flag flips and its new value is returned; without one, false is returned and nothing changes |
| DesktopShell.MainProcess.ToggleTwiceRestores | electron-main.js:103-127 | two toggles with a window return the flipped value, then the original value, and restore the flag |
| DesktopShell.MainProcess.GetAlwaysOnTopStatus | electron-main.js:151-153 | returns the current flag |
| DesktopShell.MainProcess.StartWithChannels | electron-main.js:155-175 | for an argument that is absent or an array of strings: a non-empty list is stored, its ','-join becomes TWITCH_CHANNELS, and true is returned; otherwise false is returned and nothing changes |
| DesktopShell.MainProcess.GetChannels | electron-main.js:177-179 | returns the most recently accepted list |
| DesktopShell.SetupSequence | electron-main.js:182 | after ready and a submitted list, the list is stored and written to the environment, but the already-loaded relay keeps the default channels |

## Left out

- The HTTP routes that serve files (`/`, `/overlay`, `/setup`), the static middleware and `server.listen` are left out. They are I/O with no logic of their own.
- The PORT variable (`process.env.PORT || 3000`, and '3002' in the shell) is left out. It only picks a port.
- The Twitch client (tmi.js) is left out: connecting, joining channels, reconnecting and its ready state. Its state is a parameter of `Relay.Server.Health`, and an incoming line is the parameters of `Relay.Server.OnMessage`.
- The WebSocket server is left out. Ready states are set by the transport and are taken as given.
- `JSON.stringify` is a serialiser function passed in. `Date.now()` is a clock value passed in.
- Console logging and the SIGTERM shutdown handler are left out. They only log or end the process.
- The order in which a JavaScript `Set` visits its elements is not modelled. Each session's received log does not depend on it.
- `tags` is modelled with only the two fields the relay reads. A tag that is present but not a string is not modelled.
- The `try`/`catch` around `require` in `startIntegratedServer` is not modelled. The model loads the relay without failure, and the async ordering of the promise is collapsed.
- DesktopShell.TryLoadSetup: the one-second timers are collapsed into a loop. The outcome of each request is a parameter, and the window it loads into is assumed to still exist.
- DesktopShell.MainProcess.StartWithChannels: the argument is modelled as an absent value or an array of strings. The model does not cover a truthy non-array with a positive length, such as the string "a,b": the handler stores it, then `join` throws, so the update is left half done. Nor does it cover array elements that are not strings; `join` turns `null` into "".
- DesktopShell.MainProcess.StartWithChannels: the overlay load two seconds later (resize, then `loadURL` of the overlay) is left out. It is Electron window I/O.
- The window options, the `ready-to-show`/`minimize`/`restore` handlers, `minimize-window`, `close-window`, `restore-window`, `window-all-closed`, `before-quit`, the new-window guard and the menu are left out. They are Electron UI calls with no state the model tracks.
- `preload.js` is not part of this model. It only forwards IPC calls.
- Channel normalisation, de-duplication, a cap on the number of channels, join/leave diffing at run time and pruning sessions during a broadcast are not modelled. The code does none of them.
