# chat-site: account store and chat message sync, in Dafny

This project models the two pieces of stateful logic in the chat-site web app:

- **The account table and friend-list store** of the Flask backend
  (`backend/app.py`). Login checks a username against the `users.json` table,
  change-username moves an entry to a new key, change-password overwrites one,
  and the friend-list endpoint returns a user's list after creating `[u]` for
  a user who has none. The JSON files become two maps. Each endpoint is a pure
  function from the stored maps and the request inputs to a reply and the new
  maps (module `Backend`). Class `Backend.Server` makes the same updates in
  place. The three changing methods work statement by statement as the
  handlers do. All four are proved to agree with those functions. `ApiLogin`
  follows the corrected `Backend.Login` (see "## Findings").
- **The chat page's message-sync state machine**, class `ChatApp` of
  `frontend/static/js/friends.js` (module `ChatSync`). The `#chat-messages`
  container is a sequence of bubbles. `lastMessageCount` is the high-water mark,
  and `pollingInterval` holds an optional timer id. Every server reply is an
  input: ok with a history, not ok, or thrown. So are the timer ids that
  `setInterval` returns and the `new Date()` clock reading.

Both sides trim input. Python's `str.strip()` and JavaScript's `trim()` are
modelled with their own whitespace sets (module `Text`). `Text.TrimUnique`
proves the trimmed result is the one infix of the input whose cut-off ends are
whitespace and whose own ends are not.

The code never appends only the new tail. On every detected change,
`checkForNewMessages` clears the container and renders the whole history
again. It draws no time dividers, and it does not fold an optimistic send into
the count.
`ChatProperties.AppendOnlyWhenHistoryGrows` shows the view stays append-only
when the history grows at its end and no optimistic bubble is shown.
`ChatProperties.OptimisticBubbleBreaksPrefix` shows the poll replacing an
optimistic bubble's instant (the client clock) with the server's timestamp,
even when the server only appends. A bubble keeps the instant in milliseconds,
and the page shows only its HH:MM label, so the change is visible only when
the two instants fall in different minutes. The lemma's instants, 0 and 60000,
do.
`ChatProperties.EditOfSameLengthGoesUnnoticed` shows that a history no longer
than the count is ignored, whatever its contents.

Modules: `Wrappers` (Option), `Text`, `Backend`, `BackendProperties`,
`ChatSync`, `ChatProperties`.

## Model

| member | source | states |
|---|---|---|
| `Text.LeadingCount` | backend/app.py:36 | the count is the length of the longest whitespace prefix: all characters before it are whitespace, the one at it is not |
| `Text.TrailingCount` | backend/app.py:36 | the count is the length of the longest whitespace suffix |
| `Text.Trim` | frontend/static/js/friends.js:53 | the trimmed string is empty iff the input is all whitespace; otherwise its first and last characters are not whitespace (`PyStrip` and `JsTrim` apply it with the Python and ECMAScript whitespace sets) |
| `Text.TrimUnique` | backend/app.py:36 | the trimmed string is the unique infix with whitespace removed on both sides and non-whitespace ends |
| `Text.TrimIdempotent` | frontend/static/js/friends.js:53 | trimming a trimmed string changes nothing |
| `Text.TrimOfTrimmed` | backend/app.py:55 | a string without whitespace at its ends is its own trim |
| `Backend.StrippedField` | backend/app.py:55 | through `BodyField`, an absent key reads as `''`; only a present non-string value makes `.strip()` raise; a stripped value has no whitespace at its ends and strips to itself |
| `Backend.LoginAsWritten` | backend/app.py:34-40 | login as written, with `Get` for `users.get(u)`: a non-string username crashes (500); accepted iff the stripped name is registered and the password is its stored string, or the name is unregistered and the password is null; an accepted reply echoes the stripped username and the unstripped password |
| `Backend.Login` | backend/app.py:34-40 | login is accepted iff the stripped username is in the table and the unstripped password equals its stored password; the echoed credentials are a real entry; otherwise 401, or 500 for a non-string username |
| `Backend.ChangeUsername` | backend/app.py:52-60 | succeeds iff the `X-User` name is present and the stripped new name absent; then the new key holds the old key's password, the old key is gone, every other entry is unchanged and the size is kept; otherwise the table is unchanged (401, or 500 for a non-string name) |
| `Backend.ChangePassword` | backend/app.py:63-71 | succeeds iff the `X-User` name is present; then that entry becomes the stripped new password, the key set is the same and all other entries are unchanged; otherwise the table is unchanged |
| `Backend.Friends` | backend/app.py:43-49 | an absent or empty `u` gives `[]` with 401 and no store change; otherwise the returned list is the stored one, `[u]` being stored first when `u` had none, and no other list changes |
| `Backend.Server.ApiLogin` | backend/app.py:34-40 | reads the table without changing it and replies as `Login` |
| `Backend.Server.ApiChangeUsername` | backend/app.py:52-60 | the pop-then-insert update in place leaves the reply and table that `ChangeUsername` describes |
| `Backend.Server.ApiChangePassword` | backend/app.py:63-71 | the in-place overwrite leaves the reply and table that `ChangePassword` describes |
| `Backend.Server.ApiFriends` | backend/app.py:43-49 | the conditional write of `[u]` leaves the reply and store that `Friends` describes |
| `BackendProperties.LoginAsWrittenAcceptsUnknownUser` | backend/app.py:36-39 | as written, an unregistered username with a JSON null password is accepted; the intended login rejects it |
| `BackendProperties.LoginAgreesOnStringPasswords` | backend/app.py:38 | for any string password the written and intended logins give the same reply |
| `BackendProperties.RenameToSameNameFails` | backend/app.py:56-60 | renaming to the name already held is refused with 401 and leaves the table unchanged |
| `BackendProperties.RenameRoundTrip` | backend/app.py:56-59 | renaming `a` to `b` and back restores the original table |
| `BackendProperties.RenameMovesLogin` | backend/app.py:36-59 | after a rename the new name logs in with exactly the passwords the old name did, and the old name no longer logs in |
| `BackendProperties.ChangePasswordThenLogin` | backend/app.py:36-68 | after a password change a login succeeds iff the password given is the stripped new password, since login does not strip |
| `BackendProperties.ChangePasswordIdempotent` | backend/app.py:66-68 | repeating a password change gives the same reply and table as doing it once |
| `BackendProperties.MissingHeaderIsRefused` | backend/app.py:54-71 | with no `X-User` header both account changes reply 401 (500 for a non-string value) and leave the table unchanged |
| `BackendProperties.LoginStatusCodes` | backend/app.py:38-40 | login replies 200 exactly when accepted, 500 exactly for a non-string username, and 401 otherwise |
| `BackendProperties.FriendsIdempotent` | backend/app.py:44-49 | a repeated friend-list request returns the same list and writes nothing new |
| `ChatSync.Render` | frontend/static/js/friends.js:127-135 | rendering gives one bubble per message, in order, marked own iff the sender equals `me`, with its content and timestamp |
| `ChatSync.AlertText` | frontend/static/js/friends.js:85 | the alert shows the reply's `msg` when it is present and non-empty, and otherwise the fixed failure text; never empty |
| `ChatSync.AfterLoad` | frontend/static/js/friends.js:114-145 | an ok reply sets the count to the history length and the bubble count to match; a not-ok or thrown fetch leaves the state unchanged |
| `ChatSync.AfterCheck` | frontend/static/js/friends.js:148-181 | the count never decreases; the state changes only for an ok reply longer than the count, which then sets the count to its length; the count stays within the bubble count |
| `ChatSync.SendResult` | frontend/static/js/friends.js:51-88 | nothing is sent iff the trimmed input is empty; the message is rendered iff the input is non-blank and the reply is ok; a not-ok reply shows `AlertText(msg)`; a rejected fetch escapes with no alert |
| `ChatSync.AfterSend` | frontend/static/js/friends.js:51-88 | a successful send appends exactly one own bubble with the trimmed text and leaves the count alone; any other outcome changes nothing |
| `ChatSync.ChatApp.constructor` | frontend/static/js/friends.js:3-19 | starts with an empty container, count 0 and polling running under the given timer id |
| `ChatSync.ChatApp.AddMessageToUI` | frontend/static/js/friends.js:90-106 | appends exactly one bubble for the message |
| `ChatSync.ChatApp.RenderAll` | frontend/static/js/friends.js:124-135 | clearing and re-rendering by the loop leaves the container equal to `Render(history)` |
| `ChatSync.ChatApp.SendMessage` | frontend/static/js/friends.js:51-88 | the new state is `AfterSend` of the old; the input box is cleared only on a successful send |
| `ChatSync.ChatApp.LoadChatHistory` | frontend/static/js/friends.js:114-145 | the new state is `AfterLoad` of the old, and the class invariant is kept |
| `ChatSync.ChatApp.CheckForNewMessages` | frontend/static/js/friends.js:148-181 | the new state is `AfterCheck` of the old, and the class invariant is kept |
| `ChatSync.ChatApp.StartPolling` | frontend/static/js/friends.js:184-188 | the handle becomes the new non-null id, which is added to the running intervals; an earlier interval keeps running |
| `ChatSync.ChatApp.StopPolling` | frontend/static/js/friends.js:191-196 | the handle ends null and its interval is cleared; with no handle, nothing changes, so a second call is a no-op |
| `ChatSync.ChatApp.Destroy` | frontend/static/js/friends.js:203-206 | has the same effect as `StopPolling` |
| `ChatProperties.LoadRendersHistory` | frontend/static/js/friends.js:124-137 | after a load, bubble `i` has message `i`'s content and time, is own iff its sender is `me`, and the count is the history length |
| `ChatProperties.CheckIdempotent` | frontend/static/js/friends.js:157-159 | polling twice with the same reply is the same as polling once |
| `ChatProperties.PollAllCount` | frontend/static/js/friends.js:159-161 | after any run of polls the count is the larger of its start value and the longest ok history; it never decreases |
| `ChatProperties.PollAllConsistent` | frontend/static/js/friends.js:159-173 | any run of polls keeps the count within the number of bubbles shown |
| `ChatProperties.RenderPrefix` | frontend/static/js/friends.js:127-135 | rendering an extended history extends the rendering of the shorter one |
| `ChatProperties.AppendOnlyWhenHistoryGrows` | frontend/static/js/friends.js:159-173 | from a loaded state with no optimistic bubble, when the server only appends, what was shown remains a prefix of what a poll shows |
| `ChatProperties.OptimisticBubbleBreaksPrefix` | frontend/static/js/friends.js:70-83 | load `[]`, send "hi" at 0 ms, poll a history holding that message at 60000 ms: the shown list is not a prefix of the new one, and the two instants have different HH:MM labels |
| `ChatProperties.CheckRebuildsFromHistory` | frontend/static/js/friends.js:161-173 | a detected change replaces the whole list with the rendering of the reply, whatever was shown before |
| `ChatProperties.EditOfSameLengthGoesUnnoticed` | frontend/static/js/friends.js:159 | for every state and every ok history no longer than the count, a poll changes nothing, so the list stays stale whenever it differs from that history's rendering |
| `ChatProperties.SendThenPollShowsEachMessageOnce` | frontend/static/js/friends.js:70-83 | after a load, a send and a poll of the history ending in the sent message, each message is shown once; the server's copy differs from the optimistic bubble at most in its time |
| `ChatProperties.BlankInputChangesNothing` | frontend/static/js/friends.js:53-55 | input that is only whitespace sends nothing and changes no state |

## Findings

| source | as written | input that shows it | evidently intended | confidence | as-written member | corrected member |
|---|---|---|---|---|---|---|
| backend/app.py:38 | `users.get(u) == p`, with `p` taken unchecked from the JSON body | POST `{"username": "nobody", "password": null}` where `nobody` is not registered: `users.get` gives None, which equals the decoded null, so the reply is `{'ok': True, 'username': 'nobody', 'password': None}` | accept only a registered username whose stored password equals `p` | high (not executed) | `BackendProperties.LoginAsWrittenAcceptsUnknownUser` | `Backend.Login` |

`Backend.Server.ApiLogin` uses the corrected `Backend.Login`.
`BackendProperties.LoginAgreesOnStringPasswords` shows the two logins differ
only for a non-string password.

## Left out

- File I/O: `load_users`, `save_users` and the `<u>.friends.json` reads and writes are replaced by the maps held in `Backend.Server`. JSON formatting, encoding and write failures are not modelled.
- Flask plumbing is not modelled: routing, templates, `jsonify` and `app.run`. A request body that is missing, not JSON, or not a JSON object is also not modelled (`request.json.get` would fail).
- The friend file's path is built from `u`. Names that are not valid file names, or that contain path separators, are not modelled.
- Stored passwords in `users.json` are taken to be strings. The list in a friend file is taken to be a list of strings.
- Each `Backend.Server` method is one atomic step. `app.run(..., debug=True)` serves requests on threads, so the `load_users`/`save_users` pairs of two requests can interleave (app.py:53 with 58, 64 with 69). A rename racing a password change can then lose one update or bring the old key back. `save_users` and the friend file's `write_text` (app.py:48) truncate their file before writing it. A request that reads the file in that window (app.py:15, 49) gets a JSON decode error and a 500. Two `api_friends` calls that both create `[u]` write the same content, so nothing is lost there. None of these interleavings is modelled.
- The `X-User` header is taken as given. The settings panel in `frontend/static/js/chat.js`, which is not part of this model, sends no `X-User` header with its change requests (chat.js:41-45, 57-61). By `BackendProperties.MissingHeaderIsRefused`, those requests always get 401. This is not executed. The backend does not authenticate it, and the model does not either.
- Renaming a user does not move their friend file. This follows from `Backend.ChangeUsername` never touching the friend store; no lemma states it.
- Network I/O in `ChatApp` is not modelled. Each `fetch` becomes a reply given as a parameter. Each async method is one atomic step at the point its reply arrives, which is as it runs on the single-threaded event loop. Two exceptions: `sendMessage` reads the input box before its `await` and clears it after, so text typed in between is not modelled; and the order in which overlapping fetches complete is the caller's choice.
- Timer scheduling is not modelled. `setInterval` is represented only by the id it returns and by the set of running intervals. The follow-up `setTimeout(checkForNewMessages, 100)` after a successful send is left to the caller, who sees the outcome `Sent`.
- DOM work is not modelled: `escapeHtml`, the `toLocaleTimeString` label (a bubble keeps the instant it is formatted from), `scrollToBottom`, `setupEventListeners` and `loadTheme`. The `alert` appears only as the text in the `Alerted` outcome.
- A history reply with `ok` true but a malformed `history` is not modelled. In `loadChatHistory` such a reply clears the container (friends.js:125) and then throws at the `forEach` (127), leaving the count as it was. In `checkForNewMessages` a reply with no `history` throws at the length test (159) before anything changes. A non-array `history` whose `length` exceeds the count sets the count (161) and clears the container (163), then throws at the `forEach` (165).
- The `messages` field set in the constructor is never used again, so it is not modelled.
- `frontend/static/js/chat.js` and `frontend/static/js/login.js` are not part of this model. They hold settings, logout, theme, friend-card rendering and login-form handling.
