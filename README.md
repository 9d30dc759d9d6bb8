# code-colab in Dafny

code-colab is a collaborative code editor. A socket.io server relays
edits, cursor moves, chat, typing and presence signals, and run output
between the browser clients that share a room. It also hands every member
of a room a member number. Each client keeps a member roster, a shared
document, remote cursor markers, a theme, a snippet library and a
search-and-replace panel.

This project models that core and proves properties of the model:

- `protocol.dfy` (module `Protocol`) defines the wire protocol.
  - `Event` lists what the server sends a client.
  - `Request` lists what a client sends the server.
  - Each is a closed datatype with one constructor per event tag, carrying
    that tag's payload fields.
  - Socket ids and room names are an opaque type that is only compared for
    equality.
- `relay.dfy` (module `Relay`) models the server in `backend/index.js`.
  - Class `Server` holds the registry (socket id to username and member
    id), the per-room member counters, and socket.io's room membership in
    both directions.
  - It also holds an `outbox` that every handler appends its deliveries to.
  - Each handler is a method that runs as one atomic step.
  - `io.to(x)` reaches every member of room `x` (`ToRoom`).
  - `socket.in(r)` reaches every member of `r` except the sender (`ToOthers`).
  - Every connection sits in its own room, named after its socket id.
    Sending to a socket id is therefore sending to that room.
- `editor_page.dfy` (module `EditorPage`) models the room page. It covers:
  - the roster kept from JOINED and DISCONNECTED;
  - the SYNC_CODE reply;
  - the output pane;
  - the side-panel toggle;
  - the avatar label;
  - the username colour hash.
- `editor.dfy` (module `Editor`) models the shared editor. It covers:
  - echo suppression between local and remote changes;
  - the remote cursor markers, kept in a dictionary by socket id.
- `theme_context.dfy` (module `ThemeContext`) models the theme presets, the
  guarded theme selection, and the choice between custom colours and the
  preset.
- `snippets_panel.dfy` (module `SnippetsPanel`) models the snippet library:
  - seeding with the defaults;
  - adding and deleting snippets;
  - grouping by category;
  - the preview line.
- `search_panel.dfy` (module `SearchPanel`) models the match counter of the
  search panel and its wrap-around.

Browser storage is a mirrored field. Whatever CodeMirror, the clock or the
compile endpoint would supply comes in as a parameter.

### Two behaviours of the code worth knowing

The model follows the code in both places.

- **Counter initialisation.** The comment at `backend/index.js:70` says
  the room counter is initialised "if it doesn't exist". The code
  (`backend/index.js:71-73`) resets it to 1 whenever the looked-up value is
  falsy. For numbers, `Relay.NextId` keeps that test, including 0, although
  a stored counter is never 0. The lookup is on a plain object, so room ids
  named after `Object.prototype` members behave differently; see
  "## Findings".
- **The JOINED handler.** The handler (`frontend/src/component/EditorPage.js:63-77`)
  colours every roster entry with `generateColor(client.username)` before
  it replaces the roster and answers with SYNC_CODE. An entry without a
  username makes `generateColor` throw at that point. Neither the roster
  update nor the SYNC_CODE reply then happens
  (`EditorPage.ColoredRoster`, `EditorPage.Page.OnJoined`).

## Model

| member | source | states |
|---|---|---|
| Relay.RosterOf | backend/index.js:54-65 | One entry per socket id, in the same order. The username is present exactly when the socket is registered, and then both username and member id are the registry's. An unregistered socket has neither. |
| Relay.Roster | backend/index.js:54-65 | The member list has as many entries as the room has members. An unknown room gives an empty list. |
| Relay.BroadcastToAllOnce | backend/index.js:102-105 | An `io.to(room)` broadcast delivers exactly one copy of the event to each room member, the sender included. Nobody else receives one. |
| Relay.BroadcastToOthersOnce | backend/index.js:93-128 | A `socket.in(room)` relay delivers exactly one copy to each room member other than the sender. The sender and non-members receive nothing, as long as the sender's own room is private. |
| Relay.PointToPoint | backend/index.js:97-99 | Sending to a live socket id produces exactly one delivery, to that socket. An id with no room produces none. |
| Relay.JoinedFanOutDirect | backend/index.js:83-90 | Emitting JOINED once per listed client, each time to that client's own room, is the same as sending one copy directly to each client. |
| Relay.JoinedReachesEachMemberOnce | backend/index.js:83-90 | After a JOIN, every member of the room, the joiner included, receives exactly one JOINED. Nobody else receives one. |
| Relay.DisconnectFanOutTo | backend/index.js:136-143 | On disconnecting, each other connection receives one DISCONNECTED per room it shares with the departing socket. The departing socket receives none. |
| Relay.LeaveAll | backend/index.js:136-145 | Afterwards the socket is out of every room. A room keeps its other members in order, and a room left empty disappears. |
| Relay.LeaveAllConsistent | backend/index.js:136-145 | Removing a socket from every room and from the registry keeps the membership maps and the registry consistent. |
| Relay.LeaveAllPrivate | backend/index.js:136-145 | A departure keeps every remaining connection's own room private. |
| Relay.AddMember | backend/index.js:82 | After joining, the socket is a member of the room. A new member is appended at the end, a repeated join changes nothing, and other rooms are untouched. |
| Relay.AddRoom | backend/index.js:82 | Joining leaves the set of connections and every other connection's room list unchanged. |
| Relay.ConnectConsistent | backend/index.js:68 | Placing a new connection in its own room keeps membership and registry consistent. |
| Relay.JoinConsistent | backend/index.js:81-82 | Recording the registry entry and joining the room keep membership and registry consistent. |
| Relay.JoinPrivate | backend/index.js:82 | A JOIN keeps every own room private, unless the joined room is named after another live connection. |
| Relay.JoinKeepsEarlierEntries | backend/index.js:81-90 | The roster a JOIN announces keeps every earlier member's entry unchanged, member id included, and contains the joiner's new entry. |
| Relay.NextId | backend/index.js:71-76 | The id handed out is at least 1, and exactly 1 for a room that was never joined, whatever its name (the intended counter; see Findings). |
| Relay.Bump | backend/index.js:79 | A JOIN advances its own room's counter by one. Other rooms' counters are unchanged, and no counter is ever removed. |
| Relay.MintManyConsecutive | backend/index.js:71-79 | Successive JOINs to one room receive consecutive ids, starting at the room's counter (1 for a new room). No id repeats. |
| Relay.Increment | backend/index.js:79 | `++` adds one to a number and turns anything else into NaN. |
| Relay.Lookup | backend/index.js:52 | A lookup on the plain counter object finds an own property, else the inherited `Object.prototype` member, else nothing. |
| Relay.Store | backend/index.js:72-79 | An assignment sets the own property, except on the `__proto__` accessor, where a number changes nothing. |
| Relay.JoinCounterAsWritten | backend/index.js:71-79 | A truthy looked-up value is handed out as it is. A falsy one is reset to 1 first, and 1 is handed out. |
| Relay.JoinCounterAgrees | backend/index.js:71-79 | For a room id that names no `Object.prototype` member, the counter as written hands out exactly `NextId` and moves to exactly `Bump`. |
| Relay.InheritedRoomRenumbers | backend/index.js:71-79 | As written, the first three JOINs to a room named like an inherited member, such as "constructor", get no number, then 1, then 2. |
| Relay.ProtoRoomNeverCounts | backend/index.js:71-79 | As written, a JOIN to the room "__proto__" hands out `Object.prototype` and leaves the counter object unchanged. |
| Relay.Server.constructor | backend/index.js:51-52 | The server starts with an empty registry, no counters, no rooms and no connections. |
| Relay.Server.Connect | backend/index.js:68 | A new connection joins its own room. Membership stays consistent and own rooms stay private. |
| Relay.Server.Join | backend/index.js:69-91 | The counter is bumped. The registry entry for the socket becomes exactly {username, the room's next id}, replacing any earlier one. The socket joins the room. JOINED with the new roster goes to each member. |
| Relay.Server.Enroll | backend/index.js:71-82 | The state part of JOIN: counter, registry entry and membership change as above, and consistency is kept. |
| Relay.Server.JoinedDeliveries | backend/index.js:84-90 | The JOINED loop produces exactly the per-client fan-out. |
| Relay.Server.CodeChange | backend/index.js:93-95 | CODE_CHANGE {code} goes to the others in the payload's room. Membership of the sender is not checked. |
| Relay.Server.SyncCode | backend/index.js:97-99 | SYNC_CODE is re-sent as CODE_CHANGE {code} to the named socket's own room only. |
| Relay.Server.ChatMessage | backend/index.js:102-105 | The chat message goes to every member of the payload's room, with its fields unchanged. |
| Relay.Server.TypingStart | backend/index.js:108-110 | TYPING_START goes to the others in the room. |
| Relay.Server.TypingStop | backend/index.js:112-114 | TYPING_STOP goes to the others in the room. |
| Relay.Server.CursorMove | backend/index.js:117-119 | CURSOR_MOVE goes to the others in the room, with the sender's socket id added. |
| Relay.Server.UserIdle | backend/index.js:122-124 | USER_IDLE goes to the others in the room, carrying the sender's socket id. |
| Relay.Server.UserActive | backend/index.js:126-128 | USER_ACTIVE goes to the others in the room, carrying the sender's socket id. |
| Relay.Server.SyncOutput | backend/index.js:131-133 | SYNC_OUTPUT goes to every member of the room. |
| Relay.Server.Disconnect | backend/index.js:136-145 | One DISCONNECTED {socketId, name read before deletion} goes to the others of each room the socket is in, its own room first. The registry entry is then gone, the socket has left every room, and the counters are kept. |
| Relay.Server.Depart | backend/index.js:144-145 | Removing the registry entry and leaving all rooms keeps consistency and privacy. |
| Relay.Server.DisconnectDeliveries | backend/index.js:137-143 | The loop over the socket's rooms produces exactly the per-room fan-out. |
| Relay.Server.Handle | backend/index.js:69-133 | Dispatch. A JOIN bumps the counter, records the registry entry, joins the room and appends the JOINED fan-out. Every other request leaves the state alone and appends exactly its handler's deliveries: `io.to` for SYNC_CODE, CHAT_MESSAGE and SYNC_OUTPUT, `socket.in` for the rest. |
| EditorPage.ToInt32 | frontend/src/component/EditorPage.js:41 | The shift result is a signed 32-bit integer congruent to the exact value modulo 2^32. |
| EditorPage.JsRem360 | frontend/src/component/EditorPage.js:43 | JavaScript `% 360` lies strictly between -360 and 360, takes the dividend's sign, and differs from it by a multiple of 360. |
| EditorPage.Hue | frontend/src/component/EditorPage.js:38-44 | The hue is an integer strictly between -360 and 360. |
| EditorPage.GenerateColor | frontend/src/component/EditorPage.js:38-44 | The hash loop yields the colour the username determines: hsl(hue, 70%, 50%) with the hue in range. |
| EditorPage.HueCanBeNegative | frontend/src/component/EditorPage.js:41-43 | Because of the 32-bit truncation, the hue of the name "harish" is -67. |
| EditorPage.ColoredRoster | frontend/src/component/EditorPage.js:67-71 | Every server entry is kept, in order, with its colour added. The result exists exactly when every entry has a username. |
| EditorPage.WithoutSocket | frontend/src/component/EditorPage.js:81 | The roster keeps exactly the entries of other sockets. |
| EditorPage.WithoutSocketAppend | frontend/src/component/EditorPage.js:81 | The filter works piecewise, so the kept entries stay in their original order. |
| EditorPage.WithoutAbsentSocket | frontend/src/component/EditorPage.js:81 | Removing a socket that has no entry leaves the roster unchanged. |
| EditorPage.Toggle | frontend/src/component/EditorPage.js:174-176 | The active panel closes when toggled. Any other panel becomes the active one. |
| EditorPage.ToggleTwice | frontend/src/component/EditorPage.js:174-176 | Toggling twice restores the previous state exactly when nothing was open or that panel was open. |
| EditorPage.RunOutput | frontend/src/component/EditorPage.js:131-143 | The output is the response's output, or "No output received" when it is missing or empty. On failure it is the server's error, or "An error occurred while compiling." It is never empty. |
| EditorPage.FindByName | frontend/src/component/EditorPage.js:202 | Finds the first roster entry with that username, or reports that none has it. |
| EditorPage.AvatarLabel | frontend/src/component/EditorPage.js:201-203 | The avatar shows a member number exactly when the first entry with this username has a nonzero member id. Otherwise it shows the upper-cased first letter. |
| EditorPage.Page.constructor | frontend/src/component/EditorPage.js:24-61 | The page starts with empty state and sends JOIN {roomId, username}. |
| EditorPage.Page.OnJoined | frontend/src/component/EditorPage.js:63-77 | The roster is replaced wholesale by the coloured server list. Exactly one SYNC_CODE then goes to the announced joiner with the current code. An entry without a username changes nothing. |
| EditorPage.Page.OnDisconnected | frontend/src/component/EditorPage.js:79-82 | Exactly that socket's entries leave the roster. |
| EditorPage.Page.OnSyncOutput | frontend/src/component/EditorPage.js:85-87 | The pane shows the received output. |
| EditorPage.Page.OnCodeChange | frontend/src/component/EditorPage.js:301-303 | The page's code becomes the editor's full document. |
| EditorPage.Page.RunCode | frontend/src/component/EditorPage.js:117-156 | With no code or empty code nothing is shown or sent. Otherwise the selected output is shown and broadcast to the room. |
| EditorPage.Page.ClearOutput | frontend/src/component/EditorPage.js:158-164 | The pane is emptied, and "" is broadcast to the room. |
| EditorPage.Page.TogglePanel | frontend/src/component/EditorPage.js:174-176 | The active panel follows Toggle. |
| Editor.CursorColor | frontend/src/component/Editor.js:123 | The colour is that of the first roster entry with the socket id, or #ffcc00 when there is none. |
| Editor.ChangeEmits | frontend/src/component/Editor.js:55-60 | A change emits nothing exactly when its origin is "setValue". Otherwise it emits one CODE_CHANGE with the whole document. |
| Editor.OneCaretPerSocket | frontend/src/component/Editor.js:118-137 | While the marker dictionary tracks the placed carets, no socket has two carets in the document. |
| Editor.PlaceKeepsTrack | frontend/src/component/Editor.js:114-138 | Clearing a socket's old caret before filing its new one keeps the dictionary tracking the document's carets. |
| Editor.DropKeepsTrack | frontend/src/component/Editor.js:143-148 | Clearing and deleting a socket's caret keeps the dictionary tracking the document's carets. |
| Editor.CodeEditor.constructor | frontend/src/component/Editor.js:21-49 | The editor starts empty with no remote carets and nothing sent. |
| Editor.CodeEditor.Change | frontend/src/component/Editor.js:51-61 | Every change reports the full document. The room hears of it unless it came from setValue. |
| Editor.CodeEditor.ApplyRemote | frontend/src/component/Editor.js:79-84 | A null code is ignored. Otherwise the document becomes exactly the code, the cursor is kept, and no CODE_CHANGE is echoed back. |
| Editor.CodeEditor.CursorActivity | frontend/src/component/Editor.js:102-109 | The local cursor is where CodeMirror reports it, and exactly that {line, ch} goes out with the room id and the local username. |
| Editor.CodeEditor.RemoteCursor | frontend/src/component/Editor.js:114-138 | Without a position nothing changes. Otherwise the socket's old caret is cleared, a new one is placed in the roster colour, and it is filed under that socket only. |
| Editor.CodeEditor.UserLeft | frontend/src/component/Editor.js:143-148 | Only that socket's marker is cleared and deleted. Other markers are untouched. |
| ThemeContext.PresetsWellFormed | frontend/src/context/ThemeContext.js:4-75 | The default is a preset. Every preset has a CodeMirror theme, and no preset is named "Custom". |
| ThemeContext.ActiveTheme | frontend/src/context/ThemeContext.js:118-127 | The active theme always keeps the preset's editor theme. It is named "Custom" and uses the custom colours exactly when custom colours are set. Otherwise it is exactly the preset. |
| ThemeContext.ChangeThemeAsWritten | frontend/src/context/ThemeContext.js:104-109 | The selection as written: the new name or the old one, and always the new one for a preset key. |
| ThemeContext.GuardAdmitsInheritedName | frontend/src/context/ThemeContext.js:104-109 | The guard as written accepts "toString", which is not a preset, and selects it. |
| ThemeContext.ChangeThemeTo | frontend/src/context/ThemeContext.js:104-109 | The corrected guard selects a name exactly when it is a preset key. The selection therefore always names a preset. |
| ThemeContext.ThemeStore.constructor | frontend/src/context/ThemeContext.js:82-83 | The store starts on 'dracula' with no custom colours. |
| ThemeContext.ThemeStore.Load | frontend/src/context/ThemeContext.js:86-101 | With the corrected guard: a stored theme is taken only when it is a preset key. Stored custom colours are taken when present. |
| ThemeContext.ThemeStore.ChangeTheme | frontend/src/context/ThemeContext.js:104-109 | With the corrected guard: a preset key is selected and stored. Any other name changes neither the state nor the storage. |
| ThemeContext.ThemeStore.SaveCustomColors | frontend/src/context/ThemeContext.js:112-115 | The stored custom colours equal the new ones, and the active theme becomes "Custom" with them. |
| ThemeContext.ThemeStore.ClearCustomColors | frontend/src/context/ThemeContext.js:134-137 | The custom colours are gone from memory and storage, and the active theme is the preset again. |
| SnippetsPanel.WithoutId | frontend/src/component/SnippetsPanel.js:55-57 | Exactly the snippets with other ids remain. |
| SnippetsPanel.WithoutIdAppend | frontend/src/component/SnippetsPanel.js:56 | Deletion works piecewise, so the kept snippets stay in order. |
| SnippetsPanel.WithoutAbsentId | frontend/src/component/SnippetsPanel.js:56 | Deleting an id that no snippet has changes nothing. |
| SnippetsPanel.Categories | frontend/src/component/SnippetsPanel.js:68-72 | There are no more groups than snippets. |
| SnippetsPanel.InCategory | frontend/src/component/SnippetsPanel.js:68-72 | A group is no longer than the list. |
| SnippetsPanel.CategoriesSpec | frontend/src/component/SnippetsPanel.js:68-72 | Every category in the list names exactly one group, and no other groups exist. |
| SnippetsPanel.InCategorySpec | frontend/src/component/SnippetsPanel.js:68-72 | A group holds the snippets of its category and nothing else. |
| SnippetsPanel.InCategoryAppend | frontend/src/component/SnippetsPanel.js:68-72 | Grouping works piecewise, so a group keeps the snippets' relative order. |
| SnippetsPanel.GroupSizesSum | frontend/src/component/SnippetsPanel.js:68-72 | The group sizes add up to the number of snippets. |
| SnippetsPanel.GroupOfEach | frontend/src/component/SnippetsPanel.js:68-72 | Each snippet is in the group of its own category and in no other. |
| SnippetsPanel.GroupByCategory | frontend/src/component/SnippetsPanel.js:68-72 | The reduce loop builds exactly those groups, with keys in order of first appearance. |
| SnippetsPanel.NewlinesToSpaces | frontend/src/component/SnippetsPanel.js:158 | Each newline becomes a space, and every other character is kept. |
| SnippetsPanel.Preview | frontend/src/component/SnippetsPanel.js:158 | The preview is the first 50 characters (fewer for shorter code) with newlines shown as spaces, then "...". It contains no newline. |
| SnippetsPanel.Panel.constructor | frontend/src/component/SnippetsPanel.js:17-35 | A stored list is loaded as it is. With nothing stored, the three defaults (ids 1, 2, 3) are shown and stored. |
| SnippetsPanel.Panel.Save | frontend/src/component/SnippetsPanel.js:37-40 | After a save, the stored list equals the list in memory. |
| SnippetsPanel.Panel.Add | frontend/src/component/SnippetsPanel.js:42-53 | Without a name or code nothing happens. Otherwise exactly one snippet is appended and the earlier ones are kept in order. The form is reset to empty with category 'General' and hidden. |
| SnippetsPanel.Panel.Delete | frontend/src/component/SnippetsPanel.js:55-57 | Every snippet with that id is removed, and the list is stored. |
| SnippetsPanel.Panel.ToggleAddForm | frontend/src/component/SnippetsPanel.js:106 | The add form is shown or hidden. |
| SnippetsPanel.Panel.EditDraft | frontend/src/component/SnippetsPanel.js:121-136 | The form holds what was typed. |
| SearchPanel.NextMatch | frontend/src/component/SearchPanel.js:56 | Within range, the counter moves one on, and from the last match back to 1. |
| SearchPanel.PrevMatch | frontend/src/component/SearchPanel.js:70 | Within range, the counter moves one back, and from 1 round to the count. |
| SearchPanel.NextPrevInverse | frontend/src/component/SearchPanel.js:53-71 | Within range, a step back undoes a step forward, and a step forward undoes a step back. |
| SearchPanel.StepsForwardUp | frontend/src/component/SearchPanel.js:56 | Below the last match, k steps forward move k matches on. |
| SearchPanel.FullCycle | frontend/src/component/SearchPanel.js:46-58 | Stepping forward climbs to the last match and wraps to 1. After `count` steps it is back at the start. |
| SearchPanel.Panel.constructor | frontend/src/component/SearchPanel.js:8-12 | The panel starts with empty terms, case-insensitive search, and the counter at 0/0. |
| SearchPanel.Panel.SetSearchTerm | frontend/src/component/SearchPanel.js:138 | The search term is what was typed. |
| SearchPanel.Panel.SetReplaceTerm | frontend/src/component/SearchPanel.js:159 | The replacement is what was typed. |
| SearchPanel.Panel.SetCaseSensitive | frontend/src/component/SearchPanel.js:172 | The case-sensitivity flag is what was ticked. |
| SearchPanel.Panel.PerformSearch | frontend/src/component/SearchPanel.js:22-44 | Without an editor or a term nothing changes. Otherwise the count becomes the number of matches. With at least one match, the counter is 1 and the first match is selected. With none, the counter keeps its value. The counter always stays displayable. |
| SearchPanel.Panel.FindNext | frontend/src/component/SearchPanel.js:46-58 | When a match is found, it is selected and the counter steps forward with wrap-around. Otherwise nothing changes. |
| SearchPanel.Panel.FindPrevious | frontend/src/component/SearchPanel.js:60-72 | When a match is found, it is selected and the counter steps back with wrap-around. Otherwise nothing changes. |
| SearchPanel.Panel.ReplaceOne | frontend/src/component/SearchPanel.js:74-84 | The selection is replaced only when it equals the search term exactly. The panel then moves to the next match when one is found, and otherwise keeps its counter and selection. |
| SearchPanel.Panel.ReplaceAll | frontend/src/component/SearchPanel.js:86-99 | Each match is replaced in order, and both counters are reset to 0. |

## Left out

- The `/compile` endpoint (backend/index.js:149-218) is an HTTP pass-through to external compilers. Its answer reaches `EditorPage.Page.RunCode` as a parameter.
- socket.io and Express plumbing (server creation, CORS, listening) is not modelled. The transport is the `outbox` of deliveries. Connecting a socket is `Relay.Server.Connect`.
- Event tags are constructors, not strings. The misspelt CODE_CHANGE tag in frontend/src/Actions.js is not modelled, because the backend's own tag file is not part of this model.
- Payload fields a client leaves undefined are not modelled, for example a JOIN without a username. Usernames, room ids and codes are always present strings, except that SYNC_CODE's code and CODE_CHANGE's code may be null.
- Relay.Server.Join: the promise that member ids in a room are never reused is stated over successive JOINs by `Relay.MintManyConsecutive`. It is not a history invariant of the server.
- Relay.Server.Connect: a connection is required to be new, that is not yet connected. A socket id that already names a room is accepted, but own rooms are then promised to stay private only when the id names no existing room.
- Relay.NextId, Relay.Bump, Relay.MintManyConsecutive, Relay.Server.Join, Relay.Server.Enroll, Relay.Server.Handle: these model the intended counter, which numbers every room 1, 2, 3. As written, room ids named after `Object.prototype` members ("constructor", "toString", "valueOf", "__proto__", ...) are numbered differently; `Relay.InheritedRoomRenumbers` and `Relay.ProtoRoomNeverCounts` show how (see "## Findings").
- EditorPage.Hash: JavaScript computes the hash in doubles. The model uses exact integers, which agree only while the running hash stays below 2^53, that is for usernames shorter than about four million characters.
- EditorPage.Hash: `charCodeAt` reads UTF-16 code units. The model reads whole characters, which differ above U+FFFF.
- EditorPage.AvatarLabel: `charAt(0)` reads one UTF-16 code unit. The model takes the first whole character, which differs for a name starting above U+FFFF.
- SnippetsPanel.Preview: `substring(0, 50)` counts UTF-16 code units. The model counts whole characters, so for code with characters above U+FFFF it keeps more and never splits a surrogate pair.
- EditorPage.UpperAscii: `toUpperCase` is modelled for the letters a to z only.
- Toasts, navigation, clipboard copy, the language selector, the compiling flag and snippet insertion into the editor are presentation or editor calls and are not modelled.
- Editor.CodeEditor.ApplyRemote: only a null code is ignored, as in the source. An undefined code is not modelled.
- Editor.CodeEditor.CursorActivity: CodeMirror firing cursor activity when `setValue` moves the cursor is not modelled, and neither is cursor clamping.
- CodeMirror's bookmark widgets, DOM elements, theme option updates and search cursor matching (including case folding) are left out. Found matches and the selection text are parameters.
- ThemeContext.ThemeStore.Load: uses the corrected guard `ChangeThemeTo`. As written, a stored name inherited from `Object.prototype` such as "toString" is selected (see "## Findings").
- ThemeContext.ThemeStore.ChangeTheme: uses the corrected guard. As written, a name inherited from `Object.prototype` such as "toString" is selected and stored (see "## Findings").
- ThemeContext.ThemeStore.Load: stored custom colours that fail to parse as JSON, and stored values not written by the store itself, are not modelled. Storage is a mirrored field.
- SnippetsPanel.Panel.constructor: a stored list that fails to parse is not modelled. Snippet ids from `Date.now()` are a parameter of `SnippetsPanel.Panel.Add`.
- SnippetsPanel.GroupByCategory: two things are not modelled. A category named after an Object.prototype member makes the reduce push onto an inherited function. `Object.entries` lists integer-like category names first. The model keeps insertion order.
- SearchPanel.Panel.PerformSearch: the matches are the search cursor's output, given as a parameter. Scrolling is not modelled.
- frontend/src/component/CursorTracker.js, Home.js, ThemeSwitcher.js, Client.js and App.js are not part of this model. They hold presentation and timers, and no shown file uses CursorTracker.

## Findings

| source | as written | input that shows it | evidently intended | confidence | as-written member | corrected member |
|---|---|---|---|---|---|---|
| frontend/src/context/ThemeContext.js:104-109 | The guard `THEMES[name]` (also used on the stored name at line 90) is a property lookup on a plain object. It is truthy for names inherited from `Object.prototype`. | `changeTheme("toString")`, or a stored theme "toString", selects a name that is not a preset. `THEMES[currentTheme]` is then a function, not a theme. | Only the keys of `THEMES` are accepted, so `currentTheme` always names a preset. | medium; not executed | ThemeContext.ChangeThemeAsWritten, ThemeContext.GuardAdmitsInheritedName | ThemeContext.ChangeThemeTo |
| backend/index.js:71-79 | `roomMemberCounters` is a plain object (line 52), and room ids are typed freely by users. A lookup for a room named after an `Object.prototype` member finds the inherited value. That value is truthy, so the counter is not initialised, and it is not a number. | JOIN to room "constructor" three times: the first joiner gets the inherited function as member id (no number), `++` stores NaN, and the next joiners get 1 and 2. Room "__proto__": every joiner gets `Object.prototype` and the counter never moves. | Every room numbers its joiners 1, 2, 3, ... whatever its name. | medium; not executed | Relay.JoinCounterAsWritten, Relay.InheritedRoomRenumbers, Relay.ProtoRoomNeverCounts | Relay.MintManyConsecutive |
