# collab-notes-app: a verified model of its note-handling rules

The application is a collaborative notes editor: a Next.js client and an Express/Mongoose API server. This project models, in Dafny, the four pieces of the repository that carry real rules:

- **The note editor client** (`NoteEditor`). It covers the local title, content and visibility of the open note and the roster of people editing it. The client relays every local edit on its socket at once. One debounced auto-save slot turns a burst of edits into a single store update. The visibility toggle commits only after the store accepts it. Remote updates overwrite local fields (last writer wins), and a flag stops the editor from echoing remote content back. The roster shows each name's initials.
- **The route guard** (`RouteGuard`). It decides, from the path and the two session cookies, whether a request goes through or is redirected.
- **The notes overview page** (`NotesPage`). It covers the delete and visibility-toggle list updaters, the plain text pulled from a note's stored editor document, and the preview and title shown on each card.
- **The note handlers of the API server** (`NoteController`). Each handler is a query or a single-document mutation over the note collection, selected by note id, author and visibility.

Shared helpers are `Wrappers` (an `Option` type) and `JsText`. `JsText` models JavaScript's `split`, `join`, `toUpperCase` and `slice` with their edge cases, and proves that `split` and `join` are inverse.

Stateful parts are classes whose fields the handlers change in place: `NoteEditor.NoteEditorClient`, `NotesPage.NotesList` and `NoteController.NoteCollection`. Each editor handler is proved to perform one transition function over an `EditorState` value. Each store mutation is proved to equal a function of the old table. The properties are lemmas about those functions. Timers are explicit steps. Arming the auto-save timer records a pending `Draft`, and `TimerFired` is the moment it runs out. The socket is an outbox of emitted messages. Store calls are a log of update requests. The clock, the id generator and the success or failure of each API call are parameters.

Two observations about the code as written:

- The auto-save payload is fixed when the timer is **armed**: the closure is given the new value and the other field's current value. It is not read when the timer fires. Remote updates that arrive in between do not reach the save, and the save then writes the local edit over them (`PendingSaveIgnoresRemoteUpdates`).
- Both clients request visibility changes by sending only `public` to the update endpoint. The update handler writes title, content and the update time only, never `public` (`NoteController.Update`, `UpdateKeepsPublicSet`). The server therefore never stores a visibility change. The clients still flip their local flag once the call returns successfully.

## Model

| member | source | states |
|---|---|---|
| `RouteGuard.Middleware` | frontend/src/middleware.ts:4-37 | a redirect goes to "/" or "/login" and never to the path requested |
| `RouteGuard.Route` | frontend/src/middleware.ts:40-46 | the guard runs only on "/", "/login" and "/signup"; any other path goes through |
| `RouteGuard.ProtectedRouteNeedsSomeToken` | frontend/src/middleware.ts:22-27 | "/" redirects to "/login" exactly when neither cookie is set and non-empty; a refresh token alone passes |
| `RouteGuard.LoginPagesRedirectWhenAuthenticated` | frontend/src/middleware.ts:12-33 | "/login" and "/signup" redirect to "/" exactly when an access token is present; a refresh token alone passes |
| `RouteGuard.UnguardedPathsPass` | frontend/src/middleware.ts:9-36 | any other path is let through whatever the cookies |
| `RouteGuard.NoRedirectLoop` | frontend/src/middleware.ts:22-33 | with the same cookies, the target of every redirect is guarded and let through |
| `RouteGuard.RedirectConditionsExclusive` | frontend/src/middleware.ts:22-33 | the two redirect conditions never hold together, so testing them in the other order decides the same |
| `JsText.Join` | frontend/src/app/page.tsx:99-101 | `[].join(sep)` is "", one part joins as itself, and a non-empty separator adds at least one character per gap |
| `JsText.Split` | frontend/src/components/NoteEditorClient.tsx:170 | `split(" ")` yields at least one piece and no piece contains the separator |
| `JsText.JoinSplit` | frontend/src/components/NoteEditorClient.tsx:169-172 | joining the pieces of a split with the separator restores the string |
| `JsText.SplitJoin` | frontend/src/components/NoteEditorClient.tsx:169-172 | splitting a join of separator-free parts restores the parts |
| `JsText.JoinEmpty` | frontend/src/app/page.tsx:97-102 | a join with a non-empty separator is empty exactly for no part or one empty part |
| `JsText.JoinAppend` | frontend/src/app/page.tsx:97-101 | joining two runs of parts keeps their order with one separator between |
| `JsText.UpperChar` | frontend/src/components/NoteEditorClient.tsx:173 | lower-case ASCII letters map to their capitals, every other character is kept |
| `JsText.ToUpper` | frontend/src/components/NoteEditorClient.tsx:173 | upper-casing keeps the length and maps each character |
| `JsText.Slice` | frontend/src/app/page.tsx:134 | `slice(0, n)` is the prefix of length min(n, length) |
| `NotesPage.RemoveNote` | frontend/src/app/page.tsx:63 | after a delete no note with the id is left, every other note is kept, and a list without the id is unchanged |
| `NotesPage.RemoveNoteKeepsOrder` | frontend/src/app/page.tsx:63 | removal works piecewise over a concatenation, so the kept notes keep their order |
| `NotesPage.FindIndex` | frontend/src/app/page.tsx:76-77 | the result is -1 exactly when no note has the id, otherwise the first position holding it |
| `NotesPage.SetPublic` | frontend/src/app/page.tsx:75-84 | the length is kept, only the first note with the id gets the new flag, and a list without the id is returned as it was |
| `NotesPage.SetPublicRestores` | frontend/src/app/page.tsx:73-83 | setting the flag back to its earlier value undoes a toggle |
| `NotesPage.Texts` | frontend/src/app/page.tsx:99 | a node's missing text joins as the empty string |
| `NotesPage.BlockTexts` | frontend/src/app/page.tsx:97-100 | one text per top-level block, in document order |
| `NotesPage.RootBlocks` | frontend/src/app/page.tsx:96 | the top-level blocks are the root's children, and none when the root or its children are missing |
| `NotesPage.BlockText` | frontend/src/app/page.tsx:99 | a block without children gives ""; a lone child gives its own text; any two children are separated by at least one space |
| `NotesPage.ExtractText` | frontend/src/app/page.tsx:96-101 | no blocks give ""; a lone block gives its own text; any two blocks are separated by at least one space |
| `NotesPage.PlainText` | frontend/src/app/page.tsx:93-107 | a parse failure (or a `null` document) gives "Invalid content", an empty extraction gives "No content yet...", and otherwise the extracted text |
| `NotesPage.ExtractTextEmpty` | frontend/src/app/page.tsx:96-102 | the extracted text is empty exactly when there is no top-level block or a single blank one |
| `NotesPage.ExtractTextInOrder` | frontend/src/app/page.tsx:96-101 | a document split in two extracts as its halves' texts joined by a space |
| `NotesPage.CardPreview` | frontend/src/app/page.tsx:133-136 | empty content shows "No content yet..."; otherwise at most 500 characters of the plain text followed by "...", at most 503 in all |
| `NotesPage.CardTitle` | frontend/src/app/page.tsx:130 | an empty title shows "Untitled Note", any other title shows itself |
| `NotesPage.NotesList.constructor` | frontend/src/app/page.tsx:26-27 | the page starts with no notes and loading |
| `NotesPage.NotesList.Load` | frontend/src/app/page.tsx:31-42 | the list becomes the fetched notes, stays as it was when the fetch fails, and loading ends either way |
| `NotesPage.NotesList.HandleDeleteNote` | frontend/src/app/page.tsx:59-68 | without confirmation nothing is requested; the list loses the note only after the delete call succeeded |
| `NotesPage.NotesList.HandleTogglePrivacy` | frontend/src/app/page.tsx:71-90 | the update asks for the negation of the shown flag; the list is updated only after that call succeeded |
| `NoteEditor.Loaded` | frontend/src/components/NoteEditorClient.tsx:32-48 | loading ends; the client is sent home exactly when a fetch failed; a fetched note's title, content and flag are taken over, the user name only when both fetches succeeded; nothing else changes |
| `NoteEditor.SocketOpened` | frontend/src/components/NoteEditorClient.tsx:51-58 | a socket exists afterwards exactly when one existed or a user name is known; nothing else changes |
| `NoteEditor.Connected` | frontend/src/components/NoteEditorClient.tsx:60-63 | with a socket, `join-note` with the note id and user name is appended to the outbox; without one nothing changes |
| `NoteEditor.ContentChanged` | frontend/src/components/NoteEditorClient.tsx:122-128 | the content becomes the new one, `edit-note` is appended only when a socket exists, the timer slot holds the new content with the current title, and no update call is made |
| `NoteEditor.TitleChanged` | frontend/src/components/NoteEditorClient.tsx:131-138 | the title becomes the new one, `edit-title` is appended only when a socket exists, the timer slot holds the current content with the new title, and no update call is made |
| `NoteEditor.EditorChanged` | frontend/src/components/Editor.tsx:93-106 | while the remote-update flag is raised nothing changes; otherwise the content and the armed draft take the editor's JSON; the flag, the title and the update calls are never touched |
| `NoteEditor.TimerFired` | frontend/src/components/NoteEditorClient.tsx:111-119 | the slot ends empty; an armed draft yields exactly one update call with its title and content; an empty slot changes nothing; content, title and outbox are untouched |
| `NoteEditor.PublicToggled` | frontend/src/components/NoteEditorClient.tsx:141-152 | one update call with the opposite flag is made either way; the flag flips and is relayed (when a socket exists) only on success; nothing else changes |
| `NoteEditor.ReceiveChanges` | frontend/src/components/NoteEditorClient.tsx:66-84 | remote content replaces the local content and raises the remote-update flag; nothing is emitted, saved or re-armed |
| `NoteEditor.RemoteUpdateSettled` | frontend/src/components/NoteEditorClient.tsx:81-83 | the remote-update flag is cleared and nothing else changes |
| `NoteEditor.ReceiveTitle` | frontend/src/components/NoteEditorClient.tsx:87-90 | a remote title replaces the local title and nothing else changes |
| `NoteEditor.ReceivePublicStatus` | frontend/src/components/NoteEditorClient.tsx:93-96 | a remote visibility replaces the local flag and nothing else changes |
| `NoteEditor.ReceiveActiveUsers` | frontend/src/components/NoteEditorClient.tsx:99-102 | the roster is replaced whole and nothing else changes |
| `NoteEditor.Relays` | frontend/src/components/NoteEditorClient.tsx:122-138 | one relay message per local edit |
| `NoteEditor.FirstLetters` | frontend/src/components/NoteEditorClient.tsx:171 | one first letter per word |
| `NoteEditor.FirstLetter` | frontend/src/components/NoteEditorClient.tsx:171 | the first letter is the word's first character, and "" exactly for an empty word |
| `NoteEditor.Initials` | frontend/src/components/NoteEditorClient.tsx:169-173 | the initials are never longer than the name and never hold a space |
| `NoteEditor.RosterInitials` | frontend/src/components/NoteEditorClient.tsx:163-173 | one initials string per roster entry, in roster order |
| `NoteEditor.BurstEffect` | frontend/src/components/NoteEditorClient.tsx:122-138 | after a burst of edits, content and title are the last edit of each kind, the one timer slot holds both, every edit was relayed once and in order, and no update call was made |
| `NoteEditor.BurstSavesOnce` | frontend/src/components/NoteEditorClient.tsx:111-138 | a burst of any length followed by the timer yields exactly one update call, carrying the last title and the last content |
| `NoteEditor.NoRetryAfterFiring` | frontend/src/components/NoteEditorClient.tsx:111-119 | firing empties the slot, so a failed save is never retried and firing twice saves once |
| `NoteEditor.EditRelayedImmediately` | frontend/src/components/NoteEditorClient.tsx:122-138 | each local edit emits exactly one relay message with the new value at once, with no update call |
| `NoteEditor.TogglePublicEffect` | frontend/src/components/NoteEditorClient.tsx:141-152 | the toggle requests the opposite flag at once; success flips it and relays it, failure changes neither; the auto-save slot is untouched |
| `NoteEditor.RemoteLastWriterWins` | frontend/src/components/NoteEditorClient.tsx:66-102 | after any stream of remote updates each field holds the last value received for it, the roster is replaced whole, and nothing is emitted, saved or re-armed |
| `NoteEditor.PendingSaveIgnoresRemoteUpdates` | frontend/src/components/NoteEditorClient.tsx:122-128 | an armed save writes the local edit even when remote content arrived before it fired |
| `NoteEditor.RemoteContentNotEchoed` | frontend/src/components/Editor.tsx:93-106 | while a remote update is applied, no editor change callback relays, re-arms the save or alters the content |
| `NoteEditor.LocalChangeAfterSettle` | frontend/src/components/NoteEditorClient.tsx:81-83 | once the flag is cleared, an editor change is a local content edit again |
| `NoteEditor.FirstLettersAreWordStarts` | frontend/src/components/NoteEditorClient.tsx:169-172 | the joined first letters of the split words are the characters that begin a word |
| `NoteEditor.InitialsAreWordStarts` | frontend/src/components/NoteEditorClient.tsx:169-173 | the initials are the upper-cased first characters of the space-separated words, in order |
| `NoteEditor.InitialsAtMostOnePerWord` | frontend/src/components/NoteEditorClient.tsx:169-173 | there are never more initials than words |
| `NoteEditor.NoteEditorClient.constructor` | frontend/src/components/NoteEditorClient.tsx:16-29 | the editor starts loading, empty, private, with no socket and no timer |
| `NoteEditor.NoteEditorClient.Load` | frontend/src/components/NoteEditorClient.tsx:32-48 | the fetched fields are taken over; a failed fetch sends the client home; loading ends either way |
| `NoteEditor.NoteEditorClient.OpenSocket` | frontend/src/components/NoteEditorClient.tsx:51-58 | a socket is created only once a user name is known |
| `NoteEditor.NoteEditorClient.OnConnect` | frontend/src/components/NoteEditorClient.tsx:60-63 | each connect emits `join-note` with the note id and user name |
| `NoteEditor.NoteEditorClient.EmitIfConnected` | frontend/src/components/NoteEditorClient.tsx:124 | a message is emitted only when a socket exists |
| `NoteEditor.NoteEditorClient.HandleContentChange` | frontend/src/components/NoteEditorClient.tsx:122-128 | content is set, `edit-note` emitted, and the timer slot replaced by the new content with the current title |
| `NoteEditor.NoteEditorClient.HandleTitleChange` | frontend/src/components/NoteEditorClient.tsx:131-138 | title is set, `edit-title` emitted, and the timer slot replaced by the current content with the new title |
| `NoteEditor.NoteEditorClient.OnEditorChange` | frontend/src/components/Editor.tsx:93-106 | an editor change is a content edit unless a remote update is being applied |
| `NoteEditor.NoteEditorClient.AutoSaveTimerFired` | frontend/src/components/NoteEditorClient.tsx:111-119 | one update call with the armed draft; the slot is emptied whatever the outcome |
| `NoteEditor.NoteEditorClient.TogglePublic` | frontend/src/components/NoteEditorClient.tsx:141-152 | the toggle transition on the component's fields |
| `NoteEditor.NoteEditorClient.OnReceiveChanges` | frontend/src/components/NoteEditorClient.tsx:66-84 | remote content replaces the local content and raises the remote-update flag |
| `NoteEditor.NoteEditorClient.OnRemoteUpdateSettled` | frontend/src/components/NoteEditorClient.tsx:81-83 | the zero-delay timer clears the remote-update flag |
| `NoteEditor.NoteEditorClient.OnReceiveTitle` | frontend/src/components/NoteEditorClient.tsx:87-90 | a remote title replaces the local title |
| `NoteEditor.NoteEditorClient.OnReceivePublicStatus` | frontend/src/components/NoteEditorClient.tsx:93-96 | a remote visibility replaces the local flag |
| `NoteEditor.NoteEditorClient.OnActiveUsers` | frontend/src/components/NoteEditorClient.tsx:99-102 | the roster is replaced whole |
| `NoteController.Find` | backend/src/controllers/noteController.ts:6 | a query returns exactly the stored notes its filter matches, unchanged |
| `NoteController.FindOne` | backend/src/controllers/noteController.ts:13 | a query by id returns the note with that id exactly when the rest of the filter matches it |
| `NoteController.GetPublicNotes` | backend/src/controllers/noteController.ts:5-8 | exactly the notes whose flag is public |
| `NoteController.GetPublicNoteById` | backend/src/controllers/noteController.ts:11-18 | the note only when it exists and is public; a private note gets the same 404 as a missing one |
| `NoteController.GetNotes` | backend/src/controllers/noteController.ts:21-25 | exactly the notes the requester wrote |
| `NoteController.GetNote` | backend/src/controllers/noteController.ts:28-33 | the note only when both id and author match; otherwise `null`, not 404 |
| `NoteController.Create` | backend/src/controllers/noteController.ts:36-44 | a note is stored under a fresh id, written by the requester, private unless the body says otherwise; a missing or empty title or content stores nothing |
| `NoteController.Update` | backend/src/controllers/noteController.ts:48-62 | only the requester's note with the id changes: title, content and update time, never visibility or author; otherwise 404 and the table is unchanged |
| `NoteController.Delete` | backend/src/controllers/noteController.ts:65-74 | only the requester's note with the id is removed; otherwise 404 and the table is unchanged |
| `NoteController.OtherUsersNotesUntouched` | backend/src/controllers/noteController.ts:48-74 | an update or delete by one user leaves every other user's notes as they were |
| `NoteController.UpdateKeepsPublicSet` | backend/src/controllers/noteController.ts:53-59 | an update never changes which notes are public |
| `NoteController.CreatedNoteIsOwn` | backend/src/controllers/noteController.ts:36-44 | a created note is readable by its author, joins their list, is hidden from others, and is private by default |
| `NoteController.DeletedNoteIsGone` | backend/src/controllers/noteController.ts:65-74 | a deleted note is gone from every query |
| `NoteController.NoteCollection.CreateNote` | backend/src/controllers/noteController.ts:36-44 | the collection performs `Create` with a fresh id |
| `NoteController.NoteCollection.UpdateNote` | backend/src/controllers/noteController.ts:48-62 | the collection performs `Update` |
| `NoteController.NoteCollection.DeleteNote` | backend/src/controllers/noteController.ts:65-74 | the collection performs `Delete` |

## Left out

- The server-side room registry and relay. The server's socket handler only logs connects and disconnects (backend/src/index.ts:51-57). The model covers only the client's side of the message stream: an outbox, and inbound events as steps.
- The socket transport, real timers and React scheduling. Timers are explicit steps, and state updates apply one after another. A handler's closure reads the current `title` or `content`; stale-closure interleavings are not modelled.
- Alerts, `console` output, `confirm` and navigation. The user's confirmation is a boolean input. "Sent home" is a flag.
- Lexical and `JSON.parse`. The parsed document, or the parse failure, is an input. Applying remote content to the editor (`parseEditorState`/`setEditorState`) is not modelled. Nor are JSON documents other than an object or `null`, and `null` entries inside `children`.
- `NotesPage.PlainText`: treats every top-level block and child as an object. A `null` entry would throw and show "Invalid content".
- Authentication: the `protect` middleware, token issuing and refreshing, and the login and signup pages. The requester's id is a parameter.
- `NoteController.Update`: takes title and content as supplied strings. The clients' visibility requests send only `public`. What Mongoose does with the missing title and content in that case is library behaviour and is not modelled.
- `NoteController.Create`: follows Mongoose's documented rule that `required` rejects a missing or empty string. The failure goes to an error handler (backend/src/middlewares/errorMiddleware.ts is not part of this model). Under that rule the home page's create request, which sends empty content, is rejected.
- `NoteController.Create`: the body's `public` is absent or a boolean. A JSON `null` skips the destructuring default and would reach Mongoose as `null`; no client sends `public` on create, so that case is not modelled.
- `NoteController.GetPublicNotes`: returns the matching notes as a map keyed by id, not as the database's ordered array.
- `NoteController.GetNotes`: returns a map keyed by id, like `GetPublicNotes`.
- Database ids are naturals handed out by a counter. A malformed id in a request, which Mongoose rejects before querying, is not modelled.
- The home page's `handleCreateNote`: it is an API call followed by navigation.
- The socket cleanup when the editor unmounts.
- The stale `CollaborativeNoteEditor` and `EditorUpdaterPlugin` components, and the HTTP wrappers under frontend/src/api.
- `JsText.UpperChar`, `JsText.ToUpper` and `NoteEditor.Initials`: model ASCII letters only, so upper-casing keeps the length. JavaScript's full Unicode upper-casing can change a string's length (e.g. "ß" becomes "SS").
- `JsText.Slice` and `NoteEditor.FirstLetter`: count characters, not UTF-16 code units.
- `NoteEditor.TimerFired`: has no success or failure input. A failed auto-save is only logged, so both outcomes leave the same state.
