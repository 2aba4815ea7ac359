# Project workspace: membership service and collaborative screen

This project models the two stateful parts of a collaborative project
workspace, in which users share a project, chat, ask an AI assistant to
write a file tree, edit the files and run them in an in-browser sandbox.

- **Membership service** (`backend/services/project.service.js`). A store of
  project documents, kept as a map from project id to a record with a name,
  an ordered member list and a file tree. `createProject` checks its inputs
  and stores a project whose only member is the creator.
  `getAllProjectsByUserId` lists the projects a user belongs to.
  `addUsersToProject` runs six ordered guards, then an access check (the
  caller must be a member), then a `$addToSet`/`$each` update of that one
  project's member list. The guard chains and the store transitions are pure
  functions (`CreateCheck`, `AddUsersCheck`, `CreateOutcome`, `ListProjects`,
  `AddUsersOutcome`). The class `ProjectStore` holds the map, and its methods
  are proved to leave it exactly as those functions say.
- **Workspace screen** (`frontend/src/screens/Project.jsx`). The class
  `Workspace.ProjectScreen` has the screen's state as fields: the selection, the
  draft, the message list, the file tree, the current and open files, the
  sandbox, the run process and the preview URL. It also records two things
  the screen sends out: the messages emitted on the socket (`sent`) and the
  trees saved to the server (`saved`). Each handler is a method. The run
  process is a `Process` object with a `killed` flag. The invariant
  `SingleLiveRun` says that every run process the screen started, except the
  current one, has been killed. The pure parts are separate functions:
  `renderContent`, `writeAiMessage`, the label of a property name, the
  selection toggle and the open-file list.

Modules: `Wrappers` (Option, Result), `UniqueSeq` (sequences used as ordered
sets, and `AppendMissing`: Mongo's `$addToSet` with `$each`, which is also
JavaScript's `[...new Set(xs)]`), `JsonValue` (JSON values, truthiness,
property lookup and the `{...obj, [k]: v}` update), `Messages`, `Render`,
`ProjectService`, `Workspace` and `RunRace` (the finding below).

Abstract collaborators are parameters. `mongoose.Types.ObjectId.isValid` is
the store's `isValid: Id -> bool`. `JSON.parse` is the screen's
`parse: string -> Option<Json>`, where `None` means that it throws. The id
the database gives a new document is the `newId` argument, which must not be
in use yet.

Four behaviours of the code that the model keeps as written:
- Members are an ordered array, not an unordered set.
- Saving a file tree is a plain request per change. There is no serialised
  write queue.
- An AI message whose text does not parse as JSON makes the receive handler
  throw, so the message is dropped. No error message is shown.
- The run button mounts the tree and spawns `npm install` first. Only then
  does it kill the previous run process, before it spawns `npm start`.

## Model

| member | source | states |
|---|---|---|
| `ProjectService.ErrorMessage` | backend/services/project.service.js:6-64 | every error is thrown with a non-empty message |
| `ProjectService.ErrorMessagesDistinct` | backend/services/project.service.js:6-64 | two different errors never share a message |
| `ProjectService.Missing` | backend/services/project.service.js:5-8 | `!x` on a string argument: true when the argument is absent, and otherwise exactly when the string is not truthy (the empty string) |
| `ProjectService.AddedUsersPassIdCheck` | backend/services/project.service.js:35-56 | after a successful call, every member the call added passes `ObjectId.isValid`, and so do the project id and the caller's id |
| `ProjectService.HasAccess` | backend/services/project.service.js:58-65 | for a non-empty caller id, the caller has access exactly when the project is in the caller's listing |
| `ProjectService.CreateCheck` | backend/services/project.service.js:4-10 | "Name is required" exactly when the name is absent or empty; "UserId is required" exactly when the name is present and the user id is missing; no error otherwise |
| `ProjectService.CreateOutcome` | backend/services/project.service.js:4-18 | a failed guard throws its error and leaves the store unchanged; otherwise exactly one project is added, under the new id, with the given name, member list exactly `[userId]` and an empty tree, and the others are kept; each project stays filed under its own id and each member list has no repeats |
| `ProjectService.ProjectStore.constructor` | backend/services/project.service.js:2 | the store starts empty and well formed |
| `ProjectService.ProjectStore.CreateProject` | backend/services/project.service.js:4-18 | the result and the new store are those of `CreateOutcome`; the store stays well formed |
| `ProjectService.ListProjects` | backend/services/project.service.js:20-28 | "UserId is required" exactly when the id is missing; otherwise exactly the projects whose member list holds the id, with their stored records |
| `ProjectService.ProjectStore.GetAllProjectsByUserId` | backend/services/project.service.js:20-28 | returns `ListProjects` of the current store and changes nothing |
| `ProjectService.CreatorSeesProject` | backend/services/project.service.js:12-27 | after a successful create, the creator's listing contains the new project |
| `UniqueSeq.AppendMissing` | backend/services/project.service.js:67-81 | `$addToSet`/`$each`: the old list is kept as a prefix (same members, same order); the result holds exactly the old members and the given ids; a list without repeats stays without repeats |
| `UniqueSeq.AppendMissingAbsorbs` | backend/services/project.service.js:72-76 | adding ids that are all members already leaves the list unchanged |
| `UniqueSeq.AppendMissingIdempotent` | backend/services/project.service.js:72-76 | adding the same ids a second time changes nothing |
| `ProjectService.AddUsersCheck` | backend/services/project.service.js:30-56 | the first failing guard decides the error, in the order: project id missing, project id invalid, users missing, users not an array or holding an invalid id, caller id missing, caller id invalid; no error exactly when all pass |
| `ProjectService.AddUsersOutcome` | backend/services/project.service.js:30-84 | every error leaves the store unchanged; "no access" exactly when the guards pass but the project is missing or the caller is not a member; on success only that project changes, its name and tree are kept, the old members stay a prefix, and it holds exactly the old members plus the given ids; the updated project is returned; the store stays without repeated members |
| `ProjectService.ProjectStore.AddUsersToProject` | backend/services/project.service.js:30-84 | the result and the new store are those of `AddUsersOutcome`; the store stays well formed |
| `ProjectService.AddUsersIdempotent` | backend/services/project.service.js:58-81 | repeating a successful call with the same arguments succeeds again, returns the same project and leaves the store as it was |
| `ProjectService.AddedUsersSeeProject` | backend/services/project.service.js:67-81 | after a successful call, each added user and the caller find the project in their listing |
| `UniqueSeq.Remove` | frontend/src/screens/Project.jsx:56-57 | `Set.delete`: exactly the other elements remain, one fewer when the element was there, and nothing changes when it was not |
| `Workspace.Toggle` | frontend/src/screens/Project.jsx:53-64 | the clicked id is selected afterwards exactly when it was not selected before; every other id keeps its state; no id is selected twice |
| `Workspace.ToggleTwice` | frontend/src/screens/Project.jsx:53-64 | two clicks on the same id restore the selected set; an id that was not selected leaves the selection exactly as it was; one that was selected moves to the end of the insertion order |
| `Workspace.OpenedFiles` | frontend/src/screens/Project.jsx:346 | the open-file list after a click holds exactly the files open before plus the clicked one, each once |
| `Workspace.OpenedFilesSpec` | frontend/src/screens/Project.jsx:344-347 | the clicked file is appended only if it is not open yet, the order of the others is kept, and a second click changes nothing |
| `Workspace.FileNode` | frontend/src/screens/Project.jsx:448-455 | the edited node reads back the new text under `file.contents` |
| `JsonValue.Keys` | frontend/src/screens/Project.jsx:340 | `Object.keys`: one name per property, in order |
| `JsonValue.Truthy` | frontend/src/screens/Project.jsx:153 | a value is falsy exactly when it is `null`, `false`, `0` or the empty string; arrays and objects are truthy |
| `JsonValue.Get` | frontend/src/screens/Project.jsx:153 | property access on a non-object gives nothing; on an object it finds a value exactly when the name is a key, and the value is stored under that name |
| `JsonValue.Upsert` | frontend/src/screens/Project.jsx:448-455 | `{...obj, [k]: v}`: the entry `k: v` is present, every other entry stays at its position, the old names keep their positions, and the object grows by one entry only when `k` was absent |
| `JsonValue.Lookup` | frontend/src/screens/Project.jsx:439 | property access finds a value exactly when the name is among the object's keys, and the value is stored under that name |
| `JsonValue.UpsertSpec` | frontend/src/screens/Project.jsx:448-455 | after `{...tree, [key]: value}` the key reads the new value, every other name reads what it read before, and the names keep their order (a new name goes last) |
| `JsonValue.UpsertIdempotent` | frontend/src/screens/Project.jsx:448-455 | storing the same value under the same key twice gives the same tree as once |
| `Workspace.CarriedTree` | frontend/src/screens/Project.jsx:153-156 | a payload that is not an object, or has no `fileTree` property, carries no tree; when the property is there, a tree is carried exactly when its value is truthy; a carried tree is truthy and is stored in the payload under `fileTree` |
| `Workspace.KeyOf` | frontend/src/screens/Project.jsx:439 | indexing the tree by `currentFile` uses the file name, and the name `"null"` when no file is current, which is also the key of a file named `"null"` and of no other file |
| `Workspace.ProjectScreen.EditorShown` | frontend/src/screens/Project.jsx:439 | the editor is shown only when the tree is an object with a key for the current file whose value is truthy |
| `Workspace.ProjectScreen.constructor` | frontend/src/screens/Project.jsx:34-47 | the screen's initial state: nothing selected, empty draft, no messages, tree `{}`, no current file, no open files, no sandbox, no run process, no preview |
| `Workspace.ProjectScreen.HandleUserClick` | frontend/src/screens/Project.jsx:53-64 | the selection becomes `Toggle` of the old one; nothing else changes |
| `Workspace.ProjectScreen.TypeDraft` | frontend/src/screens/Project.jsx:289 | the draft becomes the typed text; nothing else changes |
| `Workspace.ProjectScreen.Send` | frontend/src/screens/Project.jsx:81-90 | exactly one message from the user with the old draft is emitted and appended at the end of the list; the draft becomes empty |
| `Workspace.ProjectScreen.ReceiveMessage` | frontend/src/screens/Project.jsx:145-161 | a non-AI message is appended; AI text that does not parse, or parses to `null`, throws and changes nothing; otherwise the message is appended, and a carried tree replaces the tree whole and is saved, while without one the tree and saves are unchanged |
| `Workspace.ProjectScreen.LoadProject` | frontend/src/screens/Project.jsx:163-168 | the fetched tree, or `{}` when it is falsy, becomes the tree |
| `Workspace.ProjectScreen.OpenFile` | frontend/src/screens/Project.jsx:344-347 | the clicked file becomes current and is appended to the open files only if absent, with no repeats ever |
| `Workspace.ProjectScreen.SelectTab` | frontend/src/screens/Project.jsx:382-384 | a tab click makes that file current and changes nothing else |
| `Workspace.ProjectScreen.EditFile` | frontend/src/screens/Project.jsx:439-458 | the new tree equals the old one except that the current file's key maps to `{file: {contents}}`; the key order is kept; that same tree is stored and saved |
| `Workspace.ProjectScreen.ClearFileTree` | frontend/src/screens/Project.jsx:195-222 | a run process, if any, is killed and dropped, so no run process is live; then the tree is `{}`, with no current file, no open files and no preview, and `{}` is saved |
| `Workspace.ProjectScreen.ContainerBooted` | frontend/src/screens/Project.jsx:138-143 | the booted sandbox is kept when none was there |
| `Workspace.ProjectScreen.Run` | frontend/src/screens/Project.jsx:392-423 | without a sandbox nothing changes: the run process, its `killed` flag, the set of started runs and the trace stay as they were; otherwise the tree is mounted, `npm install` is spawned, the previous run process is killed, and `npm start` is spawned and kept, in that order; the new process is the only live run process |
| `Workspace.ProjectScreen.ServerReady` | frontend/src/screens/Project.jsx:425-428 | the preview shows the reported URL |
| `Workspace.AtMostOneLiveRun` | frontend/src/screens/Project.jsx:407-423 | in every valid state at most one run process is live, and it is the current one |
| `Render.ReplaceFirst` | frontend/src/screens/Project.jsx:108 | only the first occurrence of the character is replaced; the length and all other characters are kept |
| `Render.Upper` | frontend/src/screens/Project.jsx:108 | `toUpperCase`: same length, no ASCII lower-case letter left, each lower-case letter replaced by its capital (code point minus 32), every other character kept |
| `Render.UpperIdempotent` | frontend/src/screens/Project.jsx:108 | upper-casing an already upper-cased label changes nothing |
| `Render.Label` | frontend/src/screens/Project.jsx:108 | the label has no ASCII lower-case letter; the first underscore becomes a space; later underscores stay; every other character is upper-cased in place |
| `Render.RenderContent` | frontend/src/screens/Project.jsx:92-116 | a string becomes a paragraph of that text; an array becomes a list with one item per element; an object becomes one labelled field per property, in order, each with the key's label; anything else becomes "Unsupported content type" |
| `Render.RenderTexts` | frontend/src/screens/Project.jsx:92-116 | the paragraphs of the rendering are exactly the value's strings, in order, with the notice for each null, boolean or number: no text is lost, invented or reordered |
| `Render.WriteAiMessage` | frontend/src/screens/Project.jsx:118-133 | text that does not parse is shown as a plain paragraph of itself; parsed text is shown as the rendering of the parsed value |
| `Render.AiMessageTexts` | frontend/src/screens/Project.jsx:118-133 | the reader sees the raw text when it does not parse, and the parsed value's strings otherwise |
| `Render.RenderMessage` | frontend/src/screens/Project.jsx:266-282 | messages from others are shown as plain text; AI messages go through `writeAiMessage` |
| `RunRace.FinishAsWritten` | frontend/src/screens/Project.jsx:392-423 | the rest of a click as written: the process seen at the start of the click is killed, and a new one is spawned and becomes current |
| `RunRace.OverlappingRunsLeak` | frontend/src/screens/Project.jsx:407-423 | as written, two overlapping clicks leave two live run processes, and the first is no longer referenced |
| `RunRace.TwoQuickClicksOnFreshScreen` | frontend/src/screens/Project.jsx:407-423 | the smallest instance: processes 0 and 1 both stay live |
| `RunRace.KillingCurrentBeforeSpawnStillLeaks` | frontend/src/screens/Project.jsx:407-423 | killing the process current at the kill (line 408) instead of the captured one still leaks: the `npm start` spawn is awaited before `setRunProcess`, so a second click in that wait kills the old process again and the first click's new process stays live |
| `RunRace.Adopt` | frontend/src/screens/Project.jsx:411-423 | the corrected last step, after the `npm start` spawn has resolved: the process current at that moment is killed and the new handle stored, in one synchronous step; the other live processes are kept |
| `RunRace.FinishCorrected` | frontend/src/screens/Project.jsx:407-423 | a corrected click with nothing in between leaves only the new process live |
| `RunRace.AccountedIdle` | frontend/src/screens/Project.jsx:407-423 | with no click in flight, the corrected handler's invariant is exactly "only the current run process is live" |
| `RunRace.SpawnKeepsAccounted` | frontend/src/screens/Project.jsx:411 | a resolving spawn keeps the invariant, adding its handle to those not yet adopted |
| `RunRace.AdoptKeepsAccounted` | frontend/src/screens/Project.jsx:407-423 | with the correction, adopting a resolved handle keeps the invariant, so under any interleaving of clicks every live process is the current one or one not yet adopted |
| `RunRace.CorrectedOverlappingClicks` | frontend/src/screens/Project.jsx:407-423 | the two overlapping clicks that leak as written leave, corrected, only the second click's process live and current |
| `RunRace.CorrectedKeepsSingleLive` | frontend/src/screens/Project.jsx:407-423 | with the correction, any number of clicks finishing one after another keep exactly one live run process, the current one |

## Left out

- The database calls (`create`, `find`, `findOne`, `findOneAndUpdate`) are replaced by the map. The gap between the access check and the update can let another request act in between. That is a concurrency concern and is not modelled.
- The project schema is not part of this model. The model assumes a new project's tree starts as `{}`; the screen itself allows for a missing tree (`fileTree || {}` when it loads a project). A new document's id is the `newId` argument.
- The model assumes the name is stored exactly as given: no schema normalisation (trimming, lower-casing) and no uniqueness constraint on names.
- Arguments that are neither absent nor strings (a number for `name`, say) are not modelled. Any falsy `users` value is `Absent`, and any truthy non-array is `NotAnArray`.
- The controllers, routes, app wiring and axios configuration are not part of this model. `getProjectById` and `updateFileTree`, which the controller calls, are not part of this model either.
- The socket transport and the HTTP calls are not modelled as I/O. Emitted messages are recorded in `sent` and saved trees in `saved`. `addCollaborators` (a PUT of the selection) and the fetch of `/users/all` are left out.
- The sandbox is abstract: a `Container` with a mounted tree and a list of spawned `Process` objects. Output streams, the `server-ready` listeners (one more on each run) and process exit are not modelled. A spawn that fails is not modelled either.
- The receive handler's `webContainer?.mount(...)` is left out. Its closure holds the screen's first `webContainer`, which is `null`, so the call never runs.
- JSON numbers are integers here: floating point and `NaN` are not modelled. `JSON.parse` is the `parse` parameter.
- `toUpperCase` is modelled for the ASCII letters only; other case mappings (such as `ß` to `SS`) are not.
- `JsonValue.Lookup`: a `Json` object may hold a repeated key, and lookup takes its first entry, whereas `JSON.parse` keeps the last; parsed objects are taken to have distinct keys, and objects the model builds itself (`Upsert`, `FileNode`) never repeat a key they did not already hold.
- JavaScript lists integer-like property names first in numeric order; the model keeps insertion order for all names.
- A tree that is a truthy non-object (a string or an array sent as `fileTree`) is stored as is. Its index properties (`"0"`, `"1"`, ...) are not modelled, so the editor is never shown for it.
- JSX markup, syntax highlighting, scrolling, the modal and the side panel are left out.
- `Workspace.ProjectScreen.Run` runs one click to completion. With nothing in between, the process its closure saw is the current one. The overlapping case is the finding below.

## Findings

| source | as written | input that shows it | evidently intended | confidence | as-written member | corrected member |
|---|---|---|---|---|---|---|
| frontend/src/screens/Project.jsx:407-423 | the run handler kills the `runProcess` it captured when the click began, after awaiting the mount and the `npm install` spawn | two clicks on "run" with the second during the first one's awaits; both kill the same old process, and the first click's `npm start` is never killed | at most one live run process once the clicks have finished: after the `npm start` spawn resolves, kill the process current at that moment and store the new one in the same synchronous step (for example inside a functional `setRunProcess` update); killing the current process at line 408 instead still leaks, because the spawn at line 411 is awaited before the store | medium, not executed | `RunRace.OverlappingRunsLeak` | `RunRace.AdoptKeepsAccounted` |
