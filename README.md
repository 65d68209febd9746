# Admin dashboard: records, terminal and settings

This project is a Dafny model of the logic behind an admin dashboard. The dashboard has two halves:

- a React front end: the terminal panel, the log viewer, the user, news and file managers, and the server settings form;
- an axum back end: in-memory stores for news, users, files, logs and the terminal scrollback.

Both halves keep the same record shapes in memory. Each operation is a plain sequence or map update.

Each source file is one module:

| module | file | form |
|---|---|---|
| `TerminalServer` | `src/terminal.rs` | class `TerminalStore` |
| `TerminalPanel` | `src/components/Terminal.tsx` | class `Terminal`, with pure `Resolve`, `Up` and `Down` |
| `NewsServer` | `src/news.rs` | class `NewsStore` |
| `UsersServer` | `src/users.rs` | class `UsersStore` |
| `FilesServer` | `src/files.rs` | class `FsStore` over an id-to-node map |
| `LogsServer` | `src/logs.rs` | class `LogsStore` |
| `LogsViewer` | `src/components/LogsViewer.tsx` | class `LogsViewer` |
| `UserManager` | `src/components/UserManager.tsx` | class `UserManager` |
| `NewsManager` | `src/components/NewsManager.tsx` | class `NewsManager` |
| `FileManager` | `src/components/FileManager.tsx` | class `FileManager` |
| `ServerSettings` | `src/components/ServerSettings.tsx` | class `ServerSettings` |

Shared modules:

- `Wrappers`: `Option`, `Choice` (`'all'` or one value) and `Status` (HTTP result codes).
- `Text`: trimming, lower-casing, substring search, prefixes and decimal rendering of clock values.
- `Seqs`: order-preserving `Filter` (`retain`, `.filter`), `Count` (`.filter(..).count()`, shared by the level and status statistics), `FindIndex` (`iter_mut().find`) and `MapWhere` (`.map` with a conditional), with their lemmas.
- `Kinds`: the shared enumerations.
- `TerminalLines`: the scrollback line record.
- `LogRecords`: the log entry and its level counts.

React component state becomes class fields. Each event handler becomes a method whose `ensures` gives the complete new state.

Derived state is kept as a class invariant:

- a `useEffect` recomputes the log viewer's `filteredLogs` after every change, so the invariant is that `filteredLogs` is the filter of `logs`;
- a view computed on every render (`filteredUsers`, `filteredArticles`, `filteredFiles`) is a pure function of the state.

The filter predicates (`LogsViewer.SearchMatches`, `LevelMatches`, `CategoryMatches`, `NewsServer.QueryMatches`, `EffectiveLimit`, `UserManager.SearchMatches`, `Visible`) carry no contract of their own. Their bodies state the source's filter conditions, and they are the vocabulary of the filter rows in the table below.

Inputs that come from outside the model are parameters:

- clocks (`Date.now()`, `Utc::now()`) and generated ids (`Uuid::new_v4()`);
- the randomly chosen level and category of an auto-refreshed log entry;
- which delayed terminal callback runs next.

Behaviour worth knowing:

- **Terminal `clear` is delayed.** In the panel, `clear` is handled inside the delayed callback. The scrollback empties only when that callback runs, and the command's own echo line goes with it. The model follows the code.
- **Which records an edit reaches.** The Rust stores change only the first record with the id (`iter_mut().find`). The React screens change every record with the id (`.map`). Ids are not checked for uniqueness.
- **Where new records go.** New records are prepended everywhere except in `FileManager`, which appends.
- **News excerpts.** The back end takes 120 characters of the markdown. The front end takes 100 characters of `markdownContent || content` and adds `"..."`.
- **The server's `help` text.** It lists `ls` and `date`, but `exec_command` answers both with the "not found" error line (`HelpListsUnhandledCommands`).
- **Saving settings.** The form's inputs stay enabled while a save is pending. The end of the save clears `hasChanges` even when fields were edited in the meantime (`FinishSave`).

## Model

| member | source | states |
|---|---|---|
| TerminalLines.WelcomeLines | src/terminal.rs:13-18 | exactly two lines, ids "1" and "2", both of kind output, with the welcome and hint texts |
| TerminalLines.CommandLine | src/terminal.rs:32 | the echo is a command line whose content is "$ " followed by exactly the given text |
| TerminalServer.DispatchCommand | src/terminal.rs:34-40 | clear (and only clear) empties the scrollback; pwd, whoami and help (and only those) reply with an output line, namely "/home/user/project", "admin" and the help text; anything else replies with an error line "Команда не найдена: " + command |
| TerminalServer.HelpListsUnhandledCommands | src/terminal.rs:37-39 | the server's help text mentions ls and date, yet both get the not-found error line |
| TerminalServer.TerminalStore.NewWelcome | src/terminal.rs:13-18 | the store starts with the two welcome lines |
| TerminalServer.TerminalStore.GetHistory | src/terminal.rs:24-26 | returns the scrollback and changes nothing |
| TerminalServer.TerminalStore.ExecCommand | src/terminal.rs:28-44 | echoes the untrimmed request and dispatches on the trimmed one; clear leaves no lines and answers 204; otherwise exactly two lines are appended after the unchanged old lines, answering 200 |
| TerminalPanel.MockCommand | src/components/Terminal.tsx:16-37 | a dictionary entry exists only for commands the help text advertises, and every entry except `date` is non-empty |
| TerminalPanel.Resolve | src/components/Terminal.tsx:91-131 | clear iff clearing; top and netstat give their fixed output texts; non-empty dictionary entries give one output line; an error line, with the prefix and the command, exactly for every other command |
| TerminalPanel.ResolveDictionary | src/components/Terminal.tsx:117-118 | a dictionary command resolves to its dictionary text as an output line |
| TerminalPanel.AdvertisedCommandsHandled | src/components/Terminal.tsx:16-37 | every command the panel's help lists resolves to output or to clearing, never to the error line |
| TerminalPanel.Up | src/components/Terminal.tsx:140-146 | ArrowUp keeps the cursor in [-1, \|history\|-1] and is a no-op at the oldest entry |
| TerminalPanel.Down | src/components/Terminal.tsx:147-156 | ArrowDown keeps the cursor in range, does nothing at -1, from 0 leaves browsing with an empty input, and from any index above 0 steps one newer and shows `history[|history| - index]` |
| TerminalPanel.Ups | src/components/Terminal.tsx:140-146 | any number of ArrowUp presses keeps the cursor in range |
| TerminalPanel.UpsClimb | src/components/Terminal.tsx:142-145 | while there is room, k presses move the cursor k entries older and show that entry |
| TerminalPanel.UpsFromFresh | src/components/Terminal.tsx:142-145 | from -1, k presses (k ≤ \|history\|) show history[\|history\|-k] |
| TerminalPanel.UpsSaturate | src/components/Terminal.tsx:142 | more presses than entries stay on the oldest entry |
| TerminalPanel.UpsFromFreshThenStay | src/components/Terminal.tsx:142 | presses beyond \|history\| change nothing |
| TerminalPanel.UpsAppend | src/components/Terminal.tsx:140-146 | k+1 presses are k presses followed by one more |
| TerminalPanel.DownUndoesUp | src/components/Terminal.tsx:140-156 | ArrowDown after a moving ArrowUp restores the cursor, and shows that entry again or the empty input |
| TerminalPanel.ThreeCommandWalk | src/components/Terminal.tsx:137-158 | with three commands, Up shows them newest first, a fourth Up is a no-op, and Down walks back to the empty input |
| TerminalPanel.Terminal.constructor | src/components/Terminal.tsx:39-55 | two welcome lines, empty input and history, cursor -1 |
| TerminalPanel.Terminal.SetCurrentCommand | src/components/Terminal.tsx:240 | only the input text changes |
| TerminalPanel.Terminal.ExecuteCommand | src/components/Terminal.tsx:72-88 | blank input changes nothing; otherwise the trimmed command is appended to history, the cursor resets to -1, one "$ " echo line is appended, the command is scheduled and the input is emptied |
| TerminalPanel.Terminal.ResolvePending | src/components/Terminal.tsx:91-132 | any pending callback may run; clear empties the scrollback, echo included; otherwise exactly one line is appended; history and input are untouched |
| TerminalPanel.Terminal.HandleKeyDown | src/components/Terminal.tsx:137-158 | Enter submits the input as ExecuteCommand does; ArrowUp and ArrowDown are Up and Down on (cursor, input) and leave lines and history alone; other keys change nothing |
| TerminalPanel.Terminal.ClearScrollback | src/components/Terminal.tsx:260 | the button empties the scrollback and touches nothing else |
| NewsServer.FilterSteps | src/news.rs:118-126 | applying the q, status and category filters one after another equals one filter on their conjunction |
| NewsServer.Page | src/news.rs:128-131 | the slice [offset, min(offset+limit, n)): empty when offset ≥ n, at most limit long, element i is items[offset+i] |
| NewsServer.NewArticle | src/news.rs:144-164 | counters 0, id and date as given, payload fields copied; an empty excerpt becomes the first min(120, \|markdown\|) characters of the markdown |
| NewsServer.Edited | src/news.rs:172-180 | editable fields come from the payload; id, publish date and counters are kept |
| Seqs.CountIsFilterLength | src/news.rs:205-207 | counting the elements that satisfy a predicate is the length of `.filter(..)` of them, as `.filter(..).count()` computes it |
| NewsServer.StatusCountsPartition | src/news.rs:204-208 | drafts + published + archived == total |
| NewsServer.DeleteUndoesCreate | src/news.rs:186-190 | deleting the id of an article that `create_news` just put at the front gives back the previous list, which is shorter |
| NewsServer.NewsStore.NewWithMock | src/news.rs:60-95 | two published articles with the given ids, the first featured, each dated by its own clock reading |
| NewsServer.NewsStore.List | src/news.rs:114-134 | the result is the page of the filtered articles with offset defaulting to 0 and limit to 100, capped at 1000; every returned article is stored and passes every supplied filter; nothing changes |
| NewsServer.NewsStore.Get | src/news.rs:136-142 | None (404) iff no article has the id; otherwise the first article with it; nothing changes |
| NewsServer.NewsStore.Create | src/news.rs:144-167 | answers 201 Created; exactly one new article is prepended and the old ones follow unchanged |
| NewsServer.NewsStore.Update | src/news.rs:169-184 | the first article with the id is replaced by its edited version and returned; with no match, None (404) and no change |
| NewsServer.NewsStore.Delete | src/news.rs:186-192 | every article with the id is removed; 204 iff one existed, else 404 and no change |
| NewsServer.NewsStore.Stats | src/news.rs:202-209 | total is the article count, the status counts are exact and sum to total |
| UsersServer.NewUser | src/users.rs:59-73 | posts and reputation 0, last activity "только что", full name falls back to the username |
| UsersServer.Edited | src/users.rs:81-86 | editable fields from the payload, full name falls back to the NEW username; id, join date, last activity, posts and reputation kept |
| UsersServer.DeleteUndoesCreate | src/users.rs:92-96 | deleting the id of a user that `create_user` just put at the front gives back the previous list |
| UsersServer.UsersStore.NewWithMock | src/users.rs:45-52 | an admin and a moderator, both active |
| UsersServer.UsersStore.List | src/users.rs:55-57 | returns the stored users unchanged |
| UsersServer.UsersStore.Create | src/users.rs:59-76 | answers 201 Created and prepends exactly the new user |
| UsersServer.UsersStore.Update | src/users.rs:78-90 | edits the first user with the id and returns it; with no match, None (404) and no change |
| UsersServer.UsersStore.Delete | src/users.rs:92-98 | removes every user with the id; 204 iff the list shrank, else 404 and no change |
| FilesServer.NewNode | src/files.rs:49 | size "0 B", modified "только что", no extension and an empty body, for files and folders alike |
| FilesServer.FsStore.NewMock | src/files.rs:27-37 | three top-level nodes (public, src, package.json), each filed under its own id |
| FilesServer.FsStore.List | src/files.rs:39-41 | every stored node appears, only stored nodes appear, as many as there are keys |
| FilesServer.FsStore.Create | src/files.rs:46-52 | files the new node under its id; the id-keying invariant is kept |
| FilesServer.FsStore.Save | src/files.rs:57-61 | an existing node gets the content and the "только что" stamp and nothing else changes (200); a missing id gives 404 and no change |
| FilesServer.FsStore.Remove | src/files.rs:63-67 | deletes only that key; 204 iff it was present, else 404 |
| Seqs.Count | src/logs.rs:50-52 | a count never exceeds the number of elements |
| LogRecords.LevelCountsBounded | src/logs.rs:49-53 | the five level counts sum to total, so errors + warnings + info ≤ total |
| Seqs.CountConcat | src/logs.rs:50-52 | counting distributes over concatenation |
| LogRecords.Stats | src/components/LogsViewer.tsx:241-248 | total is the length, each count is exact, and errors + warnings + info ≤ total |
| LogsServer.LogsStore.NewMock | src/logs.rs:32-37 | exactly two entries: "1" an error from the database, "2" a warning from security |
| LogsServer.LogsStore.List | src/logs.rs:40-42 | returns the entries unchanged |
| LogsServer.LogsStore.Stats | src/logs.rs:47-54 | exact level counts over the store, errors + warnings + info ≤ total |
| LogsServer.LogsStore.Push | src/logs.rs:56-61 | the incoming id is replaced by the clock reading and the entry is prepended to the unchanged old entries |
| LogsServer.PushCounts | src/logs.rs:59 | a push adds one to the count of its own level and none to the others |
| LogsViewer.MockLogsCounts | src/components/LogsViewer.tsx:42-120 | the seed has 8 entries, 2 errors, 2 warnings and 2 info |
| LogsViewer.NoFilterShowsAll | src/components/LogsViewer.tsx:201-220 | empty search with both filters at 'all' shows every entry |
| LogsViewer.AutoEntry | src/components/LogsViewer.tsx:184-192 | the auto-refreshed entry carries the clock id, the given level, category and time, and the fixed message, details and source |
| LogsViewer.PrependCapped | src/components/LogsViewer.tsx:193 | the new entry is first, the length is at most 1000, the rest is a prefix of the old list, and a short list simply gains the entry |
| LogsViewer.InitialConsistent | src/components/LogsViewer.tsx:42-120 | the seed is within the cap and every seed entry passes the default filters, so the first render shows all of it |
| LogsViewer.LogsViewer.constructor | src/components/LogsViewer.tsx:170-177 | the seed logs, all shown, no filters, auto-refresh off, nothing selected |
| LogsViewer.LogsViewer.ApplyFilters | src/components/LogsViewer.tsx:201-220 | filteredLogs becomes the order-preserving filter of logs by search, level and category |
| LogsViewer.LogsViewer.SetSearchQuery | src/components/LogsViewer.tsx:354 | the query changes and filteredLogs follows it; every other field is stated unchanged |
| LogsViewer.LogsViewer.SetLevelFilter | src/components/LogsViewer.tsx:362 | the level filter changes and filteredLogs follows it; every other field is stated unchanged |
| LogsViewer.LogsViewer.SetCategoryFilter | src/components/LogsViewer.tsx:379 | the category filter changes and filteredLogs follows it; every other field is stated unchanged |
| LogsViewer.LogsViewer.SetAutoRefresh | src/components/LogsViewer.tsx:281 | only the switch changes |
| LogsViewer.LogsViewer.Tick | src/components/LogsViewer.tsx:180-198 | logs becomes the capped prepend of the new entry, so \|logs\| ≤ 1000; a shown new entry comes first in filteredLogs |
| LogsViewer.LogsViewer.Refresh | src/components/LogsViewer.tsx:223-227 | the log contents stay as they are; every other field is stated unchanged |
| LogsViewer.LogsViewer.ClickLog | src/components/LogsViewer.tsx:446 | clicking the selected log clears the selection; clicking any other selects it; every other field is stated unchanged |
| LogsViewer.LogsViewer.GetLogStats | src/components/LogsViewer.tsx:241-248 | total is \|filteredLogs\| (≤ \|logs\|), exact counts, errors + warnings + info ≤ total |
| UserManager.Merge | src/components/UserManager.tsx:212-214 | the spread keeps every field the patch leaves out; an empty patch changes nothing |
| UserManager.PatchOf | src/components/UserManager.tsx:205 | the patch of a user carries its id |
| UserManager.MergeWholePatch | src/components/UserManager.tsx:212-214 | merging the full patch of v gives v |
| UserManager.CreatedUser | src/components/UserManager.tsx:177-190 | clock id, posts and reputation 0; an empty full name falls back to the username; missing permissions become ["read"] |
| UserManager.FilteredUsers | src/components/UserManager.tsx:165-173 | the order-preserving subsequence of the users that match the search (case-insensitive on username, email or full name), the role and the status ('all' bypasses) |
| UserManager.EmptySearchShowsAll | src/components/UserManager.tsx:165-173 | an empty query with both filters at 'all' shows every user |
| UserManager.SaveUnchangedIsNoop | src/components/UserManager.tsx:211-215 | with unique ids, saving an unmodified patch leaves the list as it was |
| UserManager.GetUserStats | src/components/UserManager.tsx:231-238 | exact totals; active ≤ total and admins + banned ≤ total |
| UserManager.RowActions | src/components/UserManager.tsx:474-493 | edit is always offered; delete exactly for non-admins |
| UserManager.UserManager.constructor | src/components/UserManager.tsx:147-163 | the seed users, empty filters, blank form with ["read", "write"] permissions |
| UserManager.UserManager.SetNewUser | src/components/UserManager.tsx:323-352 | the create form changes and every other field is stated unchanged |
| UserManager.UserManager.HandleCreateUser | src/components/UserManager.tsx:175-202 | no-op unless username and email are both non-empty; else the created user is prepended, the form resets and the dialog closes |
| UserManager.UserManager.SelectUser | src/components/UserManager.tsx:430 | the selection changes and every other field is stated unchanged |
| UserManager.UserManager.HandleEditUser | src/components/UserManager.tsx:204-207 | the edit patch is the whole user and edit mode opens; every other field is stated unchanged |
| UserManager.UserManager.SetEditingUser | src/components/UserManager.tsx:530-557 | the edit patch changes and every other field is stated unchanged |
| UserManager.UserManager.HandleSaveEdit | src/components/UserManager.tsx:209-222 | no-op without an id; otherwise every user with the id gets the patch merged in, the others stay, a matching selection is updated and edit mode closes; every other field is stated unchanged |
| UserManager.UserManager.HandleDeleteUser | src/components/UserManager.tsx:224-229 | removes every user with the id and clears a matching selection; every other field is stated unchanged |
| NewsManager.Merge | src/components/NewsManager.tsx:237-239 | the spread keeps every field the patch leaves out; an empty patch changes nothing |
| NewsManager.PatchOf | src/components/NewsManager.tsx:231 | the patch of an article carries its id |
| NewsManager.DefaultExcerpt | src/components/NewsManager.tsx:201 | ends in "..." after the first min(100, \|body\|) characters of markdownContent, or of content when markdownContent is empty |
| NewsManager.CreatedArticle | src/components/NewsManager.tsx:196-212 | clock id, counters 0, form fields copied, an empty excerpt replaced by the default excerpt |
| NewsManager.FilteredArticles | src/components/NewsManager.tsx:189-192 | 'all' shows everything; a status shows exactly the articles with it, in order |
| NewsManager.StatusTabsPartition | src/components/NewsManager.tsx:189-192 | the draft, published and archived tabs together hold every article exactly once |
| NewsManager.DeleteUndoesCreate | src/components/NewsManager.tsx:249-250 | deleting the id of an article that `handleCreateArticle` just put at the front gives back the previous list |
| NewsManager.NewsManager.constructor | src/components/NewsManager.tsx:168-187 | the given articles, filter 'all', a blank form (Администратор, Общее, draft) |
| NewsManager.NewsManager.SetFilter | src/components/NewsManager.tsx:438 | the status filter changes and every other field is stated unchanged |
| NewsManager.NewsManager.SetNewArticle | src/components/NewsManager.tsx:328-398 | the create form changes and every other field is stated unchanged |
| NewsManager.NewsManager.HandleCreateArticle | src/components/NewsManager.tsx:194-227 | no-op unless a title and some body are given; else the created article is prepended, the form resets and the dialog closes |
| NewsManager.NewsManager.SelectArticle | src/components/NewsManager.tsx:459 | the selection changes and every other field is stated unchanged |
| NewsManager.NewsManager.HandleEditArticle | src/components/NewsManager.tsx:229-232 | the edit patch is the whole article and edit mode opens; every other field is stated unchanged |
| NewsManager.NewsManager.SetEditingArticle | src/components/NewsManager.tsx:583-626 | the edit patch changes and every other field is stated unchanged |
| NewsManager.NewsManager.HandleSaveEdit | src/components/NewsManager.tsx:234-247 | no-op without an id; otherwise every article with the id gets the patch merged in, the others stay, a matching selection is updated and edit mode closes; every other field is stated unchanged |
| NewsManager.NewsManager.HandleDeleteArticle | src/components/NewsManager.tsx:249-254 | removes every article with the id and clears a matching selection; every other field is stated unchanged |
| FileManager.FileIconOf | src/components/FileManager.tsx:118-154 | folders, and only folders, get the folder icon; a file gets the text, image, video, audio, archive or code icon exactly when its extension is in that group, and the plain icon for any other or missing extension |
| FileManager.FileColorOf | src/components/FileManager.tsx:156-196 | folder blue; each extension group gets its colour; js/ts/jsx/tsx get the script colour and html, css and json their own; an unlisted or missing extension gets the muted colour |
| FileManager.AfterLastDot | src/components/FileManager.tsx:274-276 | the longest dot-free suffix of the name: the whole name without a dot, "" after a trailing dot |
| FileManager.NewItem | src/components/FileManager.tsx:267-277 | clock id, the untrimmed name, "только что"; a file gets "0 B", an empty body and the text after the last dot; a folder gets none of them |
| FileManager.CreatedMarkdownFileIcon | src/components/FileManager.tsx:120-128 | a created "notes.md" file gets the text icon |
| FileManager.Saved | src/components/FileManager.tsx:238-245 | the new body and the "только что" stamp; every other field kept |
| FileManager.FilteredFiles | src/components/FileManager.tsx:216-218 | the order-preserving subsequence of the files whose name contains the query, ignoring case |
| FileManager.EmptySearchShowsAll | src/components/FileManager.tsx:216-218 | an empty query shows every file |
| FileManager.DeleteUndoesCreate | src/components/FileManager.tsx:258-259 | deleting the id of an item that `handleCreateFile` just appended gives back the previous list |
| FileManager.FileManager.constructor | src/components/FileManager.tsx:198-214 | the nine seed items, path "/home/user/project", nothing selected or open, new type file |
| FileManager.FileManager.SetSearchQuery | src/components/FileManager.tsx:323 | the query changes and every other field is stated unchanged |
| FileManager.FileManager.SetNewFile | src/components/FileManager.tsx:354-376 | the create dialog's name and type change and every other field is stated unchanged |
| FileManager.FileManager.SetEditContent | src/components/FileManager.tsx:515 | the editor text changes and every other field is stated unchanged |
| FileManager.FileManager.HandleFileClick | src/components/FileManager.tsx:220-227 | a folder appends "/" + name to the path; a file is selected and the path stays; every other field is stated unchanged |
| FileManager.FileManager.HandleEditFile | src/components/FileManager.tsx:229-232 | the editor opens on the item with its body, or "" when it has none; every other field is stated unchanged |
| FileManager.FileManager.HandleSaveFile | src/components/FileManager.tsx:234-256 | no-op with nothing open; otherwise every item with the id gets the new body and stamp, the editor closes, and a matching selection becomes the opened copy with the new body but its old stamp; every other field is stated unchanged |
| FileManager.FileManager.HandleDeleteFile | src/components/FileManager.tsx:258-263 | removes every item with the id and clears a matching selection; every other field is stated unchanged |
| FileManager.FileManager.HandleCreateFile | src/components/FileManager.tsx:265-283 | no-op for a blank name; otherwise the new item is appended LAST, the name box empties and the dialog closes; every other field is stated unchanged |
| ServerSettings.DefaultConfigValues | src/components/ServerSettings.tsx:101-162 | every section present; connection.port 3000, database.port 5432, performance.maxCpuUsage 80, no allowed IPs |
| ServerSettings.Updated | src/components/ServerSettings.tsx:169-176 | the field takes the value; every other field of the section and every other section keep theirs |
| ServerSettings.UpdateWithSameValue | src/components/ServerSettings.tsx:169-176 | writing back a field's own value changes nothing |
| ServerSettings.UpdatesCommute | src/components/ServerSettings.tsx:169-176 | edits of two different fields can be applied in either order |
| ServerSettings.DefaultInRange | src/components/ServerSettings.tsx:101-162 | every default sits on its slider's grid: min ≤ v ≤ max and v − min divisible by the step |
| ServerSettings.UpdateKeepsSlidersInRange | src/components/ServerSettings.tsx:445-801 | edits keep every slider field on its grid when slider fields receive only slider values |
| ServerSettings.ServerSettings.constructor | src/components/ServerSettings.tsx:165-167 | the defaults, no changes, not saving; both buttons disabled |
| ServerSettings.ServerSettings.UpdateConfig | src/components/ServerSettings.tsx:169-178 | exactly that field changes and hasChanges is set, so reset is enabled and save is enabled unless a save is pending |
| ServerSettings.ServerSettings.BeginSave | src/components/ServerSettings.tsx:180-181 | config unchanged, saving set, save disabled |
| ServerSettings.ServerSettings.FinishSave | src/components/ServerSettings.tsx:183-186 | config unchanged, saving and hasChanges cleared, both buttons disabled |
| ServerSettings.ServerSettings.HandleReset | src/components/ServerSettings.tsx:188-191 | the defaults come back, with every slider in range, and hasChanges clears |

## Left out

- Rendering, animation, icons as components, theme, `isMinimized`, `showDetails`, `isMarkdownMode` and the open/close toggles of dialogs. Only the closing a handler itself performs is modelled.
- `renderMarkdown` in `src/components/NewsManager.tsx`: a chain of regular-expression replacements that only affects display.
- Export (`exportConfig`, `handleExport`): JSON serialisation, URI encoding and DOM links.
- Timers: `setTimeout` and `setInterval` become explicit steps (`ResolvePending`, `Tick`, `BeginSave`/`FinishSave`). Their delays and their random order are not modelled; any pending terminal callback may run next.
- Clocks and id generators become parameters. Two ids built from `Date.now()` can collide, and the model does not assume they are unique.
- Locks, axum extractors, serde and routing: each handler is one sequential method. Handlers whose answer varies return their status code (`Status`); `create_news` and `create_user` return `Created` beside the record; a 404 from `get_news`, `update_news` or `update_user` is the `None` of their `Option` result; the file store's `create` and the list, history and stats handlers always answer 200 and return only their body. `src/main.rs`, `src/settings.rs`, `src/dashboard.rs`, `src/App.tsx`, `src/components/Sidebar.tsx` and `src/components/Dashboard.tsx` are not part of this model.
- `LogsServer.LogsStore.Push`: models the intended behaviour. As written, `push_log` reads a `LogEntry` from JSON although that type only derives `Serialize`.
- `TerminalServer.TerminalStore.ExecCommand`: the reply line's id and timestamp come from one clock reading (`outClock`). The source reads the clock twice.
- `TerminalPanel.MockCommand`: only the listed keys are in the dictionary. JavaScript prototype keys such as `toString` are not.
- `Text.Lower`: lower-cases ASCII and basic Cyrillic only. The source uses full Unicode `toLowerCase`/`to_lowercase`.
- `Text.Trim`: strips ASCII white space only. The source trims every Unicode white-space character.
- `NewsManager.DefaultExcerpt`: counts characters. `substring(0, 100)` counts UTF-16 code units.
- `NewsServer.NewsStore.List`: offsets and limits are unbounded naturals. The `usize` addition `offset + limit` overflow is not modelled.
- `ServerSettings.ServerSettings.UpdateConfig`: values are a tagged union of text, number, flag and text list. `parseInt` yielding `NaN` on the port inputs is not modelled.
- `ServerSettings.UpdateKeepsSlidersInRange`: assumes a slider only emits values on its grid. That is the slider component's behaviour, and it is not part of this model.
- `FilesServer.FsStore.List`: the order of a `HashMap` iteration is unspecified, so the contract fixes the contents and the length, not the order.
- `NewsManager.NewsManager.constructor`: the three seed articles are a parameter rather than spelled out, because their long markdown bodies add nothing to the properties.
- `UserManager.UserManager.constructor`: the `avatar` field of the user record is not modelled.
