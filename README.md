# Bot_FotosITO — a verified model of the photo-filing conversation

Bot_FotosITO is a Telegram bot that files site photos. A user sends a photo;
the bot asks for one of six location codes (`BR-OR`, `BR-PON`, `TALL-OR`,
`TALL-PON`, `LOE-OR`, `LOE-PON`) with an inline keyboard; on the button press
it stores the photo as `<root>/<code>/<user>_<id>_<timestamp>.jpg` and appends
a row `nombre,frente,code,fecha` to the CSV ledger `<root>/registro_fotos.csv`,
where `frente` is the group of the code (BREMEN, TALLERES or LO ERRAZURIZ).
`/cancel` abandons the conversation.

The model has four modules:

- `Options` (options.dfy): the optional value used for Python's `None`.
- `Naming` (naming.dfy): the pure helpers. They cover the group classifier,
  Python's `str` on the user id, the generated file name and POSIX path
  joining of the folder layout. They also cover the ledger row. Lemmas show
  that the classifier labels exactly the codes with each prefix, that the
  file name determines user, id and timestamp, that the destination path
  determines code and name and is never the ledger, and that a row has the
  header's four columns.
- `Controller` (controller.dfy): the three handlers, the ledger
  initialisation and the conversation framework's routing, as pure functions
  over a `World` value (save root, ledger, photo files, folders, pending
  submission). Lemmas over whole runs of updates show that the ledger is
  append-only with exactly one row per reported save, that reported files
  exist, and that a submission is pending exactly while the question is open, so a button press
  always finds its photo.
- `Bot` (bot.dfy): class `FotoBot`, whose fields the handlers update in
  place: the conversation data (`pending`), the conversation state, the
  ledger as a sequence of written chunks, the photo files as a map from path
  to photo, and the set of folders. Each method is proved to produce exactly
  the state and reply that the corresponding `Controller` function gives.

The clock and the photo download are parameters. The timestamp `fecha`
arrives with the photo update. A photo is an opaque `PhotoHandle`, and
"download to path" is a write of that handle into the file map.

A few facts about the code that shape the model:

- `ensure_csv` only creates a missing ledger holding the header. It never
  inspects an existing ledger's first line and never moves it aside.
- A lost ledger is recreated by the next append without a header.
- The conversation has two states: no conversation, and waiting for the code.

## Model

| member | source | states |
|---|---|---|
| `Naming.FrenteFromCodigo` | bot_fotosito.py:46-53 | the label is BREMEN iff the code starts with "BR", TALLERES iff it starts with "TALL", LO ERRAZURIZ iff it starts with "LOE", and "N/A" iff none of the three prefixes matches |
| `Naming.ChoicesAreClassified` | bot_fotosito.py:26 | every offered code gets a group label, never "N/A": BR-* are BREMEN, TALL-* are TALLERES, LOE-* are LO ERRAZURIZ |
| `Naming.IntToString` | bot_fotosito.py:73-74 | the rendering of the user id is non-empty, holds no `_` and no `/`, and starts with `-` exactly for negative ids |
| `Naming.ParseNatToString` | bot_fotosito.py:74 | reading back the decimal digits of an id gives the id |
| `Naming.IntToStringInjective` | bot_fotosito.py:74 | distinct user ids render as distinct strings |
| `Naming.NatToStringInjective` | bot_fotosito.py:74 | distinct non-negative ids have distinct decimal digits |
| `Naming.SafeUser` | bot_fotosito.py:73 | the user handle is never empty (the username when non-empty, else `user_<id>`) |
| `Naming.FileName` | bot_fotosito.py:74 | the file name ends in `.jpg`, starts with the user handle and `_`, and carries the user id right after it |
| `Naming.FileNameDeterminesFields` | bot_fotosito.py:71-74 | for underscore-free timestamps, equal file names have equal user handle, id and timestamp: no two users and no two seconds share a name |
| `Naming.Join` | bot_fotosito.py:107-109 | an absolute component replaces the path; otherwise the result is the path followed by the component, with one `/` between them unless the path is empty or already ends in `/` |
| `Naming.JoinEndsWith` | bot_fotosito.py:107-109 | a joined path always ends with its last component |
| `Naming.SubDir` | bot_fotosito.py:107 | the code's folder ends with the code and, for a relative code, is the root, a `/` where needed, then the code |
| `Naming.DestPath` | bot_fotosito.py:109 | the destination path always ends with the file name |
| `Naming.CsvLog` | bot_fotosito.py:27 | the ledger path is the root, a `/` where needed, then `registro_fotos.csv`; it ends in `.csv` |
| `Naming.ChoicesAreFolderNames` | bot_fotosito.py:26 | every offered code is a non-empty, slash-free, relative folder name |
| `Naming.DestPathShape` | bot_fotosito.py:107-109 | the code's folder sits directly under the save root and the photo directly inside that folder |
| `Naming.DestPathDeterminesFolder` | bot_fotosito.py:107-109 | equal destination paths have equal code and equal file name |
| `Naming.DestPathIsNotLedger` | bot_fotosito.py:27 | for any code and any username, a photo's destination path is never the ledger path (it ends in `.jpg`, the ledger's in `.csv`) |
| `Naming.FileNameIsRelative` | bot_fotosito.py:73-74 | with a Telegram username (letters, digits, underscores) or none, the file name does not start with `/`, so joining keeps root and code |
| `Naming.LedgerLine` | bot_fotosito.py:115 | a ledger row ends in a newline and starts with the file name and a comma |
| `Naming.RowCounts` | bot_fotosito.py:115 | a row whose fields hold no comma or newline has three commas and exactly one newline |
| `Naming.HeaderShape` | bot_fotosito.py:39 | the header names four columns and is one line |
| `Naming.LedgerLineShape` | bot_fotosito.py:39-44 | a row with clean fields has as many columns as the header and is one line |
| `Controller.EnsureCsv` | bot_fotosito.py:41-44 | afterwards the ledger exists; an absent ledger holds exactly the header; an existing ledger is left as it is (its header is not checked) |
| `Controller.EnsureCsvIdempotent` | bot_fotosito.py:41-44 | initialising the ledger twice is the same as once |
| `Controller.Startup` | bot_fotosito.py:36 | at start the save root exists, the ledger is initialised, the files are as found and nothing is pending |
| `Controller.NewSubmission` | bot_fotosito.py:70-76 | the pending submission holds the largest photo size, the generated file name and the timestamp |
| `Controller.OnPhoto` | bot_fotosito.py:66-87 | a photo writes no file, no folder and no ledger row; it replaces the pending submission, asks for the code and moves to the question state; an update without a photo changes nothing |
| `Controller.ChoosePrincipal` | bot_fotosito.py:89-124 | an unknown code changes nothing and stays in the question state; it is checked before the pending submission; a valid code with nothing pending ends the conversation with no write; otherwise the photo is stored, one row appended, the data cleared and the conversation ended |
| `Controller.Cancel` | bot_fotosito.py:126-129 | cancel clears the conversation data and ends the conversation; ledger, files and folders are untouched |
| `Controller.Commit` | bot_fotosito.py:107-117 | a commit stores the photo at `<root>/<code>/<nombre>`, creates the code's folder, appends the row after all earlier chunks and clears the pending submission |
| `Controller.CommitAppendsOneRow` | bot_fotosito.py:107-117 | a successful commit adds exactly one ledger row and keeps all earlier chunks; the row carries the code's group label; the photo is at its destination and all other files keep their content |
| `Controller.Dispatch` | bot_fotosito.py:162-167 | a photo in any state, also while the question is open, restarts the flow with the new submission pending and asks again; while the question is open a button press goes to the button handler and /cancel clears the data and ends; with no conversation open, button presses and /cancel are ignored; a message without a photo is ignored; an update that gets no reply changes nothing |
| `Controller.DispatchConsistent` | bot_fotosito.py:162-167 | every routed update keeps "a submission is pending exactly while the question is open", keeps the save root, keeps an existing ledger existing and never answers "photo not found" (the branch at lines 98-101) |
| `Controller.Run` | bot_fotosito.py:162-167 | a run yields one reply slot per update |
| `Controller.DispatchLedger` | bot_fotosito.py:89-124 | one update keeps all earlier ledger chunks, adds one row exactly when it replies with a save, removes no file, and the save reply names an existing file |
| `Controller.RunConsistent` | bot_fotosito.py:162-167 | any sequence of updates keeps the pending-exactly-while-asking invariant |
| `Controller.RunNeverLosesPhoto` | bot_fotosito.py:98-101 | in a single chat no update of any run gets the "photo not found" reply |
| `Controller.RunLedgerAppendOnly` | bot_fotosito.py:114-115 | over any sequence of updates the ledger only grows, by exactly one row per reported save, and no photo file disappears |
| `Controller.RunSavedFilesExist` | bot_fotosito.py:111-121 | every save reported during a run names a photo file that exists at the end of the run |
| `Controller.AnaFileName` | bot_fotosito.py:73-74 | user `ana` with id 7 at `2024-01-01 10-00-00` gets `ana_7_2024-01-01 10-00-00.jpg` |
| `Controller.AnaPaths` | bot_fotosito.py:107-109 | with the default root, code BR-OR files that name under `./photos/BR-OR/` |
| `Controller.AnaRow` | bot_fotosito.py:113-115 | its ledger row is `ana_7_2024-01-01 10-00-00.jpg,BREMEN,BR-OR,2024-01-01 10-00-00` and a newline |
| `Controller.PhotoThenBremen` | bot_fotosito.py:66-124 | on a fresh install, a photo followed by BR-OR leaves exactly that file, a ledger of header plus that row, and the conversation closed |
| `Bot.FotoBot.constructor` | bot_fotosito.py:36-55 | start-up state equals `Startup`, with no conversation open, and the invariant holds |
| `Bot.FotoBot.EnsureCsv` | bot_fotosito.py:41-44 | creates the header-only ledger when absent, otherwise leaves it unchanged |
| `Bot.FotoBot.OnPhoto` | bot_fotosito.py:66-87 | updates only the conversation data, exactly as `Controller.OnPhoto` |
| `Bot.FotoBot.ChoosePrincipal` | bot_fotosito.py:89-124 | state, next state and reply are exactly `Controller.ChoosePrincipal`'s; on either error nothing changes; on a save the ledger has one more chunk and nothing is pending |
| `Bot.FotoBot.Cancel` | bot_fotosito.py:126-129 | clears only the conversation data and returns the end state, exactly as `Controller.Cancel` |
| `Bot.FotoBot.Handle` | bot_fotosito.py:162-167 | routing an update through the handlers gives `Controller.Dispatch`'s state and reply and keeps the invariant |

## Left out

- Telegram transport: receiving updates, `reply_text`, `edit_message_text`, `q.answer` and `get_file` are foreign asynchronous calls. Replies are modelled only as which message is sent. The inline keyboard's layout is not modelled.
- `cmd_start` (bot_fotosito.py:58-64) only sends a greeting and changes no state; it is not modelled.
- The download: `download_to_drive` is modelled as a write of the photo handle into the file map. Download, disk and message failures are not modelled. In the source they raise out of the handler and leave the conversation state as it was, but not always the files. A failed download (line 111) leaves the folder created at line 108. A failed ledger append (lines 114-115) leaves the photo on disk with no ledger row, which breaks the one-row-per-saved-file property the model proves. A failed `edit_message_text` (line 118) comes after `user_data.clear()` (line 117), so the question stays open with nothing pending. A failed `reply_text` (line 86) comes after the submission is stored (line 76), so a photo sent with no conversation open leaves a submission pending while no question is open. Both break the invariant `Controller.RunConsistent` proves.
- File-system details: `os.makedirs` and `open` are reduced to a set of folders and a map from path to photo. `makedirs` is modelled as adding the leaf folder, so intermediate folders are not tracked. The ledger is a separate field because `Naming.DestPathIsNotLedger` shows that no photo path can equal the ledger path.
- Absolute file names: the source does not check the username. A username starting with `/` would make `os.path.join` drop the root and the code. Telegram's username alphabet rules this out (`Naming.FileNameIsRelative`), but the model does not constrain `User.username`. So `Naming.DestPathShape` and `Naming.DestPathDeterminesFolder` assume a relative file name.
- The ledger's contents are the sequence of chunks written to it, not a byte-level file. A row is not parsed back, because fields are not escaped: a comma in a username would add a column. Telegram usernames cannot contain one.
- The clock: `datetime.now().strftime("%Y-%m-%d %H-%M-%S")` becomes the `fecha` parameter. The format itself is not modelled. `Naming.FileNameDeterminesFields` assumes only that the timestamp holds no underscore.
- Environment and configuration: `BOT_TOKEN`, `PHOTO_SAVE_ROOT` and `PORT` are not read. The save root is a constructor parameter, with `Naming.DefaultSaveRoot` as its default value.
- The health-check HTTP server (`handle_root`, `make_web_app`, `start_web_server`), `main`, signal handling and the event-loop fallback are process lifecycle and network I/O with no filing logic. Logging is also left out.
- Conversation keying: the framework keeps one state per chat and user, while the conversation data is per user. The model covers one user in one chat. Sharing the data across chats is one way to leave the question open with nothing pending. A failed reply after the data is cleared is another (see above). The button handler is modelled for that case, but the single-chat routing never reaches it (`Controller.RunNeverLosesPhoto`).
- Concurrency: the application is built without concurrent updates (line 160), so the framework handles updates one at a time, as the model does. The ledger appends take no lock. That only matters if concurrent updates are switched on, and it is not modelled.
