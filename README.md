# igecbot, modelled in Dafny

igecbot is a Telegram bot that hands out study files: question papers,
question banks, notes and books. Each file is classified by year-semester
(`1`-`4`), branch (`it`, `ec`, `ee`, `me`, `ce`, and for the first year also
`maths`, `chem`, `phy`, `eng`) and category (`books`, `notes`, `qp`, `qb`).
A user types `/get` and walks three inline menus: year, then branch, then
category (or "all"). The bot lists the matching files. Pressing one file
shows a download button and a back button. The bot deletes the menus it
replaced, and it keeps per-user statistics on the side.

Three revisions of the bot exist.

- **Refactored:** the controller, view, route and model files. It refuses
  uploads.
- **Monolith (`bot.js`):** it still accepts uploads and files each one as
  year 4, IT, question bank.
- **Early (`Node/bot.js`):** the first version. It never deletes menus.

The two single-file bots declare their own file schema (bot.js:14-45,
Node/bot.js:12-43) in place of models/File.js. It has no enums for
`fileType`, `yearSem`, `branch` or `fileCatgry`, stores `uploadDate` instead
of `uploadedAt`, and has no `downloads` or `isActive` field. The upload
handlers save through that schema (`Uploads.Saveable`).

There is also a small Python chat responder (`main.py`).

This project models:

- **The stored data:** the file and user-statistics collections, their
  schemas, queries and aggregations (`FileModel`, `UserStatsModel`). The
  stores whose records the source updates in place are classes
  (`FileModel.FileStore`, `UserStatsModel.UserStatsStore`).
- **Statistics tracking:** the middleware that counts every update
  (`StatsTracking`).
- **Views:** the keyboards and messages (`FileView`).
- **Routing:** the route table, and Telegraf's dispatch of commands,
  callbacks and text (`Routes`).
- **The handlers:** each one is a function from the session and the world to
  a new session and a log of Telegram calls. A `Revision` parameter picks
  between the three bots (`Menu`, `Uploads`).
- **One chat:** a `Conversation.Chat` object. Its session, outbox and file
  list are updated in place, one update at a time.
- **The responder:** the Python `handle_response` and `handle_message`
  (`Responder`).

Some inputs are not computed by the model and come in as values:

- **The `World` value:** what the store holds, whether the database
  answers, which message ids Telegram will still delete, and the id of the
  next message sent.
- Clock readings and environment variables, passed as parameters.
- The effects of Telegram calls, recorded as `Event`s instead of being
  performed.

`Menu.TextReply` and `Responder.HandleMessage` use the corrected readings of
the two text-handling defects listed under "## Findings". The members that
model the code as written sit next to them.

## Model

| member | source | states |
|---|---|---|
| FileModel.ParseYear | models/File.js:25-29 | the `yearSem` enum validator accepts a string exactly when it is the code of some year, and returns that year |
| FileModel.ParseBranch | models/File.js:30-34 | the `branch` validator accepts exactly the nine branch codes |
| FileModel.ParseCategory | models/File.js:35-39 | the `fileCatgry` validator accepts exactly the four category codes |
| FileModel.WildcardIsNotACategory | controllers/botController.js:100-109 | `all` is not a category code, so the wildcard can never be mistaken for a stored category |
| FileModel.NewFile | models/File.js:40-51 | a new record has 0 downloads, is active, is stamped with the given time, and keeps every supplied field |
| FileModel.FileStore.constructor | models/File.js:3-61 | the collection starts empty |
| FileModel.FileStore.Save | models/File.js:4-39 | a save succeeds exactly when `fileId` and `fileName` are present and neither `fileId` (unique index) nor `_id` is already stored; only then is the record appended, otherwise nothing changes (the other required fields are enums, so the record's types already guarantee them) |
| FileModel.FileStore.IncrementDownloads | models/File.js:63-66 | the record's `downloads` goes up by one and nothing else in it or in any other record changes |
| FileModel.QueryFor | controllers/botController.js:100-109 | the query fixes year and branch, and constrains the category exactly when it is not `all` |
| FileModel.Find | controllers/botController.js:108 | `File.find`: a record is returned exactly when it is stored and matches the query, every returned record matches, and there are at most as many as stored |
| FileModel.FindCounts | controllers/botController.js:108 | each matching record is returned as many times as it is stored, and a non-matching one never |
| FileModel.FindAppend | controllers/botController.js:108 | the scan is in natural order: the result for a concatenation is the result for the first part followed by the result for the second |
| FileModel.FindById | controllers/botController.js:146-151 | `findById` returns a stored record with that id, and returns nothing exactly when no stored record has it |
| FileModel.WildcardIsUnionOfCategories | controllers/botController.js:104-106 | the `all` listing holds exactly the files listed under one of the four categories |
| FileModel.CategoryQueryIsExact | controllers/botController.js:104-106 | a category listing contains only files of that category |
| FileModel.ActiveMatching | models/File.js:69-75 | the `find({isActive: true, ...})` part of `findByCategory`: exactly the active matching records, each as many times as it is stored |
| FileModel.FindByCategory | models/File.js:69-75 | `findByCategory`: membership is exactly active and matching, the result is sorted newest first by `uploadedAt`, and it is a permutation of the active matching records |
| FileModel.KeyIndexInjective | models/File.js:77-87 | distinct `(yearSem, branch, fileCatgry)` groups get distinct positions in the sort order |
| FileModel.KeyLessIsIndexOrder | models/File.js:84-85 | ascending `$sort` by year, then branch, then category (string order of the codes) is the order of the key positions |
| FileModel.GroupCountPositive | models/File.js:79-83 | a group counts at least one file exactly when some active file has that key |
| FileModel.ActiveKeys | models/File.js:79-83 | the `$group` keys, ascending, are exactly the keys with active files |
| FileModel.FileStats | models/File.js:77-87 | `getFileStats`: one entry per active group, in key order, each with that group's `$sum: 1` count (positive) and `$sum` of downloads |
| FileModel.FileStatsComplete | models/File.js:77-87 | every active file's group appears in the statistics |
| FileModel.FileStatsOrdered | models/File.js:84-85 | the statistics are in ascending key order |
| UserStatsModel.NewUserStats | models/UserStats.js:12-46 | schema defaults: every counter 0, active, not blocked, both interaction times set to now, names absent |
| UserStatsModel.BumpCommand | models/UserStats.js:60-67 | `commands[command] += 1` raises exactly the named counter when the schema has one, and leaves all counters alone otherwise |
| UserStatsModel.BumpCommandChangesIffKnown | models/UserStats.js:62-64 | the counters change exactly when the command is one of `start`, `get`, `submit`, `stats`, `upload` |
| UserStatsModel.Interacted | models/UserStats.js:54-58 | `incrementInteraction`: interactions +1, `lastInteraction` = now, nothing else changes |
| UserStatsModel.CommandCounted | models/UserStats.js:60-67 | `incrementCommand`: interactions +1, the command counter bumped, `lastInteraction` = now, nothing else changes |
| UserStatsModel.Downloaded | models/UserStats.js:69-74 | `incrementDownloads`: downloads +1, interactions +1, `lastInteraction` = now, nothing else changes |
| UserStatsModel.Uploaded | models/UserStats.js:76-81 | `incrementUploads`: uploads +1, interactions +1, `lastInteraction` = now, nothing else changes |
| UserStatsModel.FindUser | models/UserStats.js:4-8 | `findOne({userId})` returns the first record with that id, and nothing exactly when no record has it |
| UserStatsModel.UserStatsStore.constructor | models/UserStats.js:3-52 | the collection starts empty |
| UserStatsModel.UserStatsStore.IncrementInteraction | models/UserStats.js:54-58 | the record at `i` is replaced by `Interacted` of it, every other record and the id uniqueness kept |
| UserStatsModel.UserStatsStore.IncrementCommand | models/UserStats.js:60-67 | the record at `i` is replaced by `CommandCounted` of it, nothing else changes |
| UserStatsModel.UserStatsStore.IncrementDownloads | models/UserStats.js:69-74 | the record at `i` is replaced by `Downloaded` of it, nothing else changes |
| UserStatsModel.UserStatsStore.IncrementUploads | models/UserStats.js:76-81 | the record at `i` is replaced by `Uploaded` of it, nothing else changes |
| UserStatsModel.ActiveOnly | models/UserStats.js:85 | `find({isActive: true})`: exactly the active records |
| UserStatsModel.ActiveOnlyCounts | models/UserStats.js:85 | each active record is returned as many times as it is stored, and an inactive one never |
| UserStatsModel.ActiveOnlyAppend | models/UserStats.js:85 | the scan is in natural order: the active records of a concatenation are those of the first part followed by those of the second |
| UserStatsModel.TopUsers | models/UserStats.js:84-89 | `getTopUsers`: as many users as `limit(limit)` keeps of the active ones (all of them for 0, `|limit|` for a negative limit), all active, none more often than it is active in the store, sorted by interactions, highest first |
| UserStatsModel.TopUsersAreTop | models/UserStats.js:84-89 | no active user left out of the top list has more interactions than one in it |
| Sorting.LimitDominates | models/UserStats.js:86-87 | whatever `limit` keeps of a descending sequence ranks at least as high as whatever it drops |
| UserStatsModel.TotalStats | models/UserStats.js:91-103 | `getTotalStats`: no group at all when no user is active; otherwise one group whose user count is the number of active users and whose sums are the active users' interactions, downloads and uploads |
| UserStatsModel.InteractionRaisesTotal | models/UserStats.js:54-58 | one interaction by an active user raises the total interactions by exactly one and leaves the other totals alone |
| UserStatsModel.ActivePos | models/UserStats.js:85 | an active record's position among the active records |
| UserStatsModel.ActiveOnlyUpdate | models/UserStats.js:91-103 | updating an active record (keeping it active) updates the same position of the active list |
| UserStatsModel.SeenSince | models/UserStats.js:109-112 | exactly the active users whose last interaction is at or after the cutoff |
| UserStatsModel.SeenSinceCounts | models/UserStats.js:109-112 | each such user is returned as many times as it is stored, and no other record ever |
| UserStatsModel.SeenSinceAppend | models/UserStats.js:109-112 | the scan is in natural order: the result for a concatenation is the result for each part, in turn |
| UserStatsModel.ActiveUsers | models/UserStats.js:105-113 | `getActiveUsers(days)`: exactly the active users seen within `days` days of now, most recent first, and a permutation of the recent active users as stored |
| StatsTracking.Inserted | middlewares/statsTracking.js:8-21 | an unseen sender is inserted with one interaction, its names, `firstSeen` = `lastSeen` = now, and the schema defaults otherwise |
| StatsTracking.Touched | middlewares/statsTracking.js:18-19 | a known sender gets interactions +1 and `lastSeen` = now, nothing else changes |
| StatsTracking.Tracked | middlewares/statsTracking.js:8-21 | the `findOneAndUpdate` upsert of the sender; stated by the `StatsTracking.Tracked...` lemmas below |
| StatsTracking.TrackedCountsSender | middlewares/statsTracking.js:8-21 | after the upsert the sender is stored, with one more interaction than before (one if new) and `lastSeen` = now |
| StatsTracking.FindUserAfterUpdate | middlewares/statsTracking.js:9 | updating a found record in place keeps it found at the same position |
| StatsTracking.TrackedKeepsInsertOnlyFields | middlewares/statsTracking.js:12-17 | `$setOnInsert` fields (names, `firstSeen`) of a known sender are not overwritten |
| StatsTracking.TrackedOnlyTouchesSender | middlewares/statsTracking.js:8-21 | the upsert adds a record only for an unseen sender and changes no other user's record |
| StatsTracking.TrackedKeepsIdsUnique | middlewares/statsTracking.js:8-21 | the upsert keeps user ids unique |
| StatsTracking.TrackedAddsOneInteraction | middlewares/statsTracking.js:8-21 | every tracked update adds exactly one to the sum of all interactions |
| StatsTracking.TrackUserStats | middlewares/statsTracking.js:3-27 | the middleware calls `next` once, always; it upserts the sender when there is one and the store answers, and otherwise leaves the store as it was (errors are swallowed) |
| Sorting.SortDesc | models/UserStats.js:86 | a sort by a key, highest first: sorted, a permutation of the input |
| Sorting.InsertDescSorted | models/UserStats.js:86 | inserting into a descending sequence keeps it descending |
| Sorting.Limit | models/UserStats.js:87 | MongoDB's `limit(n)`: the first `|n|` elements, or all of them when `n` is 0 or the input is shorter |
| Sorting.LimitOfSorted | models/UserStats.js:86-87 | a limited sorted sequence stays sorted and holds only elements of the original |
| Sorting.SumByAppend | models/UserStats.js:94-99 | `$sum` over a concatenation is the sum of the parts |
| Sorting.SumByUpdate | models/UserStats.js:94-99 | replacing one element changes a sum by the difference of its values |
| Sorting.SumBySort | controllers/botController.js:224-226 | sorting does not change a sum (the reported total of the sorted users is the total of all users) |
| Sorting.SumBy | models/UserStats.js:94-99 | the `$sum` accumulator and the `reduce((sum, user) => sum + user.interactions, 0)` total of controllers/botController.js:226; its behaviour is stated by `Sorting.SumByAppend`, `Sorting.SumByUpdate` and `Sorting.SumBySort` |
| Strings.ToUpper | views/fileView.js:82 | `toUpperCase` on ASCII: same length, each letter raised, no lower-case letter left |
| Strings.ToLower | main.py:22 | `lower()` on ASCII: same length, each letter lowered |
| Strings.LowerOfUpper | views/fileView.js:82 | upper-casing a code without capitals loses nothing: lower-casing gives it back |
| Strings.Strip | main.py:47 | `strip()`: a slice of the input with only white space cut on both sides, and not starting or ending in white space |
| Strings.RemoveAllChangesIffContains | main.py:47 | `replace(u, '')` changes the text exactly when `u` occurs in it, and then removes at least `|u|` characters |
| Strings.RemoveAll | main.py:47 | `replace(u, '')`: one left-to-right pass that drops each non-overlapping occurrence of `u`; the text never grows, and `Strings.RemoveAllChangesIffContains` states when it changes and by how much it shrinks |
| Strings.LexLess | models/File.js:84-85 | the binary string order of MongoDB's `$sort` on string fields and of JavaScript `<`; `Strings.LexLessIrreflexive` states that no string precedes itself, and `FileModel.KeyLessIsIndexOrder` uses it for the key order |
| Strings.LexLessIrreflexive | models/File.js:84-85 | no string precedes itself, so equal sort keys are never out of order |
| FileView.DocOf | models/File.js:4-39 | the document a handler sees carries the record's ids, name and stored file type, and the codes of its classification |
| FileView.YearKeyboard | views/fileView.js:22-31 | one row per year, each a callback button `listYearSem:<code>` |
| FileView.BranchKeyboard | views/fileView.js:37-59 | first year: nine rows; any other year: five rows |
| FileView.BranchKeyboardFollowsSchema | views/fileView.js:37-59 | the i-th row is the single button `listBranch:<code>` for the i-th branch of the schema |
| FileView.BranchKeyboardsNest | views/fileView.js:37-59 | the later years' keyboard is the first five rows of the first year's |
| FileView.CategoryKeyboard | views/fileView.js:65-75 | one row per category in schema order, then the `all` row; each button's data is `listCategory:<token>` |
| FileView.FileLabel | views/fileView.js:87-89 | the label is the folder icon and the file name; under `all` it is exactly that followed by ` (<category>)`, and under a single category it is nothing more |
| FileView.FileListKeyboard | views/fileView.js:85-92 | one row per file, each the button `fileOptions:<_id>` with the file's label |
| FileView.FileOptionsKeyboard | views/fileView.js:102-109 | two rows: download (`file:<_id>`) and back (`backToMenu`) |
| FileView.SubmitKeyboard | views/userView.js:33-42 | one link button to `https://t.me/<owner>` |
| FileView.NoFilesFoundMessage | views/fileView.js:81-83 | names the category and year, and the branch as `toUpperCase` gives it, from which a lower-case code can be read back |
| FileView.FileListMessage | views/fileView.js:94-96 | names the category display and year, and the branch as `toUpperCase` gives it, from which a lower-case code can be read back |
| Routes.ConfiguredName | routes/botRoutes.js:7-9 | a template with an unset environment variable registers the command `undefined` |
| Routes.Router.constructor | routes/botRoutes.js:3-4 | no routes are registered before setup |
| Routes.Router.SetupRoutes | routes/botRoutes.js:4-25 | setup appends the five commands, the six actions and the two message handlers, in source order |
| Routes.Router.RegisterCommands | routes/botRoutes.js:6-10 | appends `start`, the upload command, `get`, the stats command and `submit` |
| Routes.Router.RegisterCallbacks | routes/botRoutes.js:13-18 | appends the five prefix patterns and `backToMenu`, in source order |
| Routes.Router.RegisterMessageHandlers | routes/botRoutes.js:21-24 | appends the text handler and the media handler |
| Routes.FirstMatch | routes/botRoutes.js:13-18 | the first position at or after `from` where the pattern's prefix matches, or none when there is no such position |
| Routes.RunEnd | routes/botRoutes.js:13-18 | `(.+)` stops at the first line terminator |
| Routes.Capture | routes/botRoutes.js:13-18 | a regular expression `<prefix>(.+)` matches exactly when some position matches it, and then captures a non-empty run without line terminators |
| Routes.CaptureIsLeftmostRun | routes/botRoutes.js:13-18 | the capture is the greedy run of `.`-characters after the leftmost match, so no earlier position matches |
| Routes.WordEnd | routes/botRoutes.js:6-10 | the end of the command word |
| Routes.CommandName | routes/botRoutes.js:6-10 | a text names a command exactly when it is `/` followed by a command character; the name is then the whole word after the `/`: all command characters, ending at the end of the text or before a non-command character |
| Routes.CommandNameOfWord | routes/botRoutes.js:6-10 | `/<word><rest>` names the command `word` whenever `rest` does not continue the word (empty, or a space and more text) |
| Routes.Dispatch | routes/botRoutes.js:4-25 | an update is unhandled exactly when no route fires for it |
| Routes.DispatchFirst | routes/botRoutes.js:4-25 | the first route that fires handles the update |
| Routes.PrefixesSuffixFree | routes/botRoutes.js:13-18 | no pattern's prefix ends with another's |
| Routes.OnlyOwnPrefixOccurs | routes/botRoutes.js:13-18 | in `<prefix><clean token>` the only prefix that occurs is the own one, at the start |
| Routes.CaptureOfPrefixed | routes/botRoutes.js:13-18 | `<prefix><token>` is captured by its own pattern with exactly that token, and by no other |
| Routes.DispatchAppend | routes/botRoutes.js:4-25 | dispatch over two route lists tries the first list before the second |
| Routes.CommandsIgnoreOthers | routes/botRoutes.js:6-10 | commands only fire on text |
| Routes.DispatchPrefixed | routes/botRoutes.js:13-18 | a callback `<prefix><clean token>` reaches the pattern's handler with that token |
| Routes.CallbackDispatch | routes/botRoutes.js:13-18 | the same, over the action routes alone |
| Routes.DispatchBackToMenu | routes/botRoutes.js:17 | the `backToMenu` callback reaches the back-to-menu handler, and no prefix pattern takes it |
| Routes.OptionsAndDownloadDisjoint | routes/botRoutes.js:16-18 | `fileOptions:` data is never taken by `/file:(.+)/` and `file:` data never by `/fileOptions:(.+)/` |
| Routes.YearKeyboardRoundTrip | views/fileView.js:22-31 | every year button reaches the year handler with that year's code |
| Routes.BranchKeyboardRoundTrip | views/fileView.js:37-59 | every branch button reaches the branch handler with that branch's code |
| Routes.CategoryKeyboardRoundTrip | views/fileView.js:65-75 | every category button (and `all`) reaches the category handler with its token |
| Routes.FileListRoundTrip | views/fileView.js:85-92 | every file button reaches the file-options handler with that file's `_id` |
| Routes.DownloadButtonRoundTrip | views/fileView.js:102-109 | the download button reaches the download handler with the `_id` |
| Routes.BackButtonRoundTrip | views/fileView.js:102-109 | the back button reaches the back-to-menu handler |
| Routes.YearCodeClean | models/File.js:25-29 | year codes contain no line terminator and no colon |
| Routes.BranchCodeClean | models/File.js:30-34 | branch codes contain no line terminator and no colon |
| Routes.CategoryTokensClean | views/fileView.js:65-75 | category tokens contain no line terminator and no colon |
| Routes.CommandNames | routes/botRoutes.js:6-10 | what a `/name` text reaches: the named command's handler for the five names, otherwise the text handler |
| Routes.CommandAt | routes/botRoutes.js:6-10 | a text naming the k-th command (and none before it) reaches that command's handler |
| Routes.StartTextStarts | routes/botRoutes.js:6 | `/start`, alone or followed by a space and more text, reaches the start handler under every configuration |
| Routes.PlainTextReachesTextHandler | routes/botRoutes.js:21 | text that is not a command reaches the text handler |
| Routes.MediaReachesMediaHandler | routes/botRoutes.js:24 | a media message reaches the media handler |
| Menu.FindDocs | controllers/botController.js:108 | the listed files are exactly the stored files matching the query, at most as many as stored |
| Menu.FindDocsCounts | controllers/botController.js:108 | each matching document is listed as many times as it is stored, and a non-matching one never, so the list keyboard has one button per stored match |
| Menu.FindDocsAppend | controllers/botController.js:108 | the listing is in natural order: the result for a concatenation is the result for each part, in turn |
| Menu.FindDocById | controllers/botController.js:146-151 | the file found has the id, and none is found exactly when no stored file has it |
| Menu.DocsOf | models/File.js:4-39 | the handlers' view of each stored record, position by position |
| Menu.FindDocsOfRecords | controllers/botController.js:100-109 | querying the handlers' view of the records gives the view of the model's `File.find` |
| Menu.FindDocByIdOfRecords | controllers/botController.js:146-151 | looking up an `_id` in the handlers' view of the records gives the view of the model's `findById`, or nothing when it finds nothing |
| Menu.Sendable | controllers/botController.js:197-211 | the four `fileType` cases the download switch sends; `Menu.SendableIsKnownKind` states that they are exactly the codes of the schema's known kinds |
| Menu.SendableIsKnownKind | controllers/botController.js:197-211 | a type is sendable exactly when it is the code of a schema kind other than `unknown` |
| Menu.Truthy | views/userView.js:13 | JavaScript truthiness of an optional string: present and not empty, as `||` tests it |
| Menu.TruthyId | controllers/botController.js:57-59 | JavaScript truthiness of an optional message id: present and not zero |
| Menu.DisplayName | views/userView.js:13 | `firstName || username || 'Unknown'`: the first name when truthy, else the username when truthy, else `Unknown`; never empty |
| Menu.DeletePrevious | controllers/botController.js:57-59 | at most one deletion, attempted exactly when the session remembers a (non-zero) message id, and of that id |
| Menu.RecentDeletions | controllers/botController.js:167-174 | attempts to delete the `n` messages counting down from the clicked one |
| Menu.OwnerHandle | controllers/botController.js:242 | the owner's handle with one leading `@` taken off when present |
| Menu.StatsLines | views/userView.js:13-16 | one line per user, with the display name and interactions |
| Menu.OnYearSelection | controllers/botController.js:30-52 | the year step of the three revisions (also bot.js:132 and Node/bot.js:124); no contract of its own, stated by `MenuProperties.YearSelectionAdvances`, `MenuProperties.FailedYearDeletionChangesNothing` and `MenuProperties.EarlyAgreesOnSelections` |
| Menu.OnBranchSelection | controllers/botController.js:55-79 | the branch step (also bot.js:182 and Node/bot.js:169); stated by `MenuProperties.BranchSelectionKeepsYear`, `MenuProperties.BranchSelectionDeletesRemembered` and `MenuProperties.BranchSelectionIgnoresDeletionFailure` |
| Menu.OnCategorySelection | controllers/botController.js:82-141 | the category step (also bot.js:220 and Node/bot.js:199): the deletion of the remembered prompt, then `CategoryResult`; stated by `MenuProperties.CategoryQueriesIffSelected` and `MenuProperties.CategorySelectionIgnoresDeletionFailure` |
| Menu.CategoryResult | controllers/botController.js:90-141 | the session check, the query and its outcome; stated by `MenuProperties.CategoryQueryIsQueryFor`, `MenuProperties.EmptyResultFlow` and `MenuProperties.FileListFlow` |
| Menu.ListingEvents | controllers/botController.js:111-136 | the replies to an answered query; stated by `MenuProperties.EmptyResultReprompts` and `MenuProperties.FileListFlow` |
| Menu.OnFileOptions | controllers/botController.js:144-162 | the file-options step (also bot.js:300 and Node/bot.js:254); stated by `MenuProperties.ListedFileOptionsAndDownload` and `MenuProperties.MissingFileIsNotFound` |
| Menu.OnBackToMenu | controllers/botController.js:165-185 | the back-to-menu step (also bot.js:326 and Node/bot.js:280); stated by `MenuProperties.BackToMenuDeletesFive` |
| Menu.OnFileDownload | controllers/botController.js:188-219 | the download step (also bot.js:358 and Node/bot.js:312); stated by `MenuProperties.ListedFileOptionsAndDownload`, `MenuProperties.MissingFileIsNotFound` and `Uploads.UploadThenListAndDownload` |
| Menu.OnStart | controllers/botController.js:8-11 | the welcome naming the sender (the early bot's greeting at Node/bot.js:68 does not name them); stated by `Conversation.StartCommandWelcomes` |
| Menu.OnUploadCommand | controllers/botController.js:14-19 | the session replaced by `{uploading: true}` and the upload prompt; stated by `MenuProperties.UploadCommandExpiresSelection` |
| Menu.OnGet | controllers/botController.js:22-27 | the year menu; its keyboard is stated by `FileView.YearKeyboard` and `Routes.YearKeyboardRoundTrip` |
| Menu.OnSubmit | controllers/botController.js:237-249 | the submission link or the unavailable reply; stated by `MenuProperties.SubmitLinksToOwner` |
| Menu.OnStats | controllers/botController.js:222-234 | the statistics report or its error; stated by `MenuProperties.StatsReportsAllUsers` |
| Menu.TextReply | controllers/botController.js:252-258 | the reply of the text handler of each revision (also bot.js:417 and the corrected Node/bot.js:347); stated by `MenuProperties.RefactoredTextAllowList`, `MenuProperties.MonolithTextAllowList` and `MenuProperties.EarlyTextIntendedAllowList` |
| Menu.OnText | controllers/botController.js:252-258 | at most one reply, the one `TextReply` gives; stated through `Conversation.PlainTextIsRefused` |
| Menu.EarlyTextAsWritten | Node/bot.js:347-353 | the early text handler as written; stated by `MenuProperties.EarlyTextAlwaysInvalid` and `MenuProperties.EarlyTextWitness` |
| Menu.EarlyTextIntended | Node/bot.js:347-353 | the early text handler as evidently intended; stated by `MenuProperties.EarlyTextIntendedAllowList` and `MenuProperties.EarlyTextWitness` |
| MenuProperties.YearSelectionAdvances | controllers/botController.js:30-52 | when the clicked menu is deleted: the year is stored, the branch and upload flag kept, the branch prompt sent and remembered (not in the early bot), and the query answered |
| MenuProperties.FailedYearDeletionChangesNothing | controllers/botController.js:32-50 | when deleting the clicked menu fails, the session is unchanged, the generic error is sent and nothing is queried or answered |
| MenuProperties.BranchSelectionKeepsYear | controllers/botController.js:55-79 | the branch is stored, the year and upload flag kept, the category prompt sent and remembered, and the query answered |
| MenuProperties.BranchSelectionDeletesRemembered | controllers/botController.js:57-59 | the branch step deletes a message exactly when the session remembers a truthy id (never in the early bot) |
| MenuProperties.BranchSelectionIgnoresDeletionFailure | controllers/botController.js:57-59 | a failed deletion of the remembered prompt changes nothing else (`.catch(() => {})`) |
| MenuProperties.CategoryQueriesIffSelected | controllers/botController.js:90-98 | the store is queried exactly when both year and branch are selected; otherwise the session is kept, "session expired" is the last reply and nothing is answered |
| MenuProperties.CategoryQueryIsQueryFor | controllers/botController.js:100-109 | the query is for the selected year and branch, with the category constrained exactly when it is not `all` |
| MenuProperties.EmptyResultFlow | controllers/botController.js:111-124 | an empty listing keeps the session, says no files were found (naming "any category" under `all`), and answers nothing |
| MenuProperties.EmptyResultReprompts | controllers/botController.js:115-122 | after an empty listing the year menu is sent again later, except in the early bot |
| MenuProperties.FileListFlow | controllers/botController.js:126-136 | a non-empty listing sends the list message with one button per found file, remembers it (except in the early bot), keeps the selection and answers |
| MenuProperties.CategorySelectionIgnoresDeletionFailure | controllers/botController.js:84-86 | a failed deletion of the remembered prompt changes nothing else |
| MenuProperties.UploadCommandExpiresSelection | controllers/botController.js:14-19 | the upload command replaces the session, so a following category click finds the selection expired |
| MenuProperties.YearBranchCategoryQueries | controllers/botController.js:30-109 | year, then branch, then category queries the store for exactly the chosen year, branch and category |
| MenuProperties.EarlyAgreesOnSelections | Node/bot.js:124-196 | the early bot stores the same selections as the refactored one and deletes nothing on the branch step |
| MenuProperties.FindDocByIdFinds | controllers/botController.js:146-151 | with unique `_id`s, looking up a stored file's id finds that file |
| MenuProperties.ListedFileOptionsAndDownload | controllers/botController.js:144-219 | a listed file's options show its name and buttons; downloading it sends its stored file id with its stored type, or says the type is unsupported |
| MenuProperties.MissingFileIsNotFound | controllers/botController.js:149-151 | options and download of an unknown id both say "file not found" and answer nothing |
| MenuProperties.BackToMenuDeletesFive | controllers/botController.js:165-185 | back to menu tries to delete the clicked message and the four before it, then sends the year menu and answers, whichever deletions fail |
| MenuProperties.SubmitLinksToOwner | controllers/botController.js:237-249 | without an owner the bot says submission is unavailable; otherwise it links to the owner's handle with a leading `@` dropped |
| MenuProperties.StatsReportsAllUsers | controllers/botController.js:222-234 | the report counts every user, totals their interactions, and lists every user once, highest interactions first |
| MenuProperties.RefactoredTextAllowList | controllers/botController.js:252-258 | no reply exactly for `/get`, `/start`, `/submit`; the invalid-text reply exactly for text not starting with `/`; the invalid-command reply otherwise |
| MenuProperties.MonolithTextAllowList | bot.js:417-423 | the same with `/get` and `/start` as the only allowed commands |
| MenuProperties.EarlyTextAlwaysInvalid | Node/bot.js:347-353 | as written, every text gets the invalid-command reply |
| MenuProperties.EarlyTextIntendedAllowList | Node/bot.js:347-353 | as intended: no reply for `/get` and `/start`, "cannot chat" for plain text, the invalid-command reply for other commands |
| MenuProperties.EarlyTextWitness | Node/bot.js:348 | the plain text `hello` gets the invalid-command reply as written and "cannot chat" as intended |
| Uploads.FileTypeOf | controllers/botController.js:266-272 | `getFileType`: `document` whenever a document is present, else `photo` when a photo is, else `video`, else `audio`; `unknown` exactly when no media field is present, and otherwise a sendable type |
| Uploads.Picked | bot.js:90-99 | the attachment an upload saves: the document, else the first photo size (`photo?.[0]`), else the video, else the audio; stated by `Uploads.PickedMatchesType` |
| Uploads.OnMedia | bot.js:88-113 | the media handler of each revision (Node/bot.js:81, and the refusal at controllers/botController.js:261-263); stated by `Uploads.UploadStoresIffSaved`, `Uploads.UploadFixedClassification`, `Uploads.UploadKeepsKeysUnique` and `Uploads.RefactoredRefusesUploads` |
| Uploads.PickedMatchesType | bot.js:90-99 | the saved file id is the attachment of the saved type, unless `photo` is an empty array; a picked attachment never has type `unknown` |
| Uploads.StoredName | bot.js:91 | the stored name is never empty, is the document's name when it has one, and is `untitled` otherwise |
| Uploads.UploadedDoc | bot.js:94-105 | `new File({...})` for an upload: the new `_id`, the attachment's `file_id`, the stored name (never empty), the `getFileType` type, and the fixed classification year 4, `it`, `qb` |
| Uploads.Saveable | bot.js:14-45 | what `save()` accepts under the upload bots' own file schema (the same at Node/bot.js:12-43): `fileId`, `fileName`, `yearSem`, `branch` and `fileCatgry` non-empty, and no stored file with the same `fileId` (the unique index) or `_id`; stated for uploads by `Uploads.UploadedDocSaveable` |
| Uploads.UploadedDocSaveable | bot.js:94-105 | an upload is saveable exactly when its attachment's `file_id` is non-empty and neither that `file_id` nor the new `_id` is already stored |
| Uploads.UploadStoresIffSaved | bot.js:88-113 | an upload stores exactly one file exactly when the confirmation is sent, and nothing otherwise |
| Uploads.RefactoredRefusesUploads | controllers/botController.js:261-263 | the refactored bot only replies that uploads are not allowed |
| Uploads.UploadFixedClassification | bot.js:94-105 | a stored upload is filed as year 4, IT, question bank, under the new id, with a name and a sendable type |
| Uploads.UploadKeepsKeysUnique | bot.js:15-19 | uploads keep file ids and `_id`s unique |
| Uploads.UniqueKeysOfRecords | models/File.js:4-8 | the unique `fileId` index and the unique `_id` hold of the handlers' view of the records exactly when they hold of the records |
| Uploads.UploadThenListAndDownload | bot.js:88-113 | a saved upload is listed under 4/it/qb and under `all` there, and downloading it sends the uploaded attachment with its type |
| Uploads.FindNewLast | bot.js:358-362 | the id of a file appended under a fresh `_id` finds that file |
| Conversation.PrefixedCallback | routes/botRoutes.js:13-18 | a callback `<prefix><clean token>` runs that pattern's handler with the token |
| Conversation.RunHandler | routes/botRoutes.js:6-24 | the controller handler each route names, applied to the update; stated per handler by the callback, button, start, text and media lemmas here |
| Conversation.OnUpdate | routes/botRoutes.js:4-25 | the first route that fires handles the update, and nothing happens when none fires; stated by the same lemmas |
| Conversation.YearCallbackSelectsYear | routes/botRoutes.js:13 | a `listYearSem:` callback is the year step |
| Conversation.BranchCallbackSelectsBranch | routes/botRoutes.js:14 | a `listBranch:` callback is the branch step |
| Conversation.CategoryCallbackSelectsCategory | routes/botRoutes.js:15 | a `listCategory:` callback is the category step |
| Conversation.DownloadCallbackDownloads | routes/botRoutes.js:18 | a `file:` callback is the download step and keeps the session |
| Conversation.YearButtonSelectsYear | controllers/botController.js:22-52 | pressing the i-th year button stores the i-th year |
| Conversation.BranchButtonSelectsBranch | controllers/botController.js:55-79 | pressing the i-th branch button stores the i-th branch and keeps the year |
| Conversation.CategoryButtonQueries | controllers/botController.js:82-109 | pressing a category button, with year and branch selected, queries for them and that category |
| Conversation.DownloadButtonDownloads | controllers/botController.js:188-219 | pressing the download button runs the download for that file and keeps the session |
| Conversation.BackButtonReturnsToMenu | controllers/botController.js:165-185 | pressing the back button runs back to menu for the clicked message |
| Conversation.MediaIsRefused | controllers/botController.js:261-263 | any media message is refused and the session is kept |
| Conversation.StartCommandWelcomes | routes/botRoutes.js:6 | a `/start` text, alone or followed by more words, gets the welcome naming the sender and keeps the session |
| Conversation.PlainTextIsRefused | controllers/botController.js:253-254 | a text not starting with `/` gets the invalid-text reply and keeps the session |
| Conversation.Chat.constructor | bot.js:64 | a chat starts with no session (the session middleware provides none until a handler sets one), nothing sent, and the given files |
| Conversation.Chat.Emit | controllers/botController.js:8-11 | one call to Telegram is appended to the outbox |
| Conversation.Chat.ChooseYear | controllers/botController.js:30-52 | the session and outbox become those of the year step |
| Conversation.Chat.DeleteRemembered | controllers/botController.js:57-59 | the outbox gains the deletion of the remembered prompt, if any |
| Conversation.Chat.ChooseBranch | controllers/botController.js:55-79 | the session and outbox become those of the branch step |
| Conversation.Chat.ChooseCategory | controllers/botController.js:82-141 | the session and outbox become those of the category step, searched in the chat's own files |
| Conversation.Chat.ListCategory | controllers/botController.js:90-141 | the session and outbox become those of the listing part of the category step, over the chat's own files |
| Conversation.Chat.ListFound | controllers/botController.js:111-136 | after a query the store answered, over the chat's own files: the not-found reply (and the later year menu), or the list remembered as the prompt and the answer |
| Conversation.Chat.ShowFileOptions | controllers/botController.js:144-162 | the outbox gains the file-options step's calls, looked up in the chat's own files |
| Conversation.Chat.BackToMenu | controllers/botController.js:165-185 | the loop appends the five deletions one by one, then the year menu and the answer |
| Conversation.Chat.Download | controllers/botController.js:188-219 | the outbox gains the download step's calls, looked up in the chat's own files |
| Conversation.Chat.StartUpload | controllers/botController.js:14-19 | the session is replaced by the upload session and the prompt is sent |
| Conversation.Chat.ReceiveMedia | bot.js:88-113 | the files become those after the upload and its one reply is sent |
| Conversation.Chat.EmitAll | controllers/botController.js:8-263 | the calls are appended in order |
| Conversation.Chat.Receive | routes/botRoutes.js:4-25 | one update handled by the routed handler: the session and outbox become those of `OnUpdate` over the chat's own files, so an upload a chat stored is what its next listing searches |
| Responder.AsWrittenAlwaysScolds | main.py:24-25 | as written, every text gets the first reply |
| Responder.HandleResponseAsWritten | main.py:21-36 | `handle_response` as written; stated by `Responder.AsWrittenAlwaysScolds` and `Responder.EmptyTextWitness` |
| Responder.HandleResponse | main.py:21-36 | `handle_response` as evidently intended; stated by `Responder.ResponsePrecedence` |
| Responder.HandleMessage | main.py:39-55 | `handle_message`, on the intended `handle_response`; stated by `Responder.OneReplyUnlessUnmentioned` |
| Responder.HandleMessageAsWritten | main.py:39-55 | `handle_message` with `handle_response` as written; stated by `Responder.MessageAsWrittenAlwaysScolds` |
| Responder.MessageAsWrittenAlwaysScolds | main.py:39-55 | as written, every private message and every group message that mentions the bot gets the first canned reply, and an unmentioned group message gets none |
| Responder.ReplyText | main.py:25-35 | the five canned texts of `handle_response`; `Responder.ReplyTextInjective` states they are pairwise different |
| Responder.ReplyTextInjective | main.py:25-35 | two replies send the same text exactly when they are the same reply |
| Responder.ResponsePrecedence | main.py:21-36 | as intended, on the lower-cased text: each of the five replies exactly when its phrase occurs and no earlier phrase does (`hello` or `hi`, then `how are you`, `i love you`, `jaldi wahan se hato`), and the fallback exactly when no phrase occurs |
| Responder.EmptyTextWitness | main.py:24 | the empty text is scolded as written and not understood as intended |
| Responder.Inbound | main.py:39-52 | outside groups the responder sees the text; in a group it answers exactly when the bot is mentioned |
| Responder.OneReplyUnlessUnmentioned | main.py:39-55 | one reply per message, except none for a group message without the mention |
| Responder.GroupMentionRemoved | main.py:45-50 | in a group the responder sees a stripped text with the mention removed, shorter by at least the username |

## Left out

- Telegram itself (sending, editing, answering callback queries). Each call is an `Event` in a log. A failed reply or send is not modelled, except where a handler's `catch` turns a failure into a reply: the database being down (`World.storeUp`) and a deletion that fails (`World.deletable`).
- The session store and Telegraf's middleware chain. The session is a value passed in and returned. Telegraf's handling of `/cmd@botname`, of message entities and of edited messages is not modelled. A command is the word after a leading `/`.
- `bot.js:426` registers a second media handler. Telegraf never reaches it after the one at `bot.js:88`, so it is not modelled.
- `setTimeout`: the delayed year menu after an empty listing is one `Later` event. Its timing is not modelled.
- `Date.now()`, `new Date()` and `process.env` are parameters. `getActiveUsers` uses `setDate`, and its calendar arithmetic is modelled as `days * DayMs` milliseconds, so daylight-saving shifts are not modelled.
- `avgInteractions` in `getTotalStats` is a floating-point average and is not modelled. The other totals are.
- `.select(...)` projections and the query indexes of models/File.js:56-60 are not modelled. Indexes change speed, not results.
- Mongoose strict mode would drop `firstSeen` and `lastSeen`, which the user schema does not declare. The model keeps them as optional fields of the statistics record.
- A malformed `_id` makes `findById` throw a cast error. The model folds this into the error reply for a database that does not answer, or into "not found" when no file has that id.
- `toUpperCase` and `lower()` are modelled on ASCII letters only. Markdown formatting and emoji in the texts are reduced to a `Msg` tag with its parameters.
- FileView.DocOf: `uploadedBy`, `uploadedAt`, `downloads` and `isActive` do not appear in the handlers' view of a file, because no handler reads them.
- UserStatsModel.BumpCommand: the schema's five counters are named fields. A command named like an inherited object property is treated as unknown.
- The user collection is a sequence searched by `userId`, not a map. `UniqueIds` states the unique index.
- services/database.js (the connection) and bot.py (a thin launcher) are not part of this model.
- The monolith's and the early bot's route tables are not modelled as tables. Their handlers are modelled through the `Revision` parameter of the `Menu` and `Uploads` functions. `Conversation.OnUpdate` dispatches only the refactored route table.
- main.py's `start`, `help` and `custom` commands, its error handler and its `print` logging are not modelled. Neither is the polling loop.
- Uploads.PickedMatchesType: when `photo` is present but an empty array, `getFileType` says `photo` while the stored file id comes from a later field. The lemma holds only outside that case, and the case is excluded on purpose.
- FileModel.Find: its own contract gives membership and the match of every element. How often a record is returned is stated by `FileModel.FindCounts` and the order by `FileModel.FindAppend`, lemmas kept apart so that the handler proofs stay small.
- Menu.FindDocs: likewise, multiplicity is stated by `Menu.FindDocsCounts` and order by `Menu.FindDocsAppend`.
- UserStatsModel.ActiveOnly: likewise, multiplicity is stated by `UserStatsModel.ActiveOnlyCounts` and order by `UserStatsModel.ActiveOnlyAppend`.
- UserStatsModel.SeenSince: likewise, multiplicity is stated by `UserStatsModel.SeenSinceCounts` and order by `UserStatsModel.SeenSinceAppend`.
- Routes.Capture: its own contract gives the shape of the captured text; its value, the run after the leftmost match, is stated by `Routes.CaptureIsLeftmostRun`.
- FileView.BranchKeyboard: its own contract gives only the number of rows. Which button each row holds is stated by `FileView.BranchKeyboardFollowsSchema`.

## Findings

| source | as written | input that shows it | evidently intended | confidence | as-written member | corrected member |
|---|---|---|---|---|---|---|
| Node/bot.js:348 | the last operand of the guard's or is the bare literal `'/start'`, not a comparison with it; the non-empty literal is truthy, so every text gets the invalid-command reply | the plain text `hello` (every text does; `/start` itself is taken by the command route first) | `/get` and `/start` get no reply, plain text gets "cannot chat", other commands get the invalid-command reply | not executed | Menu.EarlyTextAsWritten (MenuProperties.EarlyTextAlwaysInvalid, MenuProperties.EarlyTextWitness) | Menu.EarlyTextIntended (MenuProperties.EarlyTextIntendedAllowList) |
| main.py:24 | `'hello' or 'hi' in processed` parses as `'hello' or ('hi' in processed)`, which is always truthy, so every text gets the first reply and the other branches are dead | the empty text, or `how are you` | the first reply only when `hello` or `hi` occurs | not executed | Responder.HandleResponseAsWritten (Responder.AsWrittenAlwaysScolds, Responder.MessageAsWrittenAlwaysScolds, Responder.EmptyTextWitness) | Responder.HandleResponse (Responder.ResponsePrecedence) |
