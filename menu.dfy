/**
 * The menu-navigation state machine: the handlers of
 * controllers/botController.js, and the same handlers in the two earlier
 * single-file versions of the bot, bot.js and Node/bot.js. The three share
 * one set of step functions with a `Revision` parameter where they differ.
 *
 * A handler sees the conversation's session and the world outside (the
 * stored files, whether the store answers, which message ids Telegram will
 * delete, the id the next reply gets) and produces the new session and an
 * ordered log of effects.
 */
module Menu {
  import opened Wrappers
  import opened Strings
  import FileModel
  import opened FileView
  import Sorting
  import UserStatsModel

  /**
   * `Refactored` is controllers/botController.js, `Monolith` is bot.js and
   * `Early` is Node/bot.js.
   */
  datatype Revision = Refactored | Monolith | Early

  // ---------------------------------------------------------------------
  // Session, world and effects

  /** `ctx.session`; an absent field is `None`. */
  datatype Session = Session(selectedYearSem: Option<string>, selectedBranch: Option<string>,
                             lastMessageId: Option<int>, uploading: bool)

  /** `{}`, the session a handler creates when there is none. */
  const EmptySession := Session(None, None, None, false)

  /** `if (!ctx.session) ctx.session = {}`. */
  function OrEmpty(s: Option<Session>): Session {
    if s.Some? then s.value else EmptySession
  }

  /** JavaScript truthiness of an optional string: present and non-empty. */
  predicate Truthy(s: Option<string>) {
    s.Some? && s.value != ""
  }

  /** JavaScript truthiness of an optional message id: present and non-zero. */
  predicate TruthyId(m: Option<int>) {
    m.Some? && m.value != 0
  }

  datatype Markup = Plain | Inline(keyboard: Keyboard)

  /**
   * One effect of a handler, in the order it happens: a reply, a reply
   * scheduled by `setTimeout`, a deletion attempt and whether it succeeded,
   * `answerCbQuery`, a `replyWith<kind>` of a stored file, and the two store
   * reads (`File.find` and `File.findById`).
   */
  datatype Event =
    | Reply(msg: Msg, markup: Markup)
    | Later(msg: Msg, markup: Markup)
    | Delete(messageId: int, deleted: bool)
    | Answer
    | Send(kind: string, fileId: string)
    | Query(query: FileModel.FileQuery)
    | Lookup(id: string)

  /**
   * What a handler depends on outside the session: the files collection, whether
   * the store answers (`storeUp`), the message ids Telegram deletes when asked,
   * and the `message_id` the bot's reply receives.
   */
  datatype World = World(files: seq<Doc>, storeUp: bool, deletable: set<int>, sentId: int)

  datatype Outcome = Outcome(session: Option<Session>, events: seq<Event>)

  // ---------------------------------------------------------------------
  // The store as the handlers query it

  /** `File.find(query)` applied to one document. */
  predicate DocMatches(d: Doc, q: FileModel.FileQuery) {
    d.yearSem == q.yearSem && d.branch == q.branch && (q.category.None? || d.fileCatgry == q.category.value)
  }

  /** `File.find(query)`: the matching documents, each as often as it is stored (see `FindDocsCounts`), in natural order (see `FindDocsAppend`). */
  function FindDocs(docs: seq<Doc>, q: FileModel.FileQuery): (r: seq<Doc>)
    ensures forall x :: x in r <==> x in docs && DocMatches(x, q)
    ensures |r| <= |docs|
  {
    if docs == [] then []
    else (if DocMatches(docs[0], q) then [docs[0]] else []) + FindDocs(docs[1..], q)
  }

  /** Each matching document is returned as often as it is stored, and no other document at all. */
  lemma {:induction false} FindDocsCounts(docs: seq<Doc>, q: FileModel.FileQuery)
    ensures forall x :: multiset(FindDocs(docs, q))[x] == if DocMatches(x, q) then multiset(docs)[x] else 0
  {
    if docs != [] {
      assert docs == [docs[0]] + docs[1..];
      FindDocsCounts(docs[1..], q);
    }
  }

  /** The matches of a concatenation are the matches of each part, in turn. */
  lemma {:induction false} FindDocsAppend(a: seq<Doc>, b: seq<Doc>, q: FileModel.FileQuery)
    ensures FindDocs(a + b, q) == FindDocs(a, q) + FindDocs(b, q)
  {
    if a == [] {
      assert a + b == b;
    } else {
      assert (a + b)[0] == a[0];
      assert (a + b)[1..] == a[1..] + b;
      FindDocsAppend(a[1..], b, q);
    }
  }

  /**
   * `File.findById(id)` over the handlers' string view of the collection.
   * The handlers search `Doc`s rather than `FileModel.FileRecord`s because
   * the upload handler stores a document built from raw strings; on a
   * collection of schema records the two searches agree
   * (`FindDocByIdOfRecords`).
   */
  function FindDocById(docs: seq<Doc>, id: string): (r: Option<Doc>)
    ensures r.Some? ==> r.value in docs && r.value.id == id
    ensures r.None? <==> forall x :: x in docs ==> x.id != id
  {
    if docs == [] then None
    else if docs[0].id == id then Some(docs[0])
    else FindDocById(docs[1..], id)
  }

  /** The records of models/File.js, seen as the handlers see them. */
  function DocsOf(files: seq<FileModel.FileRecord>): (r: seq<Doc>)
    ensures |r| == |files| && forall i :: 0 <= i < |files| ==> r[i] == DocOf(files[i])
  {
    if files == [] then [] else [DocOf(files[0])] + DocsOf(files[1..])
  }

  /** Querying the documents is querying the records: the handlers' `find` is `FileModel.Find`. */
  lemma {:induction false} FindDocsOfRecords(files: seq<FileModel.FileRecord>, q: FileModel.FileQuery)
    ensures FindDocs(DocsOf(files), q) == DocsOf(FileModel.Find(files, q))
  {
    if files != [] {
      var docs := DocsOf(files);
      FindDocsOfRecords(files[1..], q);
      assert docs[1..] == DocsOf(files[1..]);
      var rest := FileModel.Find(files[1..], q);
      if FileModel.Matches(files[0], q) {
        assert DocMatches(docs[0], q);
        assert FileModel.Find(files, q) == [files[0]] + rest;
        assert DocsOf([files[0]] + rest)[1..] == DocsOf(rest);
      } else {
        assert !DocMatches(docs[0], q);
        assert FileModel.Find(files, q) == rest;
      }
    }
  }

  /** Looking a document up by `_id` is looking the record up: the handlers' `findById` is `FileModel.FindById`. */
  lemma {:induction false} FindDocByIdOfRecords(files: seq<FileModel.FileRecord>, id: string)
    ensures FindDocById(DocsOf(files), id)
            == if FileModel.FindById(files, id).Some? then Some(DocOf(FileModel.FindById(files, id).value)) else None
  {
    if files != [] {
      var docs := DocsOf(files);
      assert docs[0] == DocOf(files[0]);
      assert docs[1..] == DocsOf(files[1..]);
      FindDocByIdOfRecords(files[1..], id);
    }
  }

  // ---------------------------------------------------------------------
  // Callback handlers

  /** `if (ctx.session?.lastMessageId) deleteMessage(...).catch(() => {})`: at most one attempt, failure swallowed. */
  function DeletePrevious(session: Option<Session>, w: World): (r: seq<Event>)
    ensures |r| <= 1
    ensures |r| == 1 <==> session.Some? && TruthyId(session.value.lastMessageId)
    ensures |r| == 1 ==> r[0].Delete? && r[0].messageId == session.value.lastMessageId.value
  {
    if session.Some? && TruthyId(session.value.lastMessageId) then
      var id := session.value.lastMessageId.value;
      [Delete(id, id in w.deletable)]
    else []
  }

  /**
   * `handleYearSelection`: the clicked message is deleted first (not in
   * `Early`); a failed deletion ends the handler with the generic error and
   * the session untouched. Otherwise the token is stored unvalidated, the
   * branch prompt is sent, its id is remembered (not in `Early`) and the
   * callback is answered.
   */
  function OnYearSelection(rev: Revision, session: Option<Session>, yearSem: string, clickedId: int, w: World): Outcome {
    var prompt := Reply(SelectBranch, Inline(BranchKeyboard(yearSem)));
    if rev == Early then
      Outcome(Some(OrEmpty(session).(selectedYearSem := Some(yearSem))), [prompt, Answer])
    else if clickedId !in w.deletable then
      Outcome(session, [Delete(clickedId, false), Reply(RequestError, Plain)])
    else
      Outcome(Some(OrEmpty(session).(selectedYearSem := Some(yearSem), lastMessageId := Some(w.sentId))),
              [Delete(clickedId, true), prompt, Answer])
  }

  /**
   * `handleBranchSelection`: the previous prompt is deleted when one is
   * remembered (not in `Early`), the token is stored, the category prompt is
   * sent and remembered (not in `Early`) and the callback is answered.
   */
  function OnBranchSelection(rev: Revision, session: Option<Session>, branch: string, w: World): Outcome {
    var deletion := if rev == Early then [] else DeletePrevious(session, w);
    var s := OrEmpty(session).(selectedBranch := Some(branch));
    Outcome(Some(if rev == Early then s else s.(lastMessageId := Some(w.sentId))),
            deletion + [Reply(SelectCategory, Inline(CategoryKeyboard())), Answer])
  }

  /** The category shown in the not-found reply. */
  function NotFoundCategory(fileCatgry: string): string {
    if fileCatgry == Wildcard then "any category" else fileCatgry
  }

  /** The category shown above the file list. */
  function ListedCategory(fileCatgry: string): string {
    if fileCatgry == Wildcard then "All Files" else fileCatgry
  }

  /**
   * `handleCategorySelection`: after the optional deletion and the session
   * initialisation, a session without a year or a branch gets the expiry
   * reply and nothing else. Otherwise the store is queried; zero results get
   * the not-found reply and (not in `Early`) one delayed year prompt, without
   * answering the callback; results get the file list, which is remembered
   * (not in `Early`), and the answer. A store failure gets the fetch error.
   */
  function OnCategorySelection(rev: Revision, session: Option<Session>, fileCatgry: string, w: World): Outcome {
    var deletion := if rev == Early then [] else DeletePrevious(session, w);
    var r := CategoryResult(rev, OrEmpty(session), fileCatgry, w);
    Outcome(r.session, deletion + r.events)
  }

  /** What `handleCategorySelection` does after the deletion, from the initialised session `s`. */
  function CategoryResult(rev: Revision, s: Session, fileCatgry: string, w: World): Outcome {
    if !Truthy(s.selectedYearSem) || !Truthy(s.selectedBranch) then
      Outcome(Some(s), [Reply(SessionExpired, Plain)])
    else
      var yearSem, branch := s.selectedYearSem.value, s.selectedBranch.value;
      var q := FileModel.QueryFor(yearSem, branch, fileCatgry);
      if !w.storeUp then
        Outcome(Some(s), [Query(q), Reply(FetchError, Plain)])
      else
        var found := FindDocs(w.files, q);
        var remembered := if found != [] && rev != Early then s.(lastMessageId := Some(w.sentId)) else s;
        Outcome(Some(remembered), [Query(q)] + ListingEvents(rev, yearSem, branch, fileCatgry, found))
  }

  /**
   * The replies to a query the store answered: "no files" (and, except in
   * the early bot, the year menu again later), or the list and the answer.
   */
  function ListingEvents(rev: Revision, yearSem: string, branch: string, fileCatgry: string, found: seq<Doc>): seq<Event> {
    if found == [] then
      [Reply(NoFilesFoundMessage(NotFoundCategory(fileCatgry), yearSem, branch), Plain)]
      + (if rev == Early then [] else [Later(SelectYear, Inline(YearKeyboard()))])
    else
      [Reply(FileListMessage(ListedCategory(fileCatgry), yearSem, branch), Inline(FileListKeyboard(found, fileCatgry))), Answer]
  }

  /**
   * `handleFileOptions` (the session is not used): the options of the file
   * with `_id` equal to the token, whose download button carries the token.
   */
  function OnFileOptions(id: string, w: World): seq<Event> {
    if !w.storeUp then [Lookup(id), Reply(RequestError, Plain)]
    else match FindDocById(w.files, id)
      case None => [Lookup(id), Reply(FileNotFound, Plain)]
      case Some(d) => [Lookup(id), Reply(FileOptions(d.fileName), Inline(FileOptionsKeyboard(id))), Answer]
  }

  /** The deletion attempts on `messageId`, `messageId - 1`, ..., `messageId - (n - 1)`, in that order. */
  function RecentDeletions(messageId: int, deletable: set<int>, n: nat): (r: seq<Event>)
    ensures |r| == n
    ensures forall i :: 0 <= i < n ==> r[i] == Delete(messageId - i, messageId - i in deletable)
  {
    if n == 0 then [] else RecentDeletions(messageId, deletable, n - 1) + [Delete(messageId - (n - 1), messageId - (n - 1) in deletable)]
  }

  /** How many messages back-to-menu tries to delete. */
  const BackToMenuDeletions := 5

  /** `handleBackToMenu`: five deletion attempts, each failure ignored, then the year prompt and the answer. */
  function OnBackToMenu(messageId: int, w: World): seq<Event> {
    RecentDeletions(messageId, w.deletable, BackToMenuDeletions) + [Reply(SelectYear, Inline(YearKeyboard())), Answer]
  }

  /** The `fileType` values the download handler can send. */
  predicate Sendable(kind: string) {
    kind == "document" || kind == "photo" || kind == "video" || kind == "audio"
  }

  /** The sendable types are exactly the codes of the schema's known kinds. */
  lemma SendableIsKnownKind(kind: string)
    ensures Sendable(kind) <==> exists k :: k != FileModel.Unknown && FileModel.KindCode(k) == kind
  {
    if Sendable(kind) {
      var k := if kind == "document" then FileModel.Document else if kind == "photo" then FileModel.Photo
               else if kind == "video" then FileModel.Video else FileModel.Audio;
      assert FileModel.KindCode(k) == kind;
    }
  }

  /**
   * `handleFileDownload`: the stored file is sent by its stored type, any
   * other type gets the unsupported reply, and the callback is answered; a
   * missing file gets not-found without an answer.
   */
  function OnFileDownload(id: string, w: World): seq<Event> {
    if !w.storeUp then [Lookup(id), Reply(FileRetrievalError, Plain)]
    else match FindDocById(w.files, id)
      case None => [Lookup(id), Reply(FileNotFound, Plain)]
      case Some(d) =>
        [Lookup(id), if Sendable(d.fileType) then Send(d.fileType, d.fileId) else Reply(UnsupportedFileType, Plain), Answer]
  }

  // ---------------------------------------------------------------------
  // Commands and messages

  /** `handleStart`; `Early` greets without the name. */
  function OnStart(rev: Revision, firstName: Option<string>): seq<Event> {
    [Reply(if rev == Early then Greeting else Welcome(firstName), Plain)]
  }

  /** `handleUpload`: the whole session is replaced by `{uploading: true}`. */
  function OnUploadCommand(): Outcome {
    Outcome(Some(Session(None, None, None, true)), [Reply(UploadPrompt, Plain)])
  }

  /** `handleGet`. */
  function OnGet(): seq<Event> {
    [Reply(SelectYear, Inline(YearKeyboard()))]
  }

  /** `BOT_OWNER` with one leading `'@'` removed, if it has one. */
  function OwnerHandle(owner: string): (h: string)
    ensures owner == h || owner == "@" + h
    ensures StartsWith(owner, "@") <==> owner == "@" + h
  {
    if StartsWith(owner, "@") then
      assert owner == "@" + owner[1..];
      owner[1..]
    else owner
  }

  /** `handleSubmit`: unavailable without a configured owner, otherwise a link to the owner. */
  function OnSubmit(owner: Option<string>, firstName: Option<string>): seq<Event> {
    if !Truthy(owner) then [Reply(SubmitUnavailable, Plain)]
    else [Reply(SubmitInfo(firstName), Inline(SubmitKeyboard(OwnerHandle(owner.value))))]
  }

  /** `user.firstName || user.username || 'Unknown'`. */
  function DisplayName(u: UserStatsModel.UserStats): (r: string)
    ensures r != ""
    ensures Truthy(u.firstName) ==> r == u.firstName.value
    ensures !Truthy(u.firstName) && Truthy(u.username) ==> r == u.username.value
    ensures !Truthy(u.firstName) && !Truthy(u.username) ==> r == "Unknown"
  {
    if Truthy(u.firstName) then u.firstName.value
    else if Truthy(u.username) then u.username.value
    else "Unknown"
  }

  function StatsLines(users: seq<UserStatsModel.UserStats>): (r: seq<StatsLine>)
    ensures |r| == |users|
    ensures forall i :: 0 <= i < |users| ==> r[i] == StatsLine(DisplayName(users[i]), users[i].interactions)
  {
    if users == [] then [] else [StatsLine(DisplayName(users[0]), users[0].interactions)] + StatsLines(users[1..])
  }

  /**
   * `handleStats`: every user record (active or not), most interactions
   * first, with the count and the interaction total of those records.
   */
  function OnStats(users: seq<UserStatsModel.UserStats>, storeUp: bool): seq<Event> {
    if !storeUp then [Reply(StatsError, Plain)]
    else
      var sorted := Sorting.SortDesc(users, UserStatsModel.Interactions);
      [Reply(StatsReport(|sorted|, Sorting.SumBy(sorted, UserStatsModel.Interactions), StatsLines(sorted)), Plain)]
  }

  /** JavaScript truthiness of a string. */
  predicate JsTruthy(s: string) {
    s != ""
  }

  /**
   * Node/bot.js's text handler as written: `A && B || '/start'` parses as
   * `(A && B) || '/start'`, and the literal is truthy.
   */
  function EarlyTextAsWritten(text: string): Option<Msg> {
    if (StartsWith(text, "/") && text != "/get") || JsTruthy("/start") then Some(InvalidCommand)
    else if !StartsWith(text, "/") then Some(CannotChat)
    else None
  }

  /** The handler the condition in Node/bot.js evidently means: `A && B && C`. */
  function EarlyTextIntended(text: string): Option<Msg> {
    if StartsWith(text, "/") && text != "/get" && text != "/start" then Some(InvalidCommand)
    else if !StartsWith(text, "/") then Some(CannotChat)
    else None
  }

  /**
   * The reply of the text handler, if it sends one. For `Early` this is the
   * intended allow-list; the handler as written is `EarlyTextAsWritten`.
   */
  function TextReply(rev: Revision, text: string): Option<Msg> {
    match rev
    case Refactored =>
      if !StartsWith(text, "/") then Some(InvalidText)
      else if text != "/get" && text != "/start" && text != "/submit" then Some(InvalidCommand)
      else None
    case Monolith =>
      if !StartsWith(text, "/") then Some(InvalidText)
      else if text != "/get" && text != "/start" then Some(InvalidCommand)
      else None
    case Early => EarlyTextIntended(text)
  }

  /** `handleTextMessage`. */
  function OnText(rev: Revision, text: string): seq<Event> {
    match TextReply(rev, text)
    case None => []
    case Some(m) => [Reply(m, Plain)]
  }
}
