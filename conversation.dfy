/**
 * One chat with the refactored bot: an update goes through the table that
 * `setupRoutes` builds (routes/botRoutes.js) and reaches the controller
 * handler it names. `Chat` holds the state a conversation updates in
 * place (its session, the effects sent so far, the stored files) and has
 * one method per handler, each proved against the handler's step function.
 */
module Conversation {
  import opened Wrappers
  import Strings
  import opened FileView
  import FileModel
  import UserStatsModel
  import Routes
  import opened Menu
  import Uploads
  import MenuProperties

  /** The environment values the handlers read: `UPL_CMD`, `STATS_CMD`, `BOT_OWNER`. */
  datatype Config = Config(uplCmd: Option<string>, statsCmd: Option<string>, owner: Option<string>)

  /**
   * The parts of Telegraf's `ctx` the handlers read: the update, the id of
   * the message a callback was pressed on, and the sender's first name.
   */
  datatype Context = Context(update: Routes.Update, messageId: int, firstName: Option<string>)

  /** The captured token; every pattern route that fires has one. */
  function TokenOf(t: Option<string>): string {
    if t.Some? then t.value else ""
  }

  /** The text of a text update. */
  function TextOf(u: Routes.Update): string {
    if u.TextUpdate? then u.text else ""
  }

  /** The handler a routed update reaches, applied to the session and the world. */
  function RunHandler(cfg: Config, session: Option<Session>, ctx: Context, w: World,
                      users: seq<UserStatsModel.UserStats>, r: Routes.Routed): Outcome {
    match r.handler
    case StartCmd => Outcome(session, OnStart(Refactored, ctx.firstName))
    case UploadCmd => OnUploadCommand()
    case GetCmd => Outcome(session, OnGet())
    case StatsCmd => Outcome(session, OnStats(users, w.storeUp))
    case SubmitCmd => Outcome(session, OnSubmit(cfg.owner, ctx.firstName))
    case YearSelection => OnYearSelection(Refactored, session, TokenOf(r.token), ctx.messageId, w)
    case BranchSelection => OnBranchSelection(Refactored, session, TokenOf(r.token), w)
    case CategorySelection => OnCategorySelection(Refactored, session, TokenOf(r.token), w)
    case FileOptionsAction => Outcome(session, OnFileOptions(TokenOf(r.token), w))
    case BackToMenuAction => Outcome(session, OnBackToMenu(ctx.messageId, w))
    case FileDownload => Outcome(session, OnFileDownload(TokenOf(r.token), w))
    case TextMessage => Outcome(session, OnText(Refactored, TextOf(ctx.update)))
    case MediaMessage => Outcome(session, [Reply(UploadNotAllowed, Plain)])
  }

  /** One update: the first route that fires handles it; an update no route takes changes nothing. */
  function OnUpdate(cfg: Config, session: Option<Session>, ctx: Context, w: World,
                    users: seq<UserStatsModel.UserStats>): Outcome {
    match Routes.Dispatch(Routes.RouteTable(cfg.uplCmd, cfg.statsCmd), ctx.update)
    case None => Outcome(session, [])
    case Some(r) => RunHandler(cfg, session, ctx, w, users, r)
  }

  // ---------------------------------------------------------------------
  // Pressing the menus' own buttons

  /** What the callback and media handlers do, with the token they captured. */
  lemma RunsHandler(cfg: Config, session: Option<Session>, ctx: Context, w: World,
                    users: seq<UserStatsModel.UserStats>, r: Routes.Routed)
    requires r.token.Some? || r.handler in {Routes.BackToMenuAction, Routes.MediaMessage}
    ensures r.handler == Routes.YearSelection ==>
              RunHandler(cfg, session, ctx, w, users, r) == OnYearSelection(Refactored, session, r.token.value, ctx.messageId, w)
    ensures r.handler == Routes.BranchSelection ==>
              RunHandler(cfg, session, ctx, w, users, r) == OnBranchSelection(Refactored, session, r.token.value, w)
    ensures r.handler == Routes.CategorySelection ==>
              RunHandler(cfg, session, ctx, w, users, r) == OnCategorySelection(Refactored, session, r.token.value, w)
    ensures r.handler == Routes.FileDownload ==>
              RunHandler(cfg, session, ctx, w, users, r) == Outcome(session, OnFileDownload(r.token.value, w))
    ensures r.handler == Routes.BackToMenuAction ==>
              RunHandler(cfg, session, ctx, w, users, r) == Outcome(session, OnBackToMenu(ctx.messageId, w))
    ensures r.handler == Routes.MediaMessage ==>
              RunHandler(cfg, session, ctx, w, users, r) == Outcome(session, [Reply(UploadNotAllowed, Plain)])
  {
  }

  /** A callback carrying `<prefix><token>`, for a clean token, reaches the pattern's handler with that token. */
  lemma PrefixedCallback(cfg: Config, session: Option<Session>, p: Routes.Pattern, t: string, clickedId: int,
                         name: Option<string>, w: World, users: seq<UserStatsModel.UserStats>)
    requires Routes.Clean(t)
    ensures OnUpdate(cfg, session, Context(Routes.CallbackUpdate(Routes.PrefixOf(p) + t), clickedId, name), w, users)
            == RunHandler(cfg, session, Context(Routes.CallbackUpdate(Routes.PrefixOf(p) + t), clickedId, name), w, users,
                          Routes.Routed(Routes.HandlerOf(p), Some(t)))
  {
    Routes.DispatchPrefixed(cfg.uplCmd, cfg.statsCmd, p, t);
  }

  /** `listYearSem:<token>` runs the year step with the token and the pressed message. */
  lemma YearCallbackSelectsYear(cfg: Config, session: Option<Session>, t: string, clickedId: int,
                                name: Option<string>, w: World, users: seq<UserStatsModel.UserStats>)
    requires Routes.Clean(t)
    ensures OnUpdate(cfg, session, Context(Routes.CallbackUpdate(YearPrefix + t), clickedId, name), w, users)
            == OnYearSelection(Refactored, session, t, clickedId, w)
  {
    var ctx := Context(Routes.CallbackUpdate(YearPrefix + t), clickedId, name);
    PrefixedCallback(cfg, session, Routes.YearPattern, t, clickedId, name, w, users);
    RunsHandler(cfg, session, ctx, w, users, Routes.Routed(Routes.YearSelection, Some(t)));
  }

  /** `listBranch:<token>` runs the branch step with the token. */
  lemma BranchCallbackSelectsBranch(cfg: Config, session: Option<Session>, t: string, clickedId: int,
                                    name: Option<string>, w: World, users: seq<UserStatsModel.UserStats>)
    requires Routes.Clean(t)
    ensures OnUpdate(cfg, session, Context(Routes.CallbackUpdate(BranchPrefix + t), clickedId, name), w, users)
            == OnBranchSelection(Refactored, session, t, w)
  {
    var ctx := Context(Routes.CallbackUpdate(BranchPrefix + t), clickedId, name);
    PrefixedCallback(cfg, session, Routes.BranchPattern, t, clickedId, name, w, users);
    RunsHandler(cfg, session, ctx, w, users, Routes.Routed(Routes.BranchSelection, Some(t)));
  }

  /** `listCategory:<token>` runs the category step with the token. */
  lemma CategoryCallbackSelectsCategory(cfg: Config, session: Option<Session>, t: string, clickedId: int,
                                        name: Option<string>, w: World, users: seq<UserStatsModel.UserStats>)
    requires Routes.Clean(t)
    ensures OnUpdate(cfg, session, Context(Routes.CallbackUpdate(CategoryPrefix + t), clickedId, name), w, users)
            == OnCategorySelection(Refactored, session, t, w)
  {
    var ctx := Context(Routes.CallbackUpdate(CategoryPrefix + t), clickedId, name);
    PrefixedCallback(cfg, session, Routes.CategoryPattern, t, clickedId, name, w, users);
    RunsHandler(cfg, session, ctx, w, users, Routes.Routed(Routes.CategorySelection, Some(t)));
  }

  /** Pressing year button `i` (on a menu Telegram can delete) stores that year's code. */
  lemma YearButtonSelectsYear(cfg: Config, session: Option<Session>, i: int, clickedId: int, name: Option<string>,
                              w: World, users: seq<UserStatsModel.UserStats>)
    requires 0 <= i < |YearKeyboard()| && clickedId in w.deletable
    ensures var o := OnUpdate(cfg, session, Context(Routes.CallbackUpdate(YearKeyboard()[i][0].data), clickedId, name), w, users);
            o.session.Some? && o.session.value.selectedYearSem == Some(FileModel.YearCode(FileModel.Years[i]))
  {
    var y := FileModel.YearCode(FileModel.Years[i]);
    Routes.YearCodeClean(FileModel.Years[i]);
    YearCallbackSelectsYear(cfg, session, y, clickedId, name, w, users);
    MenuProperties.YearSelectionAdvances(Refactored, session, y, clickedId, w);
  }

  /** Pressing branch button `i` of the menu shown for `yearSem` stores that branch's code and keeps the year. */
  lemma BranchButtonSelectsBranch(cfg: Config, session: Option<Session>, yearSem: string, i: int, clickedId: int,
                                  name: Option<string>, w: World, users: seq<UserStatsModel.UserStats>)
    requires 0 <= i < |BranchKeyboard(yearSem)|
    ensures var o := OnUpdate(cfg, session, Context(Routes.CallbackUpdate(BranchKeyboard(yearSem)[i][0].data), clickedId, name), w, users);
            && o.session.Some?
            && o.session.value.selectedBranch == Some(FileModel.BranchCode(FileModel.Branches[i]))
            && o.session.value.selectedYearSem == OrEmpty(session).selectedYearSem
  {
    var b := FileModel.BranchCode(FileModel.Branches[i]);
    assert BranchKeyboard(yearSem)[i][0].data == BranchPrefix + b by {
      BranchKeyboardFollowsSchema(yearSem);
    }
    Routes.BranchCodeClean(FileModel.Branches[i]);
    BranchCallbackSelectsBranch(cfg, session, b, clickedId, name, w, users);
    MenuProperties.BranchSelectionKeepsYear(Refactored, session, b, w);
  }

  /** Pressing category button `i` with a year and branch chosen queries the store for that category token. */
  lemma CategoryButtonQueries(cfg: Config, session: Option<Session>, i: int, clickedId: int, name: Option<string>,
                              w: World, users: seq<UserStatsModel.UserStats>)
    requires 0 <= i < |CategoryKeyboard()|
    requires Truthy(OrEmpty(session).selectedYearSem) && Truthy(OrEmpty(session).selectedBranch)
    ensures var s := OrEmpty(session);
            var o := OnUpdate(cfg, session, Context(Routes.CallbackUpdate(CategoryKeyboard()[i][0].data), clickedId, name), w, users);
            Query(FileModel.QueryFor(s.selectedYearSem.value, s.selectedBranch.value, CategoryTokens[i])) in o.events
  {
    var c := CategoryTokens[i];
    Routes.CategoryTokensClean(i);
    CategoryCallbackSelectsCategory(cfg, session, c, clickedId, name, w, users);
    MenuProperties.CategoryQueryIsQueryFor(Refactored, session, c, w);
  }

  /** `file:<token>` runs the download of the token and leaves the session alone. */
  lemma DownloadCallbackDownloads(cfg: Config, session: Option<Session>, t: string, clickedId: int,
                                  name: Option<string>, w: World, users: seq<UserStatsModel.UserStats>)
    requires Routes.Clean(t)
    ensures OnUpdate(cfg, session, Context(Routes.CallbackUpdate(DownloadPrefix + t), clickedId, name), w, users)
            == Outcome(session, OnFileDownload(t, w))
  {
    var ctx := Context(Routes.CallbackUpdate(DownloadPrefix + t), clickedId, name);
    PrefixedCallback(cfg, session, Routes.DownloadPattern, t, clickedId, name, w, users);
    RunsHandler(cfg, session, ctx, w, users, Routes.Routed(Routes.FileDownload, Some(t)));
  }

  /** The download button of a file's options (with a clean `_id`) reaches that file's download and leaves the session alone. */
  lemma DownloadButtonDownloads(cfg: Config, session: Option<Session>, id: string, clickedId: int, name: Option<string>,
                                w: World, users: seq<UserStatsModel.UserStats>)
    requires Routes.Clean(id)
    ensures OnUpdate(cfg, session, Context(Routes.CallbackUpdate(FileOptionsKeyboard(id)[0][0].data), clickedId, name), w, users)
            == Outcome(session, OnFileDownload(id, w))
  {
    assert FileOptionsKeyboard(id)[0][0].data == DownloadPrefix + id;
    DownloadCallbackDownloads(cfg, session, id, clickedId, name, w, users);
  }

  /** The back button reaches back-to-menu, which deletes from the pressed message down. */
  lemma BackButtonReturnsToMenu(cfg: Config, session: Option<Session>, id: string, clickedId: int, name: Option<string>,
                                w: World, users: seq<UserStatsModel.UserStats>)
    ensures OnUpdate(cfg, session, Context(Routes.CallbackUpdate(FileOptionsKeyboard(id)[1][0].data), clickedId, name), w, users)
            == Outcome(session, OnBackToMenu(clickedId, w))
  {
    var ctx := Context(Routes.CallbackUpdate(FileOptionsKeyboard(id)[1][0].data), clickedId, name);
    Routes.BackButtonRoundTrip(cfg.uplCmd, cfg.statsCmd, id);
    RunsHandler(cfg, session, ctx, w, users, Routes.Routed(Routes.BackToMenuAction, None));
  }

  /** Every media message is refused and nothing is stored or selected. */
  lemma MediaIsRefused(cfg: Config, session: Option<Session>, clickedId: int, name: Option<string>,
                       w: World, users: seq<UserStatsModel.UserStats>)
    ensures OnUpdate(cfg, session, Context(Routes.MediaUpdate, clickedId, name), w, users)
            == Outcome(session, [Reply(UploadNotAllowed, Plain)])
  {
    Routes.MediaReachesMediaHandler(cfg.uplCmd, cfg.statsCmd);
    RunsHandler(cfg, session, Context(Routes.MediaUpdate, clickedId, name), w, users, Routes.Routed(Routes.MediaMessage, None));
  }

  /** `/start`, alone or followed by a space and more text, is answered with the welcome naming the sender; the session is kept. */
  lemma StartCommandWelcomes(cfg: Config, session: Option<Session>, rest: string, clickedId: int,
                             name: Option<string>, w: World, users: seq<UserStatsModel.UserStats>)
    requires rest == [] || !Routes.IsCommandChar(rest[0])
    ensures OnUpdate(cfg, session, Context(Routes.TextUpdate("/start" + rest), clickedId, name), w, users)
            == Outcome(session, [Reply(Welcome(name), Plain)])
  {
    Routes.StartTextStarts(cfg.uplCmd, cfg.statsCmd, rest);
  }

  /** A text that does not start with `/` gets the invalid-text reply; the session is kept. */
  lemma PlainTextIsRefused(cfg: Config, session: Option<Session>, text: string, clickedId: int,
                           name: Option<string>, w: World, users: seq<UserStatsModel.UserStats>)
    requires !Strings.StartsWith(text, "/")
    ensures OnUpdate(cfg, session, Context(Routes.TextUpdate(text), clickedId, name), w, users)
            == Outcome(session, [Reply(InvalidText, Plain)])
  {
    Routes.PlainTextReachesTextHandler(cfg.uplCmd, cfg.statsCmd, text);
  }

  // ---------------------------------------------------------------------
  // The chat as mutable state

  class Chat {
    /** `ctx.session`. */
    var session: Option<Session>
    /** Every effect so far, oldest first. */
    var outbox: seq<Event>
    /** The files collection: the upload handlers of bot.js and Node/bot.js write it, the listing, options and download steps read it. */
    var files: seq<Doc>

    constructor (stored: seq<Doc>)
      ensures session == None && outbox == [] && files == stored
    {
      session := None;
      outbox := [];
      files := stored;
    }

    /** Performs one effect. */
    method Emit(e: Event)
      modifies this
      ensures outbox == old(outbox) + [e]
      ensures session == old(session) && files == old(files)
    {
      outbox := outbox + [e];
    }

    method ChooseYear(rev: Revision, yearSem: string, clickedId: int, w: World)
      modifies this
      ensures session == OnYearSelection(rev, old(session), yearSem, clickedId, w).session
      ensures outbox == old(outbox) + OnYearSelection(rev, old(session), yearSem, clickedId, w).events
      ensures files == old(files)
    {
      if rev != Early {
        if clickedId !in w.deletable {
          Emit(Delete(clickedId, false));
          Emit(Reply(RequestError, Plain));
          return;
        }
        Emit(Delete(clickedId, true));
      }
      var s := OrEmpty(session);
      session := Some(s.(selectedYearSem := Some(yearSem)));
      Emit(Reply(SelectBranch, Inline(BranchKeyboard(yearSem))));
      if rev != Early {
        session := Some(session.value.(lastMessageId := Some(w.sentId)));
      }
      Emit(Answer);
    }

    /** Deletes the remembered prompt, if any; a failure is ignored. */
    method DeleteRemembered(w: World)
      modifies this
      ensures outbox == old(outbox) + DeletePrevious(old(session), w)
      ensures session == old(session) && files == old(files)
    {
      if session.Some? && TruthyId(session.value.lastMessageId) {
        var id := session.value.lastMessageId.value;
        Emit(Delete(id, id in w.deletable));
      }
    }

    method ChooseBranch(rev: Revision, branch: string, w: World)
      modifies this
      ensures session == OnBranchSelection(rev, old(session), branch, w).session
      ensures outbox == old(outbox) + OnBranchSelection(rev, old(session), branch, w).events
      ensures files == old(files)
    {
      if rev != Early {
        DeleteRemembered(w);
      }
      var s := OrEmpty(session);
      session := Some(s.(selectedBranch := Some(branch)));
      Emit(Reply(SelectCategory, Inline(CategoryKeyboard())));
      if rev != Early {
        session := Some(session.value.(lastMessageId := Some(w.sentId)));
      }
      Emit(Answer);
    }

    /** The category step, searching this chat's own files collection. */
    method ChooseCategory(rev: Revision, fileCatgry: string, w: World)
      modifies this
      ensures session == OnCategorySelection(rev, old(session), fileCatgry, w.(files := files)).session
      ensures outbox == old(outbox) + OnCategorySelection(rev, old(session), fileCatgry, w.(files := files)).events
      ensures files == old(files)
    {
      if rev != Early {
        DeleteRemembered(w);
      }
      ListCategory(rev, OrEmpty(session), fileCatgry, w);
    }

    /** The search and the reply of `handleCategorySelection`, from the initialised session `s`. */
    method ListCategory(rev: Revision, s: Session, fileCatgry: string, w: World)
      modifies this
      ensures session == CategoryResult(rev, s, fileCatgry, w.(files := files)).session
      ensures outbox == old(outbox) + CategoryResult(rev, s, fileCatgry, w.(files := files)).events
      ensures files == old(files)
    {
      session := Some(s);
      if !Truthy(s.selectedYearSem) || !Truthy(s.selectedBranch) {
        Emit(Reply(SessionExpired, Plain));
        return;
      }
      var yearSem, branch := s.selectedYearSem.value, s.selectedBranch.value;
      var q := FileModel.QueryFor(yearSem, branch, fileCatgry);
      Emit(Query(q));
      if !w.storeUp {
        Emit(Reply(FetchError, Plain));
        return;
      }
      ghost var found := FindDocs(files, q);
      assert CategoryResult(rev, s, fileCatgry, w.(files := files)).events
             == [Query(q)] + ListingEvents(rev, yearSem, branch, fileCatgry, found);
      ListFound(rev, s, yearSem, branch, fileCatgry, q, w);
    }

    /** The listing part of the category step, once the query has been sent to a store that answers. */
    method ListFound(rev: Revision, s: Session, yearSem: string, branch: string, fileCatgry: string,
                     q: FileModel.FileQuery, w: World)
      modifies this
      ensures var found := FindDocs(files, q);
              && session == (if found != [] && rev != Early then Some(s.(lastMessageId := Some(w.sentId))) else old(session))
              && outbox == old(outbox) + ListingEvents(rev, yearSem, branch, fileCatgry, found)
      ensures files == old(files)
    {
      var found := FindDocs(files, q);
      if found == [] {
        Emit(Reply(NoFilesFoundMessage(NotFoundCategory(fileCatgry), yearSem, branch), Plain));
        if rev != Early {
          Emit(Later(SelectYear, Inline(YearKeyboard())));
        }
        return;
      }
      Emit(Reply(FileListMessage(ListedCategory(fileCatgry), yearSem, branch), Inline(FileListKeyboard(found, fileCatgry))));
      if rev != Early {
        session := Some(s.(lastMessageId := Some(w.sentId)));
      }
      Emit(Answer);
    }

    method ShowFileOptions(id: string, w: World)
      modifies this
      ensures outbox == old(outbox) + OnFileOptions(id, w.(files := files))
      ensures session == old(session) && files == old(files)
    {
      Emit(Lookup(id));
      if !w.storeUp {
        Emit(Reply(RequestError, Plain));
        return;
      }
      var found := FindDocById(files, id);
      if found.None? {
        Emit(Reply(FileNotFound, Plain));
        return;
      }
      Emit(Reply(FileOptions(found.value.fileName), Inline(FileOptionsKeyboard(id))));
      Emit(Answer);
    }

    /** The loop of `handleBackToMenu`: deletes `messageId - i` for `i` from 0 to 4, ignoring failures. */
    method BackToMenu(messageId: int, w: World)
      modifies this
      ensures outbox == old(outbox) + OnBackToMenu(messageId, w)
      ensures session == old(session) && files == old(files)
    {
      for i := 0 to BackToMenuDeletions
        invariant outbox == old(outbox) + RecentDeletions(messageId, w.deletable, i)
        invariant session == old(session) && files == old(files)
      {
        Emit(Delete(messageId - i, messageId - i in w.deletable));
      }
      Emit(Reply(SelectYear, Inline(YearKeyboard())));
      Emit(Answer);
    }

    method Download(id: string, w: World)
      modifies this
      ensures outbox == old(outbox) + OnFileDownload(id, w.(files := files))
      ensures session == old(session) && files == old(files)
    {
      Emit(Lookup(id));
      if !w.storeUp {
        Emit(Reply(FileRetrievalError, Plain));
        return;
      }
      var found := FindDocById(files, id);
      if found.None? {
        Emit(Reply(FileNotFound, Plain));
        return;
      }
      var d := found.value;
      if Sendable(d.fileType) {
        Emit(Send(d.fileType, d.fileId));
      } else {
        Emit(Reply(UnsupportedFileType, Plain));
      }
      Emit(Answer);
    }

    /** `/upl`: the session is replaced by the upload flag. */
    method StartUpload()
      modifies this
      ensures session == OnUploadCommand().session
      ensures outbox == old(outbox) + OnUploadCommand().events
      ensures files == old(files)
    {
      session := Some(Session(None, None, None, true));
      Emit(Reply(UploadPrompt, Plain));
    }

    /** The media handler of `rev`; bot.js and Node/bot.js append the saved file to the collection. */
    method ReceiveMedia(rev: Revision, m: Uploads.MediaMessage, newId: string, storeUp: bool)
      modifies this
      ensures files == Uploads.OnMedia(rev, old(files), m, newId, storeUp).files
      ensures outbox == old(outbox) + [Reply(Uploads.OnMedia(rev, old(files), m, newId, storeUp).reply, Plain)]
      ensures session == old(session)
    {
      if rev == Refactored {
        Emit(Reply(UploadNotAllowed, Plain));
        return;
      }
      var picked := Uploads.Picked(m);
      if picked.None? {
        Emit(Reply(UploadFailed, Plain));
        return;
      }
      var d := Uploads.UploadedDoc(m, picked.value, newId);
      if storeUp && Uploads.Saveable(files, d) {
        files := files + [d];
        Emit(Reply(UploadSaved, Plain));
      } else {
        Emit(Reply(UploadFailed, Plain));
      }
    }

    /** Sends every effect of `events`, in order. */
    method EmitAll(events: seq<Event>)
      modifies this
      ensures outbox == old(outbox) + events
      ensures session == old(session) && files == old(files)
    {
      for i := 0 to |events|
        invariant outbox == old(outbox) + events[..i]
        invariant session == old(session) && files == old(files)
      {
        Emit(events[i]);
      }
    }

    /** One update to the refactored bot, through its route table. */
    method Receive(cfg: Config, ctx: Context, w: World, users: seq<UserStatsModel.UserStats>)
      modifies this
      ensures session == OnUpdate(cfg, old(session), ctx, w.(files := files), users).session
      ensures outbox == old(outbox) + OnUpdate(cfg, old(session), ctx, w.(files := files), users).events
      ensures files == old(files)
    {
      var world := w.(files := files);
      var routed := Routes.Dispatch(Routes.RouteTable(cfg.uplCmd, cfg.statsCmd), ctx.update);
      if routed.None? {
        return;
      }
      var r := routed.value;
      match r.handler {
        case StartCmd => EmitAll(OnStart(Refactored, ctx.firstName));
        case UploadCmd => StartUpload();
        case GetCmd => EmitAll(OnGet());
        case StatsCmd => EmitAll(OnStats(users, world.storeUp));
        case SubmitCmd => EmitAll(OnSubmit(cfg.owner, ctx.firstName));
        case YearSelection => ChooseYear(Refactored, TokenOf(r.token), ctx.messageId, world);
        case BranchSelection => ChooseBranch(Refactored, TokenOf(r.token), world);
        case CategorySelection => ChooseCategory(Refactored, TokenOf(r.token), world);
        case FileOptionsAction => ShowFileOptions(TokenOf(r.token), world);
        case BackToMenuAction => BackToMenu(ctx.messageId, world);
        case FileDownload => Download(TokenOf(r.token), world);
        case TextMessage => EmitAll(OnText(Refactored, TextOf(ctx.update)));
        case MediaMessage => ReceiveMedia(Refactored, Uploads.MediaMessage(None, None, None, None), "", false);
      }
    }
  }
}
