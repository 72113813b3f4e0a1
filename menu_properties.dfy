/**
 * What the menu handlers promise: the session each step leaves, when the
 * store is queried and with which filter, what a failed deletion changes,
 * the replies of the text and command handlers, and a whole
 * year-branch-category walk.
 */
module MenuProperties {
  import opened Wrappers
  import opened Strings
  import FileModel
  import opened FileView
  import Sorting
  import UserStatsModel
  import opened Menu

  /** The log holds a store query. */
  predicate HasQuery(events: seq<Event>) {
    exists i :: 0 <= i < |events| && events[i].Query?
  }

  /** The log holds a deletion attempt. */
  predicate HasDelete(events: seq<Event>) {
    exists i :: 0 <= i < |events| && events[i].Delete?
  }

  /** Two logs that differ at most in whether their deletions succeeded. */
  predicate SameUpToDeletions(a: seq<Event>, b: seq<Event>) {
    && |a| == |b|
    && forall i :: 0 <= i < |a| ==>
         a[i] == b[i] || (a[i].Delete? && b[i].Delete? && a[i].messageId == b[i].messageId)
  }

  // ---------------------------------------------------------------------
  // Year selection

  /**
   * A successful deletion of the clicked menu stores the chosen year, keeps
   * the branch and the upload flag, remembers the new prompt and ends with the
   * answer.
   */
  lemma YearSelectionAdvances(rev: Revision, session: Option<Session>, yearSem: string, clickedId: int, w: World)
    requires rev == Early || clickedId in w.deletable
    ensures var o := OnYearSelection(rev, session, yearSem, clickedId, w);
            && o.session.Some?
            && o.session.value.selectedYearSem == Some(yearSem)
            && o.session.value.selectedBranch == OrEmpty(session).selectedBranch
            && o.session.value.uploading == OrEmpty(session).uploading
            && o.session.value.lastMessageId == (if rev == Early then OrEmpty(session).lastMessageId else Some(w.sentId))
            && Reply(SelectBranch, Inline(BranchKeyboard(yearSem))) in o.events
            && o.events[|o.events| - 1] == Answer
  {
  }

  /** A failed deletion of the clicked menu leaves the session as it was and does not answer the callback. */
  lemma FailedYearDeletionChangesNothing(rev: Revision, session: Option<Session>, yearSem: string, clickedId: int, w: World)
    requires rev != Early && clickedId !in w.deletable
    ensures var o := OnYearSelection(rev, session, yearSem, clickedId, w);
            && o.session == session
            && Answer !in o.events
            && Reply(RequestError, Plain) in o.events
            && !HasQuery(o.events)
  {
  }

  // ---------------------------------------------------------------------
  // Branch selection

  /** Branch selection stores the branch and keeps the year, whatever the session held. */
  lemma BranchSelectionKeepsYear(rev: Revision, session: Option<Session>, branch: string, w: World)
    ensures var o := OnBranchSelection(rev, session, branch, w);
            && o.session.Some?
            && o.session.value.selectedYearSem == OrEmpty(session).selectedYearSem
            && o.session.value.selectedBranch == Some(branch)
            && o.session.value.uploading == OrEmpty(session).uploading
            && o.session.value.lastMessageId == (if rev == Early then OrEmpty(session).lastMessageId else Some(w.sentId))
            && o.events[|o.events| - 2] == Reply(SelectCategory, Inline(CategoryKeyboard()))
            && o.events[|o.events| - 1] == Answer
  {
  }

  /** The previous prompt is deleted exactly when one is remembered (never in `Early`). */
  lemma BranchSelectionDeletesRemembered(rev: Revision, session: Option<Session>, branch: string, w: World)
    ensures var o := OnBranchSelection(rev, session, branch, w);
            HasDelete(o.events) <==> rev != Early && session.Some? && TruthyId(session.value.lastMessageId)
  {
    var o := OnBranchSelection(rev, session, branch, w);
    var deletion := if rev == Early then [] else DeletePrevious(session, w);
    assert o.events == deletion + [Reply(SelectCategory, Inline(CategoryKeyboard())), Answer];
    if HasDelete(o.events) {
      var i :| 0 <= i < |o.events| && o.events[i].Delete?;
      assert i < |deletion|;
    }
    if deletion != [] {
      assert o.events[0].Delete?;
    }
  }

  /** Whether the deletion succeeds changes nothing but that deletion's own outcome. */
  lemma BranchSelectionIgnoresDeletionFailure(rev: Revision, session: Option<Session>, branch: string, w: World, deletable: set<int>)
    ensures var a := OnBranchSelection(rev, session, branch, w);
            var b := OnBranchSelection(rev, session, branch, w.(deletable := deletable));
            a.session == b.session && SameUpToDeletions(a.events, b.events)
  {
  }

  // ---------------------------------------------------------------------
  // Category selection

  /**
   * The store is queried exactly when the session holds a (non-empty) year
   * and branch; otherwise the expiry reply is the last effect, the callback
   * is not answered and the session keeps its fields.
   */
  lemma CategoryQueriesIffSelected(rev: Revision, session: Option<Session>, fileCatgry: string, w: World)
    ensures var o := OnCategorySelection(rev, session, fileCatgry, w);
            var s := OrEmpty(session);
            && (HasQuery(o.events) <==> Truthy(s.selectedYearSem) && Truthy(s.selectedBranch))
            && (!HasQuery(o.events) ==>
                 o.session == Some(s) && o.events[|o.events| - 1] == Reply(SessionExpired, Plain) && Answer !in o.events)
  {
    var o := OnCategorySelection(rev, session, fileCatgry, w);
    var deletion := if rev == Early then [] else DeletePrevious(session, w);
    var s := OrEmpty(session);
    assert forall i :: 0 <= i < |deletion| ==> deletion[i].Delete?;
    if Truthy(s.selectedYearSem) && Truthy(s.selectedBranch) {
      assert o.events[|deletion|].Query?;
    } else {
      assert o.events == deletion + [Reply(SessionExpired, Plain)];
      assert forall i :: 0 <= i < |o.events| ==> !o.events[i].Query?;
    }
  }

  /** The query is the one `FileModel.QueryFor` builds from the session's year and branch and the chosen category. */
  lemma CategoryQueryIsQueryFor(rev: Revision, session: Option<Session>, fileCatgry: string, w: World)
    requires Truthy(OrEmpty(session).selectedYearSem) && Truthy(OrEmpty(session).selectedBranch)
    ensures var s := OrEmpty(session);
            var q := FileModel.QueryFor(s.selectedYearSem.value, s.selectedBranch.value, fileCatgry);
            && Query(q) in OnCategorySelection(rev, session, fileCatgry, w).events
            && (q.category.None? <==> fileCatgry == Wildcard)
  {
    var o := OnCategorySelection(rev, session, fileCatgry, w);
    var deletion := if rev == Early then [] else DeletePrevious(session, w);
    assert o.events[|deletion|].Query?;
  }

  /**
   * No matching file: the not-found reply (the wildcard shown as "any
   * category"), no answer, and the remembered prompt left as it was.
   */
  lemma EmptyResultFlow(rev: Revision, session: Option<Session>, fileCatgry: string, w: World)
    requires Truthy(OrEmpty(session).selectedYearSem) && Truthy(OrEmpty(session).selectedBranch) && w.storeUp
    requires var s := OrEmpty(session);
             FindDocs(w.files, FileModel.QueryFor(s.selectedYearSem.value, s.selectedBranch.value, fileCatgry)) == []
    ensures var s := OrEmpty(session);
            var o := OnCategorySelection(rev, session, fileCatgry, w);
            && o.session == Some(s)
            && Answer !in o.events
            && Reply(NoFilesFoundMessage(NotFoundCategory(fileCatgry), s.selectedYearSem.value, s.selectedBranch.value), Plain) in o.events
  {
    var s := OrEmpty(session);
    var yearSem, branch := s.selectedYearSem.value, s.selectedBranch.value;
    var deletion := if rev == Early then [] else DeletePrevious(session, w);
    var m := NoFilesFoundMessage(NotFoundCategory(fileCatgry), yearSem, branch);
    var tail := [Query(FileModel.QueryFor(yearSem, branch, fileCatgry)), Reply(m, Plain)]
                + (if rev == Early then [] else [Later(SelectYear, Inline(YearKeyboard()))]);
    EmptyCategoryResult(rev, s, fileCatgry, w);
    assert OnCategorySelection(rev, session, fileCatgry, w).events == deletion + tail;
    assert (deletion + tail)[|deletion| + 1] == Reply(m, Plain);
    assert forall i :: 0 <= i < |deletion + tail| ==> !(deletion + tail)[i].Answer?;
  }

  /** The category step after the deletion, when the store answers with no file. */
  lemma EmptyCategoryResult(rev: Revision, s: Session, fileCatgry: string, w: World)
    requires Truthy(s.selectedYearSem) && Truthy(s.selectedBranch) && w.storeUp
    requires FindDocs(w.files, FileModel.QueryFor(s.selectedYearSem.value, s.selectedBranch.value, fileCatgry)) == []
    ensures var yearSem, branch := s.selectedYearSem.value, s.selectedBranch.value;
            CategoryResult(rev, s, fileCatgry, w)
            == Outcome(Some(s), [Query(FileModel.QueryFor(yearSem, branch, fileCatgry)),
                                 Reply(NoFilesFoundMessage(NotFoundCategory(fileCatgry), yearSem, branch), Plain)]
                                + (if rev == Early then [] else [Later(SelectYear, Inline(YearKeyboard()))]))
  {
  }

  /** After an empty result the year menu is sent again, with a delay, except in `Early`. */
  lemma EmptyResultReprompts(rev: Revision, session: Option<Session>, fileCatgry: string, w: World)
    requires Truthy(OrEmpty(session).selectedYearSem) && Truthy(OrEmpty(session).selectedBranch) && w.storeUp
    requires var s := OrEmpty(session);
             FindDocs(w.files, FileModel.QueryFor(s.selectedYearSem.value, s.selectedBranch.value, fileCatgry)) == []
    ensures Later(SelectYear, Inline(YearKeyboard())) in OnCategorySelection(rev, session, fileCatgry, w).events <==> rev != Early
  {
    var o := OnCategorySelection(rev, session, fileCatgry, w);
    if rev == Early {
      assert forall i :: 0 <= i < |o.events| ==> !o.events[i].Later?;
    } else {
      var deletion := DeletePrevious(session, w);
      assert o.events[|deletion| + 2] == Later(SelectYear, Inline(YearKeyboard()));
    }
  }

  /**
   * Matching files: the list reply whose keyboard has one options button per
   * found file, in store order, the answer last, and (except in `Early`) the
   * list remembered as the prompt to delete next.
   */
  lemma FileListFlow(rev: Revision, session: Option<Session>, fileCatgry: string, w: World)
    requires Truthy(OrEmpty(session).selectedYearSem) && Truthy(OrEmpty(session).selectedBranch) && w.storeUp
    requires var s := OrEmpty(session);
             FindDocs(w.files, FileModel.QueryFor(s.selectedYearSem.value, s.selectedBranch.value, fileCatgry)) != []
    ensures var s := OrEmpty(session);
            var found := FindDocs(w.files, FileModel.QueryFor(s.selectedYearSem.value, s.selectedBranch.value, fileCatgry));
            var o := OnCategorySelection(rev, session, fileCatgry, w);
            && Reply(FileListMessage(ListedCategory(fileCatgry), s.selectedYearSem.value, s.selectedBranch.value),
                     Inline(FileListKeyboard(found, fileCatgry))) in o.events
            && o.events[|o.events| - 1] == Answer
            && o.session.Some?
            && o.session.value.lastMessageId == (if rev == Early then s.lastMessageId else Some(w.sentId))
            && o.session.value.selectedYearSem == s.selectedYearSem && o.session.value.selectedBranch == s.selectedBranch
  {
    var o := OnCategorySelection(rev, session, fileCatgry, w);
    var deletion := if rev == Early then [] else DeletePrevious(session, w);
    assert o.events[|deletion| + 1].Reply?;
  }

  /** Whether the deletion succeeds changes nothing but that deletion's own outcome. */
  lemma CategorySelectionIgnoresDeletionFailure(rev: Revision, session: Option<Session>, fileCatgry: string, w: World, deletable: set<int>)
    ensures var a := OnCategorySelection(rev, session, fileCatgry, w);
            var b := OnCategorySelection(rev, session, fileCatgry, w.(deletable := deletable));
            a.session == b.session && SameUpToDeletions(a.events, b.events)
  {
    var w2 := w.(deletable := deletable);
    var a := OnCategorySelection(rev, session, fileCatgry, w);
    var b := OnCategorySelection(rev, session, fileCatgry, w2);
    var da := if rev == Early then [] else DeletePrevious(session, w);
    var db := if rev == Early then [] else DeletePrevious(session, w2);
    assert SameUpToDeletions(da, db);
    var tail := a.events[|da|..];
    assert a.events == da + tail && b.events == db + tail;
  }

  /** `/upl` discards the selections, so a category chosen next finds the session expired. */
  lemma UploadCommandExpiresSelection(rev: Revision, fileCatgry: string, w: World)
    ensures var o := OnCategorySelection(rev, OnUploadCommand().session, fileCatgry, w);
            !HasQuery(o.events) && Reply(SessionExpired, Plain) in o.events
  {
    CategoryQueriesIffSelected(rev, OnUploadCommand().session, fileCatgry, w);
  }

  // ---------------------------------------------------------------------
  // The whole walk

  /**
   * Whatever the session held before, choosing a year, then a branch, then a
   * category queries the store with exactly those three choices (provided
   * the clicked year menu could be deleted, in the revisions that delete it).
   */
  lemma YearBranchCategoryQueries(rev: Revision, session: Option<Session>, yearSem: string, branch: string, fileCatgry: string,
                                  clickedId: int, w1: World, w2: World, w3: World)
    requires yearSem != "" && branch != ""
    requires rev == Early || clickedId in w1.deletable
    ensures var s1 := OnYearSelection(rev, session, yearSem, clickedId, w1).session;
            var s2 := OnBranchSelection(rev, s1, branch, w2).session;
            Query(FileModel.QueryFor(yearSem, branch, fileCatgry)) in OnCategorySelection(rev, s2, fileCatgry, w3).events
  {
    var s1 := OnYearSelection(rev, session, yearSem, clickedId, w1).session;
    YearSelectionAdvances(rev, session, yearSem, clickedId, w1);
    var s2 := OnBranchSelection(rev, s1, branch, w2).session;
    BranchSelectionKeepsYear(rev, s1, branch, w2);
    CategoryQueryIsQueryFor(rev, s2, fileCatgry, w3);
  }

  /** The revisions store the same selections; `Early` only skips the deletions and the remembered ids. */
  lemma EarlyAgreesOnSelections(session: Option<Session>, yearSem: string, branch: string, clickedId: int, w: World)
    requires clickedId in w.deletable
    ensures var a := OnYearSelection(Early, session, yearSem, clickedId, w).session.value;
            var b := OnYearSelection(Refactored, session, yearSem, clickedId, w).session.value;
            a.selectedYearSem == b.selectedYearSem && a.selectedBranch == b.selectedBranch
    ensures var a := OnBranchSelection(Early, session, branch, w);
            var b := OnBranchSelection(Refactored, session, branch, w);
            && a.session.value.selectedYearSem == b.session.value.selectedYearSem
            && a.session.value.selectedBranch == b.session.value.selectedBranch
            && !HasDelete(a.events)
  {
    BranchSelectionDeletesRemembered(Early, session, branch, w);
  }

  // ---------------------------------------------------------------------
  // File options, download, back to menu

  /** With unique `_id`s, looking up the `_id` of a stored file finds that file. */
  lemma {:induction false} FindDocByIdFinds(docs: seq<Doc>, d: Doc)
    requires d in docs
    requires forall i, j :: 0 <= i < j < |docs| ==> docs[i].id != docs[j].id
    ensures FindDocById(docs, d.id) == Some(d)
  {
    if docs[0] != d {
      assert docs[0].id != d.id by {
        var k :| 0 <= k < |docs| && docs[k] == d;
        assert k > 0;
      }
      assert d in docs[1..];
      FindDocByIdFinds(docs[1..], d);
    }
  }

  /**
   * Every button of a file list leads, through the options menu, to the
   * download of that very file: the options show its name and the download
   * sends its stored file by its stored type (with unique `_id`s).
   */
  lemma ListedFileOptionsAndDownload(files: seq<Doc>, q: FileModel.FileQuery, d: Doc, w: World)
    requires w.files == files && w.storeUp
    requires forall i, j :: 0 <= i < j < |files| ==> files[i].id != files[j].id
    requires d in FindDocs(files, q)
    ensures OnFileOptions(d.id, w) == [Lookup(d.id), Reply(FileOptions(d.fileName), Inline(FileOptionsKeyboard(d.id))), Answer]
    ensures Sendable(d.fileType) ==> OnFileDownload(d.id, w) == [Lookup(d.id), Send(d.fileType, d.fileId), Answer]
    ensures !Sendable(d.fileType) ==> OnFileDownload(d.id, w) == [Lookup(d.id), Reply(UnsupportedFileType, Plain), Answer]
  {
    FindDocByIdFinds(files, d);
  }

  /** An `_id` that is not stored gets not-found and no answer, from both the options and the download step. */
  lemma MissingFileIsNotFound(id: string, w: World)
    requires w.storeUp && forall x :: x in w.files ==> x.id != id
    ensures OnFileOptions(id, w) == [Lookup(id), Reply(FileNotFound, Plain)]
    ensures OnFileDownload(id, w) == [Lookup(id), Reply(FileNotFound, Plain)]
  {
  }

  /**
   * Back to menu tries to delete the message it was pressed on and the four
   * before it, whatever Telegram answers, then shows the year menu and
   * answers.
   */
  lemma BackToMenuDeletesFive(messageId: int, w: World, deletable: set<int>)
    ensures var e := OnBackToMenu(messageId, w);
            && |e| == 7
            && (forall i :: 0 <= i < 5 ==> e[i].Delete? && e[i].messageId == messageId - i)
            && e[5] == Reply(SelectYear, Inline(YearKeyboard())) && e[6] == Answer
    ensures SameUpToDeletions(OnBackToMenu(messageId, w), OnBackToMenu(messageId, w.(deletable := deletable)))
  {
  }

  // ---------------------------------------------------------------------
  // Commands and text

  /** `/submit` links to the configured owner with at most one leading `'@'` removed, or says it is unavailable. */
  lemma SubmitLinksToOwner(owner: Option<string>, firstName: Option<string>)
    ensures var e := OnSubmit(owner, firstName);
            && |e| == 1 && e[0].Reply?
            && (e[0].msg == SubmitUnavailable <==> !Truthy(owner))
            && (Truthy(owner) ==>
                 && e[0].msg == SubmitInfo(firstName) && e[0].markup.Inline?
                 && var url := e[0].markup.keyboard[0][0].url;
                    && url[..13] == "https://t.me/"
                    && (owner.value == url[13..] || owner.value == "@" + url[13..])
                    && (StartsWith(owner.value, "@") <==> owner.value == "@" + url[13..]))
  {
  }

  /**
   * `/stats` reports every stored user record, most interactions first: the
   * number of records, the sum of their interactions, and one line per
   * record in a permutation of the store sorted by interactions.
   */
  lemma StatsReportsAllUsers(users: seq<UserStatsModel.UserStats>)
    ensures var e := OnStats(users, true);
            && |e| == 1 && e[0].Reply? && e[0].msg.StatsReport?
            && e[0].msg.totalUsers == |users|
            && e[0].msg.totalInteractions == Sorting.SumBy(users, UserStatsModel.Interactions)
            && |e[0].msg.lines| == |users|
            && (forall i, j :: 0 <= i < j < |users| ==> e[0].msg.lines[i].interactions >= e[0].msg.lines[j].interactions)
            && exists ranked :: multiset(ranked) == multiset(users) && e[0].msg.lines == StatsLines(ranked)
  {
    var ranked := Sorting.SortDesc(users, UserStatsModel.Interactions);
    Sorting.SumBySort(users, UserStatsModel.Interactions, UserStatsModel.Interactions);
    var lines := StatsLines(ranked);
    forall i, j | 0 <= i < j < |users| ensures lines[i].interactions >= lines[j].interactions {
      assert UserStatsModel.Interactions(ranked[i]) >= UserStatsModel.Interactions(ranked[j]);
    }
  }

  /** The refactored text handler stays silent exactly for `/get`, `/start` and `/submit`. */
  lemma RefactoredTextAllowList(text: string)
    ensures TextReply(Refactored, text).None? <==> text == "/get" || text == "/start" || text == "/submit"
    ensures TextReply(Refactored, text) == Some(InvalidText) <==> !StartsWith(text, "/")
    ensures TextReply(Refactored, text).Some? ==> TextReply(Refactored, text).value in {InvalidText, InvalidCommand}
  {
  }

  /** bot.js's text handler stays silent exactly for `/get` and `/start`. */
  lemma MonolithTextAllowList(text: string)
    ensures TextReply(Monolith, text).None? <==> text == "/get" || text == "/start"
    ensures TextReply(Monolith, text) == Some(InvalidText) <==> !StartsWith(text, "/")
    ensures TextReply(Monolith, text).Some? ==> TextReply(Monolith, text).value in {InvalidText, InvalidCommand}
  {
  }

  /** Node/bot.js's text handler as written answers every text with the invalid-command reply. */
  lemma EarlyTextAlwaysInvalid(text: string)
    ensures EarlyTextAsWritten(text) == Some(InvalidCommand)
  {
  }

  /** The intended handler: silent for `/get` and `/start`, invalid command for other commands, can't chat otherwise. */
  lemma EarlyTextIntendedAllowList(text: string)
    ensures EarlyTextIntended(text).None? <==> text == "/get" || text == "/start"
    ensures EarlyTextIntended(text) == Some(CannotChat) <==> !StartsWith(text, "/")
    ensures EarlyTextIntended(text) == Some(InvalidCommand) <==> StartsWith(text, "/") && text != "/get" && text != "/start"
  {
  }

  /**
   * A plain `hello` shows the difference: the written handler calls it an
   * invalid command, where the intended one says the bot cannot chat.
   */
  lemma EarlyTextWitness()
    ensures EarlyTextAsWritten("hello") == Some(InvalidCommand)
    ensures EarlyTextIntended("hello") == Some(CannotChat)
  {
    var t := "hello";
    assert t[..1][0] == 'h' != "/"[0];
  }
}
